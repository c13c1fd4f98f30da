/**
 * The character counter module: a label under the editor showing how many
 * non-whitespace characters the document holds, against an optional limit,
 * with an "exceed" class while the count is over the limit.
 */
module CharCounter {
  import opened Wrappers
  import opened Text
  import opened Document

  const COUNTER_CLASS := "ql-char-counter"
  const EXCEED_CLASS := "ql-char-counter-exceed"

  /** The number of characters that count: the document text with every whitespace character removed. */
  function Count(text: string): (n: nat)
    ensures n <= |text|
  {
    |StripWhitespace(text)|
  }

  /** Every non-whitespace character counts, once for each time it occurs, and nothing else does. */
  lemma CountIsNonWhitespace(text: string, c: char)
    ensures !IsWhitespace(c) ==> multiset(StripWhitespace(text))[c] == multiset(text)[c]
    ensures IsWhitespace(c) ==> multiset(StripWhitespace(text))[c] == 0
  {
    if !IsWhitespace(c) {
      StripWhitespaceKeeps(text, c);
    } else {
      assert c !in StripWhitespace(text);
    }
  }

  /** Counting is additive over concatenated text. */
  lemma CountAppend(s: string, t: string)
    ensures Count(s + t) == Count(s) + Count(t)
  {
    StripWhitespaceAppend(s, t);
  }

  /** The example of the module's documentation: runs of spaces and the final newline do not count. */
  lemma CountExample()
    ensures Count("A  B C\n") == 3
  {
    assert StripWhitespace("A  B C\n") == "ABC" by {
      assert "A  B C\n"[1..] == "  B C\n";
      assert "  B C\n"[1..] == " B C\n";
      assert " B C\n"[1..] == "B C\n";
      assert "B C\n"[1..] == " C\n";
      assert " C\n"[1..] == "C\n";
      assert "C\n"[1..] == "\n";
      assert "\n"[1..] == "";
    }
  }

  /** The label: `n / limit chars` with a limit, `n chars` without. */
  function Label(n: nat, limit: Option<int>): string {
    NatToString(n) + LimitSuffix(limit)
  }

  /** What follows the count in the label. */
  function LimitSuffix(limit: Option<int>): (r: string)
    ensures |r| > 1 && r[0] == ' '
  {
    match limit
    case Some(l) => " / " + IntToString(l) + " chars"
    case None => " chars"
  }

  /** The exceed class is present exactly when there is a limit and the count is over it. */
  predicate Exceeds(n: nat, limit: Option<int>) {
    limit.Some? && n > limit.value
  }

  lemma LimitSuffixInjective(l1: Option<int>, l2: Option<int>)
    requires LimitSuffix(l1) == LimitSuffix(l2)
    ensures l1 == l2
  {
    var x1, x2 := LimitSuffix(l1), LimitSuffix(l2);
    if l1.Some? && l2.Some? {
      var i1, i2 := IntToString(l1.value), IntToString(l2.value);
      assert i1 == x1[3..|x1| - 6] && i2 == x2[3..|x2| - 6];
      IntToStringInjective(l1.value, l2.value);
    } else {
      assert x1[1] == (if l1.Some? then '/' else 'c');
      assert x2[1] == (if l2.Some? then '/' else 'c');
    }
  }

  /** The label is unambiguous: it determines both the count and the limit. */
  lemma LabelDeterminesCount(n1: nat, l1: Option<int>, n2: nat, l2: Option<int>)
    requires Label(n1, l1) == Label(n2, l2)
    ensures n1 == n2 && l1 == l2
  {
    NumeralPrefix(NatToString(n1), LimitSuffix(l1), NatToString(n2), LimitSuffix(l2));
    NatToStringInjective(n1, n2);
    LimitSuffixInjective(l1, l2);
  }

  /** The element showing the count: its text, its classes, and whether it is in the page. */
  class Container {
    var textContent: string
    var classes: set<string>
    var connected: bool

    constructor (classes: set<string>, connected: bool)
      ensures textContent == "" && this.classes == classes && this.connected == connected
    {
      textContent := "";
      this.classes := classes;
      this.connected := connected;
    }
  }

  class CharCounterModule {
    const quill: Editor
    const container: Container
    const limit: Option<int>
    /** The text-change handler is registered. */
    var listening: bool

    /** The label and exceed class agree with the document. */
    ghost predicate Shows(doc: seq<Item>)
      reads container
    {
      && container.textContent == Label(Count(Chars(doc)), limit)
      && (EXCEED_CLASS in container.classes <==> Exceeds(Count(Chars(doc)), limit))
    }

    /**
     * Uses the given container or creates one in the editor's container, marks it
     * with the counter class, shows the count once and starts listening.
     */
    constructor (quill: Editor, limit: Option<int>, given: Option<Container>)
      modifies if given.Some? then {given.value} else {}
      ensures this.quill == quill && this.limit == limit && listening
      ensures given.Some? ==> container == given.value && container.connected == old(given.value.connected)
      ensures given.None? ==> fresh(container) && container.connected
      ensures COUNTER_CLASS in container.classes
      ensures Shows(quill.content)
      ensures container.classes - {EXCEED_CLASS} ==
        (if given.Some? then old(given.value.classes) else {}) + {COUNTER_CLASS} - {EXCEED_CLASS}
    {
      this.quill := quill;
      this.limit := limit;
      var c: Container;
      if given.Some? {
        c := given.value;
      } else {
        c := new Container({COUNTER_CLASS}, true);
      }
      c.classes := c.classes + {COUNTER_CLASS};
      this.container := c;
      new;
      assert |COUNTER_CLASS| != |EXCEED_CLASS|;
      Update();
      assert COUNTER_CLASS in container.classes - {EXCEED_CLASS};
      listening := true;
    }

    /** `update`: show the current count, with the limit when there is one, and set or clear the exceed class. */
    method Update()
      modifies container
      ensures Shows(quill.content)
      ensures container.classes - {EXCEED_CLASS} == old(container.classes) - {EXCEED_CLASS}
      ensures container.connected == old(container.connected)
    {
      var n := Count(Chars(quill.content));
      if limit.Some? {
        container.textContent := NatToString(n) + " / " + IntToString(limit.value) + " chars";
        assert container.textContent == Label(n, limit);
        if n > limit.value {
          container.classes := container.classes + {EXCEED_CLASS};
        } else {
          container.classes := container.classes - {EXCEED_CLASS};
        }
        return;
      }
      container.textContent := NatToString(n) + " chars";
      container.classes := container.classes - {EXCEED_CLASS};
    }

    /** A text change while the handler is registered shows the new count. */
    method HandleTextChange()
      modifies container
      ensures listening ==> Shows(quill.content)
      ensures !listening ==> unchanged(container)
      ensures container.classes - {EXCEED_CLASS} == old(container.classes) - {EXCEED_CLASS}
    {
      if listening {
        Update();
      }
    }

    /** `destroy`: unregister the handler and take the container out of the page, whoever created it. */
    method Destroy()
      modifies this, container
      ensures !listening && !container.connected
      ensures container.textContent == old(container.textContent) && container.classes == old(container.classes)
    {
      listening := false;
      container.connected := false;
    }
  }

  /** "Hello world" has ten counted letters: against a limit of nine the label reads `10 / 9 chars` and the exceed class is set. */
  method LimitExample()
  {
    var doc := TextItems("Hello world\n", map[]);
    TextItemsChars("Hello world\n", map[]);
    var quill := new Editor(doc, None, map[]);
    var span := new Container({}, true);
    var counter := new CharCounterModule(quill, Some(9), Some(span));
    HelloWorldCount();
    assert Chars(quill.content) == "Hello world\n";
    assert Count(Chars(quill.content)) == 10;
    assert span.textContent == Label(10, Some(9));
    assert EXCEED_CLASS in span.classes;
  }

  lemma HelloWorldCount()
    ensures Count("Hello world\n") == 10
  {
    StripHello();
    StripWorld();
    assert "Hello world\n" == "Hello" + " world\n";
    StripWhitespaceAppend("Hello", " world\n");
  }

  lemma StripHello()
    ensures StripWhitespace("Hello") == "Hello"
  {
    assert "Hello"[1..] == "ello";
    assert "ello"[1..] == "llo";
    assert "llo"[1..] == "lo";
    assert "lo"[1..] == "o";
    assert "o"[1..] == "";
  }

  lemma StripWorld()
    ensures StripWhitespace(" world\n") == "world"
  {
    assert " world\n"[1..] == "world\n";
    assert "world\n"[1..] == "orld\n";
    assert "orld\n"[1..] == "rld\n";
    assert "rld\n"[1..] == "ld\n";
    assert "ld\n"[1..] == "d\n";
    assert "d\n"[1..] == "\n";
    assert "\n"[1..] == "";
  }
}
