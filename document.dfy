/**
 * The Document Port: the part of the rich-text engine the extension modules
 * read and write. The document is a flat sequence of items, each a character
 * or an atomic (length-1) embed, each carrying its formatting attributes.
 * Offsets are 0-based. Out-of-range offsets are clamped to the document.
 */
module Document {
  import opened Wrappers
  import opened MentionTypes

  /** The `source` tag attached to every write. */
  datatype Source = User | Api | Silent

  /** A format value other than `false`. */
  datatype Fmt = FStr(s: string) | FTrue

  /** A format change: `Some(v)` sets the format, `None` is `false` and removes it. */
  type FmtChange = Option<Fmt>

  type Attrs = map<string, Fmt>

  datatype Embed = MentionEmbed(entity: Entity) | ImageEmbed(src: string) | DividerEmbed

  datatype Item = Char(c: char, attrs: Attrs) | Embed(embed: Embed, attrs: Attrs)

  /** A selection `{ index, length }`; length 0 is a caret. */
  datatype Range = Range(index: int, length: int)

  /** A write issued to the engine, in the order issued. */
  datatype Call =
    | InsertTextCall(index: int, text: string, attrs: Attrs, source: Source)
    | DeleteTextCall(index: int, length: int, source: Source)
    | InsertEmbedCall(index: int, embed: Embed, source: Source)
    | FormatTextCall(index: int, length: int, changes: map<string, FmtChange>, source: Source)
    | FormatCall(name: string, value: FmtChange, source: Source)
    | FormatLineCall(index: int, length: int, name: string, value: FmtChange, source: Source)
    | SetSelectionCall(index: int, length: int, source: Source)
    | UpdateCall(source: Source)
    | FocusCall

  /** What `Quill.find(node, true)` returns: nothing, the editor itself, or a blot at a document offset. */
  datatype BlotLookup = NoBlot | EditorBlot | BlotAt(index: int)

  function Clamp(i: int, n: nat): (r: nat)
    ensures r <= n
    ensures 0 <= i <= n ==> r == i
    ensures i < 0 ==> r == 0
    ensures i > n ==> r == n
  {
    if i < 0 then 0 else if i > n then n else i
  }

  /** True of an item that is the character `c`, whatever its formatting. */
  predicate IsChar(it: Item, c: char) {
    it.Char? && it.c == c
  }

  /** The items of a string inserted with the given attributes. */
  function TextItems(text: string, attrs: Attrs): (r: seq<Item>)
    ensures |r| == |text|
    ensures forall k :: 0 <= k < |r| ==> r[k] == Char(text[k], attrs)
  {
    seq(|text|, k requires 0 <= k < |text| => Char(text[k], attrs))
  }

  /** The characters of a run of items; embeds contribute nothing (`getText` omits non-string content). */
  function Chars(items: seq<Item>): (s: string)
    ensures |s| <= |items|
    ensures (forall k :: 0 <= k < |items| ==> items[k].Char?) ==>
              |s| == |items| && forall k :: 0 <= k < |s| ==> s[k] == items[k].c
    ensures (exists k :: 0 <= k < |items| && items[k].Embed?) ==> |s| < |items|
  {
    if items == [] then []
    else if items[0].Char? then [items[0].c] + Chars(items[1..])
    else Chars(items[1..])
  }

  lemma {:induction false} CharsAppend(a: seq<Item>, b: seq<Item>)
    ensures Chars(a + b) == Chars(a) + Chars(b)
  {
    if a == [] {
      assert a + b == b;
    } else {
      assert (a + b)[0] == a[0];
      assert (a + b)[1..] == a[1..] + b;
      CharsAppend(a[1..], b);
    }
  }

  /** An embed contributes nothing to the text around it. */
  lemma CharsSkipsEmbed(pre: seq<Item>, e: Item, post: seq<Item>)
    requires e.Embed?
    ensures Chars(pre + [e] + post) == Chars(pre + post)
  {
    assert Chars([e]) == [] by {
      assert [e][1..] == [];
    }
    CharsAppend(pre, [e]);
    CharsAppend(pre + [e], post);
    CharsAppend(pre, post);
  }

  /** Text inserted as characters reads back as the same text. */
  lemma TextItemsChars(text: string, attrs: Attrs)
    ensures Chars(TextItems(text, attrs)) == text
  {
  }

  /** `getText(index, length)`: never more characters than asked for, nor than the document holds. */
  function GetText(doc: seq<Item>, index: int, length: int): (s: string)
    ensures |s| <= |doc| && (length <= 0 ==> s == []) && (length > 0 ==> |s| <= length)
  {
    var lo := Clamp(index, |doc|);
    var hi := Clamp(index + length, |doc|);
    if hi <= lo then [] else Chars(doc[lo..hi])
  }

  /** `insertText` / `insertEmbed`: `xs` placed at `index`. */
  function InsertAt(doc: seq<Item>, index: int, xs: seq<Item>): (r: seq<Item>)
    ensures |r| == |doc| + |xs|
  {
    var k := Clamp(index, |doc|);
    doc[..k] + xs + doc[k..]
  }

  /** An insertion at an offset inside the document keeps everything before it, puts `xs` there and shifts the rest. */
  lemma InsertAtSpec(doc: seq<Item>, index: int, xs: seq<Item>)
    requires 0 <= index <= |doc|
    ensures var r := InsertAt(doc, index, xs);
      && |r| == |doc| + |xs|
      && r[..index] == doc[..index]
      && r[index..index + |xs|] == xs
      && r[index + |xs|..] == doc[index..]
  {
    var r := InsertAt(doc, index, xs);
    assert r == doc[..index] + xs + doc[index..];
    assert r[..index] == doc[..index];
    assert r[index..index + |xs|] == xs;
    assert r[index + |xs|..] == doc[index..];
  }

  /**
   * `deleteText(index, length)`: a range inside the document is cut out, the
   * items on either side closing up; an empty range deletes nothing.
   */
  function DeleteAt(doc: seq<Item>, index: int, length: int): (r: seq<Item>)
    ensures length <= 0 ==> r == doc
    ensures 0 <= index && 0 <= length && index + length <= |doc| ==>
      |r| == |doc| - length && r[..index] == doc[..index] && r[index..] == doc[index + length..]
  {
    var lo := Clamp(index, |doc|);
    var hi := Clamp(index + length, |doc|);
    if hi <= lo then doc else doc[..lo] + doc[hi..]
  }

  /** Attribute map after a format change: set values are written, `false` removes the key. */
  function ApplyChanges(attrs: Attrs, changes: map<string, FmtChange>): (r: Attrs)
    ensures forall k :: k in changes && changes[k].Some? ==> k in r && r[k] == changes[k].value
    ensures forall k :: k in changes && changes[k].None? ==> k !in r
    ensures forall k :: k !in changes ==> (k in r <==> k in attrs) && (k in r ==> r[k] == attrs[k])
  {
    map k | k in attrs.Keys + changes.Keys && (k in changes ==> changes[k].Some?) ::
      if k in changes then changes[k].value else attrs[k]
  }

  function WithAttrs(it: Item, attrs: Attrs): Item {
    match it
    case Char(c, _) => Char(c, attrs)
    case Embed(e, _) => Embed(e, attrs)
  }

  /** `formatText(index, length, changes)` */
  function FormatAt(doc: seq<Item>, index: int, length: int, changes: map<string, FmtChange>): (r: seq<Item>)
    ensures |r| == |doc|
  {
    var lo := Clamp(index, |doc|);
    var hi := Clamp(index + length, |doc|);
    seq(|doc|, k requires 0 <= k < |doc| =>
      if lo <= k < hi then WithAttrs(doc[k], ApplyChanges(doc[k].attrs, changes)) else doc[k])
  }

  /** Formatting changes attributes only: every item keeps its character or embed. */
  lemma FormatKeepsItems(doc: seq<Item>, index: int, length: int, changes: map<string, FmtChange>, k: int)
    requires 0 <= k < |doc|
    ensures var r := FormatAt(doc, index, length, changes);
      r[k].Char? == doc[k].Char? && (r[k].Char? ==> r[k].c == doc[k].c) && (r[k].Embed? ==> r[k].embed == doc[k].embed)
  {
  }

  /** Two runs of items that hold the same characters and embeds at the same offsets, whatever their formatting. */
  predicate SameShape(a: seq<Item>, b: seq<Item>) {
    && |a| == |b|
    && forall k :: 0 <= k < |a| ==> a[k].Char? == b[k].Char? && (a[k].Char? ==> a[k].c == b[k].c)
  }

  /** Runs of the same shape have the same text. */
  lemma {:induction false} CharsSameShape(a: seq<Item>, b: seq<Item>)
    requires SameShape(a, b)
    ensures Chars(a) == Chars(b)
  {
    if a != [] {
      assert SameShape(a[1..], b[1..]) by {
        forall k | 0 <= k < |a| - 1
          ensures a[1..][k].Char? == b[1..][k].Char? && (a[1..][k].Char? ==> a[1..][k].c == b[1..][k].c)
        {
          assert a[1..][k] == a[k + 1] && b[1..][k] == b[k + 1];
        }
      }
      CharsSameShape(a[1..], b[1..]);
    }
  }

  /** Formatting never changes the document's text. */
  lemma FormatKeepsText(doc: seq<Item>, index: int, length: int, changes: map<string, FmtChange>)
    ensures Chars(FormatAt(doc, index, length, changes)) == Chars(doc)
  {
    var r := FormatAt(doc, index, length, changes);
    forall k | 0 <= k < |doc|
      ensures r[k].Char? == doc[k].Char? && (r[k].Char? ==> r[k].c == doc[k].c)
    {
      FormatKeepsItems(doc, index, length, changes, k);
    }
    CharsSameShape(r, doc);
  }

  /** The engine instance: document, selection, the formats at the selection, and the writes issued to it. */
  class Editor {
    var content: seq<Item>
    var selection: Option<Range>
    var formats: Attrs
    var focused: bool
    var log: seq<Call>

    constructor (content: seq<Item>, selection: Option<Range>, formats: Attrs)
      ensures this.content == content && this.selection == selection && this.formats == formats
      ensures !focused && log == []
    {
      this.content := content;
      this.selection := selection;
      this.formats := formats;
      focused := false;
      log := [];
    }

    /** `getLength()` */
    function GetLength(): nat
      reads this
    {
      |content|
    }

    method InsertText(index: int, text: string, attrs: Attrs, source: Source)
      modifies this
      ensures content == InsertAt(old(content), index, TextItems(text, attrs))
      ensures selection == old(selection) && formats == old(formats) && focused == old(focused)
      ensures log == old(log) + [InsertTextCall(index, text, attrs, source)]
    {
      content := InsertAt(content, index, TextItems(text, attrs));
      log := log + [InsertTextCall(index, text, attrs, source)];
    }

    method DeleteText(index: int, length: int, source: Source)
      modifies this
      ensures content == DeleteAt(old(content), index, length)
      ensures selection == old(selection) && formats == old(formats) && focused == old(focused)
      ensures log == old(log) + [DeleteTextCall(index, length, source)]
    {
      content := DeleteAt(content, index, length);
      log := log + [DeleteTextCall(index, length, source)];
    }

    method InsertEmbed(index: int, embed: Embed, source: Source)
      modifies this
      ensures content == InsertAt(old(content), index, [Embed(embed, map[])])
      ensures selection == old(selection) && formats == old(formats) && focused == old(focused)
      ensures log == old(log) + [InsertEmbedCall(index, embed, source)]
    {
      content := InsertAt(content, index, [Embed(embed, map[])]);
      log := log + [InsertEmbedCall(index, embed, source)];
    }

    method FormatText(index: int, length: int, changes: map<string, FmtChange>, source: Source)
      modifies this
      ensures content == FormatAt(old(content), index, length, changes)
      ensures selection == old(selection) && formats == old(formats) && focused == old(focused)
      ensures log == old(log) + [FormatTextCall(index, length, changes, source)]
    {
      content := FormatAt(content, index, length, changes);
      log := log + [FormatTextCall(index, length, changes, source)];
    }

    /** `format(name, value)` at the selection: the formats reported there change. */
    method Format(name: string, value: FmtChange, source: Source)
      modifies this
      ensures formats == ApplyChanges(old(formats), map[name := value])
      ensures content == old(content) && selection == old(selection) && focused == old(focused)
      ensures log == old(log) + [FormatCall(name, value, source)]
    {
      formats := ApplyChanges(formats, map[name := value]);
      log := log + [FormatCall(name, value, source)];
    }

    /**
     * `format(name, value)` for an inline format such as `link`: a non-empty
     * selection has its items formatted; at a caret, or with no selection, the
     * document is left alone. Either way the formats reported at the selection
     * take the change.
     */
    method FormatInline(name: string, value: FmtChange, source: Source)
      modifies this
      ensures formats == ApplyChanges(old(formats), map[name := value])
      ensures old(selection).Some? && old(selection).value.length > 0 ==>
        content == FormatAt(old(content), old(selection).value.index, old(selection).value.length, map[name := value])
      ensures !(old(selection).Some? && old(selection).value.length > 0) ==> content == old(content)
      ensures selection == old(selection) && focused == old(focused)
      ensures log == old(log) + [FormatCall(name, value, source)]
    {
      if selection.Some? && selection.value.length > 0 {
        content := FormatAt(content, selection.value.index, selection.value.length, map[name := value]);
      }
      formats := ApplyChanges(formats, map[name := value]);
      log := log + [FormatCall(name, value, source)];
    }

    method FormatLine(index: int, length: int, name: string, value: FmtChange, source: Source)
      modifies this
      ensures content == old(content) && selection == old(selection) && formats == old(formats)
      ensures focused == old(focused)
      ensures log == old(log) + [FormatLineCall(index, length, name, value, source)]
    {
      log := log + [FormatLineCall(index, length, name, value, source)];
    }

    method SetSelection(index: int, length: int, source: Source)
      modifies this
      ensures selection == Some(Range(index, length))
      ensures content == old(content) && formats == old(formats) && focused == old(focused)
      ensures log == old(log) + [SetSelectionCall(index, length, source)]
    {
      selection := Some(Range(index, length));
      log := log + [SetSelectionCall(index, length, source)];
    }

    /** `update(source)`: flush DOM changes made behind the engine's back. */
    method Update(source: Source)
      modifies this
      ensures content == old(content) && selection == old(selection) && formats == old(formats)
      ensures focused == old(focused)
      ensures log == old(log) + [UpdateCall(source)]
    {
      log := log + [UpdateCall(source)];
    }

    method Focus()
      modifies this
      ensures focused
      ensures content == old(content) && selection == old(selection) && formats == old(formats)
      ensures log == old(log) + [FocusCall]
    {
      focused := true;
      log := log + [FocusCall];
    }
  }
}
