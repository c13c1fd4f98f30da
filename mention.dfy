/**
 * The mention suggestion engine: detects an "@" token before the caret,
 * asks the suggestion source for matches, keeps a highlighted entry, and
 * commits a chosen entry into the document as one atomic replacement.
 */
module Mention {
  import opened Wrappers
  import opened Text
  import opened MentionTypes
  import opened Document

  const DEFAULT_MIN_CHARS: int := 0
  const DEFAULT_MAX_CHARS: int := 32
  const DEFAULT_MAX_ITEMS: int := 8

  /** Left padding of the suggestion list and the width assumed before it has been laid out. */
  const LIST_PADDING: real := 8.0
  const DEFAULT_LIST_WIDTH: real := 240.0
  const LIST_OFFSET_TOP: real := 6.0

  const DEFAULT_MENTIONS: seq<Entity> := [
    Entity("u1", "Alice Johnson", Some("@alice_johnson"), Some("data:image/svg+xml;utf8,<svg xmlns='http://www.w3.org/2000/svg' width='24' height='24'><circle cx='12' cy='12' r='12' fill='%2338bdf8'/></svg>"), None),
    Entity("u2", "Ben Carter", Some("@ben_carter"), Some("data:image/svg+xml;utf8,<svg xmlns='http://www.w3.org/2000/svg' width='24' height='24'><circle cx='12' cy='12' r='12' fill='%23f472b6'/></svg>"), None),
    Entity("u3", "Chen Li", Some("@chen_li"), Some("data:image/svg+xml;utf8,<svg xmlns='http://www.w3.org/2000/svg' width='24' height='24'><circle cx='12' cy='12' r='12' fill='%234ade80'/></svg>"), None),
    Entity("u4", "Daria Novak", Some("@daria_novak"), Some("data:image/svg+xml;utf8,<svg xmlns='http://www.w3.org/2000/svg' width='24' height='24'><circle cx='12' cy='12' r='12' fill='%23f59e0b'/></svg>"), None),
    Entity("u5", "Elliot Park", Some("@elliot_park"), Some("data:image/svg+xml;utf8,<svg xmlns='http://www.w3.org/2000/svg' width='24' height='24'><circle cx='12' cy='12' r='12' fill='%236366f1'/></svg>"), None),
    Entity("u6", "Fatima Ali", Some("@fatima_ali"), Some("data:image/svg+xml;utf8,<svg xmlns='http://www.w3.org/2000/svg' width='24' height='24'><circle cx='12' cy='12' r='12' fill='%23f97316'/></svg>"), None)
  ]

  // ---------------------------------------------------------------------
  // The default suggestion source
  // ---------------------------------------------------------------------

  /** `a` occurs in `b` in the same order (not necessarily contiguously). */
  predicate IsSubsequence<T(==)>(a: seq<T>, b: seq<T>)
    decreases |b|
  {
    && |a| <= |b|
    && (a == [] || (a[0] == b[0] && IsSubsequence(a[1..], b[1..])) || IsSubsequence(a, b[1..]))
  }

  /** `s.filter(p)` */
  function Filter<T(!new)>(s: seq<T>, p: T -> bool): (r: seq<T>)
    ensures |r| <= |s|
    ensures forall x :: x in r <==> x in s && p(x)
  {
    if s == [] then [] else (if p(s[0]) then [s[0]] else []) + Filter(s[1..], p)
  }

  lemma {:induction false} FilterKeepsOrder<T(!new)>(s: seq<T>, p: T -> bool)
    ensures IsSubsequence(Filter(s, p), s)
  {
    if s != [] {
      FilterKeepsOrder(s[1..], p);
      if p(s[0]) {
        assert Filter(s, p) == [s[0]] + Filter(s[1..], p);
        assert (Filter(s, p))[1..] == Filter(s[1..], p);
      } else {
        assert Filter(s, p) == Filter(s[1..], p);
      }
    }
  }

  /** The matching rule of the default source: the lower-cased label or value contains the query. */
  predicate MatchesQuery(e: Entity, normalized: string, lower: string -> string) {
    Includes(lower(e.labelText), normalized)
    || Includes(match e.value case Some(v) => lower(v) case None => "", normalized)
  }

  /**
   * The default source: every default mention for a blank query; otherwise,
   * in their original order, those whose lower-cased label or value contains
   * the trimmed, lower-cased query. `lower` stands for `toLowerCase`.
   */
  function DefaultSource(query: string, lower: string -> string): (r: seq<Entity>)
    ensures lower(Trim(query)) == "" ==> r == DEFAULT_MENTIONS
    ensures lower(Trim(query)) != "" ==>
      IsSubsequence(r, DEFAULT_MENTIONS)
      && forall e :: e in r <==> e in DEFAULT_MENTIONS && MatchesQuery(e, lower(Trim(query)), lower)
  {
    var normalized := lower(Trim(query));
    if normalized == "" then DEFAULT_MENTIONS
    else
      var r := Filter(DEFAULT_MENTIONS, e => MatchesQuery(e, normalized, lower));
      FilterKeepsOrder(DEFAULT_MENTIONS, e => MatchesQuery(e, normalized, lower));
      r
  }

  // ---------------------------------------------------------------------
  // Trigger detection
  // ---------------------------------------------------------------------

  datatype Detection = Closed | Opened(startIndex: int, query: string)

  /** The offset of the nearest '@' character in `doc[lo..hi]`, or -1. */
  function LastTrigger(doc: seq<Item>, lo: nat, hi: nat): (r: int)
    requires lo <= hi <= |doc|
    ensures r == -1 || (lo <= r < hi && IsChar(doc[r], '@'))
    ensures forall k :: lo <= k < hi && r < k ==> !IsChar(doc[k], '@')
    decreases hi - lo
  {
    if hi == lo then -1
    else if IsChar(doc[hi - 1], '@') then hi - 1
    else LastTrigger(doc, lo, hi - 1)
  }

  /** The first offset of the backward search window: `max(0, caret - (maxChars + 1))`. */
  function WindowStart(caret: int, maxChars: int): (r: int)
    ensures r >= 0
    ensures 0 <= caret && maxChars >= -1 ==> r <= caret && caret - r <= maxChars + 1
    ensures caret - (maxChars + 1) >= 0 ==> caret - r == maxChars + 1
  {
    Max(0, caret - (maxChars + 1))
  }

  /** The trigger is at the start of the document or right after a whitespace character. */
  predicate SpaceBefore(doc: seq<Item>, s: int)
    requires 0 <= s <= |doc|
  {
    s == 0 || (doc[s - 1].Char? && IsWhitespace(doc[s - 1].c))
  }

  /** A query that keeps a session open: no whitespace and a length within bounds. */
  predicate QueryFits(q: string, minChars: int, maxChars: int) {
    !HasWhitespace(q) && minChars <= |q| <= maxChars
  }

  /**
   * The trigger offset after the two fall-backs of `updateQuery`: when the
   * search found nothing, an '@' just before the caret, else one at the caret.
   */
  function WithFallbacks(doc: seq<Item>, caret: int, trigger: int): int {
    if trigger != -1 then trigger
    else if caret > 0 && GetText(doc, caret - 1, 1) == "@" then caret - 1
    else if GetText(doc, caret, 1) == "@" then caret
    else -1
  }

  /**
   * The checks after the trigger is fixed: the caret strictly after it,
   * whitespace or document start before it, and a fitting query.
   */
  function CheckTrigger(doc: seq<Item>, caret: int, startIndex: int, minChars: int, maxChars: int): Detection {
    if startIndex < 0 || caret <= startIndex then Closed
    else if startIndex > 0 && !HasWhitespace(GetText(doc, startIndex - 1, 1)) then Closed
    else
      var query := GetText(doc, startIndex + 1, caret - startIndex - 1);
      if HasWhitespace(query) then Closed
      else if |query| < minChars || |query| > maxChars then Closed
      else Opened(startIndex, query)
  }

  /** Everything after the search, given the trigger's offset (-1 when none was found). */
  function ValidateTrigger(doc: seq<Item>, caret: int, trigger: int, minChars: int, maxChars: int): Detection {
    CheckTrigger(doc, caret, WithFallbacks(doc, caret, trigger), minChars, maxChars)
  }

  /**
   * `updateQuery` as written: the trigger is found with `lastIndexOf` in the
   * TEXT of the window, and that string offset is added to the window start
   * as if it were a document offset. `getText` omits embeds, so every embed
   * in the window shifts the result.
   */
  function DetectAsWritten(doc: seq<Item>, range: Option<Range>, minChars: int, maxChars: int): Detection {
    if range.None? || range.value.length > 0 then Closed
    else
      ValidateTrigger(doc, range.value.index, TextTrigger(doc, range.value.index, maxChars), minChars, maxChars)
  }

  /** The trigger as `updateQuery` finds it: `lastIndexOf('@')` in the window's text, added to the window start. */
  function TextTrigger(doc: seq<Item>, caret: int, maxChars: int): int {
    var start := WindowStart(caret, maxChars);
    var t := LastIndexOf(GetText(doc, start, caret - start), '@');
    if t != -1 then start + t else -1
  }

  /** The nearest '@' item in the window, in document offsets. */
  function DocTrigger(doc: seq<Item>, caret: int, maxChars: int): int {
    var lo := Clamp(WindowStart(caret, maxChars), |doc|);
    var hi := Clamp(caret, |doc|);
    if lo <= hi then LastTrigger(doc, lo, hi) else -1
  }

  /** `updateQuery` with the trigger searched in document offsets, as the session invariant requires. */
  function Detect(doc: seq<Item>, range: Option<Range>, minChars: int, maxChars: int): Detection {
    if range.None? || range.value.length > 0 then Closed
    else
      ValidateTrigger(doc, range.value.index, DocTrigger(doc, range.value.index, maxChars), minChars, maxChars)
  }

  lemma GetTextOne(doc: seq<Item>, k: int)
    requires 0 <= k < |doc|
    ensures GetText(doc, k, 1) == (if doc[k].Char? then [doc[k].c] else [])
  {
    assert doc[k..k + 1] == [doc[k]];
  }

  lemma HasWhitespaceOne(c: char)
    ensures HasWhitespace([c]) <==> IsWhitespace(c)
    ensures !HasWhitespace([])
  {
    assert [c][0] == c;
  }

  /** With the trigger fixed before the caret, the checks open exactly when the preceding character and the query fit. */
  lemma CheckTriggerSpec(doc: seq<Item>, caret: int, s: int, minChars: int, maxChars: int)
    requires 0 <= s < caret <= |doc|
    ensures CheckTrigger(doc, caret, s, minChars, maxChars) ==
      if SpaceBefore(doc, s) && QueryFits(GetText(doc, s + 1, caret - s - 1), minChars, maxChars)
      then Opened(s, GetText(doc, s + 1, caret - s - 1))
      else Closed
  {
    if s > 0 {
      GetTextOne(doc, s - 1);
      assert HasWhitespace(GetText(doc, s - 1, 1)) <==> SpaceBefore(doc, s) by {
        if doc[s - 1].Char? {
          HasWhitespaceOne(doc[s - 1].c);
        }
      }
    }
  }

  /**
   * The two fall-backs of `updateQuery` never open a session: without an
   * '@' in the search window the result is always `Closed`.
   */
  lemma FallbacksNeverOpen(doc: seq<Item>, caret: int, minChars: int, maxChars: int)
    requires 0 <= caret <= |doc|
    requires forall k :: WindowStart(caret, maxChars) <= k < caret ==> !IsChar(doc[k], '@')
    ensures ValidateTrigger(doc, caret, -1, minChars, maxChars) == Closed
  {
    if caret > 0 {
      GetTextOne(doc, caret - 1);
      assert GetText(doc, caret, 0) == [];
    }
  }

  /** Everything a detected session satisfies (the "only if" half of detection). */
  lemma DetectSound(doc: seq<Item>, caret: int, minChars: int, maxChars: int)
    requires 0 <= caret <= |doc|
    ensures var d := Detect(doc, Some(Range(caret, 0)), minChars, maxChars);
      d.Opened? ==>
        && 0 <= d.startIndex < caret
        && WindowStart(caret, maxChars) <= d.startIndex
        && IsChar(doc[d.startIndex], '@')
        && (forall k :: d.startIndex < k < caret ==> !IsChar(doc[k], '@'))
        && SpaceBefore(doc, d.startIndex)
        && d.query == GetText(doc, d.startIndex + 1, caret - d.startIndex - 1)
        && QueryFits(d.query, minChars, maxChars)
  {
    var t := DocTrigger(doc, caret, maxChars);
    assert Detect(doc, Some(Range(caret, 0)), minChars, maxChars) == ValidateTrigger(doc, caret, t, minChars, maxChars);
    if t == -1 {
      FallbacksNeverOpen(doc, caret, minChars, maxChars);
    } else {
      assert WindowStart(caret, maxChars) <= t < caret && IsChar(doc[t], '@');
      assert WithFallbacks(doc, caret, t) == t;
      CheckTriggerSpec(doc, caret, t, minChars, maxChars);
    }
  }

  /** A nearest '@' meeting every rule opens a session there (the "if" half of detection). */
  lemma DetectComplete(doc: seq<Item>, caret: int, minChars: int, maxChars: int, j: int)
    requires 0 <= j < caret <= |doc|
    requires WindowStart(caret, maxChars) <= j
    requires IsChar(doc[j], '@')
    requires forall k :: j < k < caret ==> !IsChar(doc[k], '@')
    requires SpaceBefore(doc, j)
    requires QueryFits(GetText(doc, j + 1, caret - j - 1), minChars, maxChars)
    ensures Detect(doc, Some(Range(caret, 0)), minChars, maxChars) == Opened(j, GetText(doc, j + 1, caret - j - 1))
  {
    var lo := Clamp(WindowStart(caret, maxChars), |doc|);
    assert LastTrigger(doc, lo, caret) == j;
    CheckTriggerSpec(doc, caret, j, minChars, maxChars);
  }

  /** The items of a typed token: the '@' followed by the run of characters typed after it. */
  lemma TypedTokenFacts(pre: seq<Item>, run: string, post: seq<Item>, at: Attrs, attrs: Attrs)
    ensures var doc := pre + [Char('@', at)] + TextItems(run, attrs) + post;
      && |doc| >= |pre| + 1 + |run|
      && IsChar(doc[|pre|], '@')
      && (forall k :: |pre| < k < |pre| + 1 + |run| ==> doc[k] == Char(run[k - |pre| - 1], attrs))
      && (pre != [] ==> doc[|pre| - 1] == pre[|pre| - 1])
      && GetText(doc, |pre| + 1, |run|) == run
  {
    var tail := TextItems(run, attrs);
    var doc := pre + [Char('@', at)] + tail + post;
    assert doc == pre + ([Char('@', at)] + tail + post);
    forall k | |pre| < k < |pre| + 1 + |run|
      ensures doc[k] == Char(run[k - |pre| - 1], attrs)
    {
      assert doc[k] == tail[k - |pre| - 1];
    }
    assert doc[|pre| + 1..|pre| + 1 + |run|] == tail;
    TextItemsChars(run, attrs);
  }

  /**
   * Typing "@" after whitespace (or at the start) followed by a run of at most
   * `maxChars` characters without whitespace or '@' opens a session whose
   * query is exactly that run.
   */
  lemma OpensOnTypedToken(pre: seq<Item>, run: string, post: seq<Item>, at: Attrs, attrs: Attrs, minChars: int, maxChars: int)
    requires pre == [] || (pre[|pre| - 1].Char? && IsWhitespace(pre[|pre| - 1].c))
    requires '@' !in run && QueryFits(run, minChars, maxChars)
    ensures var doc := pre + [Char('@', at)] + TextItems(run, attrs) + post;
      Detect(doc, Some(Range(|pre| + 1 + |run|, 0)), minChars, maxChars) == Opened(|pre|, run)
  {
    var doc := pre + [Char('@', at)] + TextItems(run, attrs) + post;
    TypedTokenFacts(pre, run, post, at, attrs);
    DetectComplete(doc, |pre| + 1 + |run|, minChars, maxChars, |pre|);
  }

  /** Whitespace anywhere in the run after the nearest '@' keeps the session closed. */
  lemma ClosesOnWhitespaceInToken(pre: seq<Item>, run: string, post: seq<Item>, at: Attrs, attrs: Attrs, minChars: int, maxChars: int)
    requires HasWhitespace(run) && '@' !in run
    ensures var doc := pre + [Char('@', at)] + TextItems(run, attrs) + post;
      Detect(doc, Some(Range(|pre| + 1 + |run|, 0)), minChars, maxChars) == Closed
  {
    var doc := pre + [Char('@', at)] + TextItems(run, attrs) + post;
    var caret := |pre| + 1 + |run|;
    TypedTokenFacts(pre, run, post, at, attrs);
    TypedTokenTrigger(pre, run, post, at, attrs, maxChars);
    if WindowStart(caret, maxChars) <= |pre| {
      CheckTriggerSpec(doc, caret, |pre|, minChars, maxChars);
    } else {
      FallbacksNeverOpen(doc, caret, minChars, maxChars);
    }
  }

  /** After a typed token, the search finds its '@' when the window reaches it, and nothing otherwise. */
  lemma TypedTokenTrigger(pre: seq<Item>, run: string, post: seq<Item>, at: Attrs, attrs: Attrs, maxChars: int)
    requires '@' !in run
    ensures var doc := pre + [Char('@', at)] + TextItems(run, attrs) + post;
      var caret := |pre| + 1 + |run|;
      && (forall k :: |pre| < k < caret ==> !IsChar(doc[k], '@'))
      && DocTrigger(doc, caret, maxChars) == (if WindowStart(caret, maxChars) <= |pre| then |pre| else -1)
  {
    var doc := pre + [Char('@', at)] + TextItems(run, attrs) + post;
    var caret := |pre| + 1 + |run|;
    TypedTokenFacts(pre, run, post, at, attrs);
    forall k | |pre| < k < caret
      ensures !IsChar(doc[k], '@')
    {
      assert run[k - |pre| - 1] in run;
    }
    var lo := Clamp(WindowStart(caret, maxChars), |doc|);
    assert Clamp(caret, |doc|) == caret;
    if WindowStart(caret, maxChars) <= |pre| {
      assert lo == WindowStart(caret, maxChars);
      assert LastTrigger(doc, lo, caret) == |pre|;
    } else if lo <= caret {
      assert LastTrigger(doc, lo, caret) == -1;
    }
  }

  /** Over a window of characters only, the text search and the document search agree. */
  lemma LastIndexOfMatchesLastTrigger(doc: seq<Item>, lo: nat, hi: nat)
    requires lo <= hi <= |doc|
    requires forall k :: lo <= k < hi ==> doc[k].Char?
    ensures var t := LastIndexOf(Chars(doc[lo..hi]), '@');
      (if t == -1 then -1 else lo + t) == LastTrigger(doc, lo, hi)
  {
    var w := doc[lo..hi];
    assert forall k :: 0 <= k < |w| ==> w[k] == doc[lo + k];
    var s := Chars(w);
    assert |s| == hi - lo;
    var t := LastIndexOf(s, '@');
    var r := LastTrigger(doc, lo, hi);
    if t != -1 {
      assert IsChar(doc[lo + t], '@');
    }
    if r != -1 {
      assert s[r - lo] == '@';
    }
  }

  /** The text-based search is only wrong when an embed lies in the window. */
  lemma AsWrittenAgreesWithoutEmbeds(doc: seq<Item>, caret: int, minChars: int, maxChars: int)
    requires 0 <= caret <= |doc|
    requires forall k :: WindowStart(caret, maxChars) <= k < caret ==> doc[k].Char?
    ensures DetectAsWritten(doc, Some(Range(caret, 0)), minChars, maxChars)
         == Detect(doc, Some(Range(caret, 0)), minChars, maxChars)
  {
    WindowTriggersAgree(doc, caret, maxChars);
  }

  /** Over a window of characters only, the offset found in the window's text is the nearest '@' of the window. */
  lemma WindowTriggersAgree(doc: seq<Item>, caret: int, maxChars: int)
    requires 0 <= caret <= |doc|
    requires forall k :: WindowStart(caret, maxChars) <= k < caret ==> doc[k].Char?
    ensures TextTrigger(doc, caret, maxChars) == DocTrigger(doc, caret, maxChars)
  {
    var start := WindowStart(caret, maxChars);
    assert Clamp(caret, |doc|) == caret;
    assert start <= caret ==> Clamp(start, |doc|) == start;
    if start < caret {
      LastIndexOfMatchesLastTrigger(doc, start, caret);
      assert GetText(doc, start, caret - start) == Chars(doc[start..caret]);
    } else {
      assert GetText(doc, start, caret - start) == [];
    }
  }

  /**
   * Two documents on which the text-based search goes wrong, both with a
   * mention chip (an embed) shortly before a freshly typed "@":
   * chip, " @": the trigger is computed one offset too early, lands on the
   * space, sees the chip before it and closes, where a session should open
   * with an empty query; chip, "  @": it lands on the second space and opens
   * a session whose trigger offset is not an '@' and whose query is "@".
   */
  lemma AsWrittenMisplacesTrigger(e: Entity)
    ensures var doc := [Embed(MentionEmbed(e), map[]), Char(' ', map[]), Char('@', map[])];
      DetectAsWritten(doc, Some(Range(3, 0)), DEFAULT_MIN_CHARS, DEFAULT_MAX_CHARS) == Closed
      && Detect(doc, Some(Range(3, 0)), DEFAULT_MIN_CHARS, DEFAULT_MAX_CHARS) == Opened(2, "")
    ensures var doc := [Embed(MentionEmbed(e), map[]), Char(' ', map[]), Char(' ', map[]), Char('@', map[])];
      DetectAsWritten(doc, Some(Range(4, 0)), DEFAULT_MIN_CHARS, DEFAULT_MAX_CHARS) == Opened(2, "@")
      && !IsChar(doc[2], '@')
      && Detect(doc, Some(Range(4, 0)), DEFAULT_MIN_CHARS, DEFAULT_MAX_CHARS) == Opened(3, "")
  {
    HasWhitespaceOne(' ');
    HasWhitespaceOne('@');

    var doc := [Embed(MentionEmbed(e), map[]), Char(' ', map[]), Char('@', map[])];
    assert doc[0..3] == doc;
    assert Chars(doc) == " @";
    assert LastIndexOf(" @", '@') == 1;
    CheckTriggerSpec(doc, 3, 1, DEFAULT_MIN_CHARS, DEFAULT_MAX_CHARS);
    assert GetText(doc, 3, 0) == [];
    DetectComplete(doc, 3, DEFAULT_MIN_CHARS, DEFAULT_MAX_CHARS, 2);

    var doc2 := [Embed(MentionEmbed(e), map[]), Char(' ', map[]), Char(' ', map[]), Char('@', map[])];
    assert doc2[0..4] == doc2;
    assert Chars(doc2) == "  @";
    assert LastIndexOf("  @", '@') == 2;
    GetTextOne(doc2, 3);
    CheckTriggerSpec(doc2, 4, 2, DEFAULT_MIN_CHARS, DEFAULT_MAX_CHARS);
    assert GetText(doc2, 4, 0) == [];
    DetectComplete(doc2, 4, DEFAULT_MIN_CHARS, DEFAULT_MAX_CHARS, 3);
  }

  // ---------------------------------------------------------------------
  // Highlight, results and list position
  // ---------------------------------------------------------------------

  /** `(h + direction + n) % n` with JavaScript's `%`. */
  function MovedHighlight(h: int, direction: int, n: int): int
    requires n > 0
  {
    JsRem(h + direction + n, n)
  }

  /** One step down from the last entry wraps to the first, one step up from the first wraps to the last. */
  lemma MovedHighlightWraps(h: int, direction: int, n: int)
    requires 0 <= h < n && (direction == 1 || direction == -1)
    ensures MovedHighlight(h, direction, n) ==
      if h + direction == n then 0 else if h + direction < 0 then n - 1 else h + direction
  {
    ModSmall(h + direction + n, n);
  }

  /** ArrowDown then ArrowUp (or the reverse) returns to the same entry. */
  lemma MoveHighlightRoundTrip(h: int, n: int)
    requires 0 <= h < n
    ensures MovedHighlight(MovedHighlight(h, 1, n), -1, n) == h
    ensures MovedHighlight(MovedHighlight(h, -1, n), 1, n) == h
  {
    MovedHighlightWraps(h, 1, n);
    MovedHighlightWraps(MovedHighlight(h, 1, n), -1, n);
    MovedHighlightWraps(h, -1, n);
    MovedHighlightWraps(MovedHighlight(h, -1, n), 1, n);
  }

  /** `results.slice(0, end)` */
  function SliceFront<T>(s: seq<T>, end: int): (r: seq<T>)
    ensures r <= s
    ensures end >= 0 ==> |r| == Min(end, |s|)
    ensures end < 0 ==> |r| == Max(0, |s| + end)
  {
    if end >= 0 then (if end < |s| then s[..end] else s)
    else if |s| + end > 0 then s[..|s| + end] else []
  }

  /**
   * Horizontal position of the suggestion list: the caret's left edge plus
   * scroll, at least the padding, and at most the container width less the
   * list width (240 until laid out) and the padding.
   */
  function ListLeft(boundsLeft: Option<real>, scrollLeft: real, containerWidth: real, listOffsetWidth: real): (r: real)
    ensures var listWidth := if listOffsetWidth == 0.0 then DEFAULT_LIST_WIDTH else listOffsetWidth;
      var left := boundsLeft.GetOr(0.0) + scrollLeft;
      && r <= containerWidth - listWidth - LIST_PADDING
      && (LIST_PADDING <= containerWidth - listWidth - LIST_PADDING ==> LIST_PADDING <= r)
      && (LIST_PADDING <= left <= containerWidth - listWidth - LIST_PADDING ==> r == left)
  {
    var listWidth := if listOffsetWidth == 0.0 then DEFAULT_LIST_WIDTH else listOffsetWidth;
    MinR(MaxR(boundsLeft.GetOr(0.0) + scrollLeft, LIST_PADDING), containerWidth - listWidth - LIST_PADDING)
  }

  /** Vertical position of the suggestion list: 6 px under the caret's bottom edge, plus scroll. */
  function ListTop(boundsBottom: Option<real>, scrollTop: real): (r: real)
    ensures boundsBottom.Some? ==> r - scrollTop - boundsBottom.value == LIST_OFFSET_TOP
  {
    boundsBottom.GetOr(0.0) + scrollTop + LIST_OFFSET_TOP
  }

  // ---------------------------------------------------------------------
  // Commit
  // ---------------------------------------------------------------------

  /** The four writes of a commit applied to the document: the token is replaced by the chip and one space. */
  lemma CommitEdits(doc: seq<Item>, s: int, c: int, e: Entity)
    requires 0 <= s <= c <= |doc|
    ensures var afterDelete := DeleteAt(doc, s, c - s);
      var afterEmbed := InsertAt(afterDelete, s, [Embed(MentionEmbed(e), map[])]);
      InsertAt(afterEmbed, s + 1, TextItems(" ", map[]))
        == doc[..s] + [Embed(MentionEmbed(e), map[]), Char(' ', map[])] + doc[c..]
  {
    var afterDelete := DeleteAt(doc, s, c - s);
    assert afterDelete == doc[..s] + doc[c..];
    var afterEmbed := InsertAt(afterDelete, s, [Embed(MentionEmbed(e), map[])]);
    assert afterDelete[..s] == doc[..s];
    assert afterDelete[s..] == doc[c..];
    assert afterEmbed == doc[..s] + [Embed(MentionEmbed(e), map[])] + doc[c..];
    assert afterEmbed[..s + 1] == doc[..s] + [Embed(MentionEmbed(e), map[])];
    assert afterEmbed[s + 1..] == doc[c..];
  }

  /** The writes of a commit: delete the token, insert the chip and a space, and put the caret after them. */
  method WriteCommit(quill: Editor, s: int, c: int, e: Entity)
    requires 0 <= s <= c
    modifies quill
    ensures quill.log == old(quill.log) + [
      DeleteTextCall(s, c - s, User), InsertEmbedCall(s, MentionEmbed(e), User),
      InsertTextCall(s + 1, " ", map[], User), SetSelectionCall(s + 2, 0, User)]
    ensures quill.selection == Some(Range(s + 2, 0))
    ensures c <= |old(quill.content)| ==>
      quill.content == old(quill.content)[..s] + [Embed(MentionEmbed(e), map[]), Char(' ', map[])] + old(quill.content)[c..]
  {
    ghost var before := quill.content;
    quill.DeleteText(s, c - s, User);
    quill.InsertEmbed(s, MentionEmbed(e), User);
    quill.InsertText(s + 1, " ", map[], User);
    quill.SetSelection(s + 2, 0, User);
    if c <= |before| {
      CommitEdits(before, s, c, e);
    }
  }

  /**
   * When the text between the trigger and the caret holds no embed, the
   * range a commit deletes is the '@' plus the query: `1 + |query|` offsets.
   */
  lemma CommitDeletesToken(doc: seq<Item>, caret: int, minChars: int, maxChars: int)
    requires 0 <= caret <= |doc|
    requires Detect(doc, Some(Range(caret, 0)), minChars, maxChars).Opened?
    requires forall k :: Detect(doc, Some(Range(caret, 0)), minChars, maxChars).startIndex < k < caret ==> doc[k].Char?
    ensures var d := Detect(doc, Some(Range(caret, 0)), minChars, maxChars);
      caret - d.startIndex == 1 + |d.query|
  {
    DetectSound(doc, caret, minChars, maxChars);
    var d := Detect(doc, Some(Range(caret, 0)), minChars, maxChars);
    var span := doc[d.startIndex + 1..caret];
    assert forall k :: 0 <= k < |span| ==> span[k] == doc[d.startIndex + 1 + k];
  }

  // ---------------------------------------------------------------------
  // The module instance
  // ---------------------------------------------------------------------

  datatype Key = ArrowDown | ArrowUp | Enter | Tab | Escape | OtherKey

  /** Where a document-level click landed. */
  datatype ClickTarget = NoTarget | InsideList | InsideEditor | Outside

  /** A call made to the suggestion source, with the request id captured at dispatch. */
  datatype Fetch = Fetch(id: int, query: string)

  class MentionModule {
    const quill: Editor
    const minChars: int
    const maxChars: int
    const maxItems: int
    var isOpen: bool
    var startIndex: int
    var query: string
    var items: seq<Entity>
    var highlightedIndex: int
    var requestId: int
    /** An animation-frame re-detection is scheduled (the latest one replaces any earlier). */
    var updateFrame: bool
    var fetches: seq<Fetch>
    /** The engine and DOM listeners are attached and the list container is in the editor. */
    var attached: bool

    ghost predicate Valid()
      reads this
    {
      && startIndex >= 0
      && highlightedIndex >= 0
      && (|items| > 0 ==> highlightedIndex < |items|)
      && (forall i, j :: 0 <= i < j < |fetches| ==> fetches[i].id < fetches[j].id)
      && (forall i :: 0 <= i < |fetches| ==> fetches[i].id <= requestId)
      && (!isOpen ==> items == [] && query == "" && forall i :: 0 <= i < |fetches| ==> fetches[i].id < requestId)
    }

    constructor (quill: Editor, minChars: Option<int>, maxChars: Option<int>, maxItems: Option<int>)
      ensures Valid()
      ensures this.quill == quill
      ensures this.minChars == minChars.GetOr(DEFAULT_MIN_CHARS)
      ensures this.maxChars == maxChars.GetOr(DEFAULT_MAX_CHARS)
      ensures this.maxItems == maxItems.GetOr(DEFAULT_MAX_ITEMS)
      ensures !isOpen && items == [] && query == "" && requestId == 0 && fetches == []
      ensures attached && !updateFrame
    {
      this.quill := quill;
      this.minChars := minChars.GetOr(DEFAULT_MIN_CHARS);
      this.maxChars := maxChars.GetOr(DEFAULT_MAX_CHARS);
      this.maxItems := maxItems.GetOr(DEFAULT_MAX_ITEMS);
      isOpen := false;
      startIndex := 0;
      query := "";
      items := [];
      highlightedIndex := 0;
      requestId := 0;
      updateFrame := false;
      fetches := [];
      attached := true;
    }

    method Open()
      requires Valid()
      modifies this
      ensures Valid()
      ensures isOpen
      ensures startIndex == old(startIndex) && query == old(query) && items == old(items)
      ensures highlightedIndex == old(highlightedIndex) && requestId == old(requestId)
      ensures fetches == old(fetches) && updateFrame == old(updateFrame) && attached == old(attached)
    {
      isOpen := true;
    }

    /** Hide the list, forget the session, and invalidate every request in flight. */
    method Close()
      requires Valid()
      modifies this
      ensures Valid()
      ensures !isOpen && items == [] && query == "" && requestId == old(requestId) + 1
      ensures forall i :: 0 <= i < |fetches| ==> fetches[i].id < requestId
      ensures startIndex == old(startIndex) && highlightedIndex == old(highlightedIndex)
      ensures fetches == old(fetches) && updateFrame == old(updateFrame) && attached == old(attached)
    {
      isOpen := false;
      items := [];
      query := "";
      requestId := requestId + 1;
    }

    /** Call the source with a fresh request id. */
    method FetchItems(q: string)
      requires Valid() && isOpen
      modifies this
      ensures Valid()
      ensures requestId == old(requestId) + 1
      ensures fetches == old(fetches) + [Fetch(requestId, q)]
      ensures isOpen == old(isOpen) && startIndex == old(startIndex) && query == old(query)
      ensures items == old(items) && highlightedIndex == old(highlightedIndex)
      ensures updateFrame == old(updateFrame) && attached == old(attached)
    {
      requestId := requestId + 1;
      fetches := fetches + [Fetch(requestId, q)];
    }

    /** The source answered the `k`-th call: apply the answer only if no newer request or close came since. */
    method FetchResolved(k: nat, results: seq<Entity>) returns (applied: bool)
      requires Valid() && k < |fetches|
      modifies this
      ensures Valid()
      ensures fetches == old(fetches)
      ensures applied == (fetches[k].id == old(requestId))
      ensures applied ==> k == |fetches| - 1 && old(isOpen)
      ensures applied ==> items == SliceFront(results, maxItems) && highlightedIndex == 0
      ensures !applied ==> items == old(items) && highlightedIndex == old(highlightedIndex)
      ensures isOpen == old(isOpen) && startIndex == old(startIndex) && query == old(query)
      ensures requestId == old(requestId)
      ensures updateFrame == old(updateFrame) && attached == old(attached)
    {
      applied := fetches[k].id == requestId;
      ghost var last := |fetches| - 1;
      assert fetches[last].id <= requestId;
      assert k < last ==> fetches[k].id < fetches[last].id;
      if applied {
        items := SliceFront(results, maxItems);
        highlightedIndex := 0;
      }
    }

    /** Re-run detection against the document and the caret. */
    method UpdateQuery()
      requires Valid()
      modifies this
      ensures Valid()
      ensures var d := Detect(quill.content, quill.selection, minChars, maxChars);
        if d.Closed? then
          && !isOpen && items == [] && query == ""
          && requestId == old(requestId) + 1 && fetches == old(fetches)
        else
          && isOpen && startIndex == d.startIndex && query == d.query
          && requestId == old(requestId) + 1 && fetches == old(fetches) + [Fetch(requestId, d.query)]
          && items == old(items) && highlightedIndex == old(highlightedIndex)
      ensures updateFrame == old(updateFrame) && attached == old(attached)
    {
      var d := Detect(quill.content, quill.selection, minChars, maxChars);
      if d.Closed? {
        Close();
        return;
      }
      DetectStartNonNegative(quill.content, quill.selection, minChars, maxChars);
      if !isOpen {
        Open();
      }
      startIndex := d.startIndex;
      query := d.query;
      FetchItems(query);
    }

    /** A content change: user edits schedule one re-detection for the next frame; others are ignored. */
    method HandleTextChange(source: Source)
      requires Valid()
      modifies this
      ensures Valid()
      ensures updateFrame == (old(updateFrame) || source == User)
      ensures isOpen == old(isOpen) && items == old(items) && requestId == old(requestId)
      ensures startIndex == old(startIndex) && query == old(query) && fetches == old(fetches)
      ensures highlightedIndex == old(highlightedIndex) && attached == old(attached)
    {
      if source != User {
        return;
      }
      updateFrame := true;
    }

    /** The scheduled animation frame fires. */
    method RunUpdateFrame()
      requires Valid() && updateFrame
      modifies this
      ensures Valid()
      ensures !updateFrame
      ensures var d := Detect(quill.content, quill.selection, minChars, maxChars);
        (d.Closed? <==> !isOpen) && (d.Opened? ==> startIndex == d.startIndex && query == d.query)
      ensures requestId == old(requestId) + 1
      ensures var d := Detect(quill.content, quill.selection, minChars, maxChars);
        fetches == old(fetches) + (if d.Opened? then [Fetch(requestId, d.query)] else [])
    {
      updateFrame := false;
      UpdateQuery();
    }

    /** A selection change: ranges and focus loss close; a caret re-detects or must stay inside the token. */
    method HandleSelectionChange(range: Option<Range>)
      requires Valid()
      modifies this
      ensures Valid()
      ensures range.None? || range.value.length > 0 ==> !isOpen && requestId == old(requestId) + 1
      ensures range.Some? && range.value.length <= 0 && old(isOpen) ==>
        var inside := old(startIndex) <= range.value.index <= old(startIndex) + 1 + |old(query)|;
        && (isOpen <==> inside)
        && (inside ==> items == old(items) && query == old(query) && requestId == old(requestId))
      ensures range.Some? && range.value.length <= 0 && !old(isOpen) ==>
        var d := Detect(quill.content, quill.selection, minChars, maxChars);
        (d.Closed? <==> !isOpen) && (d.Opened? ==> startIndex == d.startIndex && query == d.query)
      ensures updateFrame == old(updateFrame) && attached == old(attached)
    {
      if range.None? || range.value.length > 0 {
        Close();
        return;
      }
      if !isOpen {
        UpdateQuery();
        return;
      }
      var endIndex := startIndex + 1 + |query|;
      if range.value.index < startIndex || range.value.index > endIndex {
        Close();
        return;
      }
    }

    method MoveHighlight(direction: int)
      requires Valid() && (direction == 1 || direction == -1)
      modifies this
      ensures Valid()
      ensures |items| == 0 ==> highlightedIndex == old(highlightedIndex)
      ensures |items| > 0 ==> highlightedIndex == MovedHighlight(old(highlightedIndex), direction, |items|)
      ensures items == old(items) && isOpen == old(isOpen) && requestId == old(requestId)
      ensures startIndex == old(startIndex) && query == old(query) && fetches == old(fetches)
      ensures updateFrame == old(updateFrame) && attached == old(attached)
    {
      if |items| == 0 {
        return;
      }
      highlightedIndex := MovedHighlight(highlightedIndex, direction, |items|);
    }

    /**
     * Replace the token with the chip: delete from the trigger to the caret,
     * insert the chip at the trigger and a space after it, put the caret after
     * the space, then close. A caret before the trigger only closes.
     */
    method InsertMention(item: Entity)
      requires Valid()
      modifies this, quill
      ensures Valid()
      ensures old(quill.selection).None? ==>
        quill.content == old(quill.content) && quill.log == old(quill.log) && isOpen == old(isOpen)
        && requestId == old(requestId)
      ensures old(quill.selection).Some? ==> !isOpen && items == [] && requestId == old(requestId) + 1
      ensures old(quill.selection).Some? && old(quill.selection).value.index < old(startIndex) ==>
        quill.content == old(quill.content) && quill.log == old(quill.log)
      ensures old(quill.selection).Some? && old(quill.selection).value.index >= old(startIndex) ==>
        var s, c := old(startIndex), old(quill.selection).value.index;
        && quill.log == old(quill.log) + [
             DeleteTextCall(s, c - s, User), InsertEmbedCall(s, MentionEmbed(item), User),
             InsertTextCall(s + 1, " ", map[], User), SetSelectionCall(s + 2, 0, User)]
        && quill.selection == Some(Range(s + 2, 0))
        && (c <= |old(quill.content)| ==>
              quill.content == old(quill.content)[..s] + [Embed(MentionEmbed(item), map[]), Char(' ', map[])]
                               + old(quill.content)[c..])
      ensures startIndex == old(startIndex) && fetches == old(fetches)
      ensures updateFrame == old(updateFrame) && attached == old(attached)
    {
      var range := quill.selection;
      if range.None? {
        return;
      }
      var length := range.value.index - startIndex;
      if length < 0 {
        Close();
        return;
      }
      WriteCommit(quill, startIndex, range.value.index, item);
      Close();
    }

    /** Commit the highlighted entry; nothing happens on an empty list. */
    method SelectHighlighted()
      requires Valid()
      modifies this, quill
      ensures Valid()
      ensures |old(items)| == 0 ==>
        quill.content == old(quill.content) && quill.log == old(quill.log)
        && isOpen == old(isOpen) && requestId == old(requestId)
      ensures |old(items)| > 0 && old(quill.selection).Some? ==> !isOpen && items == []
      ensures |old(items)| > 0 && old(quill.selection).Some? && old(quill.selection).value.index >= old(startIndex) ==>
        quill.log == old(quill.log) + [
          DeleteTextCall(old(startIndex), old(quill.selection).value.index - old(startIndex), User),
          InsertEmbedCall(old(startIndex), MentionEmbed(old(items)[old(highlightedIndex)]), User),
          InsertTextCall(old(startIndex) + 1, " ", map[], User),
          SetSelectionCall(old(startIndex) + 2, 0, User)]
    {
      if highlightedIndex < |items| {
        InsertMention(items[highlightedIndex]);
      }
    }

    /** Commit the entry at `index` (a click on it); an index outside the list does nothing. */
    method SelectItem(index: int)
      requires Valid()
      modifies this, quill
      ensures Valid()
      ensures !(0 <= index < |old(items)|) ==>
        quill.content == old(quill.content) && quill.log == old(quill.log)
        && isOpen == old(isOpen) && items == old(items) && requestId == old(requestId)
      ensures 0 <= index < |old(items)| && old(quill.selection).Some? ==> !isOpen && items == []
      ensures 0 <= index < |old(items)| && old(quill.selection).Some? && old(quill.selection).value.index >= old(startIndex) ==>
        quill.log == old(quill.log) + [
          DeleteTextCall(old(startIndex), old(quill.selection).value.index - old(startIndex), User),
          InsertEmbedCall(old(startIndex), MentionEmbed(old(items)[index]), User),
          InsertTextCall(old(startIndex) + 1, " ", map[], User),
          SetSelectionCall(old(startIndex) + 2, 0, User)]
    {
      if 0 <= index < |items| {
        InsertMention(items[index]);
      }
    }

    /** Keys act only while the list is open; the return value says whether the default was prevented. */
    method HandleKeyDown(key: Key) returns (prevented: bool)
      requires Valid()
      modifies this, quill
      ensures Valid()
      ensures !old(isOpen) || key == OtherKey ==>
        !prevented && isOpen == old(isOpen) && items == old(items) && requestId == old(requestId)
        && highlightedIndex == old(highlightedIndex) && quill.log == old(quill.log)
        && quill.content == old(quill.content)
      ensures old(isOpen) && key != OtherKey ==> prevented
      ensures old(isOpen) && key == Escape ==> !isOpen && items == [] && quill.log == old(quill.log)
      ensures old(isOpen) && (key == ArrowDown || key == ArrowUp) ==>
        items == old(items) && isOpen && quill.log == old(quill.log)
        && (|items| > 0 ==> highlightedIndex == MovedHighlight(old(highlightedIndex), if key == ArrowDown then 1 else -1, |items|))
      ensures old(isOpen) && (key == Enter || key == Tab) && |old(items)| > 0 && old(quill.selection).Some? ==> !isOpen
    {
      if !isOpen {
        return false;
      }
      match key
      case ArrowDown =>
        MoveHighlight(1);
        prevented := true;
      case ArrowUp =>
        MoveHighlight(-1);
        prevented := true;
      case Enter =>
        SelectHighlighted();
        prevented := true;
      case Tab =>
        SelectHighlighted();
        prevented := true;
      case Escape =>
        Close();
        prevented := true;
      case OtherKey =>
        prevented := false;
    }

    /** A click closes an open list unless it landed inside the list or the editor. */
    method HandleDocumentClick(target: ClickTarget)
      requires Valid()
      modifies this
      ensures Valid()
      ensures old(isOpen) && target == Outside ==> !isOpen && requestId == old(requestId) + 1
      ensures !(old(isOpen) && target == Outside) ==>
        isOpen == old(isOpen) && items == old(items) && requestId == old(requestId)
      ensures fetches == old(fetches) && updateFrame == old(updateFrame) && attached == old(attached)
    {
      if !isOpen {
        return;
      }
      if target == NoTarget {
        return;
      }
      if target == InsideList || target == InsideEditor {
        return;
      }
      Close();
    }

    /** Close, detach every listener, cancel the scheduled frame and remove the list. */
    method Destroy()
      requires Valid()
      modifies this
      ensures Valid()
      ensures !isOpen && !attached && !updateFrame && items == []
      ensures forall i :: 0 <= i < |fetches| ==> fetches[i].id < requestId
      ensures fetches == old(fetches)
    {
      Close();
      attached := false;
      updateFrame := false;
    }
  }

  lemma DetectStartNonNegative(doc: seq<Item>, range: Option<Range>, minChars: int, maxChars: int)
    ensures Detect(doc, range, minChars, maxChars).Opened? ==> Detect(doc, range, minChars, maxChars).startIndex >= 0
  {
  }

  /** "@a" typed at the start opens a session, and so does "@al" after an "l" is typed. */
  lemma TypedAlOpens()
    ensures Detect([Char('@', map[]), Char('a', map[])], Some(Range(2, 0)), DEFAULT_MIN_CHARS, DEFAULT_MAX_CHARS).Opened?
    ensures Detect([Char('@', map[]), Char('a', map[]), Char('l', map[])], Some(Range(3, 0)), DEFAULT_MIN_CHARS, DEFAULT_MAX_CHARS).Opened?
  {
    assert TextItems("a", map[]) == [Char('a', map[])];
    assert TextItems("al", map[]) == [Char('a', map[]), Char('l', map[])];
    assert [Char('@', map[]), Char('a', map[])] == [] + [Char('@', map[])] + TextItems("a", map[]) + [];
    assert [Char('@', map[]), Char('a', map[]), Char('l', map[])] == [] + [Char('@', map[])] + TextItems("al", map[]) + [];
    HasWhitespaceOne('a');
    assert !HasWhitespace("al") by {
      assert forall k :: 0 <= k < 2 ==> !IsWhitespace("al"[k]);
    }
    OpensOnTypedToken([], "a", [], map[], map[], DEFAULT_MIN_CHARS, DEFAULT_MAX_CHARS);
    OpensOnTypedToken([], "al", [], map[], map[], DEFAULT_MIN_CHARS, DEFAULT_MAX_CHARS);
  }

  /**
   * Two overlapping requests where the older answer arrives last: with
   * "@a" typed, request 1 is dispatched; an "l" typed into the document
   * schedules an update frame, which dispatches request 2 for "@al";
   * answer 2 is applied, answer 1 is then dropped and never replaces it.
   */
  method StaleAnswerIsDropped(quill: Editor, first: seq<Entity>, second: seq<Entity>)
    requires quill.selection == Some(Range(2, 0))
    requires quill.content == [Char('@', map[]), Char('a', map[])]
    modifies quill
  {
    TypedAlOpens();
    var m := new MentionModule(quill, None, None, None);
    quill.SetSelection(2, 0, User);
    m.UpdateQuery();
    assert m.isOpen && |m.fetches| == 1;
    quill.InsertText(2, "l", map[], User);
    assert quill.content == [Char('@', map[]), Char('a', map[]), Char('l', map[])];
    m.HandleTextChange(User);
    quill.SetSelection(3, 0, User);
    m.RunUpdateFrame();
    assert m.isOpen && |m.fetches| == 2;
    var applied := m.FetchResolved(1, second);
    assert applied && m.items == SliceFront(second, 8);
    applied := m.FetchResolved(0, first);
    assert !applied && m.items == SliceFront(second, 8);
  }
}
