/**
 * The toolbar's mention button: types the trigger character at the caret, so
 * that the mention module opens a session there.
 */
module MentionButton {
  import opened Wrappers
  import opened Text
  import opened Document
  import opened ToolbarContext
  import Mention

  /** Where the trigger goes: the caret, else the end of the document. */
  function InsertIndex(selection: Option<Range>, length: nat): (r: int)
    ensures selection.Some? ==> r == selection.value.index
    ensures selection.None? ==> r == length
  {
    match selection
    case Some(range) => range.index
    case None => length
  }

  /** `handleInsert`: `@` at the insert index as a user edit, the caret after it, then focus; nothing without an editor. */
  method HandleInsert(ctx: QuillContext)
    modifies ctx.quill
    ensures old(ctx.quill) != null ==>
      var quill := old(ctx.quill);
      var i := InsertIndex(old(quill.selection), |old(quill.content)|);
      && quill.content == InsertAt(old(quill.content), i, [Char('@', map[])])
      && quill.selection == Some(Range(i + 1, 0))
      && quill.focused
      && quill.log == old(quill.log) + [InsertTextCall(i, "@", map[], User), SetSelectionCall(i + 1, 0, User), FocusCall]
      && quill.formats == old(quill.formats)
  {
    var quill := ctx.quill;
    if quill == null {
      return;
    }
    var index := InsertIndex(quill.selection, quill.GetLength());
    quill.InsertText(index, "@", map[], User);
    quill.SetSelection(index + 1, 0, User);
    quill.Focus();
  }

  /**
   * The trigger typed at a caret preceded by whitespace (or at the start), with the
   * caret put after it, opens a mention session at that offset with an empty query
   * whenever the empty query is within the configured bounds.
   */
  lemma InsertedTriggerOpensSession(doc: seq<Item>, i: int, minChars: int, maxChars: int)
    requires 0 <= i <= |doc|
    requires Mention.SpaceBefore(doc, i)
    requires minChars <= 0 <= maxChars
    ensures var after := InsertAt(doc, i, TextItems("@", map[]));
      Mention.Detect(after, Some(Range(i + 1, 0)), minChars, maxChars) == Mention.Opened(i, "")
  {
    var pre, post := doc[..i], doc[i..];
    assert TextItems("@", map[]) == [Char('@', map[])];
    assert TextItems("", map[]) == [];
    assert InsertAt(doc, i, TextItems("@", map[])) == pre + [Char('@', map[])] + TextItems("", map[]) + post;
    assert !HasWhitespace("");
    Mention.OpensOnTypedToken(pre, "", post, map[], map[], minChars, maxChars);
  }

  /**
   * The same for the detection as written: it opens too whenever the
   * characters the search window covers before the caret hold no embed.
   */
  lemma InsertedTriggerOpensSessionAsWritten(doc: seq<Item>, i: int, minChars: int, maxChars: int)
    requires 0 <= i <= |doc|
    requires Mention.SpaceBefore(doc, i)
    requires minChars <= 0 <= maxChars
    requires forall k :: Mention.WindowStart(i + 1, maxChars) <= k < i ==> doc[k].Char?
    ensures var after := InsertAt(doc, i, TextItems("@", map[]));
      Mention.DetectAsWritten(after, Some(Range(i + 1, 0)), minChars, maxChars) == Mention.Opened(i, "")
  {
    var after := InsertAt(doc, i, TextItems("@", map[]));
    InsertedTriggerOpensSession(doc, i, minChars, maxChars);
    InsertedWindowHoldsChars(doc, i, Mention.WindowStart(i + 1, maxChars));
    Mention.AsWrittenAgreesWithoutEmbeds(after, i + 1, minChars, maxChars);
  }

  /** Inserting the trigger into a run of characters leaves a run of characters one longer. */
  lemma InsertedWindowHoldsChars(doc: seq<Item>, i: int, lo: int)
    requires 0 <= lo && 0 <= i <= |doc|
    requires forall k :: lo <= k < i ==> doc[k].Char?
    ensures var after := InsertAt(doc, i, TextItems("@", map[]));
      forall k :: lo <= k < i + 1 ==> after[k].Char?
  {
    var xs := TextItems("@", map[]);
    var after := InsertAt(doc, i, xs);
    assert xs == [Char('@', map[])];
    assert after == doc[..i] + xs + doc[i..];
    forall k | lo <= k < i + 1
      ensures after[k].Char?
    {
      if k < i {
        assert after[k] == doc[k];
      } else {
        assert after[k] == xs[0];
      }
    }
  }

  /** With no selection the trigger goes at the end and the caret after it. */
  method InsertWithoutSelection()
  {
    var quill := new Editor([Char('a', map[])], None, map[]);
    var ctx := new QuillContext(quill);
    HandleInsert(ctx);
    assert quill.content == [Char('a', map[]), Char('@', map[])];
    assert quill.selection == Some(Range(2, 0));
  }
}
