/**
 * The toolbar's link button: opens the link dialog, and applies what the
 * dialog hands back — a link on the selected text, or the URL typed in as
 * link text at the caret — or removes the link at the selection.
 */
module LinkButton {
  import opened Wrappers
  import opened Text
  import opened Document
  import opened ToolbarContext
  import LinkDialog
  import Url

  const LINK := "link"

  /** The attributes of text inserted as a link to `url`. */
  function LinkAttrs(url: string): Attrs {
    map[LINK := FStr(url)]
  }

  /** The link under the caret: the `link` format when it is a string, else `""`. */
  function CurrentUrl(formats: Attrs): (r: string)
    ensures LINK in formats && formats[LINK].FStr? ==> r == formats[LINK].s
    ensures !(LINK in formats && formats[LINK].FStr?) ==> r == ""
  {
    if LINK in formats && formats[LINK].FStr? then formats[LINK].s else ""
  }

  /** The button is highlighted when the `link` format is truthy. */
  predicate IsActive(formats: Attrs) {
    FormatTruthy(FormatOf(formats, LINK))
  }

  /** A link that the dialog can show is one the button shows as active, and the reverse for string links. */
  lemma ActiveIffCurrentUrl(formats: Attrs)
    requires LINK in formats ==> formats[LINK].FStr?
    ensures IsActive(formats) <==> CurrentUrl(formats) != ""
  {
  }

  /** `getSelectedText`: the text of a non-empty selection, else `""`. */
  function SelectedText(quill: Editor?): (r: string)
    reads quill
    ensures quill == null || quill.selection.None? || quill.selection.value.length <= 0 ==> r == ""
    ensures quill != null && quill.selection.Some? && quill.selection.value.length > 0 ==>
      r == GetText(quill.content, quill.selection.value.index, quill.selection.value.length)
  {
    if quill == null then ""
    else match quill.selection
      case Some(range) => if range.length > 0 then GetText(quill.content, range.index, range.length) else ""
      case None => ""
  }

  /** A selection inside a plain-text document reads back as exactly its characters. */
  lemma SelectedTextOfPlainRun(quill: Editor, pre: string, chosen: string, post: string, attrs: Attrs)
    requires quill.content == TextItems(pre + chosen + post, attrs)
    requires quill.selection == Some(Range(|pre|, |chosen|)) && chosen != ""
    ensures SelectedText(quill) == chosen
  {
    var doc := quill.content;
    var lo, hi := |pre|, |pre| + |chosen|;
    assert doc[lo..hi] == TextItems(chosen, attrs);
    TextItemsChars(chosen, attrs);
  }

  /**
   * After inserting `url` as link text at an offset inside the document, the
   * text there reads back as `url`, every inserted item carries the link, and
   * the caret set after it sits just past its last character.
   */
  lemma InsertedLinkReadsBack(doc: seq<Item>, i: int, url: string)
    requires 0 <= i <= |doc|
    ensures var r := InsertAt(doc, i, TextItems(url, LinkAttrs(url)));
      && GetText(r, i, |url|) == url
      && (forall k :: i <= k < i + |url| ==> r[k] == Char(url[k - i], LinkAttrs(url)))
      && r[..i] == doc[..i] && r[i + |url|..] == doc[i..]
  {
    var xs := TextItems(url, LinkAttrs(url));
    InsertAtSpec(doc, i, xs);
    var r := InsertAt(doc, i, xs);
    TextItemsChars(url, LinkAttrs(url));
    forall k | i <= k < i + |url|
      ensures r[k] == Char(url[k - i], LinkAttrs(url))
    {
      assert r[k] == r[i..i + |url|][k - i];
    }
  }

  class LinkButtonState {
    var isDialogOpen: bool

    constructor ()
      ensures !isDialogOpen
    {
      isDialogOpen := false;
    }

    method HandleOpenDialog()
      modifies this
      ensures isDialogOpen
    {
      isDialogOpen := true;
    }

    method HandleCloseDialog()
      modifies this
      ensures !isDialogOpen
    {
      isDialogOpen := false;
    }

    /**
     * `handleInsertLink(url)`: a non-empty selection is formatted as a link; at a
     * caret the URL goes in as link text with the caret after it; with no
     * selection nothing is written. The formats are refreshed whenever there is
     * an editor.
     */
    method HandleInsertLink(ctx: QuillContext, url: string)
      modifies ctx, ctx.quill
      ensures ctx.quill == old(ctx.quill) && isDialogOpen == old(isDialogOpen)
      ensures old(ctx.quill) == null ==> ctx.formats == old(ctx.formats)
      ensures old(ctx.quill) != null ==>
        var quill := old(ctx.quill);
        && ctx.formats == quill.formats
        && match old(quill.selection)
           case None => unchanged(quill)
           case Some(range) =>
             if range.length > 0 then
               && quill.formats == ApplyChanges(old(quill.formats), map[LINK := Some(FStr(url))])
               && quill.content == FormatAt(old(quill.content), range.index, range.length, map[LINK := Some(FStr(url))])
               && quill.selection == old(quill.selection)
               && quill.log == old(quill.log) + [FormatCall(LINK, Some(FStr(url)), Api)]
             else
               && quill.content == InsertAt(old(quill.content), range.index, TextItems(url, LinkAttrs(url)))
               && quill.selection == Some(Range(range.index + |url|, 0))
               && quill.formats == old(quill.formats)
               && quill.log == old(quill.log) + [InsertTextCall(range.index, url, LinkAttrs(url), Api),
                                                 SetSelectionCall(range.index + |url|, 0, Api)]
    {
      var quill := ctx.quill;
      if quill == null {
        return;
      }
      var selection := quill.selection;
      if selection.Some? {
        if selection.value.length > 0 {
          quill.FormatInline(LINK, Some(FStr(url)), Api);
        } else {
          quill.InsertText(selection.value.index, url, LinkAttrs(url), Api);
          quill.SetSelection(selection.value.index + |url|, 0, Api);
        }
      }
      ctx.RefreshFormats();
    }

    /**
     * `handleRemoveLink`: drop the `link` format at the selection — from the
     * selected characters when the selection is non-empty — then refresh;
     * nothing without an editor.
     */
    method HandleRemoveLink(ctx: QuillContext)
      modifies ctx, ctx.quill
      ensures ctx.quill == old(ctx.quill) && isDialogOpen == old(isDialogOpen)
      ensures old(ctx.quill) == null ==> ctx.formats == old(ctx.formats)
      ensures old(ctx.quill) != null ==>
        var quill := old(ctx.quill);
        && quill.formats == ApplyChanges(old(quill.formats), map[LINK := None])
        && quill.content == (match old(quill.selection)
                             case Some(range) =>
                               if range.length > 0 then FormatAt(old(quill.content), range.index, range.length, map[LINK := None])
                               else old(quill.content)
                             case None => old(quill.content))
        && quill.selection == old(quill.selection)
        && quill.log == old(quill.log) + [FormatCall(LINK, None, Api)]
        && ctx.formats == quill.formats
        && CurrentUrl(ctx.formats) == "" && !IsActive(ctx.formats)
    {
      var quill := ctx.quill;
      if quill == null {
        return;
      }
      quill.FormatInline(LINK, None, Api);
      ctx.RefreshFormats();
    }
  }

  /**
   * Setting or removing the link on a selection inside the document: the text
   * is unchanged, every selected item has exactly the new `link` value and
   * keeps its other formats, and every item outside the selection is untouched.
   */
  lemma SelectionLinkFormatted(doc: seq<Item>, index: int, length: int, value: FmtChange)
    requires 0 <= index && 0 < length && index + length <= |doc|
    ensures var r := FormatAt(doc, index, length, map[LINK := value]);
      && |r| == |doc| && Chars(r) == Chars(doc)
      && (forall k :: index <= k < index + length ==> FormatOf(r[k].attrs, LINK) == value)
      && (forall k, name :: index <= k < index + length && name != LINK ==>
            FormatOf(r[k].attrs, name) == FormatOf(doc[k].attrs, name))
      && (forall k :: 0 <= k < |doc| && !(index <= k < index + length) ==> r[k] == doc[k])
  {
    var r := FormatAt(doc, index, length, map[LINK := value]);
    FormatKeepsText(doc, index, length, map[LINK := value]);
    forall k | index <= k < index + length
      ensures r[k].attrs == ApplyChanges(doc[k].attrs, map[LINK := value])
    {
      assert r[k] == WithAttrs(doc[k], ApplyChanges(doc[k].attrs, map[LINK := value]));
    }
  }

  /** Formatting the selection as a link makes the dialog open on that link next time, in edit mode when it is non-empty. */
  lemma FormattedLinkIsCurrent(formats: Attrs, url: string)
    ensures var after := ApplyChanges(formats, map[LINK := Some(FStr(url))]);
      CurrentUrl(after) == url && (IsActive(after) <==> url != "")
  {
  }

  /**
   * The dialog and the button together: a bare host typed at caret 1 of "ab"
   * goes in as `https://example.com` link text, and the caret lands after it.
   */
  method SubmitThenInsertAtCaret(parse: Url.Parser)
    requires parse("example.com").None? && parse("https://example.com").Some?
  {
    var doc := TextItems("ab", map[]);
    var quill := new Editor(doc, Some(Range(1, 0)), map[]);
    var ctx := new QuillContext(quill);
    var button := new LinkButtonState();
    button.HandleOpenDialog();
    var dialog := new LinkDialog.LinkDialogState(CurrentUrl(ctx.formats), SelectedText(quill));
    dialog.HandleChange(" " + "example.com" + " ");
    LinkDialog.SubmitBareHostOutcome(parse);
    var prevented := dialog.HandleSubmit(parse);
    assert dialog.calls == [LinkDialog.InsertCall("https://example.com"), LinkDialog.CloseCall];
    button.HandleInsertLink(ctx, "https://example.com");
    button.HandleCloseDialog();
    InsertedLinkReadsBack(doc, 1, "https://example.com");
    assert GetText(quill.content, 1, 19) == "https://example.com";
    assert quill.selection == Some(Range(20, 0));
    assert !button.isDialogOpen;
  }
}
