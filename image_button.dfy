/**
 * The toolbar's image button: toggles the image dialog and inserts the image
 * the dialog hands back at the caret.
 */
module ImageButton {
  import opened Wrappers
  import opened Document
  import opened ToolbarContext

  /**
   * An image inserted at an offset inside the document sits at that offset,
   * the items around it are kept in order, and the document's text is unchanged
   * (an embed has no characters).
   */
  lemma {:induction false} InsertedImageKeepsText(doc: seq<Item>, i: int, url: string)
    requires 0 <= i <= |doc|
    ensures var r := InsertAt(doc, i, [Embed(ImageEmbed(url), map[])]);
      && |r| == |doc| + 1 && r[i] == Embed(ImageEmbed(url), map[])
      && r[..i] == doc[..i] && r[i + 1..] == doc[i..]
      && Chars(r) == Chars(doc)
  {
    var image := [Embed(ImageEmbed(url), map[])];
    InsertAtSpec(doc, i, image);
    assert InsertAt(doc, i, image) == doc[..i] + image + doc[i..];
    CharsSkipsEmbed(doc[..i], image[0], doc[i..]);
    assert doc[..i] + doc[i..] == doc;
  }

  class ImageButtonState {
    var isDialogOpen: bool

    constructor ()
      ensures !isDialogOpen
    {
      isDialogOpen := false;
    }

    /** The button toggles the dialog. */
    method HandleClick()
      modifies this
      ensures isDialogOpen == !old(isDialogOpen)
    {
      isDialogOpen := !isDialogOpen;
    }

    method HandleClose()
      modifies this
      ensures !isDialogOpen
    {
      isDialogOpen := false;
    }

    /**
     * `handleInsertImage(url)`: the image as a user edit at the caret, the caret
     * after it, then refresh; nothing without an editor. Asking for the
     * selection with focus always yields one, so the caller has one.
     */
    method HandleInsertImage(ctx: QuillContext, url: string)
      requires ctx.quill != null ==> ctx.quill.selection.Some?
      modifies ctx, ctx.quill
      ensures ctx.quill == old(ctx.quill) && isDialogOpen == old(isDialogOpen)
      ensures old(ctx.quill) == null ==> ctx.formats == old(ctx.formats)
      ensures old(ctx.quill) != null ==>
        var quill, i := old(ctx.quill), old(ctx.quill.selection).value.index;
        && quill.content == InsertAt(old(quill.content), i, [Embed(ImageEmbed(url), map[])])
        && quill.selection == Some(Range(i + 1, 0))
        && quill.formats == old(quill.formats)
        && quill.log == old(quill.log) + [InsertEmbedCall(i, ImageEmbed(url), User), SetSelectionCall(i + 1, 0, Api)]
        && ctx.formats == quill.formats
    {
      var quill := ctx.quill;
      if quill == null {
        return;
      }
      var range := quill.selection.value;
      quill.InsertEmbed(range.index, ImageEmbed(url), User);
      quill.SetSelection(range.index + 1, 0, Api);
      ctx.RefreshFormats();
    }
  }

  /** An image inserted at caret 2 of "abc" lands between `b` and `c`, with the caret after it. */
  method InsertAtCaretTwo()
  {
    var doc := TextItems("abc", map[]);
    var quill := new Editor(doc, Some(Range(2, 0)), map[]);
    var ctx := new QuillContext(quill);
    var button := new ImageButtonState();
    button.HandleClick();
    button.HandleInsertImage(ctx, "https://example.com/a.png");
    button.HandleClose();
    InsertedImageKeepsText(doc, 2, "https://example.com/a.png");
    assert quill.content[2] == Embed(ImageEmbed("https://example.com/a.png"), map[]);
    assert Chars(quill.content) == Chars(doc);
    assert quill.selection == Some(Range(3, 0));
  }
}
