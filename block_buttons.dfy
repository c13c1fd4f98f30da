/**
 * The quote and divider buttons of the toolbar: a block format toggled at the
 * selection, and a divider inserted on a line of its own at the caret.
 */
module BlockButtons {
  import opened Wrappers
  import opened Document
  import opened ToolbarContext

  /** The formats after `quill.format(f, !formats[f])`: a truthy format is removed, a falsy one set to `true`. */
  function Toggled(formats: Attrs, f: string): Attrs {
    ApplyChanges(formats, map[f := if FormatTruthy(FormatOf(formats, f)) then None else Some(FTrue)])
  }

  /** Toggling negates the format's truthiness and touches no other format. */
  lemma ToggleFlips(formats: Attrs, f: string)
    ensures FormatTruthy(FormatOf(Toggled(formats, f), f)) == !FormatTruthy(FormatOf(formats, f))
    ensures forall g :: g != f ==> FormatOf(Toggled(formats, f), g) == FormatOf(formats, g)
  {
  }

  /** Toggling twice gives back the format's truthiness. */
  lemma ToggleTwice(formats: Attrs, f: string)
    ensures FormatTruthy(FormatOf(Toggled(Toggled(formats, f), f), f)) == FormatTruthy(FormatOf(formats, f))
  {
    ToggleFlips(formats, f);
    ToggleFlips(Toggled(formats, f), f);
  }

  /** `formatBlock(f)`: set `f` to the negation of its value at the selection, then refresh; nothing without an editor. */
  method FormatBlock(ctx: QuillContext, f: string)
    modifies ctx, ctx.quill
    ensures ctx.quill == old(ctx.quill)
    ensures old(ctx.quill) == null ==> ctx.formats == old(ctx.formats)
    ensures old(ctx.quill) != null ==>
      var quill := old(ctx.quill);
      && quill.formats == Toggled(old(quill.formats), f)
      && quill.log == old(quill.log) + [FormatCall(f, if FormatTruthy(FormatOf(old(quill.formats), f)) then None else Some(FTrue), Api)]
      && quill.content == old(quill.content) && quill.selection == old(quill.selection)
      && ctx.formats == quill.formats
  {
    var quill := ctx.quill;
    if quill == null {
      return;
    }
    var current := FormatOf(quill.formats, f);
    quill.Format(f, if FormatTruthy(current) then None else Some(FTrue), Api);
    ctx.RefreshFormats();
  }

  const NEWLINE: Item := Char('\n', map[])
  const DIVIDER: Item := Embed(DividerEmbed, map[])

  /** The document after the three insertions of `insertDivider` at offset `i`. */
  function DividerEdit(doc: seq<Item>, i: int): seq<Item> {
    InsertAt(InsertAt(InsertAt(doc, i, [NEWLINE]), i + 1, [DIVIDER]), i + 2, [NEWLINE])
  }

  /** The divider sits on a line of its own at the (clamped) caret; the rest of the document is untouched. */
  lemma DividerEditSpec(doc: seq<Item>, i: int)
    requires i >= 0
    ensures var k := Clamp(i, |doc|);
      DividerEdit(doc, i) == doc[..k] + [NEWLINE, DIVIDER, NEWLINE] + doc[k..]
  {
    var k := Clamp(i, |doc|);
    var d1 := InsertAt(doc, i, [NEWLINE]);
    assert d1 == doc[..k] + [NEWLINE] + doc[k..];
    var d2 := InsertAt(d1, i + 1, [DIVIDER]);
    assert Clamp(i + 1, |d1|) == k + 1;
    assert d1[..k + 1] == doc[..k] + [NEWLINE] && d1[k + 1..] == doc[k..];
    assert d2 == doc[..k] + [NEWLINE, DIVIDER] + doc[k..];
    assert Clamp(i + 2, |d2|) == k + 2;
    assert d2[..k + 2] == doc[..k] + [NEWLINE, DIVIDER] && d2[k + 2..] == doc[k..];
  }

  /** `insertDivider`: newline, divider, newline at the caret, then the caret after them; nothing without a selection or an editor. */
  method InsertDivider(ctx: QuillContext)
    modifies ctx.quill
    ensures old(ctx.quill) != null && old(ctx.quill.selection).Some? ==>
      var quill, i := old(ctx.quill), old(ctx.quill.selection).value.index;
      && quill.content == DividerEdit(old(quill.content), i)
      && quill.selection == Some(Range(i + 3, 0))
      && quill.log == old(quill.log) + [InsertTextCall(i, "\n", map[], Api), InsertEmbedCall(i + 1, DividerEmbed, Api),
                                        InsertTextCall(i + 2, "\n", map[], Api), SetSelectionCall(i + 3, 0, Api)]
      && quill.formats == old(quill.formats)
    ensures old(ctx.quill) != null && old(ctx.quill.selection).None? ==> unchanged(ctx.quill)
  {
    var quill := ctx.quill;
    if quill == null {
      return;
    }
    var range := quill.selection;
    if range.None? {
      return;
    }
    WriteDivider(quill, range.value.index);
  }

  /** The writes of `insertDivider` at offset `i`, in order. */
  method WriteDivider(quill: Editor, i: int)
    modifies quill
    ensures quill.content == DividerEdit(old(quill.content), i)
    ensures quill.selection == Some(Range(i + 3, 0)) && quill.formats == old(quill.formats)
    ensures quill.log == old(quill.log) + [InsertTextCall(i, "\n", map[], Api), InsertEmbedCall(i + 1, DividerEmbed, Api),
                                           InsertTextCall(i + 2, "\n", map[], Api), SetSelectionCall(i + 3, 0, Api)]
  {
    assert TextItems("\n", map[]) == [NEWLINE];
    quill.InsertText(i, "\n", map[], Api);
    quill.InsertEmbed(i + 1, DividerEmbed, Api);
    quill.InsertText(i + 2, "\n", map[], Api);
    quill.SetSelection(i + 3, 0, Api);
  }

  /** A divider at caret 1 of "ab": `a`, newline, divider, newline, `b`, and the caret at 4. */
  method DividerExample()
  {
    var doc := [Char('a', map[]), Char('b', map[])];
    var quill := new Editor(doc, Some(Range(1, 0)), map[]);
    var ctx := new QuillContext(quill);
    InsertDivider(ctx);
    DividerEditSpec(doc, 1);
    assert quill.content == [Char('a', map[]), NEWLINE, DIVIDER, NEWLINE, Char('b', map[])];
    assert quill.selection == Some(Range(4, 0));
  }
}
