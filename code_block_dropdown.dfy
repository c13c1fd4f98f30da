/**
 * The code-block split button: the main half toggles a code block at the
 * selection, the menu half picks its language. Entering a code block also
 * adds a plain line after the current one so the caret can leave the block.
 */
module CodeBlockDropdown {
  import opened Wrappers
  import opened Document
  import opened ToolbarContext

  const CODE_BLOCK := "code-block"

  datatype LanguageOption = LanguageOption(value: string, title: string)

  /** The languages offered, `plain` first. */
  const LANGUAGE_OPTIONS: seq<LanguageOption> := [
    LanguageOption("plain", "Plain Text"), LanguageOption("javascript", "JavaScript"),
    LanguageOption("typescript", "TypeScript"), LanguageOption("python", "Python"),
    LanguageOption("java", "Java"), LanguageOption("cpp", "C++"), LanguageOption("csharp", "C#"),
    LanguageOption("go", "Go"), LanguageOption("rust", "Rust"), LanguageOption("ruby", "Ruby"),
    LanguageOption("php", "PHP"), LanguageOption("swift", "Swift"), LanguageOption("kotlin", "Kotlin"),
    LanguageOption("sql", "SQL"), LanguageOption("bash", "Bash/Shell"), LanguageOption("json", "JSON"),
    LanguageOption("xml", "HTML/XML"), LanguageOption("css", "CSS"), LanguageOption("markdown", "Markdown"),
    LanguageOption("yaml", "YAML")
  ]

  /** The caret is in a code block when the format is present (a `false` format is never stored). */
  predicate IsInCodeBlock(formats: Attrs) {
    CODE_BLOCK in formats
  }

  /** The language: the format's string value, else `plain`. */
  function CurrentLanguage(formats: Attrs): string {
    if CODE_BLOCK in formats && formats[CODE_BLOCK].FStr? then formats[CODE_BLOCK].s else "plain"
  }

  /** The position of the first option with the given value. */
  function FindOption(options: seq<LanguageOption>, value: string): (r: Option<nat>)
    ensures r.Some? ==> r.value < |options| && options[r.value].value == value
    ensures r.Some? ==> forall j :: 0 <= j < r.value ==> options[j].value != value
    ensures r.None? <==> forall j :: 0 <= j < |options| ==> options[j].value != value
  {
    if options == [] then None
    else if options[0].value == value then Some(0)
    else
      match FindOption(options[1..], value)
      case None => None
      case Some(k) => Some(k + 1)
  }

  /** The option shown: the one for the current language, else the first. */
  function CurrentOption(formats: Attrs): (r: LanguageOption)
    ensures r in LANGUAGE_OPTIONS
    ensures (exists j :: 0 <= j < |LANGUAGE_OPTIONS| && LANGUAGE_OPTIONS[j].value == CurrentLanguage(formats)) ==>
      r.value == CurrentLanguage(formats)
    ensures (forall j :: 0 <= j < |LANGUAGE_OPTIONS| ==> LANGUAGE_OPTIONS[j].value != CurrentLanguage(formats)) ==>
      r == LANGUAGE_OPTIONS[0]
  {
    match FindOption(LANGUAGE_OPTIONS, CurrentLanguage(formats))
    case Some(k) => LANGUAGE_OPTIONS[k]
    case None => LANGUAGE_OPTIONS[0]
  }

  /** A code block set to `true` reads as plain text, and so does an unknown language. */
  lemma PlainWhenNoLanguage(formats: Attrs)
    requires CODE_BLOCK in formats && formats[CODE_BLOCK] == FTrue
    ensures CurrentLanguage(formats) == "plain" && CurrentOption(formats) == LANGUAGE_OPTIONS[0]
  {
    assert LANGUAGE_OPTIONS[0].value == "plain";
  }

  /** The value written for a menu choice: `plain` is the bare code block. */
  function LanguageValue(value: string): Fmt {
    if value == "plain" then FTrue else FStr(value)
  }

  /** The line the engine reports at an offset: where it starts and how long it is. */
  datatype Line = Line(start: int, length: nat)

  /** Where a new line goes: the end of the line at the caret, when there is a caret and a line there. */
  function LineEnd(selection: Option<Range>, lineAt: int -> Option<Line>): Option<int> {
    if selection.None? then None
    else
      match lineAt(selection.value.index)
      case None => None
      case Some(line) => Some(line.start + line.length)
  }

  /** Insert a newline at the end of the caret's line and take the next line out of the code block. */
  method AddTrailingLine(quill: Editor, lineAt: int -> Option<Line>)
    modifies quill
    ensures match LineEnd(old(quill.selection), lineAt)
      case None => unchanged(quill)
      case Some(end) =>
        && quill.content == InsertAt(old(quill.content), end, [Char('\n', map[])])
        && quill.log == old(quill.log) + [InsertTextCall(end, "\n", map[], Api), FormatLineCall(end + 1, 1, CODE_BLOCK, None, Api)]
        && quill.selection == old(quill.selection) && quill.formats == old(quill.formats)
  {
    var range := quill.selection;
    if range.None? {
      return;
    }
    var line := lineAt(range.value.index);
    if line.None? {
      return;
    }
    var lineEndIndex := line.value.start + line.value.length;
    quill.InsertText(lineEndIndex, "\n", map[], Api);
    quill.FormatLine(lineEndIndex + 1, 1, CODE_BLOCK, None, Api);
  }

  class CodeBlockMenu {
    var isOpen: bool

    constructor ()
      ensures !isOpen
    {
      isOpen := false;
    }

    /** The arrow half opens and closes the menu. */
    method ToggleMenu()
      modifies this
      ensures isOpen == !old(isOpen)
    {
      isOpen := !isOpen;
    }

    /** A click outside closes the menu. */
    method HandleOutsideClick()
      modifies this
      ensures !isOpen
    {
      isOpen := false;
    }

    /**
     * `handleButtonClick`: inside a code block, leave it; outside, enter it and add
     * the trailing line; then refresh. Nothing without an editor.
     */
    method HandleButtonClick(ctx: QuillContext, lineAt: int -> Option<Line>)
      modifies ctx, ctx.quill
      ensures ctx.quill == old(ctx.quill) && isOpen == old(isOpen)
      ensures old(ctx.quill) == null ==> ctx.formats == old(ctx.formats)
      ensures old(ctx.quill) != null && IsInCodeBlock(old(ctx.formats)) ==>
        var quill := old(ctx.quill);
        && quill.log == old(quill.log) + [FormatCall(CODE_BLOCK, None, Api)]
        && quill.content == old(quill.content)
        && quill.formats == ApplyChanges(old(quill.formats), map[CODE_BLOCK := None])
        && ctx.formats == quill.formats && !IsInCodeBlock(ctx.formats)
      ensures old(ctx.quill) != null && !IsInCodeBlock(old(ctx.formats)) ==>
        var quill := old(ctx.quill);
        var entered := [FormatCall(CODE_BLOCK, Some(FTrue), Api)];
        && quill.formats == ApplyChanges(old(quill.formats), map[CODE_BLOCK := Some(FTrue)])
        && ctx.formats == quill.formats && IsInCodeBlock(ctx.formats)
        && match LineEnd(old(quill.selection), lineAt)
           case None => quill.content == old(quill.content) && quill.log == old(quill.log) + entered
           case Some(end) =>
             && quill.content == InsertAt(old(quill.content), end, [Char('\n', map[])])
             && quill.log == old(quill.log) + entered
                  + [InsertTextCall(end, "\n", map[], Api), FormatLineCall(end + 1, 1, CODE_BLOCK, None, Api)]
    {
      var quill := ctx.quill;
      if quill == null {
        return;
      }
      if IsInCodeBlock(ctx.formats) {
        quill.Format(CODE_BLOCK, None, Api);
      } else {
        quill.Format(CODE_BLOCK, Some(FTrue), Api);
        AddTrailingLine(quill, lineAt);
      }
      ctx.RefreshFormats();
    }

    /**
     * `handleSelect`: set the code block to the chosen language, add the trailing
     * line only when the caret was not already in a code block, refresh, and close
     * the menu. Without an editor nothing happens and the menu stays as it is.
     */
    method HandleSelect(ctx: QuillContext, value: string, lineAt: int -> Option<Line>)
      modifies this, ctx, ctx.quill
      ensures ctx.quill == old(ctx.quill)
      ensures old(ctx.quill) == null ==> isOpen == old(isOpen) && ctx.formats == old(ctx.formats)
      ensures old(ctx.quill) != null ==>
        var quill := old(ctx.quill);
        var chosen := [FormatCall(CODE_BLOCK, Some(LanguageValue(value)), Api)];
        && !isOpen
        && quill.formats == ApplyChanges(old(quill.formats), map[CODE_BLOCK := Some(LanguageValue(value))])
        && ctx.formats == quill.formats
        && IsInCodeBlock(ctx.formats) && CurrentLanguage(ctx.formats) == value
        && (IsInCodeBlock(old(ctx.formats)) || LineEnd(old(quill.selection), lineAt).None? ==>
              quill.content == old(quill.content) && quill.log == old(quill.log) + chosen)
        && (!IsInCodeBlock(old(ctx.formats)) && LineEnd(old(quill.selection), lineAt).Some? ==>
              var end := LineEnd(old(quill.selection), lineAt).value;
              && quill.content == InsertAt(old(quill.content), end, [Char('\n', map[])])
              && quill.log == old(quill.log) + chosen
                   + [InsertTextCall(end, "\n", map[], Api), FormatLineCall(end + 1, 1, CODE_BLOCK, None, Api)])
    {
      var quill := ctx.quill;
      if quill == null {
        return;
      }
      var wasInCodeBlock := IsInCodeBlock(ctx.formats);
      if value == "plain" {
        quill.Format(CODE_BLOCK, Some(FTrue), Api);
      } else {
        quill.Format(CODE_BLOCK, Some(FStr(value)), Api);
      }
      if !wasInCodeBlock {
        AddTrailingLine(quill, lineAt);
      }
      ctx.RefreshFormats();
      isOpen := false;
    }
  }
}
