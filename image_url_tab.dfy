/**
 * The image dialog's URL tab: a text input whose trimmed value is handed over
 * as the image source when it looks like an image URL.
 */
module ImageUrlTab {
  import opened Text
  import opened Url
  import opened ImageDialog

  /** `isValidUrl`: not empty; a `data:` or `blob:` URL as it is; else a URL whose protocol is `http:`, `https:` or `data:`. */
  function IsValidImageUrl(s: string, parse: Parser): bool {
    if s == "" then false
    else if StartsWith(s, "data:") || StartsWith(s, "blob:") then true
    else
      match parse(s)
      case Some(protocol) => protocol == "http:" || protocol == "https:" || protocol == "data:"
      case None => false
  }

  /** The URLs accepted, and nothing else: unparseable text is refused unless it is a data or blob URL. */
  lemma IsValidImageUrlCases(s: string, parse: Parser)
    ensures IsValidImageUrl(s, parse) <==>
      s != "" && (StartsWith(s, "data:") || StartsWith(s, "blob:") ||
                  (parse(s).Some? && parse(s).value in {"http:", "https:", "data:"}))
  {
  }

  /** Any data URL passes without consulting the parser, so an uploaded image's data URL is accepted here too. */
  lemma DataUrlIsValid(payload: string, parse: Parser)
    ensures IsValidImageUrl("data:" + payload, parse)
  {
    assert ("data:" + payload)[..5] == "data:";
  }

  /** What a submit hands over is never blank and has no surrounding whitespace. */
  lemma {:induction false} SubmittedUrlIsClean(url: string, parse: Parser)
    requires IsValidImageUrl(Trim(url), parse)
    ensures Trim(url) != "" && Trim(Trim(url)) == Trim(url)
  {
    TrimIdempotent(url);
  }

  class ImageUrlTabState {
    var url: string
    /** Shown as a preview error; no handler ever sets it. */
    var previewError: bool
    var calls: seq<DialogCall>

    constructor ()
      ensures url == "" && !previewError && calls == []
    {
      url := "";
      previewError := false;
      calls := [];
    }

    /** `canInsert`: the trimmed input is an image URL and there is no preview error; the submit button is disabled otherwise. */
    predicate CanInsert(parse: Parser)
      reads this
    {
      IsValidImageUrl(Trim(url), parse) && !previewError
    }

    /** Editing the input stores it and clears the preview error. */
    method HandleChange(value: string)
      modifies this
      ensures url == value && !previewError && calls == old(calls)
    {
      url := value;
      previewError := false;
    }

    /** `handleSubmit`: nothing unless an insert is allowed; else hand over the trimmed URL, close, and empty the input. */
    method HandleSubmit(parse: Parser) returns (prevented: bool)
      modifies this
      ensures prevented && previewError == old(previewError)
      ensures old(CanInsert(parse)) ==> calls == old(calls) + [InsertCall(Trim(old(url))), CloseCall] && url == ""
      ensures !old(CanInsert(parse)) ==> calls == old(calls) && url == old(url)
    {
      prevented := true;
      var trimmedUrl := Trim(url);
      if !(IsValidImageUrl(trimmedUrl, parse) && !previewError) {
        return;
      }
      calls := calls + [InsertCall(trimmedUrl), CloseCall];
      url := "";
    }

    /** The Clear button empties the input and nothing else. */
    method Clear()
      modifies this
      ensures url == "" && previewError == old(previewError) && calls == old(calls)
    {
      url := "";
    }
  }

  /** A data URL typed with a trailing space is handed over without it, and the input empties. */
  method SubmitDataUrl(parse: Parser)
  {
    var tab := new ImageUrlTabState();
    tab.HandleChange("data:x ");
    assert "data:x "[..6] == "data:x";
    assert Trim("data:x ") == "data:x" by {
      assert "data:x "[1..] == "ata:x ";
      assert TrimFrom("data:x ") == 0;
      assert TrimTo("data:x ") == 6;
    }
    DataUrlIsValid("x", parse);
    assert "data:" + "x" == "data:x";
    var prevented := tab.HandleSubmit(parse);
    assert tab.calls == [InsertCall("data:x"), CloseCall] && tab.url == "";
  }
}
