/**
 * The link dialog: an input for a URL, validated and normalised on submit and
 * handed to the toolbar's link button, which also supplies the link under the
 * caret (edit mode) and the callbacks for insert, remove and close.
 */
module LinkDialog {
  import opened Wrappers
  import opened Text
  import opened Url

  const ERROR_EMPTY := "Please enter a URL"
  const ERROR_INVALID := "Please enter a valid URL"

  /** `isValidUrl`: relative paths and anchors pass; a parseable URL passes on its protocol; else `https://` is tried in front. */
  function IsValidUrl(s: string, parse: Parser): bool {
    if StartsWith(s, "/") || StartsWith(s, "#") then true
    else
      match parse(s)
      case Some(protocol) => protocol == "http:" || protocol == "https:" || protocol == "mailto:"
      case None => parse("https://" + s).Some?
  }

  /** The three ways a link is accepted, and nothing else. */
  lemma IsValidUrlCases(s: string, parse: Parser)
    ensures IsValidUrl(s, parse) <==>
      || StartsWith(s, "/") || StartsWith(s, "#")
      || (parse(s).Some? && parse(s).value in {"http:", "https:", "mailto:"})
      || (parse(s).None? && parse("https://" + s).Some?)
  {
  }

  /** A link that already carries its target: a path, an anchor, or a `mailto:`, `http://` or `https://` prefix. */
  predicate HasLinkPrefixAsWritten(url: string) {
    || StartsWith(url, "/") || StartsWith(url, "#") || StartsWith(url, "mailto:")
    || StartsWith(url, "http://") || StartsWith(url, "https://")
  }

  /** `normalizeUrl` as written: the scheme tests are case-sensitive. */
  function NormalizeUrlAsWritten(url: string): string {
    if HasLinkPrefixAsWritten(url) then url else "https://" + url
  }

  /** The same prefixes, with the scheme compared ignoring ASCII case as URL schemes are. */
  predicate HasLinkPrefix(url: string) {
    || StartsWith(url, "/") || StartsWith(url, "#") || StartsWithIgnoringCase(url, "mailto:")
    || StartsWithIgnoringCase(url, "http://") || StartsWithIgnoringCase(url, "https://")
  }

  /** `normalizeUrl`, with the scheme recognised in any case: a link without a target gets `https://` in front. */
  function NormalizeUrl(url: string): string {
    if HasLinkPrefix(url) then url else "https://" + url
  }

  /** Every normalised link carries its target, and it ends with the original text. */
  lemma NormalizeUrlHasPrefix(url: string)
    ensures HasLinkPrefix(NormalizeUrl(url))
    ensures NormalizeUrl(url) == url || NormalizeUrl(url) == "https://" + url
  {
    if !HasLinkPrefix(url) {
      var r := "https://" + url;
      assert r[..8] == "https://";
      StartsWithIgnoringCaseOfExact(r, "https://");
    }
  }

  /** Normalising twice is normalising once. */
  lemma NormalizeUrlIdempotent(url: string)
    ensures NormalizeUrl(NormalizeUrl(url)) == NormalizeUrl(url)
  {
    NormalizeUrlHasPrefix(url);
  }

  /** The as-written normaliser is idempotent too: its output always starts with an exact prefix. */
  lemma NormalizeUrlAsWrittenIdempotent(url: string)
    ensures NormalizeUrlAsWritten(NormalizeUrlAsWritten(url)) == NormalizeUrlAsWritten(url)
  {
    var r := "https://" + url;
    assert r[..8] == "https://";
  }

  /** A link whose first character is not `/`, `#`, or a scheme's first letter in either case has no exact prefix. */
  lemma NoExactPrefixByFirstChar(url: string)
    requires url != [] && url[0] !in "/#mh"
    ensures !HasLinkPrefixAsWritten(url)
  {
    assert "/"[0] == '/' && "#"[0] == '#' && "mailto:"[0] == 'm' && "http://"[0] == 'h' && "https://"[0] == 'h';
    DiffersAtStart(url, "/");
    DiffersAtStart(url, "#");
    DiffersAtStart(url, "mailto:");
    DiffersAtStart(url, "http://");
    DiffersAtStart(url, "https://");
  }

  /** A bare host gets `https://`. */
  lemma NormalizeUrlExample()
    ensures NormalizeUrl("example.com") == "https://example.com"
  {
    var host := "example.com";
    assert host[0] == 'e';
    NoExactPrefixByFirstChar(host);
    assert "mailto:"[0] == 'm' && "http://"[0] == 'h' && "https://"[0] == 'h';
    assert !HasLinkPrefix(host);
    BareHostLink();
  }

  lemma BareHostLink()
    ensures "https://" + "example.com" == "https://example.com"
  {
  }

  /** Without upper-case letters both normalisers agree. */
  lemma AsWrittenAgreesOnLowerCase(url: string)
    requires NoUpperAscii(url)
    ensures NormalizeUrlAsWritten(url) == NormalizeUrl(url)
  {
    StartsWithIgnoringCaseOfLower(url, "mailto:");
    StartsWithIgnoringCaseOfLower(url, "http://");
    StartsWithIgnoringCaseOfLower(url, "https://");
  }

  /**
   * `HTTP://example.com` passes validation, since the URL parser reports the
   * scheme in lower case, but as written it is not recognised as having a
   * scheme and is turned into `https://HTTP://example.com`.
   */
  lemma AsWrittenPrefixesUpperCaseScheme(parse: Parser)
    requires parse("HTTP://example.com") == Some("http:")
    ensures IsValidUrl("HTTP://example.com", parse)
    ensures NormalizeUrlAsWritten("HTTP://example.com") == "https://" + "HTTP://example.com"
    ensures NormalizeUrl("HTTP://example.com") == "HTTP://example.com"
  {
    var u := "HTTP://example.com";
    assert u[0] == 'H';
    NoExactPrefixByFirstChar(u);
    assert u[..7] == "HTTP://";
    forall k | 0 <= k < 7
      ensures ToLowerAscii(u[k]) == "http://"[k]
    {
      assert u[k] == "HTTP://"[k];
    }
  }

  /** What a submit leads to: an error message, or the link handed to the caller. */
  datatype SubmitOutcome = Rejected(error: string) | Accepted(link: string)

  /** `handleSubmit` on the input's value: trim, refuse empty, refuse invalid, else normalise. */
  function Submit(input: string, parse: Parser): SubmitOutcome {
    var trimmed := Trim(input);
    if trimmed == [] then Rejected(ERROR_EMPTY)
    else if !IsValidUrl(trimmed, parse) then Rejected(ERROR_INVALID)
    else Accepted(NormalizeUrl(trimmed))
  }

  /**
   * A link is handed over only for non-blank valid input, it carries its target,
   * and it holds the trimmed input; blank input is refused before validation.
   */
  lemma SubmitSpec(input: string, parse: Parser)
    ensures Submit(input, parse).Accepted? <==> Trim(input) != [] && IsValidUrl(Trim(input), parse)
    ensures Submit(input, parse).Rejected? ==>
      (Submit(input, parse).error == ERROR_EMPTY <==> Trim(input) == [])
    ensures Submit(input, parse).Accepted? ==>
      var link := Submit(input, parse).link;
      HasLinkPrefix(link) && (link == Trim(input) || link == "https://" + Trim(input))
  {
    NormalizeUrlHasPrefix(Trim(input));
  }

  /** `handleSubmit` as written, with the case-sensitive normaliser. */
  function SubmitAsWritten(input: string, parse: Parser): SubmitOutcome {
    var trimmed := Trim(input);
    if trimmed == [] then Rejected(ERROR_EMPTY)
    else if !IsValidUrl(trimmed, parse) then Rejected(ERROR_INVALID)
    else Accepted(NormalizeUrlAsWritten(trimmed))
  }

  /**
   * The submit as written and the corrected one refuse the same inputs with
   * the same message, and hand over the same link unless the trimmed input
   * holds an upper-case letter.
   */
  lemma SubmitAsWrittenAgrees(input: string, parse: Parser)
    ensures SubmitAsWritten(input, parse).Rejected? <==> Submit(input, parse).Rejected?
    ensures Submit(input, parse).Rejected? ==> SubmitAsWritten(input, parse) == Submit(input, parse)
    ensures NoUpperAscii(Trim(input)) ==> SubmitAsWritten(input, parse) == Submit(input, parse)
  {
    if NoUpperAscii(Trim(input)) {
      AsWrittenAgreesOnLowerCase(Trim(input));
    }
  }

  /** Whitespace typed around the input makes no difference to a submit. */
  lemma SubmitIgnoresPadding(left: string, input: string, right: string, parse: Parser)
    requires forall k :: 0 <= k < |left| ==> IsWhitespace(left[k])
    requires forall k :: 0 <= k < |right| ==> IsWhitespace(right[k])
    ensures Submit(left + input + right, parse) == Submit(input, parse)
  {
    TrimPadded(left, input, right);
  }

  /** A callback the dialog makes to its owner. */
  datatype DialogCall = InsertCall(url: string) | RemoveCall | CloseCall

  class LinkDialogState {
    /** The link under the caret when the dialog opened, `""` when there is none. */
    const currentUrl: string
    const selectedText: string
    var url: string
    var error: string
    /** The callbacks made so far, in order. */
    var calls: seq<DialogCall>

    constructor (currentUrl: string, selectedText: string)
      ensures this.currentUrl == currentUrl && this.selectedText == selectedText
      ensures url == currentUrl && error == "" && calls == []
    {
      this.currentUrl := currentUrl;
      this.selectedText := selectedText;
      url := currentUrl;
      error := "";
      calls := [];
    }

    /** Edit mode (title "Edit link", a remove button) exactly when the caret was in a link. */
    predicate IsEditing()
    {
      currentUrl != ""
    }

    /** The submit button is disabled exactly when a submit would be refused as empty. */
    function SubmitDisabled(parse: Parser): (r: bool)
      reads this
      ensures r <==> Submit(url, parse) == Rejected(ERROR_EMPTY)
    {
      Trim(url) == []
    }

    /** Editing the input stores it and clears the error. */
    method HandleChange(value: string)
      modifies this
      ensures url == value && error == "" && calls == old(calls)
    {
      url := value;
      error := "";
    }

    /** `handleSubmit`: either report an error, or insert the normalised link and close. */
    method HandleSubmit(parse: Parser) returns (prevented: bool)
      modifies this
      ensures prevented && url == old(url)
      ensures match Submit(old(url), parse)
        case Rejected(message) => error == message && calls == old(calls)
        case Accepted(link) => error == old(error) && calls == old(calls) + [InsertCall(link), CloseCall]
    {
      prevented := true;
      var trimmedUrl := Trim(url);
      if trimmedUrl == [] {
        error := ERROR_EMPTY;
        return;
      }
      if !IsValidUrl(trimmedUrl, parse) {
        error := ERROR_INVALID;
        return;
      }
      calls := calls + [InsertCall(NormalizeUrl(trimmedUrl)), CloseCall];
    }

    /** `handleRemove`: remove the link, then close. */
    method HandleRemove()
      modifies this
      ensures calls == old(calls) + [RemoveCall, CloseCall]
      ensures url == old(url) && error == old(error)
    {
      calls := calls + [RemoveCall, CloseCall];
    }

    /** Escape, the close and cancel buttons and an outside click all close the dialog. */
    method HandleKeyDown(key: string)
      modifies this
      ensures calls == old(calls) + if key == "Escape" then [CloseCall] else []
      ensures url == old(url) && error == old(error)
    {
      if key == "Escape" {
        calls := calls + [CloseCall];
      }
    }
  }

  /** A bare host typed with spaces around it is accepted with `https://` in front. */
  lemma SubmitBareHostOutcome(parse: Parser)
    requires parse("example.com").None? && parse("https://example.com").Some?
    ensures Submit(" " + "example.com" + " ", parse) == Accepted("https://example.com")
  {
    var host := "example.com";
    assert host[0] == 'e' && host[10] == 'm';
    TrimExact(host, 0, 11);
    assert host[0..11] == host;
    SubmitIgnoresPadding(" ", host, " ", parse);
    NoExactPrefixByFirstChar(host);
    NormalizeUrlExample();
  }

  /** Submitting that input inserts the link, then closes the dialog. */
  method SubmitBareHost(parse: Parser)
    requires parse("example.com").None? && parse("https://example.com").Some?
  {
    var dialog := new LinkDialogState("", "");
    dialog.HandleChange(" " + "example.com" + " ");
    SubmitBareHostOutcome(parse);
    var prevented := dialog.HandleSubmit(parse);
    assert dialog.calls == [InsertCall("https://example.com"), CloseCall];
  }
}
