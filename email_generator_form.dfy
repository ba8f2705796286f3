/**
 * The URL form of the wizard's first step: the submit handler trims the
 * input and refuses a blank one; the error line and the submit button's
 * disabled state depend on the URL parser's verdict. That verdict (does
 * `new URL(s)` accept `s`, per the basic URL parser of the WHATWG URL
 * Standard) is a parameter `urlParses`.
 */
module EmailGeneratorForm {

  import opened Wrappers
  import opened Strings

  /**
   * `handleSubmit`: the argument `onSubmit` is called with, or None when it is
   * not called. It consults neither the URL parser nor the loading flag.
   */
  function HandleSubmit(url: string): (r: Option<string>)
    ensures r.Some? <==> !AllSpace(url, IsJsSpace)
    ensures r.Some? ==> r.value == JsTrim(url)
    ensures r.Some? ==> r.value != [] && !IsJsSpace(r.value[0]) && !IsJsSpace(r.value[|r.value| - 1])
  {
    TrimEmptyIff(url, IsJsSpace);
    TrimShape(url, IsJsSpace);
    var trimmed := JsTrim(url);
    if trimmed != "" then Some(trimmed) else None
  }

  /** `isValidUrl`: the URL constructor's verdict; the try/catch means it never throws. */
  predicate IsValidUrl(urlParses: string -> bool, url: string)
  {
    urlParses(url)
  }

  /** "Please enter a valid URL" is shown for a non-empty URL the parser rejects. */
  predicate ShowsError(urlParses: string -> bool, url: string)
  {
    url != "" && !IsValidUrl(urlParses, url)
  }

  /** The submit button's `disabled` attribute. */
  predicate SubmitDisabled(isLoading: bool, urlParses: string -> bool, url: string)
  {
    isLoading || JsTrim(url) == "" || !IsValidUrl(urlParses, url)
  }

  /**
   * An enabled button submits: when the button is enabled, the handler calls
   * `onSubmit` with the trimmed URL, and the untrimmed URL was accepted by the parser.
   */
  lemma EnabledButtonSubmits(isLoading: bool, urlParses: string -> bool, url: string)
    requires !SubmitDisabled(isLoading, urlParses, url)
    ensures HandleSubmit(url) == Some(JsTrim(url))
    ensures urlParses(url) && !isLoading
  {
  }

  /** Whenever the error line is shown, the button is disabled. */
  lemma ErrorDisablesSubmit(isLoading: bool, urlParses: string -> bool, url: string)
    requires ShowsError(urlParses, url)
    ensures SubmitDisabled(isLoading, urlParses, url)
  {
  }

  /**
   * The validity check lives only in the button's disabled state: the handler
   * submits any URL with a non-space character, trimmed, whatever the parser
   * and the loading flag say, while the button is disabled for every URL the
   * parser rejects.
   */
  lemma HandlerIgnoresValidity(isLoading: bool, urlParses: string -> bool, url: string)
    requires !AllSpace(url, IsJsSpace)
    ensures HandleSubmit(url) == Some(JsTrim(url))
    ensures !urlParses(url) ==> SubmitDisabled(isLoading, urlParses, url)
  {
  }

  /** A padded word that is no URL is still submitted, without its padding. */
  lemma PaddedWordSubmitted()
    ensures HandleSubmit(" careers ") == Some("careers")
  {
    var s := " careers ";
    assert TrimLeft(s, IsJsSpace) == s[1..];
    assert s[1..][..|s[1..]| - 1] == "careers";
  }

  /** What the handler passes on is already trimmed: submitting it again passes the same value. */
  lemma SubmittedValueIsTrimmed(url: string)
    requires HandleSubmit(url).Some?
    ensures HandleSubmit(HandleSubmit(url).value) == HandleSubmit(url)
  {
    TrimIdempotent(url, IsJsSpace);
  }
}
