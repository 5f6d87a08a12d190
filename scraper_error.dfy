/**
 * The library's error catalogue: nine cases, a description for each, and a decoder
 * that recovers the case (and its payload) from a description.
 */
module ScraperError {
  import opened Wrappers

  /** Errors which can occur during scraping. Equality is Dafny's structural equality, the
      shape of what Swift synthesises for an `Equatable` enum; the payloads are compared
      character by character, where Swift compares strings up to canonical equivalence. */
  datatype SwiftScraperError =
    | ParameterSerialization
    | ContentUnexpected
    | JavascriptError(errorMessage: string)
    | NavigationFailed(errorMessage: string)
    | IncorrectStep
    | Timeout
    | CommonScriptNotFound
    | ScriptNotFound(name: string)
    | CouldNotReadDownloadedFile

  // The texts are written as concatenations of short literals so that the verifier can
  // read the characters that tell them apart.
  const JavascriptErrorPrefix := "A JavaScript error occurred: "
  const NavigationFailedPrefix := "Something went wrong" + " when navigating to the page: "
  const ScriptNotFoundPrefix := "Could not load "
  /** The bundled script whose absence `CommonScriptNotFound` reports. */
  const CommonScriptFile := "SwiftScraper.js"

  const ParameterSerializationText := "Could not serialize" + " the parameters to pass to the script"
  const ContentUnexpectedText := "Something went wrong," + " the page contents was not what was expected"
  const IncorrectStepText := "An incorrect step" + " was specified"
  const TimeoutText := "Timeout occurred" + " while waiting for a step to complete"
  const CommonScriptNotFoundText := "Could not load " + "SwiftScraper.js"
  const CouldNotReadDownloadedFileText := "Unable to read" + " downloaded file"

  predicate HasPrefix(s: string, p: string) {
    |p| <= |s| && s[..|p|] == p
  }

  /** `errorDescription`: the Swift property is optional but every case yields a text. */
  function ErrorDescription(e: SwiftScraperError): (r: string)
    ensures |r| > 0
  {
    match e
    case ParameterSerialization => ParameterSerializationText
    case ContentUnexpected => ContentUnexpectedText
    case JavascriptError(m) => JavascriptErrorPrefix + m
    case NavigationFailed(m) => NavigationFailedPrefix + m
    case IncorrectStep => IncorrectStepText
    case Timeout => TimeoutText
    case CommonScriptNotFound => CommonScriptNotFoundText
    case ScriptNotFound(n) => ScriptNotFoundPrefix + n
    case CouldNotReadDownloadedFile => CouldNotReadDownloadedFileText
  }

  /** The error a description stands for, reading the fixed texts first and then the
      three payload-carrying prefixes. */
  function ErrorFromDescription(d: string): (r: Option<SwiftScraperError>)
    ensures r.Some? ==> |d| > 0
  {
    if d == ParameterSerializationText then Some(ParameterSerialization)
    else if d == ContentUnexpectedText then Some(ContentUnexpected)
    else if d == IncorrectStepText then Some(IncorrectStep)
    else if d == TimeoutText then Some(Timeout)
    else if d == CommonScriptNotFoundText then Some(CommonScriptNotFound)
    else if d == CouldNotReadDownloadedFileText then Some(CouldNotReadDownloadedFile)
    else if HasPrefix(d, JavascriptErrorPrefix) then Some(JavascriptError(d[|JavascriptErrorPrefix|..]))
    else if HasPrefix(d, NavigationFailedPrefix) then Some(NavigationFailed(d[|NavigationFailedPrefix|..]))
    else if HasPrefix(d, ScriptNotFoundPrefix) then Some(ScriptNotFound(d[|ScriptNotFoundPrefix|..]))
    else None
  }

  /** The one error whose description is shared with another case. */
  const CollidingScriptError := ScriptNotFound(CommonScriptFile)

  /** The error `ErrorFromDescription` reads back from `e`'s description. */
  function Canonical(e: SwiftScraperError): SwiftScraperError {
    if e == CollidingScriptError then CommonScriptNotFound else e
  }

  lemma PrefixedText(p: string, m: string)
    ensures HasPrefix(p + m, p) && (p + m)[|p|..] == m
  {
    assert (p + m)[..|p|] == p;
  }

  /** The decoder only reads back descriptions: whatever it accepts is exactly the
      description of the error it returns. */
  lemma DecodedDescriptionsAreExact(d: string)
    ensures ErrorFromDescription(d).Some? ==> ErrorDescription(ErrorFromDescription(d).value) == d
  {
    if d in FixedTexts() {
      assert ErrorDescription(ErrorFromDescription(d).value) == d;
    } else if HasPrefix(d, JavascriptErrorPrefix) {
      PrefixSplit(d, JavascriptErrorPrefix);
      assert ErrorFromDescription(d) == Some(JavascriptError(d[|JavascriptErrorPrefix|..]));
    } else if HasPrefix(d, NavigationFailedPrefix) {
      PrefixSplit(d, NavigationFailedPrefix);
      assert ErrorFromDescription(d) == Some(NavigationFailed(d[|NavigationFailedPrefix|..]));
    } else if HasPrefix(d, ScriptNotFoundPrefix) {
      PrefixSplit(d, ScriptNotFoundPrefix);
      assert ErrorFromDescription(d) == Some(ScriptNotFound(d[|ScriptNotFoundPrefix|..]));
    } else {
      assert ErrorFromDescription(d).None?;
    }
  }

  /** The descriptions of the six cases without a payload. */
  function FixedTexts(): set<string> {
    {ParameterSerializationText, ContentUnexpectedText, IncorrectStepText, TimeoutText,
     CommonScriptNotFoundText, CouldNotReadDownloadedFileText}
  }

  lemma PrefixSplit(d: string, p: string)
    requires HasPrefix(d, p)
    ensures d == p + d[|p|..]
  {
    assert d == d[..|p|] + d[|p|..];
  }

  /** Every description decodes to its own error, except `ScriptNotFound("SwiftScraper.js")`,
      which decodes to `CommonScriptNotFound`. */
  lemma DescriptionRoundTrip(e: SwiftScraperError)
    ensures ErrorFromDescription(ErrorDescription(e)) == Some(Canonical(e))
  {
    var d := ErrorDescription(e);
    match e
    case JavascriptError(m) => JavascriptErrorRoundTrip(m);
    case NavigationFailed(m) => NavigationFailedRoundTrip(m);
    case ScriptNotFound(n) => ScriptNotFoundRoundTrip(n);
    case ParameterSerialization =>
    case ContentUnexpected =>
      assert d[0] != ParameterSerializationText[0];
    case IncorrectStep =>
      assert d[0] != ParameterSerializationText[0] && d[0] != ContentUnexpectedText[0];
    case Timeout =>
      assert d[0] != ParameterSerializationText[0] && d[0] != ContentUnexpectedText[0];
      assert d[0] != IncorrectStepText[0];
    case CommonScriptNotFound =>
      assert d[10] != ParameterSerializationText[10] && d[0] != ContentUnexpectedText[0];
      assert d[0] != IncorrectStepText[0] && d[0] != TimeoutText[0];
    case CouldNotReadDownloadedFile =>
      assert d[0] != ParameterSerializationText[0] && d[0] != ContentUnexpectedText[0];
      assert d[0] != IncorrectStepText[0] && d[0] != TimeoutText[0];
      assert d[0] != CommonScriptNotFoundText[0];
  }

  lemma JavascriptErrorRoundTrip(m: string)
    ensures ErrorFromDescription(ErrorDescription(JavascriptError(m))) == Some(JavascriptError(m))
  {
    var d := ErrorDescription(JavascriptError(m));
    PrefixedText(JavascriptErrorPrefix, m);
    assert d[1] == ' ';
    assert d != ParameterSerializationText && d != CommonScriptNotFoundText;
    assert d[0] == 'A' && d[1] != IncorrectStepText[1];
  }

  lemma NavigationFailedRoundTrip(m: string)
    ensures ErrorFromDescription(ErrorDescription(NavigationFailed(m))) == Some(NavigationFailed(m))
  {
    var d := ErrorDescription(NavigationFailed(m));
    PrefixedText(NavigationFailedPrefix, m);
    assert d[0] == 'S' && d[20] == ' ' && d[20] != ContentUnexpectedText[20];
    assert !HasPrefix(d, JavascriptErrorPrefix) by { assert d[0] != JavascriptErrorPrefix[0]; }
  }

  lemma ScriptNotFoundRoundTrip(n: string)
    ensures ErrorFromDescription(ErrorDescription(ScriptNotFound(n))) == Some(Canonical(ScriptNotFound(n)))
  {
    var d := ErrorDescription(ScriptNotFound(n));
    PrefixedText(ScriptNotFoundPrefix, n);
    if n == CommonScriptFile {
      assert d == CommonScriptNotFoundText;
    } else {
      assert d[0] == 'C' && d[10] == 'l' && d[10] != ParameterSerializationText[10];
      assert !HasPrefix(d, JavascriptErrorPrefix) by { assert d[0] != JavascriptErrorPrefix[0]; }
      assert !HasPrefix(d, NavigationFailedPrefix) by { assert d[0] != NavigationFailedPrefix[0]; }
      assert d != CommonScriptNotFoundText;
    }
  }

  /** `errorDescription` tells errors apart with exactly one exception: `CommonScriptNotFound`
      and `ScriptNotFound("SwiftScraper.js")` share the text "Could not load SwiftScraper.js". */
  lemma DescriptionCollision(a: SwiftScraperError, b: SwiftScraperError)
    requires a != b
    ensures ErrorDescription(a) == ErrorDescription(b) <==>
              (a == CommonScriptNotFound && b == CollidingScriptError) ||
              (a == CollidingScriptError && b == CommonScriptNotFound)
  {
    DescriptionRoundTrip(a);
    DescriptionRoundTrip(b);
    if a == CollidingScriptError || b == CollidingScriptError {
      assert ErrorDescription(CollidingScriptError) == CommonScriptNotFoundText;
    }
  }

  /** Distinct JavaScript messages give distinct descriptions. */
  lemma JavascriptErrorDescriptionInjective(m1: string, m2: string)
    ensures ErrorDescription(JavascriptError(m1)) == ErrorDescription(JavascriptError(m2)) <==> m1 == m2
  {
    if m1 != m2 {
      DescriptionCollision(JavascriptError(m1), JavascriptError(m2));
    }
  }

  /** Distinct navigation messages give distinct descriptions. */
  lemma NavigationFailedDescriptionInjective(m1: string, m2: string)
    ensures ErrorDescription(NavigationFailed(m1)) == ErrorDescription(NavigationFailed(m2)) <==> m1 == m2
  {
    if m1 != m2 {
      DescriptionCollision(NavigationFailed(m1), NavigationFailed(m2));
    }
  }

  /** The cases without a payload each have a description no other error has. */
  lemma PayloadFreeDescriptionsAreUnique(e: SwiftScraperError, other: SwiftScraperError)
    requires e.ParameterSerialization? || e.ContentUnexpected? || e.IncorrectStep? || e.Timeout?
          || e.CouldNotReadDownloadedFile?
    requires ErrorDescription(other) == ErrorDescription(e)
    ensures other == e
  {
    if other != e {
      DescriptionCollision(e, other);
    }
  }
}
