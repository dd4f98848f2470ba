/** What the microphone loop does with the speech engine's answer: the engine
    either fails (writing the clip, running the model or reading its "text"
    entry raised) or returns a text, which is trimmed of surrounding
    whitespace exactly as Python's `str.strip()` does. */
module Transcriber {
  import opened Wrappers

  /** The outcome of one call into the speech engine for one clip. */
  datatype EngineOutcome = Transcribed(text: string) | EngineFailed

  /** Python's notion of whitespace (`str.isspace`), which `str.strip()`
      removes from both ends. */
  predicate IsSpace(c: char) {
    || ('\t' <= c <= '\r')
    || ('\U{1C}' <= c <= '\U{1F}')
    || c == ' '
    || c == '\U{85}'
    || c == '\U{A0}'
    || c == '\U{1680}'
    || ('\U{2000}' <= c <= '\U{200A}')
    || c == '\U{2028}'
    || c == '\U{2029}'
    || c == '\U{202F}'
    || c == '\U{205F}'
    || c == '\U{3000}'
  }

  ghost predicate AllSpace(s: string) {
    forall i :: 0 <= i < |s| ==> IsSpace(s[i])
  }

  /** The length of the run of whitespace at the start of `s`. */
  function LeadingSpaces(s: string): (k: nat)
    ensures k <= |s|
    ensures forall i :: 0 <= i < k ==> IsSpace(s[i])
    ensures k < |s| ==> !IsSpace(s[k])
  {
    if s == [] || !IsSpace(s[0]) then 0 else 1 + LeadingSpaces(s[1..])
  }

  /** The length of the run of whitespace at the end of `s`. */
  function TrailingSpaces(s: string): (k: nat)
    ensures k <= |s|
    ensures forall i :: |s| - k <= i < |s| ==> IsSpace(s[i])
    ensures k < |s| ==> !IsSpace(s[|s| - k - 1])
  {
    if s == [] || !IsSpace(s[|s| - 1]) then 0 else 1 + TrailingSpaces(s[..|s| - 1])
  }

  /** Non-empty, and neither starting nor ending with whitespace. */
  predicate Trimmed(s: string) {
    s != [] && !IsSpace(s[0]) && !IsSpace(s[|s| - 1])
  }

  /** `s.strip()`: the part of `s` between its leading and trailing
      whitespace. The result is empty exactly when `s` is all whitespace,
      and otherwise starts and ends with a non-whitespace character. */
  function Strip(s: string): (r: string)
    ensures r == [] <==> AllSpace(s)
    ensures r != [] ==> Trimmed(r)
  {
    var i := LeadingSpaces(s);
    if i == |s| then []
    else
      var k := TrailingSpaces(s);
      s[i..|s| - k]
  }

  /** What `strip` cuts off is whitespace: the result sits in `s` right after
      its leading whitespace, and every character of `s` outside it is
      whitespace. */
  lemma StripCutsSpace(s: string)
    ensures var i, r := LeadingSpaces(s), Strip(s);
      && i + |r| <= |s|
      && r == s[i..i + |r|]
      && forall n :: 0 <= n < |s| && !(i <= n < i + |r|) ==> IsSpace(s[n])
  {
  }

  /** A text that neither starts nor ends with whitespace is left as it is;
      in particular stripping twice changes nothing more than stripping once. */
  lemma StripTrimmed(s: string)
    requires Trimmed(s)
    ensures Strip(s) == s
  {
    assert LeadingSpaces(s) == 0;
    assert s[0..] == s;
    assert TrailingSpaces(s) == 0;
  }

  lemma StripIdempotent(s: string)
    ensures Strip(Strip(s)) == Strip(s)
  {
    if Strip(s) != [] {
      StripTrimmed(Strip(s));
    }
  }

  /** The text line the loop keeps for an engine outcome:
      nothing when the engine failed or returned only whitespace, otherwise
      the trimmed text, which is non-empty and has no surrounding whitespace. */
  function Detected(outcome: EngineOutcome): (r: Option<string>)
    ensures r.Some? <==> outcome.Transcribed? && !AllSpace(outcome.text)
    ensures r.Some? ==> Trimmed(r.value)
    ensures r.Some? ==> r.value == Strip(outcome.text)
  {
    match outcome
    case EngineFailed => None
    case Transcribed(text) =>
      var t := Strip(text);
      if t != [] then Some(t) else None
  }
}
