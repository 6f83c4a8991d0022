/** Reply post-processing: the completion engine's outcome turned into the
    text that is appended to the transcript. */
module Responder {

  import opened Text

  /** Outcome of one call to the completion engine. Every exception the call
      can raise (engine not running, network error, malformed output) is
      `Failure`. */
  datatype Completion = Success(text: string) | Failure

  /** The model's self-introduction that the coach must not show. */
  const LeakMarker: string := "I'm DeepSeek"

  // The fixed texts below are written in pieces so that the verifier can
  // check character membership piece by piece.

  /** What a leaking reply is replaced with. */
  const Redirect: string := "Let's focus on " + "improving your " + "Valorant gameplay! 🎯"

  /** What a failed completion is replaced with. */
  const Fallback: string := "⚠️ AI is " + "currently " + "unavailable. " + "Please try " + "again later!"

  /** A text without the marker's capital 'D' cannot contain the marker. */
  lemma NoCapitalD(s: string)
    requires 'D' !in s
    ensures !Contains(s, LeakMarker)
  {
    assert LeakMarker[4] == 'D';
    MissingCharExcludes(s, LeakMarker, 4);
  }

  /** The redirect text does not itself trip the leak check. */
  lemma RedirectIsClean()
    ensures !Contains(Redirect, LeakMarker)
  {
    NoCapitalD(Redirect);
  }

  /** The fallback text does not trip the leak check either. */
  lemma FallbackIsClean()
    ensures !Contains(Fallback, LeakMarker)
  {
    NoCapitalD(Fallback);
  }

  /** Replaces a reply that contains the marker anywhere by the redirect
      text; any other reply passes through unchanged. */
  function FilterLeak(reply: string): (r: string)
    ensures Contains(reply, LeakMarker) ==> r == Redirect
    ensures !Contains(reply, LeakMarker) ==> r == reply
  {
    if Find(reply, LeakMarker) then Redirect else reply
  }

  /** Filtering twice is filtering once. */
  lemma FilterLeakIdempotent(reply: string)
    ensures FilterLeak(FilterLeak(reply)) == FilterLeak(reply)
  {
    RedirectIsClean();
  }

  /** The text `generate_response` returns for a completion outcome: the
      filtered reply on success, the fallback text on failure. */
  function Generate(c: Completion): (r: string)
    ensures c.Failure? ==> r == Fallback
    ensures c.Success? && Contains(c.text, LeakMarker) ==> r == Redirect
    ensures c.Success? && !Contains(c.text, LeakMarker) ==> r == c.text
  {
    match c
    case Success(text) => FilterLeak(text)
    case Failure => Fallback
  }

  /** Whatever the engine does, the returned text never contains the marker. */
  lemma GenerateNeverLeaks(c: Completion)
    ensures !Contains(Generate(c), LeakMarker)
  {
    RedirectIsClean();
    FallbackIsClean();
  }
}
