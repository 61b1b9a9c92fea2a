/**
 * The four global events the interpreters broadcast on the window, each with
 * its string detail, and the rule that turns captured output into the payload
 * of an output event.
 */
module Events {

  /** An event as `CustomEventFactory` builds it: the constructor fixes the event name. */
  datatype Event =
    | LangChanged(detail: string)
    | LangOutput(detail: string)
    | LangReady(detail: string)
    | LangError(detail: string)
  {
    /** The event name passed to `new CustomEvent`. */
    function Name(): (r: string)
      ensures |r| > 5 && r[..5] == "lang:"
    {
      match this
      case LangChanged(_) => "lang:changed"
      case LangOutput(_) => "lang:output"
      case LangReady(_) => "lang:ready"
      case LangError(_) => "lang:error"
    }
  }

  /** Two events carry the same name exactly when they are of the same kind. */
  lemma NameIdentifiesKind(e: Event, f: Event)
    ensures e.Name() == f.Name() <==>
      (e.LangChanged? && f.LangChanged?) || (e.LangOutput? && f.LangOutput?) ||
      (e.LangReady? && f.LangReady?) || (e.LangError? && f.LangError?)
  {
  }

  /** The payload of an output event whose run printed nothing. */
  const NO_OUTPUT: string := "Success: No output!"

  /** The payload of an output event: the captured text, or the sentinel when nothing was captured. */
  function OutputPayload(captured: string): (r: string)
    ensures r != ""
    ensures captured != "" ==> r == captured
    ensures captured == "" ==> r == NO_OUTPUT
  {
    if captured != "" then captured else NO_OUTPUT
  }

  /** Some event in `es` is a ready event. */
  predicate AnyReady(es: seq<Event>)
  {
    exists i :: 0 <= i < |es| && es[i].LangReady?
  }
}
