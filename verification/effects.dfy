/** Running a server action's awaited side effects (database writes, domain
    registrations) in order inside one `try`: the first effect that throws
    ends the run, and the effects after it are never issued.
 */
module Effects {
  import opened JsValues

  /** A thrown error: its `code` (Prisma sets e.g. `"P2002"` on a unique
      constraint violation) and its `message`. */
  datatype ErrorValue = ErrorValue(code: Option<string>, message: string)

  /** The unique-constraint violation code. */
  const UniqueViolation := "P2002"

  /** How a run ended: every effect succeeded, or the effect at `at` threw. */
  datatype Run = Completed | Aborted(at: nat, error: ErrorValue)

  /** Issue `effects[from..]` in order; `fails(e)` is the error effect `e`
      throws, if any. */
  function RunFrom<E>(effects: seq<E>, fails: E -> Option<ErrorValue>, from: nat): (r: Run)
    requires from <= |effects|
    ensures r.Completed? <==> forall j :: from <= j < |effects| ==> fails(effects[j]).None?
    ensures r.Aborted? ==>
              && from <= r.at < |effects|
              && fails(effects[r.at]) == Some(r.error)
              && forall j :: from <= j < r.at ==> fails(effects[j]).None?
    decreases |effects| - from
  {
    if from == |effects| then Completed
    else match fails(effects[from])
      case Some(error) => Aborted(from, error)
      case None => RunFrom(effects, fails, from + 1)
  }

  /** The effects actually issued by a run: all of them, or those up to and
      including the one that threw. */
  function Issued<E>(effects: seq<E>, run: Run): (issued: seq<E>)
    requires run.Aborted? ==> run.at < |effects|
    ensures issued <= effects
    ensures run.Completed? ==> issued == effects
    ensures run.Aborted? ==> |issued| == run.at + 1
  {
    match run
    case Completed => effects
    case Aborted(at, _) => effects[..at + 1]
  }
}
