/** Build statuses and the guarded transition of `BuildService`. */
module Builds {
  import opened Options

  datatype BuildStatus =
    | Queued | Validating | Triggering | Building | Deploying
    | Succeeded | Failed | Cancelled

  predicate Terminal(s: BuildStatus) {
    s in {Succeeded, Failed, Cancelled}
  }

  /** `ALLOWED_BUILD_TRANSITIONS` */
  function Allowed(s: BuildStatus): set<BuildStatus> {
    match s
    case Queued => {Validating, Failed, Cancelled}
    case Validating => {Triggering, Failed, Cancelled}
    case Triggering => {Building, Failed, Cancelled}
    case Building => {Deploying, Failed, Cancelled}
    case Deploying => {Succeeded, Failed, Cancelled}
    case _ => {}
  }

  /** One stage further, or FAILED or CANCELLED from any status that is not final. */
  lemma AllowedExactly(s: BuildStatus, t: BuildStatus)
    ensures t in Allowed(s) <==>
      || (t in {Failed, Cancelled} && s !in {Succeeded, Failed, Cancelled})
      || (s == Queued && t == Validating) || (s == Validating && t == Triggering) || (s == Triggering && t == Building)
      || (s == Building && t == Deploying) || (s == Deploying && t == Succeeded)
  {
  }

  datatype InvalidTransition = InvalidTransition

  /** `BuildService.transition`: the caller read `seen`, the repository compares
      it with `stored` before it writes. The result is the new stored status. */
  function Transition(seen: BuildStatus, stored: BuildStatus, target: BuildStatus): Result<BuildStatus, InvalidTransition> {
    if seen == target then Ok(stored)
    else if Terminal(seen) || target !in Allowed(seen) then Err(InvalidTransition)
    else if stored == seen then Ok(target)
    else if stored == target then Ok(stored)
    else Err(InvalidTransition)
  }

  /** The status `BuildService.fail` leaves when nothing else writes in between. */
  function FailedFrom(s: BuildStatus): BuildStatus {
    if Terminal(s) then s else Failed
  }

  /** Consecutive statuses are equal or allowed. */
  predicate Follows(history: seq<BuildStatus>) {
    forall i :: 0 <= i < |history| - 1 ==> history[i + 1] == history[i] || history[i + 1] in Allowed(history[i])
  }

  /** A transition asked for on a stale status still moves along the table. */
  lemma TransitionFollows(seen: BuildStatus, stored: BuildStatus, target: BuildStatus)
    ensures var r := Transition(seen, stored, target);
            r.Ok? ==> r.value == stored || (r.value == target && target in Allowed(stored))
    ensures Terminal(stored) ==> Allowed(stored) == {}
  {
  }

  lemma {:induction false} TerminalIsKept(history: seq<BuildStatus>, i: nat, j: nat)
    requires Follows(history) && i <= j < |history| && Terminal(history[i])
    ensures history[j] == history[i]
    decreases j - i
  {
    if i < j {
      TransitionFollows(history[i], history[i], history[i]);
      assert history[i + 1] == history[i];
      TerminalIsKept(history, i + 1, j);
    }
  }
}
