/** The dynamic check of one build and the delivery around it, restartable at
    every persisted write. A worker is one leased operation; it may crash or lose
    its lease at any point, and the next one re-enters `execute` from the saved
    record. `guard()` and the write behind it are one step, enabled only for the
    lease holder; an external call is a step of its own and needs no lease. Which
    worker holds the lease is kept abstractly: CleanupProtocol proves that there
    is at most one holder and that a lost lease is never regained. */
module Delivery {
  import opened Options
  import opened Manifests
  import B = Builds

  type RunId = nat

  datatype CheckStatus = Pending | Waiting | InProgress | Passed | Rejected

  datatype TeardownStatus = ToDo | Ongoing | Complete | Partial

  /** The external calls of one check run; `Agent` is the Debug Agent. */
  datatype Call = Probe | Agent | Retry

  /** The fields of `BuildJob` the dynamic check and the delivery read or write.
      `initial` and `retry` are the `passed` flags inside `probe_result`. */
  datatype Build = Build(
    status: B.BuildStatus,
    check: CheckStatus,
    checkPassed: Option<bool>,
    run: Option<RunId>,
    reserved: set<Call>,
    repair: bool,
    initial: Option<bool>,
    retry: Option<bool>,
    teardownRequired: bool,
    teardownStatus: Option<TeardownStatus>)

  datatype Phase =
    | Idle
    | Started(run: RunId)                               // run id known, not yet "running"
    | Executing(run: RunId)                             // deciding from the saved record
    | Calling(call: Call, run: RunId)                   // reservation saved, call not yet made
    | Called(call: Call, run: RunId, good: bool)        // answer in memory only
    | Failing                                           // failed verdict saved, build not yet failed
    | Checked                                           // `execute` returned
    | Raised                                            // an exception is on its way to `_fail`
    | Gone

  /** One external call that was made, by whom and how it came out. */
  datatype Made = Made(run: RunId, call: Call, worker: Token, good: bool)

  /** `permits` records who reserved which call of which run; no step reads it.
      `syncs` are the cleanup statuses read by `sync_teardown` calls under way,
      `tearing` says that some `teardown` has read `teardown_required`. */
  datatype World = World(
    build: Build,
    cleanup: CleanupStatus,
    holder: Option<Token>,
    workers: map<Token, Phase>,
    nextToken: Token,
    nextRun: RunId,
    made: seq<Made>,
    permits: map<(RunId, Call), Token>,
    syncs: set<CleanupStatus>,
    tearing: bool)

  datatype Step =
    | Enter(t: Token) | Lose | Leave(t: Token) | Crash(t: Token)
    | Progress(t: Token, target: B.BuildStatus)
    | Submit(t: Token)
    | Begin(t: Token)
    | MarkRunning(t: Token)
    | Reserve(t: Token)
    | CallOut(t: Token, good: bool)
    | Keep(t: Token)
    | Conclude(t: Token)
    | Except(t: Token)
    | FailBuild(t: Token)
    | Deliver(t: Token)
    | Raise(t: Token)
    | MarkFailed(t: Token)
    | RecoverFailed
    | DispatchFailed
    | Cancel
    | EnqueueCleanup
    | CleanupMoves(status: CleanupStatus)
    | SyncRead
    | SyncWrite(status: CleanupStatus)
    | TeardownRead
    | TeardownWrite(outcome: TeardownStatus)

  // ------------------------------------------------------------ the decisions

  datatype Action = Ask(call: Call) | Finish(passed: bool)

  /** What `execute` does next, given the saved record of a run that is running. */
  function Next(b: Build): Action {
    if b.initial.None? then
      if Probe in b.reserved then Finish(false) else Ask(Probe)
    else if b.initial.value then Finish(true)
    else if b.retry.Some? then Finish(b.retry.value)
    else if Retry in b.reserved then Finish(false)
    else if b.repair then Ask(Retry)
    else if Agent in b.reserved then Finish(false)
    else Ask(Agent)
  }

  predicate HasVerdict(b: Build) {
    b.check in {Passed, Rejected}
  }

  /** The record with the result still in memory filled in. */
  function Filled(b: Build, found: Option<(Call, bool)>): Build {
    if found.Some? && found.value.0 == Probe then b.(initial := Some(found.value.1))
    else if found.Some? && found.value.0 == Retry then b.(retry := Some(found.value.1))
    else b
  }

  /** What `_finish` saves; a result still in memory is saved with it. */
  function Verdict(b: Build, passed: bool, found: Option<(Call, bool)>): Build {
    var b1 := Filled(b, found);
    if passed then b1.(check := Passed, checkPassed := Some(true))
    else b1.(check := Rejected, checkPassed := Some(false), teardownRequired := true, teardownStatus := Some(ToDo))
  }

  function InMemory(p: Phase): Option<(Call, bool)> {
    if p.Called? && p.call != Agent then Some((p.call, p.good)) else None
  }

  function TeardownOf(c: CleanupStatus): TeardownStatus {
    match c
    case Succeeded => Complete
    case PartialFailed => Partial
    case Running => Ongoing
    case _ => ToDo
  }

  // ---------------------------------------------------------------- the steps

  predicate Leads(w: World, t: Token) {
    w.holder == Some(t) && t in w.workers
  }

  function Goto(w: World, t: Token, p: Phase): World {
    w.(workers := w.workers[t := p])
  }

  function Save(w: World, t: Token, b: Build, p: Phase): World {
    Goto(w, t, p).(build := b)
  }

  /** `_finish`: save the verdict; a failed one still has to fail the build. */
  function Close(w: World, t: Token, passed: bool, found: Option<(Call, bool)>): World {
    Save(w, t, Verdict(w.build, passed, found), if passed then Checked else Failing)
  }

  /** What keeping an answer saves, and where the worker goes on. */
  function Kept(w: World, t: Token): (Build, Phase)
    requires t in w.workers && w.workers[t].Called?
  {
    var b, p := w.build, w.workers[t];
    match p.call
    case Probe => (b.(initial := Some(p.good)), Executing(p.run))
    case Agent =>
      if p.good then (b.(repair := true), Executing(p.run)) else (Verdict(b, false, None), Failing)
    case Retry => (Verdict(b, p.good, Some((Retry, p.good))), if p.good then Checked else Failing)
  }

  function Apply(w: World, s: Step): World {
    var b := w.build;
    match s
    case Enter(t) =>
      // tokens are drawn once; other leases of the build draw some in between
      if w.holder.None? && w.cleanup == NotStarted && t >= w.nextToken
      then w.(holder := Some(t), nextToken := t + 1, workers := w.workers[t := Idle])
      else w
    case Lose => w.(holder := None)
    case Leave(t) => w.(workers := w.workers - {t}, holder := if w.holder == Some(t) then None else w.holder)
    case Crash(t) => w.(workers := w.workers - {t})
    case Progress(t, target) =>
      if Leads(w, t) && w.workers[t].Idle? && target in B.Allowed(b.status) && !B.Terminal(target)
      then w.(build := b.(status := target)) else w
    case Submit(t) =>
      if Leads(w, t) && w.workers[t].Idle? && b.check !in {Waiting, InProgress}
         && b.status in {B.Deploying, B.Succeeded} && !b.teardownRequired
      then w.(build := Build(B.Deploying, Waiting, None, Some(w.nextRun), {}, false, None, None, false, b.teardownStatus),
              nextRun := w.nextRun + 1)
      else w
    case Begin(t) =>
      if !Leads(w, t) || !w.workers[t].Idle? then w
      else if HasVerdict(b) then
        Save(w, t, if b.check == Rejected && b.status == B.Deploying then b.(status := B.Failed) else b, Checked)
      else if b.status != B.Deploying then Goto(w, t, Raised)
      else if b.run.Some? then Goto(w, t, Started(b.run.value))
      else Save(w, t, b.(run := Some(w.nextRun)), Started(w.nextRun)).(nextRun := w.nextRun + 1)
    case MarkRunning(t) =>
      if Leads(w, t) && w.workers[t].Started?
      then Save(w, t, b.(check := InProgress), Executing(w.workers[t].run)) else w
    case Reserve(t) =>
      if Leads(w, t) && w.workers[t].Executing? && Next(b).Ask? then
        var call, r := Next(b).call, w.workers[t].run;
        Save(w, t, b.(reserved := b.reserved + {call}), Calling(call, r)).(permits := w.permits[(r, call) := t])
      else w
    case CallOut(t, good) =>
      if t in w.workers && w.workers[t].Calling? then
        var p := w.workers[t];
        Goto(w, t, Called(p.call, p.run, good)).(made := w.made + [Made(p.run, p.call, t, good)])
      else w
    case Keep(t) =>
      if Leads(w, t) && w.workers[t].Called? then Save(w, t, Kept(w, t).0, Kept(w, t).1) else w
    case Conclude(t) =>
      if Leads(w, t) && w.workers[t].Executing? && Next(b).Finish? then Close(w, t, Next(b).passed, None) else w
    case Except(t) =>
      // any error inside `execute` ends in a failed verdict
      if Leads(w, t) && (w.workers[t].Started? || w.workers[t].Executing? || w.workers[t].Calling? || w.workers[t].Called?)
      then Close(w, t, false, InMemory(w.workers[t])) else w
    case FailBuild(t) =>
      if Leads(w, t) && w.workers[t].Failing? then Save(w, t, b.(status := B.FailedFrom(b.status)), Checked) else w
    case Deliver(t) =>
      if !Leads(w, t) || !w.workers[t].Checked? then w
      else if B.Terminal(b.status) || b.checkPassed != Some(true) || b.check != Passed || b.teardownRequired
      then Goto(w, t, Gone)
      else if B.Succeeded in B.Allowed(b.status) then Save(w, t, b.(status := B.Succeeded), Gone)
      else Goto(w, t, Raised)
    case Raise(t) =>
      if Leads(w, t) && (w.workers[t].Idle? || w.workers[t].Checked?) then Goto(w, t, Raised) else w
    case MarkFailed(t) =>
      if !Leads(w, t) || !w.workers[t].Raised? then w
      else if b.status == B.Deploying then
        Save(w, t, b.(check := Rejected, checkPassed := Some(false), teardownRequired := true,
                      teardownStatus := Some(ToDo)), Failing)
      else Save(w, t, b.(status := B.FailedFrom(b.status)), Gone)
    case RecoverFailed =>
      // `recover` under a lease of its own
      if w.holder.None? && b.teardownRequired && b.check == Rejected && b.status == B.Deploying
      then w.(build := b.(status := B.Failed)) else w
    case DispatchFailed => w.(build := b.(status := B.FailedFrom(b.status)))
    case Cancel => if B.Terminal(b.status) then w else w.(build := b.(status := B.Cancelled))
    case EnqueueCleanup =>
      if w.holder.None? && w.cleanup in {NotStarted, PartialFailed} then w.(cleanup := Queued) else w
    case CleanupMoves(status) =>
      if w.cleanup in {Queued, Running} && status in {Running, PartialFailed, Succeeded}
      then w.(cleanup := status) else w
    case SyncRead =>
      if b.teardownRequired || b.teardownStatus.Some? then w.(syncs := w.syncs + {w.cleanup}) else w
    case SyncWrite(status) =>
      if status in w.syncs
      then w.(build := b.(teardownStatus := Some(TeardownOf(status)), teardownRequired := status != Succeeded))
      else w
    case TeardownRead => w.(tearing := w.tearing || b.teardownRequired)
    case TeardownWrite(status) =>
      // "running" before the cleanup, "partial_failed" after an exception
      if !w.tearing then w
      else if status == Ongoing then w.(build := b.(teardownStatus := Some(Ongoing)))
      else if status == Partial then w.(build := b.(teardownStatus := Some(Partial), teardownRequired := true))
      else w
  }

  function Run(w: World, schedule: seq<Step>): World
    decreases |schedule|
  {
    if schedule == [] then w else Run(Apply(w, schedule[0]), schedule[1..])
  }

  const INITIAL := World(
    Build(B.Queued, Pending, None, None, {}, false, None, None, false, None),
    NotStarted, None, map[], 0, 0, [], map[], {}, false)

  // ------------------------------------------------ what a delivery promises

  /** A delivered build passed its check and owes no teardown. */
  predicate Delivered(w: World) {
    w.build.status == B.Succeeded ==>
      w.build.check == Passed && w.build.checkPassed == Some(true)
      && !w.build.teardownRequired && w.build.teardownStatus.None?
  }

  /** A failed check keeps its teardown obligation until the cleanup has succeeded. */
  predicate Obliged(w: World) {
    && (w.build.check == Rejected ==>
          w.build.checkPassed == Some(false) && (w.build.teardownRequired || w.cleanup == Succeeded))
    && (w.build.teardownRequired || w.build.teardownStatus.Some? || w.tearing || w.syncs != {} ==>
          w.build.check == Rejected)
    && (Succeeded in w.syncs ==> w.cleanup == Succeeded)
  }

  predicate MidCheck(p: Phase) {
    p.Started? || p.Executing? || p.Calling? || p.Called?
  }

  /** What the lease holder may rely on. */
  ghost predicate HolderInv(w: World) {
    w.holder.Some? ==>
      && w.holder.value < w.nextToken
      && (w.holder.value in w.workers ==>
            && w.cleanup == NotStarted
            && var p := w.workers[w.holder.value];
               && (MidCheck(p) ==> w.build.run == Some(p.run) && !HasVerdict(w.build))
               && (p.Failing? ==> w.build.check == Rejected))
  }

  ghost predicate Safe(w: World) {
    && Delivered(w) && Obliged(w) && HolderInv(w)
    && (w.build.check == Passed ==> w.build.checkPassed == Some(true))
    && (forall t <- w.workers :: t < w.nextToken)
  }

  // The steps in groups, so that each proof looks at a few of them.

  predicate IsStarting(s: Step) { s.Begin? || s.MarkRunning? }

  predicate IsCallingOut(s: Step) { s.Reserve? || s.CallOut? }

  predicate IsKeeping(s: Step) { s.Keep? }

  predicate IsConcluding(s: Step) { s.Conclude? || s.Except? }

  predicate IsDelivering(s: Step) { s.FailBuild? || s.Deliver? }

  predicate IsRaising(s: Step) { s.Raise? || s.MarkFailed? }

  predicate IsAdvancing(s: Step) { s.Submit? || s.Progress? }

  predicate IsLeasing(s: Step) { s.Enter? || s.Lose? || s.Leave? || s.Crash? }

  predicate IsInterfering(s: Step) { s.RecoverFailed? || s.DispatchFailed? || s.Cancel? }

  predicate IsCleaning(s: Step) { s.EnqueueCleanup? || s.CleanupMoves? }

  predicate IsTearing(s: Step) { s.SyncRead? || s.SyncWrite? || s.TeardownRead? || s.TeardownWrite? }

  lemma StartingSafe(w: World, s: Step)
    requires Safe(w) && IsStarting(s)
    ensures Safe(Apply(w, s))
  {
  }

  lemma CallingOutSafe(w: World, s: Step)
    requires Safe(w) && IsCallingOut(s)
    ensures Safe(Apply(w, s))
  {
  }

  lemma KeepingSafe(w: World, s: Step)
    requires Safe(w) && IsKeeping(s)
    ensures Safe(Apply(w, s))
  {
  }

  lemma ConcludingSafe(w: World, s: Step)
    requires Safe(w) && IsConcluding(s)
    ensures Safe(Apply(w, s))
  {
  }

  lemma DeliveringSafe(w: World, s: Step)
    requires Safe(w) && IsDelivering(s)
    ensures Safe(Apply(w, s))
  {
  }

  lemma RaisingSafe(w: World, s: Step)
    requires Safe(w) && IsRaising(s)
    ensures Safe(Apply(w, s))
  {
  }

  lemma AdvancingSafe(w: World, s: Step)
    requires Safe(w) && IsAdvancing(s)
    ensures Safe(Apply(w, s))
  {
  }

  lemma LeasingSafe(w: World, s: Step)
    requires Safe(w) && IsLeasing(s)
    ensures Safe(Apply(w, s))
  {
  }

  lemma InterferingSafe(w: World, s: Step)
    requires Safe(w) && IsInterfering(s)
    ensures Safe(Apply(w, s))
  {
  }

  lemma CleaningSafe(w: World, s: Step)
    requires Safe(w) && IsCleaning(s)
    ensures Safe(Apply(w, s))
  {
  }

  lemma TearingSafe(w: World, s: Step)
    requires Safe(w) && IsTearing(s)
    ensures Safe(Apply(w, s))
  {
  }

  lemma StepSafe(w: World, s: Step)
    requires Safe(w)
    ensures Safe(Apply(w, s))
  {
    if IsStarting(s) {
      StartingSafe(w, s);
    } else if IsCallingOut(s) {
      CallingOutSafe(w, s);
    } else if IsKeeping(s) {
      KeepingSafe(w, s);
    } else if IsConcluding(s) {
      ConcludingSafe(w, s);
    } else if IsDelivering(s) {
      DeliveringSafe(w, s);
    } else if IsRaising(s) {
      RaisingSafe(w, s);
    } else if IsAdvancing(s) {
      AdvancingSafe(w, s);
    } else if IsLeasing(s) {
      LeasingSafe(w, s);
    } else if IsInterfering(s) {
      InterferingSafe(w, s);
    } else if IsCleaning(s) {
      CleaningSafe(w, s);
    } else {
      TearingSafe(w, s);
    }
  }

  lemma {:induction false} RunSafe(w: World, schedule: seq<Step>)
    requires Safe(w)
    ensures Safe(Run(w, schedule))
    decreases |schedule|
  {
    if schedule != [] {
      StepSafe(w, schedule[0]);
      RunSafe(Apply(w, schedule[0]), schedule[1..]);
    }
  }

  /** In every reachable state a SUCCEEDED build passed its dynamic check and
      owes no teardown, and a build whose check failed keeps `teardown_required`
      until its cleanup has SUCCEEDED. */
  lemma DeliveryIsSafe(schedule: seq<Step>)
    ensures Delivered(Run(INITIAL, schedule)) && Obliged(Run(INITIAL, schedule))
  {
    RunSafe(INITIAL, schedule);
  }

  lemma StartingTerminal(w: World, s: Step)
    requires w.build.status in {B.Failed, B.Cancelled} && IsStarting(s)
    ensures Apply(w, s).build.status == w.build.status
  {
  }

  lemma CallingOutTerminal(w: World, s: Step)
    requires w.build.status in {B.Failed, B.Cancelled} && IsCallingOut(s)
    ensures Apply(w, s).build.status == w.build.status
  {
  }

  lemma KeepingTerminal(w: World, s: Step)
    requires w.build.status in {B.Failed, B.Cancelled} && IsKeeping(s)
    ensures Apply(w, s).build.status == w.build.status
  {
  }

  lemma ConcludingTerminal(w: World, s: Step)
    requires w.build.status in {B.Failed, B.Cancelled} && IsConcluding(s)
    ensures Apply(w, s).build.status == w.build.status
  {
  }

  lemma DeliveringTerminal(w: World, s: Step)
    requires w.build.status in {B.Failed, B.Cancelled} && IsDelivering(s)
    ensures Apply(w, s).build.status == w.build.status
  {
  }

  lemma RaisingTerminal(w: World, s: Step)
    requires w.build.status in {B.Failed, B.Cancelled} && IsRaising(s)
    ensures Apply(w, s).build.status == w.build.status
  {
  }

  lemma AdvancingTerminal(w: World, s: Step)
    requires w.build.status in {B.Failed, B.Cancelled} && IsAdvancing(s)
    ensures Apply(w, s).build.status == w.build.status
  {
  }

  lemma LeasingTerminal(w: World, s: Step)
    requires w.build.status in {B.Failed, B.Cancelled} && IsLeasing(s)
    ensures Apply(w, s).build.status == w.build.status
  {
  }

  lemma InterferingTerminal(w: World, s: Step)
    requires w.build.status in {B.Failed, B.Cancelled} && IsInterfering(s)
    ensures Apply(w, s).build.status == w.build.status
  {
  }

  lemma CleaningTerminal(w: World, s: Step)
    requires w.build.status in {B.Failed, B.Cancelled} && IsCleaning(s)
    ensures Apply(w, s).build.status == w.build.status
  {
  }

  lemma TearingTerminal(w: World, s: Step)
    requires w.build.status in {B.Failed, B.Cancelled} && IsTearing(s)
    ensures Apply(w, s).build.status == w.build.status
  {
  }

  lemma TerminalStep(w: World, s: Step)
    requires w.build.status in {B.Failed, B.Cancelled}
    ensures Apply(w, s).build.status == w.build.status
  {
    if IsStarting(s) {
      StartingTerminal(w, s);
    } else if IsCallingOut(s) {
      CallingOutTerminal(w, s);
    } else if IsKeeping(s) {
      KeepingTerminal(w, s);
    } else if IsConcluding(s) {
      ConcludingTerminal(w, s);
    } else if IsDelivering(s) {
      DeliveringTerminal(w, s);
    } else if IsRaising(s) {
      RaisingTerminal(w, s);
    } else if IsAdvancing(s) {
      AdvancingTerminal(w, s);
    } else if IsLeasing(s) {
      LeasingTerminal(w, s);
    } else if IsInterfering(s) {
      InterferingTerminal(w, s);
    } else if IsCleaning(s) {
      CleaningTerminal(w, s);
    } else {
      TearingTerminal(w, s);
    }
  }

  /** FAILED and CANCELLED are absorbing; SUCCEEDED is left only by a resubmitted
      check, and only to DEPLOYING. */
  lemma {:induction false} TerminalStatusesHold(w: World, schedule: seq<Step>)
    requires w.build.status in {B.Failed, B.Cancelled}
    ensures Run(w, schedule).build.status == w.build.status
    decreases |schedule|
  {
    if schedule != [] {
      TerminalStep(w, schedule[0]);
      TerminalStatusesHold(Apply(w, schedule[0]), schedule[1..]);
    }
  }

  lemma SucceededIsLeftByResubmission(w: World, s: Step)
    requires Safe(w) && w.build.status == B.Succeeded && Apply(w, s).build.status != B.Succeeded
    ensures s.Submit? && Apply(w, s).build.status == B.Deploying
    ensures Apply(w, s).build.check == Waiting && Apply(w, s).build.run == Some(w.nextRun)
  {
  }

  // ---------------------------------------------------- each call at most once

  ghost predicate WasMade(w: World, r: RunId, c: Call) {
    exists i :: 0 <= i < |w.made| && w.made[i].run == r && w.made[i].call == c
  }

  ghost predicate WasMadeAs(w: World, r: RunId, c: Call, good: bool) {
    exists i :: 0 <= i < |w.made| && w.made[i].run == r && w.made[i].call == c && w.made[i].good == good
  }

  /** No call of a run is ever repeated. */
  ghost predicate NoRepeats(made: seq<Made>) {
    forall i, j :: 0 <= i < j < |made| ==> (made[i].run, made[i].call) != (made[j].run, made[j].call)
  }

  /** A call is made only by the worker whose reservation of it was saved. */
  ghost predicate Permitted(w: World) {
    && (forall k <- w.permits :: k.0 < w.nextRun && w.permits[k] < w.nextToken)
    && (forall i :: 0 <= i < |w.made| ==>
          var m := w.made[i]; (m.run, m.call) in w.permits && w.permits[(m.run, m.call)] == m.worker)
    && (w.build.run.Some? ==>
          && w.build.run.value < w.nextRun
          && forall c: Call :: (w.build.run.value, c) in w.permits ==> c in w.build.reserved)
    && (w.build.run.None? ==> w.build.reserved == {})
    && (forall t <- w.workers :: w.workers[t].Calling? ==>
          var k := (w.workers[t].run, w.workers[t].call);
          k in w.permits && w.permits[k] == t && !WasMade(w, k.0, k.1))
  }

  ghost predicate Once(w: World) {
    Safe(w) && NoRepeats(w.made) && Permitted(w)
  }

  lemma ReserveOnce(w: World, t: Token)
    requires Once(w)
    ensures Once(Apply(w, Reserve(t)))
  {
    StepSafe(w, Reserve(t));
    var w' := Apply(w, Reserve(t));
    if w' != w {
      var r, call := w.workers[t].run, Next(w.build).call;
      assert w.build.run == Some(r) && call !in w.build.reserved && (r, call) !in w.permits;
      assert w'.made == w.made;
      assert !WasMade(w, r, call);
      forall u <- w'.workers | w'.workers[u].Calling?
        ensures var k := (w'.workers[u].run, w'.workers[u].call);
                k in w'.permits && w'.permits[k] == u && !WasMade(w', k.0, k.1)
      {
        if u != t { assert w.workers[u].Calling?; }
      }
    }
  }

  lemma CallOutOnce(w: World, t: Token, good: bool)
    requires Once(w)
    ensures Once(Apply(w, CallOut(t, good)))
  {
    StepSafe(w, CallOut(t, good));
    var w' := Apply(w, CallOut(t, good));
    if w' != w {
      var p := w.workers[t];
      assert !WasMade(w, p.run, p.call);
      assert w'.made == w.made + [Made(p.run, p.call, t, good)];
      forall u <- w'.workers | w'.workers[u].Calling?
        ensures var k := (w'.workers[u].run, w'.workers[u].call);
                k in w'.permits && w'.permits[k] == u && !WasMade(w', k.0, k.1)
      {
        assert u != t && w.workers[u].Calling?;
      }
    }
  }

  predicate SameOrFreshRun(w: World, w': World) {
    || (w'.build.run == w.build.run && w'.build.reserved == w.build.reserved)
    || (w'.build.run == Some(w.nextRun) && w'.nextRun == w.nextRun + 1)
  }

  /** What every step but a reservation and a call leaves alone. */
  ghost predicate KeepsCalls(w: World, w': World) {
    && w'.made == w.made && w'.permits == w.permits
    && w.nextRun <= w'.nextRun && w.nextToken <= w'.nextToken
    && SameOrFreshRun(w, w')
    && forall t <- w'.workers :: Underway(w'.workers[t]) ==> t in w.workers && w.workers[t] == w'.workers[t]
  }

  predicate Underway(p: Phase) {
    p.Calling? || p.Called?
  }

  lemma StartingKeepsCalls(w: World, s: Step)
    requires IsStarting(s)
    ensures KeepsCalls(w, Apply(w, s))
  {
  }

  lemma SaveKeepsCalls(w: World, t: Token, b: Build, p: Phase)
    requires b.run == w.build.run && b.reserved == w.build.reserved && !Underway(p)
    ensures KeepsCalls(w, Save(w, t, b, p))
  {
  }

  lemma KeptRun(w: World, t: Token)
    requires t in w.workers && w.workers[t].Called?
    ensures var (b, p) := Kept(w, t); b.run == w.build.run && b.reserved == w.build.reserved && !Underway(p)
  {
  }

  lemma KeepSaves(w: World, t: Token)
    requires Leads(w, t) && w.workers[t].Called?
    ensures var w' := Apply(w, Keep(t));
            && t in w'.workers && w' == Save(w, t, w'.build, w'.workers[t]) && !Underway(w'.workers[t])
            && w'.build.run == w.build.run && w'.build.reserved == w.build.reserved
  {
    KeptRun(w, t);
  }

  lemma KeepingKeepsCalls(w: World, s: Step)
    requires IsKeeping(s)
    ensures KeepsCalls(w, Apply(w, s))
  {
    if Leads(w, s.t) && w.workers[s.t].Called? {
      KeepSaves(w, s.t);
      var w' := Apply(w, s);
      SaveKeepsCalls(w, s.t, w'.build, w'.workers[s.t]);
    }
  }

  lemma ConcludingKeepsCalls(w: World, s: Step)
    requires IsConcluding(s)
    ensures KeepsCalls(w, Apply(w, s))
  {
  }

  lemma DeliveringKeepsCalls(w: World, s: Step)
    requires IsDelivering(s)
    ensures KeepsCalls(w, Apply(w, s))
  {
  }

  lemma RaisingKeepsCalls(w: World, s: Step)
    requires IsRaising(s)
    ensures KeepsCalls(w, Apply(w, s))
  {
  }

  lemma AdvancingKeepsCalls(w: World, s: Step)
    requires IsAdvancing(s)
    ensures KeepsCalls(w, Apply(w, s))
  {
  }

  lemma LeasingKeepsCalls(w: World, s: Step)
    requires IsLeasing(s)
    ensures KeepsCalls(w, Apply(w, s))
  {
  }

  lemma InterferingKeepsCalls(w: World, s: Step)
    requires IsInterfering(s)
    ensures KeepsCalls(w, Apply(w, s))
  {
  }

  lemma CleaningKeepsCalls(w: World, s: Step)
    requires IsCleaning(s)
    ensures KeepsCalls(w, Apply(w, s))
  {
  }

  lemma TearingKeepsCalls(w: World, s: Step)
    requires IsTearing(s)
    ensures KeepsCalls(w, Apply(w, s))
  {
  }

  lemma KeptOnce(w: World, w': World)
    requires Once(w) && Safe(w') && KeepsCalls(w, w')
    ensures Once(w')
  {
    forall u <- w'.workers | w'.workers[u].Calling?
      ensures var k := (w'.workers[u].run, w'.workers[u].call);
              k in w'.permits && w'.permits[k] == u && !WasMade(w', k.0, k.1)
    {
      assert w.workers[u].Calling?;
    }
  }

  lemma StepKeepsCalls(w: World, s: Step)
    requires !IsCallingOut(s)
    ensures KeepsCalls(w, Apply(w, s))
  {
    if IsStarting(s) {
      StartingKeepsCalls(w, s);
    } else if IsKeeping(s) {
      KeepingKeepsCalls(w, s);
    } else if IsConcluding(s) {
      ConcludingKeepsCalls(w, s);
    } else if IsDelivering(s) {
      DeliveringKeepsCalls(w, s);
    } else if IsRaising(s) {
      RaisingKeepsCalls(w, s);
    } else if IsAdvancing(s) {
      AdvancingKeepsCalls(w, s);
    } else if IsLeasing(s) {
      LeasingKeepsCalls(w, s);
    } else if IsInterfering(s) {
      InterferingKeepsCalls(w, s);
    } else if IsCleaning(s) {
      CleaningKeepsCalls(w, s);
    } else {
      TearingKeepsCalls(w, s);
    }
  }

  lemma StepOnce(w: World, s: Step)
    requires Once(w)
    ensures Once(Apply(w, s))
  {
    if s.Reserve? {
      ReserveOnce(w, s.t);
    } else if s.CallOut? {
      CallOutOnce(w, s.t, s.good);
    } else {
      StepKeepsCalls(w, s);
      StepSafe(w, s);
      KeptOnce(w, Apply(w, s));
    }
  }

  lemma {:induction false} RunOnce(w: World, schedule: seq<Step>)
    requires Once(w)
    ensures Once(Run(w, schedule))
    decreases |schedule|
  {
    if schedule != [] {
      StepOnce(w, schedule[0]);
      RunOnce(Apply(w, schedule[0]), schedule[1..]);
    }
  }

  /** Over any number of crashed, overtaken and re-entered executions, each run
      makes at most one initial probe, one Debug Agent call and one retry. */
  lemma EachCallAtMostOnce(schedule: seq<Step>)
    ensures NoRepeats(Run(INITIAL, schedule).made)
  {
    RunOnce(INITIAL, schedule);
  }

  // ------------------------------------- retries and verdicts have their reasons

  /** A record tells the truth about the calls of its run. */
  ghost predicate TrueRecord(w: World, b: Build) {
    if b.run.Some? then
      var r := b.run.value;
      && (b.initial.Some? ==> WasMadeAs(w, r, Probe, b.initial.value))
      && (b.retry.Some? ==> WasMadeAs(w, r, Retry, b.retry.value))
      && (b.repair ==> WasMadeAs(w, r, Agent, true))
      && (b.check == Passed ==> WasMadeAs(w, r, Probe, true) || WasMadeAs(w, r, Retry, true))
    else
      b.initial.None? && b.retry.None? && !b.repair && b.check != Passed
  }

  /** The saved record is true, and so is what a worker still has in memory. */
  ghost predicate Truthful(w: World) {
    && TrueRecord(w, w.build)
    && (forall t <- w.workers :: w.workers[t].Called? ==>
          WasMadeAs(w, w.workers[t].run, w.workers[t].call, w.workers[t].good))
  }

  /** A retry is permitted only after a failed initial probe and an accepted repair. */
  ghost predicate RetriesJustified(w: World) {
    forall k <- w.permits :: k.1 == Retry ==> WasMadeAs(w, k.0, Probe, false) && WasMadeAs(w, k.0, Agent, true)
  }

  ghost predicate Justified(w: World) {
    Once(w) && Truthful(w) && RetriesJustified(w)
  }

  lemma MadeGrows(w: World, w': World, r: RunId, c: Call, good: bool)
    requires WasMadeAs(w, r, c, good) && w.made <= w'.made
    ensures WasMadeAs(w', r, c, good)
  {
    var i :| 0 <= i < |w.made| && w.made[i].run == r && w.made[i].call == c && w.made[i].good == good;
    assert w'.made[i] == w.made[i];
  }

  lemma CallOutJustified(w: World, t: Token, good: bool)
    requires Justified(w)
    ensures Justified(Apply(w, CallOut(t, good)))
  {
    var w' := Apply(w, CallOut(t, good));
    CallOutOnce(w, t, good);
    forall r: RunId, c: Call, g: bool | WasMadeAs(w, r, c, g) ensures WasMadeAs(w', r, c, g) {
      MadeGrows(w, w', r, c, g);
    }
    if w' != w {
      assert w'.made[|w.made|] == Made(w.workers[t].run, w.workers[t].call, t, good);
    }
  }

  lemma ReserveJustified(w: World, t: Token)
    requires Justified(w)
    ensures Justified(Apply(w, Reserve(t)))
  {
    ReserveOnce(w, t);
    var w' := Apply(w, Reserve(t));
    assert w'.made == w.made;
    forall r: RunId, c: Call, g: bool | WasMadeAs(w, r, c, g) ensures WasMadeAs(w', r, c, g) {
      MadeGrows(w, w', r, c, g);
    }
  }

  /** Steps that add neither a call nor a permit keep the truth as long as the
      record they leave is true. */
  lemma KeptJustified(w: World, w': World)
    requires Justified(w) && Once(w') && KeepsCalls(w, w')
    requires TrueRecord(w', w'.build)
    ensures Justified(w')
  {
    forall r: RunId, c: Call, g: bool | WasMadeAs(w, r, c, g) ensures WasMadeAs(w', r, c, g) {
      MadeGrows(w, w', r, c, g);
    }
  }

  lemma FilledTrue(w: World, b: Build, found: Option<(Call, bool)>)
    requires TrueRecord(w, b) && b.run.Some?
    requires found.Some? ==> WasMadeAs(w, b.run.value, found.value.0, found.value.1)
    ensures TrueRecord(w, Filled(b, found))
  {
  }

  lemma VerdictTrue(w: World, b: Build, passed: bool, found: Option<(Call, bool)>)
    requires TrueRecord(w, Filled(b, found)) && b.run.Some?
    requires passed ==> Filled(b, found).initial == Some(true) || Filled(b, found).retry == Some(true)
    ensures TrueRecord(w, Verdict(b, passed, found))
  {
  }

  lemma CloseTrue(w: World, t: Token, passed: bool, found: Option<(Call, bool)>)
    requires Justified(w) && w.build.run.Some?
    requires found.Some? ==> WasMadeAs(w, w.build.run.value, found.value.0, found.value.1)
    requires passed ==> Filled(w.build, found).initial == Some(true) || Filled(w.build, found).retry == Some(true)
    ensures TrueRecord(w, Close(w, t, passed, found).build)
  {
    FilledTrue(w, w.build, found);
    VerdictTrue(w, w.build, passed, found);
  }

  /** A worker in the middle of a check under the lease works on the saved run. */
  lemma MidCheckRun(w: World, t: Token)
    requires Justified(w) && Leads(w, t) && MidCheck(w.workers[t])
    ensures w.build.run == Some(w.workers[t].run)
    ensures w.workers[t].Called? ==> WasMadeAs(w, w.workers[t].run, w.workers[t].call, w.workers[t].good)
  {
  }

  lemma KeepTrue(w: World, t: Token)
    requires Justified(w)
    ensures TrueRecord(w, Apply(w, Keep(t)).build)
  {
    assert TrueRecord(w, w.build);
    if Leads(w, t) && w.workers[t].Called? {
      MidCheckRun(w, t);
      var p := w.workers[t];
      if p.call == Agent && !p.good { CloseTrue(w, t, false, None); }
      if p.call == Retry { CloseTrue(w, t, p.good, Some((Retry, p.good))); }
    }
  }

  lemma ConcludeTrue(w: World, t: Token)
    requires Justified(w)
    ensures TrueRecord(w, Apply(w, Conclude(t)).build)
  {
    assert TrueRecord(w, w.build);
    if Leads(w, t) && w.workers[t].Executing? && Next(w.build).Finish? {
      MidCheckRun(w, t);
      CloseTrue(w, t, Next(w.build).passed, None);
    }
  }

  lemma ExceptTrue(w: World, t: Token)
    requires Justified(w)
    ensures TrueRecord(w, Apply(w, Except(t)).build)
  {
    assert TrueRecord(w, w.build);
    if Leads(w, t) && MidCheck(w.workers[t]) {
      MidCheckRun(w, t);
      CloseTrue(w, t, false, InMemory(w.workers[t]));
    }
  }

  lemma StartingTrue(w: World, s: Step)
    requires Justified(w) && IsStarting(s)
    ensures TrueRecord(w, Apply(w, s).build)
  {
    assert TrueRecord(w, w.build);
  }

  lemma DeliveringTrue(w: World, s: Step)
    requires Justified(w) && IsDelivering(s)
    ensures TrueRecord(w, Apply(w, s).build)
  {
    assert TrueRecord(w, w.build);
  }

  lemma RaisingTrue(w: World, s: Step)
    requires Justified(w) && IsRaising(s)
    ensures TrueRecord(w, Apply(w, s).build)
  {
    assert TrueRecord(w, w.build);
  }

  lemma AdvancingTrue(w: World, s: Step)
    requires Justified(w) && IsAdvancing(s)
    ensures TrueRecord(w, Apply(w, s).build)
  {
    assert TrueRecord(w, w.build);
  }

  lemma LeasingTrue(w: World, s: Step)
    requires Justified(w) && IsLeasing(s)
    ensures TrueRecord(w, Apply(w, s).build)
  {
    assert TrueRecord(w, w.build);
  }

  lemma InterferingTrue(w: World, s: Step)
    requires Justified(w) && IsInterfering(s)
    ensures TrueRecord(w, Apply(w, s).build)
  {
    assert TrueRecord(w, w.build);
  }

  lemma CleaningTrue(w: World, s: Step)
    requires Justified(w) && IsCleaning(s)
    ensures TrueRecord(w, Apply(w, s).build)
  {
    assert TrueRecord(w, w.build);
  }

  lemma TearingTrue(w: World, s: Step)
    requires Justified(w) && IsTearing(s)
    ensures TrueRecord(w, Apply(w, s).build)
  {
    assert TrueRecord(w, w.build);
  }

  lemma OtherTrue(w: World, s: Step)
    requires Justified(w) && !IsCallingOut(s) && !IsKeeping(s) && !IsConcluding(s)
    ensures TrueRecord(w, Apply(w, s).build)
  {
    if IsStarting(s) {
      StartingTrue(w, s);
    } else if IsDelivering(s) {
      DeliveringTrue(w, s);
    } else if IsRaising(s) {
      RaisingTrue(w, s);
    } else if IsAdvancing(s) {
      AdvancingTrue(w, s);
    } else if IsLeasing(s) {
      LeasingTrue(w, s);
    } else if IsInterfering(s) {
      InterferingTrue(w, s);
    } else if IsCleaning(s) {
      CleaningTrue(w, s);
    } else {
      TearingTrue(w, s);
    }
  }

  lemma StepJustified(w: World, s: Step)
    requires Justified(w)
    ensures Justified(Apply(w, s))
  {
    if s.Reserve? {
      ReserveJustified(w, s.t);
    } else if s.CallOut? {
      CallOutJustified(w, s.t, s.good);
    } else {
      StepOnce(w, s);
      StepKeepsCalls(w, s);
      if s.Keep? {
        KeepTrue(w, s.t);
      } else if s.Conclude? {
        ConcludeTrue(w, s.t);
      } else if s.Except? {
        ExceptTrue(w, s.t);
      } else {
        OtherTrue(w, s);
      }
      TrueIn(w, Apply(w, s));
      KeptJustified(w, Apply(w, s));
    }
  }

  lemma TrueIn(w: World, w': World)
    requires w'.made == w.made && TrueRecord(w, w'.build)
    ensures TrueRecord(w', w'.build)
  {
    forall r: RunId, c: Call, g: bool | WasMadeAs(w, r, c, g) ensures WasMadeAs(w', r, c, g) {
      MadeGrows(w, w', r, c, g);
    }
  }

  lemma {:induction false} RunJustified(w: World, schedule: seq<Step>)
    requires Justified(w)
    ensures Justified(Run(w, schedule))
    decreases |schedule|
  {
    if schedule != [] {
      StepJustified(w, schedule[0]);
      RunJustified(Apply(w, schedule[0]), schedule[1..]);
    }
  }

  /** A retry was made only after a failed initial probe of the same run and a
      repair from the Debug Agent; "succeeded" is on record only for a run whose
      initial or retry probe passed. */
  lemma VerdictsAreJustified(schedule: seq<Step>)
    ensures var w := Run(INITIAL, schedule);
            forall i :: 0 <= i < |w.made| && w.made[i].call == Retry ==>
              WasMadeAs(w, w.made[i].run, Probe, false) && WasMadeAs(w, w.made[i].run, Agent, true)
    ensures var w := Run(INITIAL, schedule);
            w.build.check == Passed ==>
              w.build.run.Some? && (WasMadeAs(w, w.build.run.value, Probe, true) || WasMadeAs(w, w.build.run.value, Retry, true))
  {
    RunJustified(INITIAL, schedule);
    var w := Run(INITIAL, schedule);
    forall i | 0 <= i < |w.made| && w.made[i].call == Retry
      ensures WasMadeAs(w, w.made[i].run, Probe, false) && WasMadeAs(w, w.made[i].run, Agent, true)
    {
      assert (w.made[i].run, Retry) in w.permits;
    }
  }

  // --------------------------------------- an undisturbed execution concludes

  /** What the world outside does to the worker's next step. */
  datatype Luck = Fine(good: bool) | Trouble

  /** The next step of a worker that runs `execute` and then completes the delivery. */
  function Own(w: World, t: Token, luck: Luck): Step
    requires t in w.workers
  {
    match w.workers[t]
    case Idle => Begin(t)
    case Failing => FailBuild(t)
    case Checked => Deliver(t)
    case p =>
      if luck.Trouble? && MidCheck(p) then Except(t)
      else match p
        case Started(_) => MarkRunning(t)
        case Executing(_) => if Next(w.build).Ask? then Reserve(t) else Conclude(t)
        case Calling(_, _) => CallOut(t, luck == Fine(true))
        case _ => Keep(t)
  }

  function Drive(w: World, t: Token, lucks: seq<Luck>): World
    decreases |lucks|
  {
    if lucks == [] || t !in w.workers || w.workers[t].Gone? then w
    else Drive(Apply(w, Own(w, t, lucks[0])), t, lucks[1..])
  }

  function CallsLeft(c: Call): nat {
    match c
    case Probe => 3
    case Agent => 2
    case Retry => 1
  }

  function Rank(b: Build, p: Phase): nat {
    match p
    case Idle => 14
    case Started(_) => 13
    case Executing(_) => if Next(b).Ask? then 3 * CallsLeft(Next(b).call) + 3 else 3
    case Calling(c, _) => 3 * CallsLeft(c) + 2
    case Called(c, _, _) => 3 * CallsLeft(c) + 1
    case Failing => 2
    case Checked => 1
    case _ => 0
  }

  /** Where an undisturbed worker can be. */
  ghost predicate OnTrack(w: World, t: Token) {
    && Safe(w) && Leads(w, t) && !w.workers[t].Raised?
    && var p := w.workers[t];
       if p.Gone? then
         w.build.status == (if w.build.check == Passed then B.Succeeded else B.Failed) && HasVerdict(w.build)
       else
         && w.build.status == (if p.Checked? && w.build.check == Rejected then B.Failed else B.Deploying)
         && (p.Checked? ==> HasVerdict(w.build))
         && (Underway(p) && p.call == Agent ==> w.build.initial == Some(false))
  }

  ghost predicate Advances(w: World, w': World, t: Token) {
    && t in w.workers && OnTrack(w', t)
    && Rank(w'.build, w'.workers[t]) < Rank(w.build, w.workers[t])
  }

  lemma CloseAdvances(w: World, t: Token, passed: bool, found: Option<(Call, bool)>)
    requires OnTrack(w, t) && MidCheck(w.workers[t]) && Safe(Close(w, t, passed, found))
    ensures Advances(w, Close(w, t, passed, found), t)
  {
  }

  lemma DecisionAdvances(w: World, t: Token)
    requires OnTrack(w, t) && w.workers[t].Executing?
    ensures Advances(w, Apply(w, if Next(w.build).Ask? then Reserve(t) else Conclude(t)), t)
  {
    if Next(w.build).Ask? {
      StepSafe(w, Reserve(t));
    } else {
      StepSafe(w, Conclude(t));
      CloseAdvances(w, t, Next(w.build).passed, None);
    }
  }

  lemma KeepAdvances(w: World, t: Token)
    requires OnTrack(w, t) && w.workers[t].Called?
    ensures Advances(w, Apply(w, Keep(t)), t)
  {
    StepSafe(w, Keep(t));
    var p := w.workers[t];
    if p.call == Retry {
      CloseAdvances(w, t, p.good, Some((Retry, p.good)));
    } else if p.call == Agent && !p.good {
      CloseAdvances(w, t, false, None);
    }
  }

  lemma BeginAdvances(w: World, t: Token)
    requires OnTrack(w, t) && w.workers[t].Idle?
    ensures Advances(w, Apply(w, Begin(t)), t)
  {
    StepSafe(w, Begin(t));
  }

  lemma StartedAdvances(w: World, t: Token)
    requires OnTrack(w, t) && w.workers[t].Started?
    ensures Advances(w, Apply(w, MarkRunning(t)), t)
  {
    StepSafe(w, MarkRunning(t));
  }

  lemma CallingAdvances(w: World, t: Token, good: bool)
    requires OnTrack(w, t) && w.workers[t].Calling?
    ensures Advances(w, Apply(w, CallOut(t, good)), t)
  {
    StepSafe(w, CallOut(t, good));
  }

  lemma EndAdvances(w: World, t: Token)
    requires OnTrack(w, t) && (w.workers[t].Failing? || w.workers[t].Checked?)
    ensures Advances(w, Apply(w, if w.workers[t].Failing? then FailBuild(t) else Deliver(t)), t)
  {
    StepSafe(w, FailBuild(t));
    StepSafe(w, Deliver(t));
  }

  lemma OwnStepAdvances(w: World, t: Token, luck: Luck)
    requires OnTrack(w, t) && !w.workers[t].Gone?
    ensures Advances(w, Apply(w, Own(w, t, luck)), t)
  {
    var p := w.workers[t];
    if luck.Trouble? && MidCheck(p) {
      StepSafe(w, Except(t));
      CloseAdvances(w, t, false, InMemory(p));
    } else if p.Executing? {
      DecisionAdvances(w, t);
    } else if p.Called? {
      KeepAdvances(w, t);
    } else if p.Idle? {
      BeginAdvances(w, t);
    } else if p.Started? {
      StartedAdvances(w, t);
    } else if p.Calling? {
      CallingAdvances(w, t, luck == Fine(true));
    } else {
      EndAdvances(w, t);
    }
  }

  /** Every execution of a DEPLOYING build that neither crashes nor loses its
      lease ends: whatever was saved before it and whatever probes, agent and
      errors do, the build is delivered when the check passed and failed, with a
      teardown obligation, when it did not. */
  lemma {:induction false} ExecutionConcludes(w: World, t: Token, lucks: seq<Luck>)
    requires OnTrack(w, t) && Rank(w.build, w.workers[t]) <= |lucks|
    ensures var w' := Drive(w, t, lucks);
            && HasVerdict(w'.build) && t in w'.workers && w'.workers[t].Gone?
            && w'.build.status == (if w'.build.check == Passed then B.Succeeded else B.Failed)
            && (w'.build.check == Rejected ==> w'.build.teardownRequired)
    decreases |lucks|
  {
    if !w.workers[t].Gone? {
      assert Rank(w.build, w.workers[t]) > 0;
      OwnStepAdvances(w, t, lucks[0]);
      ExecutionConcludes(Apply(w, Own(w, t, lucks[0])), t, lucks[1..]);
    }
  }

  /** In particular after any history of crashes, failures and lost leases. */
  lemma ReachableExecutionConcludes(schedule: seq<Step>, t: Token, lucks: seq<Luck>)
    requires var w := Run(INITIAL, schedule);
             Leads(w, t) && w.workers[t].Idle? && w.build.status == B.Deploying
    requires |lucks| >= 14
    ensures var w := Drive(Run(INITIAL, schedule), t, lucks);
            && HasVerdict(w.build) && w.build.status == (if w.build.check == Passed then B.Succeeded else B.Failed)
            && (w.build.check == Rejected ==> w.build.teardownRequired)
  {
    RunSafe(INITIAL, schedule);
    ExecutionConcludes(Run(INITIAL, schedule), t, lucks);
  }
}
