/** Triggering Jenkins at most once, over crashes, redeliveries and every
    trigger outcome, and the quiescence check that keeps cleanup away from a
    running execution. A worker is one leased delivery of `start_build`; the
    check of the lease and the reservation write that follows it are separate
    steps here, because the source ignores whether that write was refused. */
module Trigger {
  import opened Options
  import opened Manifests
  import B = Builds

  /** `Rejected` is `JenkinsNotStartedError`; any other error leaves the outcome unknown. */
  datatype Answer = Accepted | Rejected | Unknown

  datatype Phase =
    | Entered                  // lease claimed
    | Ready                    // read TRIGGERING, no queue URL, nothing pending
    | Calling(reserved: bool)  // reservation attempted, call not yet made
    | Answered(answer: Answer)
    | UrlSaved                 // queue URL saved, reservation not yet cleared
    | Failing                  // an exception is on its way to `_fail`
    | Gone

  /** A possibly started execution is named after the worker that called. */
  datatype World = World(
    now: Time,
    manifest: Manifest,
    status: B.BuildStatus,
    queueUrl: Option<Token>,
    started: set<Token>,
    finished: set<Token>,
    workers: map<Token, Phase>,
    nextToken: Token,
    quiescent: bool)

  datatype Step =
    | Tick(elapsed: nat)
    | Enter(statuses: set<CleanupStatus>, expiresAt: Time)
    | Heartbeat(t: Token, expiresAt: Time)
    | Leave(t: Token)
    | Crash(t: Token)
    | Progress(t: Token, target: B.BuildStatus)
    | Recheck(t: Token)
    | CheckPending(t: Token)
    | Reserve(t: Token)
    | Call(t: Token, answer: Answer)
    | Settle(t: Token)
    | Fail(t: Token)
    | DispatchFailed
    | ExecutionEnds(e: Token)
    | CheckQuiescent
    | EnqueueCleanup(t: Token)
    | CleanupMoves(status: CleanupStatus)

  predicate In(w: World, t: Token, p: Phase) {
    t in w.workers && w.workers[t] == p
  }

  predicate Leads(w: World, t: Token, p: Phase) {
    In(w, t, p) && Holds(w.manifest, t, w.now)
  }

  function Goto(w: World, t: Token, p: Phase): World {
    w.(workers := w.workers[t := p])
  }

  function Commit(w: World, m: Option<Manifest>): World {
    if m.Some? then w.(manifest := m.value) else w
  }

  /** The write of `jenkins_trigger_pending` that expects the writer to own the lease. */
  function SetPending(w: World, t: Token, value: bool): Option<Manifest> {
    Update(w.manifest, Patch(triggerPending := Some(value)), Expected(leaseOwner := Some(t)), w.now)
  }

  /** `assert_quiescent`, with Jenkins answering truthfully about the execution it is asked about. */
  predicate Quiescent(w: World) {
    && B.Terminal(w.status)
    && !(w.manifest.triggerPending && w.queueUrl.None?)
    && (w.queueUrl.Some? ==> w.queueUrl.value in w.finished)
  }

  /** What a worker does once Jenkins has answered. Losing the lease makes `guard`
      raise, which stops the worker before another write. */
  function Settled(w: World, t: Token): World
    requires t in w.workers
  {
    var p := w.workers[t];
    if !p.Answered? && !p.UrlSaved? then w
    else if !Holds(w.manifest, t, w.now) then Goto(w, t, Gone)
    else match p
      case Answered(Accepted) => Goto(w, t, UrlSaved).(queueUrl := Some(t))
      case Answered(Rejected) => Goto(Commit(w, SetPending(w, t, false)), t, Failing)
      case Answered(Unknown) => Goto(w, t, Failing)
      case _ => Goto(Commit(w, SetPending(w, t, false)), t, Entered)
  }

  function Apply(w: World, s: Step): World {
    match s
    case Tick(d) => w.(now := w.now + d)
    case Enter(statuses, expiresAt) =>
      var claimed := Claim(w.manifest, w.nextToken, expiresAt, statuses, w.now);
      if claimed.None? then w
      else w.(manifest := claimed.value, nextToken := w.nextToken + 1,
              workers := w.workers[w.nextToken := Entered])
    case Heartbeat(t, expiresAt) =>
      if t in w.workers then Commit(w, Renew(w.manifest, t, expiresAt, w.now)) else w
    case Leave(t) =>
      if t in w.workers then w.(manifest := Release(w.manifest, t), workers := w.workers - {t}) else w
    case Crash(t) => w.(workers := w.workers - {t})
    case Progress(t, target) =>
      // guarded status transitions other than the trigger itself; BUILDING needs the queue URL
      if Leads(w, t, Entered) && target in B.Allowed(w.status)
         && (target == B.Building ==> w.queueUrl.Some?)
      then w.(status := target) else w
    case Recheck(t) =>
      if Leads(w, t, Entered) && w.status == B.Succeeded then w.(status := B.Deploying) else w
    case CheckPending(t) =>
      if Leads(w, t, Entered) && w.status == B.Triggering && w.queueUrl.None?
      then Goto(w, t, if w.manifest.triggerPending then Failing else Ready)
      else w
    case Reserve(t) =>
      if In(w, t, Ready) then
        var reserved := SetPending(w, t, true);
        Goto(Commit(w, reserved), t, Calling(reserved.Some?))
      else w
    case Call(t, answer) =>
      if t in w.workers && w.workers[t].Calling?
      then Goto(w, t, Answered(answer)).(started := if answer == Rejected then w.started else w.started + {t})
      else w
    case Settle(t) =>
      if t in w.workers then Settled(w, t) else w
    case Fail(t) =>
      if Leads(w, t, Failing) || Leads(w, t, Entered)
      then Goto(w, t, Gone).(status := B.FailedFrom(w.status)) else w
    case DispatchFailed => w.(status := B.FailedFrom(w.status))
    case ExecutionEnds(e) => if e in w.started then w.(finished := w.finished + {e}) else w
    case CheckQuiescent => w.(quiescent := w.quiescent || Quiescent(w))
    case EnqueueCleanup(t) =>
      // a request that passed the check, then claimed the lease
      if w.quiescent && In(w, t, Entered)
      then Commit(w, Update(w.manifest, Patch(status := Some(Queued)),
                            Expected(leaseOwner := Some(t), status := Some(w.manifest.status)), w.now))
      else w
    case CleanupMoves(status) =>
      if w.manifest.status != NotStarted && status != NotStarted
      then w.(manifest := w.manifest.(status := status)) else w
  }

  function Run(w: World, schedule: seq<Step>): World
    decreases |schedule|
  {
    if schedule == [] then w else Run(Apply(w, schedule[0]), schedule[1..])
  }

  function Initial(now: Time): World {
    World(now, Manifest(map[], NotStarted, 0, false, None, None), B.Queued, None, {}, {}, map[], 0, false)
  }

  /** The worker still holds the lease when it writes its reservation: the guard
      that the source does not repeat. */
  predicate OnTime(w: World, s: Step) {
    s.Reserve? && In(w, s.t, Ready) ==> Holds(w.manifest, s.t, w.now)
  }

  /** Every reservation of the schedule is written under the lease. */
  predicate InTime(w: World, schedule: seq<Step>)
    decreases |schedule|
  {
    schedule == [] || (OnTime(w, schedule[0]) && InTime(Apply(w, schedule[0]), schedule[1..]))
  }

  lemma RunCons(w: World, s: Step, rest: seq<Step>)
    ensures Run(w, [s] + rest) == Run(Apply(w, s), rest)
    ensures InTime(w, [s] + rest) <==> OnTime(w, s) && InTime(Apply(w, s), rest)
  {
    assert ([s] + rest)[1..] == rest;
  }

  lemma {:induction false} RunJoin(w: World, a: seq<Step>, b: seq<Step>)
    ensures Run(w, a + b) == Run(Run(w, a), b)
    decreases |a|
  {
    if a == [] {
      assert a + b == b;
    } else {
      RunJoin(Apply(w, a[0]), a[1..], b);
      assert (a + b)[0] == a[0] && (a + b)[1..] == a[1..] + b;
    }
  }

  // ---------------------------------------------------------------- invariant

  /** A possible start is always on record: reserved, or known by its queue URL. */
  predicate OnRecord(w: World) {
    w.started != {} ==> w.manifest.triggerPending || w.queueUrl.Some?
  }

  predicate AtMostOne(w: World) {
    forall a <- w.started, b <- w.started :: a == b
  }

  ghost predicate Fresh(w: World) {
    && (w.manifest.leaseOwner.Some? ==> w.manifest.leaseOwner.value < w.nextToken)
    && (forall t <- w.workers :: t < w.nextToken)
    && (forall e <- w.started :: e < w.nextToken)
    && w.finished <= w.started
  }

  /** What each phase knows, as long as every reservation was in time. */
  ghost predicate PhaseInv(w: World, t: Token)
    requires t in w.workers
  {
    match w.workers[t]
    case Entered => t in w.started ==> w.queueUrl.Some?
    case Ready =>
      && t !in w.started
      && (Holds(w.manifest, t, w.now) ==> !w.manifest.triggerPending && w.queueUrl.None? && w.started == {})
    case Calling(reserved) => reserved && w.manifest.triggerPending && w.queueUrl.None? && w.started == {}
    case Answered(Rejected) => w.manifest.triggerPending && w.queueUrl.None? && w.started == {}
    case Answered(_) => w.manifest.triggerPending && w.queueUrl.None? && w.started == {t}
    case UrlSaved => w.queueUrl == Some(t)
    case _ => true
  }

  predicate InFlight(p: Phase) {
    p.Calling? || p.Answered?
  }

  /** What the worker phases and the record of the trigger say about each other. */
  ghost predicate Core(w: World) {
    && OnRecord(w) && AtMostOne(w)
    && (w.queueUrl.Some? ==> w.started == {w.queueUrl.value})
    && (forall t <- w.workers :: PhaseInv(w, t))
    && (forall a <- w.workers, b <- w.workers :: InFlight(w.workers[a]) && InFlight(w.workers[b]) ==> a == b)
  }

  /** A build does not move past TRIGGERING without a queue URL, nor back behind it. */
  ghost predicate InStage(w: World) {
    && (w.queueUrl.None? ==> w.status !in {B.Building, B.Deploying, B.Succeeded})
    && (forall t <- w.workers :: w.workers[t].Ready? || InFlight(w.workers[t]) ==> w.status !in {B.Queued, B.Validating})
  }

  ghost predicate Inv(w: World) {
    Fresh(w) && Core(w) && InStage(w)
  }

  // ------------------------------------------------------------ Fresh is kept

  lemma StepFresh(w: World, s: Step)
    requires Fresh(w)
    ensures Fresh(Apply(w, s))
  {
    if s.Enter? {
      EnterFresh(w, s.statuses, s.expiresAt);
    } else if s.Settle? {
      SettleFresh(w, s.t);
    } else if s.Tick? || s.Heartbeat? || s.Leave? || s.Crash? {
      LeaseFresh(w, s);
    } else if s.Progress? || s.Recheck? || s.Fail? || s.DispatchFailed? {
      StatusFresh(w, s);
    } else if s.CheckPending? || s.Reserve? || s.Call? {
      TriggerFresh(w, s);
    } else {
      CleanupFresh(w, s);
    }
  }

  lemma EnterFresh(w: World, statuses: set<CleanupStatus>, expiresAt: Time)
    requires Fresh(w)
    ensures Fresh(Apply(w, Enter(statuses, expiresAt)))
  {
  }

  lemma SettleFresh(w: World, t: Token)
    requires Fresh(w)
    ensures Fresh(Apply(w, Settle(t)))
  {
    SettleKeeps(w, t);
  }

  /** What settling a call leaves alone. */
  lemma SettleKeeps(w: World, t: Token)
    ensures var w' := Apply(w, Settle(t));
            && w'.started == w.started && w'.finished == w.finished && w'.nextToken == w.nextToken && w'.now == w.now
            && w'.status == w.status && w'.quiescent == w.quiescent && w'.manifest.status == w.manifest.status
            && w'.manifest.leaseOwner == w.manifest.leaseOwner && w'.manifest.leaseExpiresAt == w.manifest.leaseExpiresAt
            && w'.workers.Keys == w.workers.Keys
            && forall u <- w.workers :: w'.workers[u] == w.workers[u] || w'.workers[u] in {Gone, UrlSaved, Failing, Entered}
  {
  }

  lemma LeaseFresh(w: World, s: Step)
    requires Fresh(w) && (s.Tick? || s.Heartbeat? || s.Leave? || s.Crash?)
    ensures Fresh(Apply(w, s))
  {
  }

  lemma StatusFresh(w: World, s: Step)
    requires Fresh(w) && (s.Progress? || s.Recheck? || s.Fail? || s.DispatchFailed?)
    ensures Fresh(Apply(w, s))
  {
  }

  lemma TriggerFresh(w: World, s: Step)
    requires Fresh(w) && (s.CheckPending? || s.Reserve? || s.Call?)
    ensures Fresh(Apply(w, s))
  {
  }

  lemma CleanupFresh(w: World, s: Step)
    requires Fresh(w) && (s.ExecutionEnds? || s.CheckQuiescent? || s.EnqueueCleanup? || s.CleanupMoves?)
    ensures Fresh(Apply(w, s))
  {
  }

  // ------------------------------------------------------------- Core is kept

  /** A change that leaves the reservation, the URL and the starts alone, moves
      workers only to phases that know nothing and gives nobody the lease. */
  predicate Framed(w: World, w': World) {
    && w'.manifest.triggerPending == w.manifest.triggerPending
    && w'.queueUrl == w.queueUrl && w'.started == w.started
    && (forall t <- w'.workers ::
          || (t in w.workers && w'.workers[t] == w.workers[t])
          || w'.workers[t] in {Failing, Gone}
          || (w'.workers[t] == Entered && t !in w.started))
    && (forall t <- w.workers :: Holds(w'.manifest, t, w'.now) ==> Holds(w.manifest, t, w.now))
  }

  lemma FrameCore(w: World, w': World)
    requires Core(w) && Framed(w, w')
    ensures Core(w')
  {
    forall t <- w'.workers ensures PhaseInv(w', t) {
      if t in w.workers && w'.workers[t] == w.workers[t] {
        assert PhaseInv(w, t);
      }
    }
  }

  lemma TimeFrame(w: World, s: Step)
    requires s.Tick? || s.Heartbeat?
    ensures Framed(w, Apply(w, s))
  {
  }

  lemma EnterFrame(w: World, statuses: set<CleanupStatus>, expiresAt: Time)
    requires Fresh(w)
    ensures Framed(w, Apply(w, Enter(statuses, expiresAt)))
  {
  }

  lemma ExitFrame(w: World, s: Step)
    requires s.Leave? || s.Crash?
    ensures Framed(w, Apply(w, s))
  {
  }

  lemma StatusFrame(w: World, s: Step)
    requires s.Progress? || s.Recheck? || s.Fail? || s.DispatchFailed?
    ensures Framed(w, Apply(w, s))
  {
  }

  lemma CleanupFrame(w: World, s: Step)
    requires s.ExecutionEnds? || s.CheckQuiescent? || s.EnqueueCleanup? || s.CleanupMoves?
    ensures Framed(w, Apply(w, s))
  {
  }

  /** Steps that neither touch the reservation nor call Jenkins. */
  lemma QuietStepFrame(w: World, s: Step)
    requires Fresh(w) && !s.Reserve? && !s.Call? && !s.Settle? && !s.CheckPending?
    ensures Framed(w, Apply(w, s))
  {
    if s.Enter? {
      EnterFrame(w, s.statuses, s.expiresAt);
    } else if s.Tick? || s.Heartbeat? {
      TimeFrame(w, s);
    } else if s.Leave? || s.Crash? {
      ExitFrame(w, s);
    } else if s.Progress? || s.Recheck? || s.Fail? || s.DispatchFailed? {
      StatusFrame(w, s);
    } else {
      CleanupFrame(w, s);
    }
  }

  lemma CheckPendingCore(w: World, t: Token)
    requires Inv(w)
    ensures Core(Apply(w, CheckPending(t)))
  {
    var w' := Apply(w, CheckPending(t));
    forall u <- w'.workers ensures PhaseInv(w', u) {
      assert PhaseInv(w, u);
    }
  }

  lemma ReserveCore(w: World, t: Token)
    requires Inv(w) && OnTime(w, Reserve(t))
    ensures Core(Apply(w, Reserve(t)))
  {
    var w' := Apply(w, Reserve(t));
    if In(w, t, Ready) {
      assert PhaseInv(w, t);
      forall u <- w'.workers ensures PhaseInv(w', u) {
        if u != t { assert PhaseInv(w, u); }
      }
      forall a <- w.workers ensures !InFlight(w.workers[a]) {
        assert PhaseInv(w, a);
      }
    }
  }

  lemma CallCore(w: World, t: Token, answer: Answer)
    requires Inv(w)
    ensures Core(Apply(w, Call(t, answer)))
  {
    var w' := Apply(w, Call(t, answer));
    if t in w.workers && w.workers[t].Calling? {
      assert PhaseInv(w, t);
      forall u <- w'.workers ensures PhaseInv(w', u) {
        if u != t { assert PhaseInv(w, u) && !InFlight(w.workers[u]); }
      }
    }
  }

  /** Nobody else is calling, and nobody else is ready under the lease, while `t` settles. */
  lemma OthersWhileSettling(w: World, t: Token, u: Token)
    requires Inv(w) && Holds(w.manifest, t, w.now) && t in w.workers && u in w.workers && u != t
    requires w.workers[t].Answered? || w.workers[t].UrlSaved?
    ensures !InFlight(w.workers[u]) && !w.workers[u].UrlSaved?
    ensures w.workers[u].Entered? ==> u !in w.started
  {
    assert PhaseInv(w, t) && PhaseInv(w, u);
  }

  lemma SettledCore(w: World, w': World, t: Token)
    requires Inv(w) && Holds(w.manifest, t, w.now) && t in w.workers
    requires w.workers[t].Answered? || w.workers[t].UrlSaved?
    requires w'.workers.Keys == w.workers.Keys && w'.now == w.now
    requires forall u <- w.workers :: u != t ==> w'.workers[u] == w.workers[u]
    requires w'.manifest.leaseOwner == w.manifest.leaseOwner && w'.started == w.started
    requires OnRecord(w') && (w'.queueUrl.Some? ==> w'.started == {w'.queueUrl.value})
    requires PhaseInv(w', t)
    ensures Core(w')
  {
    forall u <- w'.workers | u != t ensures PhaseInv(w', u) && !InFlight(w'.workers[u]) {
      OthersWhileSettling(w, t, u);
      assert PhaseInv(w, u);
    }
  }

  lemma SettleCore(w: World, t: Token)
    requires Inv(w) && t in w.workers
    ensures Core(Settled(w, t))
  {
    var w' := Settled(w, t);
    var p := w.workers[t];
    if (p.Answered? || p.UrlSaved?) && !Holds(w.manifest, t, w.now) {
      FrameCore(w, w');
    } else if p.Answered? || p.UrlSaved? {
      assert PhaseInv(w, t);
      assert SetPending(w, t, false) == Some(w.manifest.(triggerPending := false));
      SettledCore(w, w', t);
    }
  }

  lemma StepCore(w: World, s: Step)
    requires Inv(w) && OnTime(w, s)
    ensures Core(Apply(w, s))
  {
    if s.CheckPending? {
      CheckPendingCore(w, s.t);
    } else if s.Reserve? {
      ReserveCore(w, s.t);
    } else if s.Call? {
      CallCore(w, s.t, s.answer);
    } else if s.Settle? {
      if s.t in w.workers { SettleCore(w, s.t); }
    } else {
      QuietStepFrame(w, s);
      FrameCore(w, Apply(w, s));
    }
  }

  // ---------------------------------------------------------- InStage is kept

  lemma StatusInStage(w: World, s: Step)
    requires InStage(w) && (s.Progress? || s.Recheck? || s.Fail? || s.DispatchFailed?)
    ensures InStage(Apply(w, s))
  {
  }

  lemma SettleInStage(w: World, t: Token)
    requires InStage(w)
    ensures InStage(Apply(w, Settle(t)))
  {
  }

  lemma TriggerInStage(w: World, s: Step)
    requires InStage(w) && (s.CheckPending? || s.Reserve? || s.Call?)
    ensures InStage(Apply(w, s))
  {
  }

  lemma LeaseInStage(w: World, s: Step)
    requires InStage(w) && (s.Tick? || s.Enter? || s.Heartbeat? || s.Leave? || s.Crash?)
    ensures InStage(Apply(w, s))
  {
  }

  lemma CleanupInStage(w: World, s: Step)
    requires InStage(w) && (s.ExecutionEnds? || s.CheckQuiescent? || s.EnqueueCleanup? || s.CleanupMoves?)
    ensures InStage(Apply(w, s))
  {
  }

  lemma StepInStage(w: World, s: Step)
    requires InStage(w)
    ensures InStage(Apply(w, s))
  {
    if s.Settle? {
      SettleInStage(w, s.t);
    } else if s.Progress? || s.Recheck? || s.Fail? || s.DispatchFailed? {
      StatusInStage(w, s);
    } else if s.CheckPending? || s.Reserve? || s.Call? {
      TriggerInStage(w, s);
    } else if s.Tick? || s.Enter? || s.Heartbeat? || s.Leave? || s.Crash? {
      LeaseInStage(w, s);
    } else {
      CleanupInStage(w, s);
    }
  }

  // ------------------------------------------------------------- main results

  lemma StepInv(w: World, s: Step)
    requires Inv(w) && OnTime(w, s)
    ensures Inv(Apply(w, s))
  {
    StepFresh(w, s);
    StepCore(w, s);
    StepInStage(w, s);
  }

  lemma {:induction false} RunInv(w: World, schedule: seq<Step>)
    requires Inv(w) && InTime(w, schedule)
    ensures Inv(Run(w, schedule))
    decreases |schedule|
  {
    if schedule != [] {
      StepInv(w, schedule[0]);
      RunInv(Apply(w, schedule[0]), schedule[1..]);
    }
  }

  /** Over all crashes, redeliveries, lost leases and trigger outcomes, a build
      causes at most one possibly started execution, and a possible start is on
      record, as long as every reservation is written under the lease. */
  lemma TriggersAtMostOnce(now: Time, schedule: seq<Step>)
    requires InTime(Initial(now), schedule)
    ensures AtMostOne(Run(Initial(now), schedule))
    ensures OnRecord(Run(Initial(now), schedule))
  {
    RunInv(Initial(now), schedule);
  }
}
