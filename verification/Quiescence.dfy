/** Cleanup keeps away from a running Jenkins execution: when it does, and the one
    unfenced write that can make it fail. */
module Quiescence {
  import opened Options
  import opened Manifests
  import B = Builds
  import opened Trigger
  import opened LateReservation

  /** A worker is about to reserve under the lease. */
  predicate Contested(w: World) {
    exists t <- w.workers :: Leads(w, t, Ready)
  }

  /** No failed dispatch marks the build FAILED while a worker is about to reserve. */
  predicate Undisputed(w: World, schedule: seq<Step>)
    decreases |schedule|
  {
    schedule == [] ||
    ((schedule[0].DispatchFailed? ==> !Contested(w)) && Undisputed(Apply(w, schedule[0]), schedule[1..]))
  }

  /** Cleanup is not queued while a possibly started execution is not known to have ended. */
  predicate Waits(w: World) {
    w.manifest.status != NotStarted ==> w.started <= w.finished
  }

  predicate PastTrigger(s: B.BuildStatus) {
    s !in {B.Queued, B.Validating, B.Triggering}
  }

  ghost predicate Calm(w: World) {
    && (forall t <- w.workers :: Leads(w, t, Ready) ==> w.status == B.Triggering)
    && (w.quiescent ==> PastTrigger(w.status) && w.started <= w.finished
                        && forall t <- w.workers :: !InFlight(w.workers[t]))
    && (w.manifest.status != NotStarted ==> w.quiescent)
  }

  lemma QuiescentIsCalm(w: World)
    requires Inv(w) && Calm(w) && Quiescent(w)
    ensures Calm(Apply(w, CheckQuiescent))
  {
    forall t <- w.workers ensures !InFlight(w.workers[t]) {
      assert PhaseInv(w, t);
    }
  }

  lemma KeptIsCalm(w: World, w': World)
    requires Calm(w)
    requires w'.started == w.started && w'.finished == w.finished && w'.now == w.now
    requires w'.status == w.status && w'.quiescent == w.quiescent && w'.manifest.status == w.manifest.status
    requires w'.manifest.leaseOwner == w.manifest.leaseOwner && w'.manifest.leaseExpiresAt == w.manifest.leaseExpiresAt
    requires w'.workers.Keys == w.workers.Keys
    requires forall u <- w.workers :: w'.workers[u] == w.workers[u] || w'.workers[u] in {Gone, UrlSaved, Failing, Entered}
    ensures Calm(w')
  {
    forall u <- w'.workers | Leads(w', u, Ready) ensures Leads(w, u, Ready) {}
  }

  lemma SettleCalm(w: World, t: Token)
    requires Inv(w) && Calm(w)
    ensures Calm(Apply(w, Settle(t)))
  {
    SettleKeeps(w, t);
    var w' := Apply(w, Settle(t));
    KeptIsCalm(w, w');
  }

  lemma LeaseCalm(w: World, s: Step)
    requires Inv(w) && Calm(w) && (s.Tick? || s.Enter? || s.Heartbeat? || s.Leave? || s.Crash?)
    ensures Calm(Apply(w, s))
  {
    var w' := Apply(w, s);
    forall t <- w'.workers | Leads(w', t, Ready) ensures Leads(w, t, Ready) {}
  }

  lemma StatusCalm(w: World, s: Step)
    requires Inv(w) && Calm(w) && (s.Progress? || s.Recheck? || s.Fail?)
    ensures Calm(Apply(w, s))
  {
  }

  lemma DispatchCalm(w: World)
    requires Calm(w) && !Contested(w)
    ensures Calm(Apply(w, DispatchFailed))
  {
  }

  lemma TriggerCalm(w: World, s: Step)
    requires Inv(w) && Calm(w) && OnTime(w, s) && (s.CheckPending? || s.Reserve? || s.Call?)
    ensures Calm(Apply(w, s))
  {
  }

  lemma CleanupCalm(w: World, s: Step)
    requires Inv(w) && Calm(w) && (s.ExecutionEnds? || s.EnqueueCleanup? || s.CleanupMoves?)
    ensures Calm(Apply(w, s))
  {
    var w' := Apply(w, s);
    forall t <- w'.workers | Leads(w', t, Ready) ensures Leads(w, t, Ready) {}
  }

  lemma StepCalm(w: World, s: Step)
    requires Inv(w) && Calm(w) && OnTime(w, s) && (s.DispatchFailed? ==> !Contested(w))
    ensures Calm(Apply(w, s))
  {
    if s.CheckQuiescent? {
      if Quiescent(w) { QuiescentIsCalm(w); }
    } else if s.Settle? {
      SettleCalm(w, s.t);
    } else if s.DispatchFailed? {
      DispatchCalm(w);
    } else if s.Tick? || s.Enter? || s.Heartbeat? || s.Leave? || s.Crash? {
      LeaseCalm(w, s);
    } else if s.Progress? || s.Recheck? || s.Fail? {
      StatusCalm(w, s);
    } else if s.CheckPending? || s.Reserve? || s.Call? {
      TriggerCalm(w, s);
    } else {
      CleanupCalm(w, s);
    }
  }

  lemma {:induction false} RunCalm(w: World, schedule: seq<Step>)
    requires Inv(w) && Calm(w) && InTime(w, schedule) && Undisputed(w, schedule)
    ensures Inv(Run(w, schedule)) && Calm(Run(w, schedule))
    decreases |schedule|
  {
    if schedule != [] {
      StepInv(w, schedule[0]);
      StepCalm(w, schedule[0]);
      RunCalm(Apply(w, schedule[0]), schedule[1..]);
    }
  }

  /** Cleanup waits for Jenkins in every run whose reservations are in time and whose
      failed dispatches hit no build that is about to be triggered. */
  lemma CleanupWaitsForJenkins(now: Time, schedule: seq<Step>)
    requires InTime(Initial(now), schedule) && Undisputed(Initial(now), schedule)
    ensures Waits(Run(Initial(now), schedule))
  {
    RunCalm(Initial(now), schedule);
  }

  // --------------------------------------------------- the race, step by step back

  ghost predicate AlwaysWaits(w: World) {
    forall schedule :: InTime(w, schedule) && Undisputed(w, schedule) ==> Waits(Run(w, schedule))
  }

  ghost predicate CanRace(w: World) {
    exists schedule :: InTime(w, schedule) && Undisputed(w, schedule) && !Waits(Run(w, schedule))
  }

  lemma Opposite(w: World)
    ensures AlwaysWaits(w) <==> !CanRace(w)
  {
  }

  lemma OneStepBefore(w: World, s: Step)
    requires OnTime(w, s) && !s.DispatchFailed? && CanRace(Apply(w, s))
    ensures CanRace(w)
  {
    var rest :| InTime(Apply(w, s), rest) && Undisputed(Apply(w, s), rest) && !Waits(Run(Apply(w, s), rest));
    RunCons(w, s, rest);
    assert ([s] + rest)[1..] == rest;
    assert Undisputed(w, [s] + rest);
  }

  predicate Unfinished(w: World, e: Token) {
    e in w.started && e !in w.finished
  }

  lemma EnteredRaces(w: World, t: Token, e: Token)
    requires w.quiescent && Leads(w, t, Entered) && Unfinished(w, e)
    ensures CanRace(w)
  {
    var w' := Apply(w, EnqueueCleanup(t));
    assert InTime(w', []) && Undisputed(w', []) && Run(w', []) == w' && !Waits(w');
    OneStepBefore(w, EnqueueCleanup(t));
  }

  lemma FreeRaces(w: World, e: Token)
    requires w.quiescent && w.manifest.leaseOwner.None? && Unfinished(w, e)
    ensures CanRace(w)
  {
    var enter := Enter({w.manifest.status}, w.now + 1);
    EnteredRaces(Apply(w, enter), w.nextToken, e);
    OneStepBefore(w, enter);
  }

  lemma CallingRaces(w: World, t: Token)
    requires w.quiescent && t in w.workers && w.workers[t].Calling? && w.manifest.leaseOwner == Some(t) && t !in w.finished
    ensures CanRace(w)
  {
    var w1 := Apply(w, Call(t, Accepted));
    FreeRaces(Apply(w1, Leave(t)), t);
    OneStepBefore(w1, Leave(t));
    OneStepBefore(w, Call(t, Accepted));
  }

  lemma ReadyRaces(w: World, t: Token)
    requires w.quiescent && Leads(w, t, Ready) && t !in w.finished
    ensures CanRace(w)
  {
    CallingRaces(Apply(w, Reserve(t)), t);
    OneStepBefore(w, Reserve(t));
  }

  /** A build marked FAILED while its worker is about to reserve is found quiescent. */
  lemma FailedWhileReady(w: World, t: Token)
    requires Inv(w) && Calm(w) && Leads(w, t, Ready)
    ensures CanRace(Apply(w, DispatchFailed))
  {
    assert PhaseInv(w, t);
    var w' := Apply(w, DispatchFailed);
    ReadyRaces(Apply(w', CheckQuiescent), t);
    OneStepBefore(w', CheckQuiescent);
  }

  /** The exact condition, known before the build is marked FAILED: whatever is
      scheduled next, cleanup waits for Jenkins if and only if no worker is about to
      reserve under the lease. */
  lemma DispatchDecides(w: World)
    requires Inv(w) && Calm(w)
    ensures !Contested(w) <==> AlwaysWaits(Apply(w, DispatchFailed))
  {
    var w' := Apply(w, DispatchFailed);
    if Contested(w) {
      var t :| t in w.workers && Leads(w, t, Ready);
      FailedWhileReady(w, t);
    } else {
      StepInv(w, DispatchFailed);
      DispatchCalm(w);
      forall schedule | InTime(w', schedule) && Undisputed(w', schedule) ensures Waits(Run(w', schedule)) {
        RunCalm(w', schedule);
      }
    }
    Opposite(w');
  }

  /** In particular after any run in which nothing has gone wrong yet. */
  lemma ReachableDispatchDecides(now: Time, schedule: seq<Step>)
    requires InTime(Initial(now), schedule) && Undisputed(Initial(now), schedule)
    ensures var w := Run(Initial(now), schedule);
            !Contested(w) <==> AlwaysWaits(Apply(w, DispatchFailed))
  {
    RunCalm(Initial(now), schedule);
    DispatchDecides(Run(Initial(now), schedule));
  }

  /** The race is reachable with every reservation in time: a failed dispatch hits the
      worker that is about to reserve, and cleanup is queued behind its execution. */
  lemma RaceIsReachable()
    ensures exists schedule :: InTime(Initial(0), schedule) && !Waits(Run(Initial(0), schedule))
  {
    ReadyIsReachable();
    var w := Run(Initial(0), READY_TO_RESERVE);
    ReadyUndisputed();
    ReachableDispatchDecides(0, READY_TO_RESERVE);
    var w' := Apply(w, DispatchFailed);
    Opposite(w');
    var rest :| InTime(w', rest) && Undisputed(w', rest) && !Waits(Run(w', rest));
    RunCons(w, DispatchFailed, rest);
    RunJoin(Initial(0), READY_TO_RESERVE, [DispatchFailed] + rest);
    InTimeJoin(Initial(0), READY_TO_RESERVE, [DispatchFailed] + rest);
  }

  lemma {:induction false} NoDispatchIsUndisputed(w: World, schedule: seq<Step>)
    requires forall i :: 0 <= i < |schedule| ==> !schedule[i].DispatchFailed?
    ensures Undisputed(w, schedule)
    decreases |schedule|
  {
    if schedule != [] { NoDispatchIsUndisputed(Apply(w, schedule[0]), schedule[1..]); }
  }

  lemma ReadyUndisputed()
    ensures Undisputed(Initial(0), READY_TO_RESERVE)
  {
    NoDispatchIsUndisputed(Initial(0), READY_TO_RESERVE);
  }

  lemma {:induction false} InTimeJoin(w: World, a: seq<Step>, b: seq<Step>)
    requires InTime(w, a) && InTime(Run(w, a), b)
    ensures InTime(w, a + b)
    decreases |a|
  {
    if a == [] {
      assert a + b == b;
    } else {
      InTimeJoin(Apply(w, a[0]), a[1..], b);
      assert (a + b)[0] == a[0] && (a + b)[1..] == a[1..] + b;
    }
  }
}
