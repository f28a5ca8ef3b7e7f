/** Why `Delivery` may treat the lease as a holder that enters, leaves or is lost: every
    step of the lease and cleanup protocol shows there as at most two such steps. */
module LeaseView {
  import opened Options
  import opened Manifests
  import opened CleanupProtocol
  import D = Delivery

  /** Who can hold the lease as a deployment: once cleanup has been asked for, nobody. */
  function View(w: World): Option<Token> {
    if w.manifest.status == NotStarted && !LeaseExpired(w.manifest.leaseExpiresAt, w.now)
    then w.manifest.leaseOwner else None
  }

  ghost predicate Sim(w: World, d: D.World) {
    && d.cleanup == w.manifest.status && d.holder == View(w) && d.nextToken <= w.nextToken
    && (View(w).Some? && View(w).value in w.workers ==> View(w).value in d.workers)
  }

  // ---------------------------------------------- the status while a lease is held

  /** What the status can be while a worker of each role holds the lease. */
  predicate InRole(me: Worker, status: CleanupStatus) {
    match me.role
    case Deployment => status == NotStarted
    case Request => me.phase.Finished? || status in {NotStarted, PartialFailed}
    case TeardownRecovery => status in {NotStarted, PartialFailed}
    case Cleanup => status != NotStarted
  }

  ghost predicate Roles(w: World) {
    forall t <- w.workers :: Holds(w.manifest, t, w.now) ==> InRole(w.workers[t], w.manifest.status)
  }

  lemma EnterRoles(w: World, role: Role, expiresAt: Time)
    requires Inv(w) && Roles(w)
    ensures Roles(Apply(w, Enter(role, expiresAt)))
  {
  }

  lemma LeaseRoles(w: World, s: Step)
    requires Inv(w) && Roles(w) && (s.Tick? || s.Heartbeat? || s.Leave? || s.Crash?)
    ensures Roles(Apply(w, s))
  {
    var w' := Apply(w, s);
    forall t <- w'.workers | Holds(w'.manifest, t, w'.now) ensures InRole(w'.workers[t], w'.manifest.status) {
      assert t in w.workers && Holds(w.manifest, t, w.now);
    }
  }

  lemma ReadRoles(w: World, s: Step)
    requires Inv(w) && Roles(w) && (s.Read? || s.Observe? || s.LastRead? || s.Record? || s.UpdateState?)
    ensures Roles(Apply(w, s))
  {
    var w' := Apply(w, s);
    forall t <- w'.workers | Holds(w'.manifest, t, w'.now) ensures InRole(w'.workers[t], w'.manifest.status) {
      assert t in w.workers && Holds(w.manifest, t, w.now);
    }
  }

  lemma EnqueueRoles(w: World, t: Token)
    requires Inv(w) && Roles(w)
    ensures Roles(Apply(w, Enqueue(t)))
  {
  }

  lemma CleanupRoles(w: World, s: Step)
    requires Inv(w) && Roles(w) && (s.EnqueueFailed? || s.MarkRunning? || s.NotQuiescent? || s.Conclude?)
    ensures Roles(Apply(w, s))
  {
  }

  lemma StepRoles(w: World, s: Step)
    requires Inv(w) && Roles(w)
    ensures Roles(Apply(w, s))
  {
    if s.Enter? {
      EnterRoles(w, s.role, s.expiresAt);
    } else if s.Tick? || s.Heartbeat? || s.Leave? || s.Crash? {
      LeaseRoles(w, s);
    } else if s.Enqueue? {
      EnqueueRoles(w, s.t);
    } else if s.EnqueueFailed? || s.MarkRunning? || s.NotQuiescent? || s.Conclude? {
      CleanupRoles(w, s);
    } else {
      ReadRoles(w, s);
    }
  }

  // ------------------------------------------------------------------ simulation

  /** The steps of `Delivery` that only concern the lease and the cleanup status. */
  predicate Shown(s: D.Step) {
    D.IsLeasing(s) || D.IsCleaning(s)
  }

  lemma RunOne(d: D.World, s: D.Step)
    ensures D.Run(d, [s]) == D.Apply(d, s)
  {
    assert [s][1..] == [];
    assert D.Run(D.Apply(d, s), []) == D.Apply(d, s);
  }

  lemma RunTwo(d: D.World, a: D.Step, b: D.Step)
    ensures D.Run(d, [a, b]) == D.Apply(D.Apply(d, a), b)
  {
    assert [a, b][1..] == [b];
    RunOne(D.Apply(d, a), b);
  }

  lemma ShowTime(w: World, s: Step, d: D.World) returns (shown: seq<D.Step>)
    requires Inv(w) && Sim(w, d) && (s.Tick? || s.Heartbeat?)
    ensures (forall x <- shown :: Shown(x)) && Sim(Apply(w, s), D.Run(d, shown))
  {
    if View(Apply(w, s)) == View(w) {
      shown := [];
    } else {
      shown := [D.Lose];
      RunOne(d, D.Lose);
    }
  }

  lemma ShowEnter(w: World, role: Role, expiresAt: Time, d: D.World) returns (shown: seq<D.Step>)
    requires Inv(w) && Sim(w, d)
    ensures (forall x <- shown :: Shown(x)) && Sim(Apply(w, Enter(role, expiresAt)), D.Run(d, shown))
  {
    var w' := Apply(w, Enter(role, expiresAt));
    if View(w') == View(w) {
      shown := [];
    } else {
      assert View(w) == None && View(w') == Some(w.nextToken);
      shown := [D.Enter(w.nextToken)];
      RunOne(d, D.Enter(w.nextToken));
    }
  }

  lemma ShowExit(w: World, s: Step, d: D.World) returns (shown: seq<D.Step>)
    requires Inv(w) && Sim(w, d) && (s.Leave? || s.Crash?)
    ensures (forall x <- shown :: Shown(x)) && Sim(Apply(w, s), D.Run(d, shown))
  {
    if s.t !in w.workers {
      assert w.workers - {s.t} == w.workers;
      shown := [];
    } else if s.Leave? {
      shown := [D.Leave(s.t)];
      RunOne(d, D.Leave(s.t));
    } else {
      shown := [D.Crash(s.t)];
      RunOne(d, D.Crash(s.t));
    }
  }

  lemma ShowEnqueue(w: World, t: Token, d: D.World) returns (shown: seq<D.Step>)
    requires Inv(w) && Roles(w) && Sim(w, d)
    ensures (forall x <- shown :: Shown(x)) && Sim(Apply(w, Enqueue(t)), D.Run(d, shown))
  {
    var w' := Apply(w, Enqueue(t));
    EnqueueMoves(w, t);
    if w'.manifest == w.manifest {
      shown := [];
    } else {
      shown := [D.Lose, D.EnqueueCleanup];
      LoseAndEnqueue(d);
    }
  }

  lemma EnqueueMoves(w: World, t: Token)
    requires Inv(w) && Roles(w)
    ensures var w' := Apply(w, Enqueue(t));
            && w'.nextToken == w.nextToken && w'.workers.Keys == w.workers.Keys && w'.now == w.now
            && (w'.manifest != w.manifest ==>
                  w.manifest.status in {NotStarted, PartialFailed} && w'.manifest.status == Queued)
  {
    if t in w.workers && Holds(w.manifest, t, w.now) { assert InRole(w.workers[t], w.manifest.status); }
  }

  lemma LoseAndEnqueue(d: D.World)
    requires d.cleanup in {NotStarted, PartialFailed}
    ensures D.Run(d, [D.Lose, D.EnqueueCleanup]) == d.(holder := None, cleanup := Queued)
  {
    RunTwo(d, D.Lose, D.EnqueueCleanup);
  }

  lemma MoveShows(d: D.World, status: CleanupStatus)
    requires d.cleanup in {Queued, Running} && status in {Running, PartialFailed, Succeeded}
    ensures D.Apply(d, D.CleanupMoves(status)) == d.(cleanup := status)
  {
  }

  lemma EnqueueShows(d: D.World)
    requires d.holder.None? && d.cleanup == PartialFailed
    ensures D.Apply(d, D.EnqueueCleanup) == d.(cleanup := Queued)
  {
  }

  lemma MovedSim(w: World, w': World, d: D.World)
    requires Sim(w, d) && w'.nextToken == w.nextToken
    requires w.manifest.status != NotStarted && w'.manifest.status != NotStarted
    ensures Sim(w', d.(cleanup := w'.manifest.status))
  {
  }

  lemma ShowCleanup(w: World, s: Step, d: D.World) returns (shown: seq<D.Step>)
    requires Inv(w) && Roles(w) && Sim(w, d)
    requires s.EnqueueFailed? || s.MarkRunning? || s.NotQuiescent? || s.Conclude?
    ensures (forall x <- shown :: Shown(x)) && Sim(Apply(w, s), D.Run(d, shown))
  {
    StatusMoves(w, s);
    var w' := Apply(w, s);
    shown := ShowMove(w, w', d);
  }

  lemma ShowMove(w: World, w': World, d: D.World) returns (shown: seq<D.Step>)
    requires Sim(w, d) && w'.nextToken == w.nextToken && w'.workers.Keys == w.workers.Keys && w'.now == w.now
    requires w'.manifest.leaseOwner == w.manifest.leaseOwner && w'.manifest.leaseExpiresAt == w.manifest.leaseExpiresAt
    requires w'.manifest.status != w.manifest.status ==>
               w.manifest.status in {Queued, Running, PartialFailed} && w'.manifest.status in {Running, PartialFailed, Succeeded}
    ensures (forall x <- shown :: Shown(x)) && Sim(w', D.Run(d, shown))
  {
    var before, after := w.manifest.status, w'.manifest.status;
    if before == after {
      shown := [];
      return;
    }
    MovedSim(w, w', d);
    if before == PartialFailed {
      // the compensation of a failed enqueue came between the claim and "running"
      shown := [D.EnqueueCleanup, D.CleanupMoves(after)];
      EnqueueShows(d);
      MoveShows(d.(cleanup := Queued), after);
      RunTwo(d, D.EnqueueCleanup, D.CleanupMoves(after));
    } else {
      shown := [D.CleanupMoves(after)];
      MoveShows(d, after);
      RunOne(d, D.CleanupMoves(after));
    }
  }

  lemma StatusMoves(w: World, s: Step)
    requires Inv(w) && Roles(w)
    requires s.EnqueueFailed? || s.MarkRunning? || s.NotQuiescent? || s.Conclude?
    ensures var w' := Apply(w, s);
            && w'.nextToken == w.nextToken && w'.workers.Keys == w.workers.Keys && w'.now == w.now
            && w'.manifest.leaseOwner == w.manifest.leaseOwner && w'.manifest.leaseExpiresAt == w.manifest.leaseExpiresAt
            && (w'.manifest.status != w.manifest.status ==>
                  w.manifest.status in {Queued, Running, PartialFailed} && w'.manifest.status in {Running, PartialFailed, Succeeded})
  {
  }

  lemma ShowRead(w: World, s: Step, d: D.World)
    requires Inv(w) && Sim(w, d) && (s.Read? || s.Observe? || s.LastRead? || s.Record? || s.UpdateState?)
    ensures Sim(Apply(w, s), d)
  {
  }

  /** Every step of the protocol shows in `Delivery` as steps of the lease and the cleanup
      status alone. */
  lemma StepShows(w: World, s: Step, d: D.World) returns (shown: seq<D.Step>)
    requires Inv(w) && Roles(w) && Sim(w, d)
    ensures (forall x <- shown :: Shown(x)) && Sim(Apply(w, s), D.Run(d, shown))
  {
    if s.Tick? || s.Heartbeat? {
      shown := ShowTime(w, s, d);
    } else if s.Enter? {
      shown := ShowEnter(w, s.role, s.expiresAt, d);
    } else if s.Leave? || s.Crash? {
      shown := ShowExit(w, s, d);
    } else if s.Enqueue? {
      shown := ShowEnqueue(w, s.t, d);
    } else if s.EnqueueFailed? || s.MarkRunning? || s.NotQuiescent? || s.Conclude? {
      shown := ShowCleanup(w, s, d);
    } else {
      ShowRead(w, s, d);
      shown := [];
    }
  }

  /** The steps of the check and the delivery leave the lease and the cleanup status
      alone, so they may come between any two steps of the protocol. */
  lemma DeliveryStepsKeepSim(w: World, d: D.World, s: D.Step)
    requires Sim(w, d) && !Shown(s)
    ensures Sim(w, D.Apply(d, s))
  {
    if D.IsStarting(s) || D.IsCallingOut(s) || D.IsKeeping(s) {
      CheckKeepsLease(d, s);
    } else if D.IsConcluding(s) || D.IsDelivering(s) || D.IsRaising(s) || D.IsAdvancing(s) {
      EndKeepsLease(d, s);
    } else {
      OutsideKeepsLease(d, s);
    }
  }

  predicate SameLease(d: D.World, d': D.World) {
    d'.holder == d.holder && d'.cleanup == d.cleanup && d'.nextToken == d.nextToken && d.workers.Keys <= d'.workers.Keys
  }

  lemma CheckKeepsLease(d: D.World, s: D.Step)
    requires D.IsStarting(s) || D.IsCallingOut(s) || D.IsKeeping(s)
    ensures SameLease(d, D.Apply(d, s))
  {
  }

  lemma EndKeepsLease(d: D.World, s: D.Step)
    requires D.IsConcluding(s) || D.IsDelivering(s) || D.IsRaising(s) || D.IsAdvancing(s)
    ensures SameLease(d, D.Apply(d, s))
  {
  }

  lemma OutsideKeepsLease(d: D.World, s: D.Step)
    requires D.IsInterfering(s) || D.IsTearing(s)
    ensures SameLease(d, D.Apply(d, s))
  {
  }

  /** One step of either side, with what the protocol's steps show as. */
  datatype Event = Protocol(step: Step) | Build(move: D.Step)

  /** A joint history: protocol events move both sides, build events only the delivery. */
  lemma {:induction false} JointHistory(w: World, d: D.World, events: seq<Event>) returns (history: seq<D.Step>, end: World)
    requires Inv(w) && Roles(w) && Sim(w, d)
    requires forall i :: 0 <= i < |events| && events[i].Build? ==> !Shown(events[i].move)
    ensures end == Run(w, ProtocolSteps(events)) && Sim(end, D.Run(d, history))
    ensures BuildSteps(history) == BuildStepsOf(events)
    decreases |events|
  {
    if events == [] {
      return [], w;
    }
    var rest := events[1..];
    if events[0].Build? {
      var s := events[0].move;
      DeliveryStepsKeepSim(w, d, s);
      history, end := JointHistory(w, D.Apply(d, s), rest);
      history := [s] + history;
    } else {
      var s := events[0].step;
      StepInv(w, s);
      StepRoles(w, s);
      var shown := StepShows(w, s, d);
      var more, last := JointHistory(Apply(w, s), D.Run(d, shown), rest);
      DeliveryRunJoin(d, shown, more);
      BuildStepsJoin(shown, more);
      NoBuildSteps(shown);
      history, end := shown + more, last;
      assert ([s] + ProtocolSteps(rest))[1..] == ProtocolSteps(rest);
    }
  }

  function ProtocolSteps(events: seq<Event>): seq<Step> {
    if events == [] then []
    else if events[0].Protocol? then [events[0].step] + ProtocolSteps(events[1..])
    else ProtocolSteps(events[1..])
  }

  function BuildStepsOf(events: seq<Event>): seq<D.Step> {
    if events == [] then []
    else if events[0].Build? then [events[0].move] + BuildStepsOf(events[1..])
    else BuildStepsOf(events[1..])
  }

  /** The steps of a history that are not about the lease or the cleanup status. */
  function BuildSteps(history: seq<D.Step>): seq<D.Step> {
    if history == [] then []
    else if Shown(history[0]) then BuildSteps(history[1..])
    else [history[0]] + BuildSteps(history[1..])
  }

  lemma {:induction false} NoBuildSteps(shown: seq<D.Step>)
    requires forall x <- shown :: Shown(x)
    ensures BuildSteps(shown) == []
    decreases |shown|
  {
    if shown != [] { NoBuildSteps(shown[1..]); }
  }

  lemma {:induction false} BuildStepsJoin(a: seq<D.Step>, b: seq<D.Step>)
    ensures BuildSteps(a + b) == BuildSteps(a) + BuildSteps(b)
    decreases |a|
  {
    if a == [] {
      assert a + b == b;
    } else {
      assert (a + b)[1..] == a[1..] + b;
      BuildStepsJoin(a[1..], b);
    }
  }

  lemma {:induction false} DeliveryRunJoin(d: D.World, a: seq<D.Step>, b: seq<D.Step>)
    ensures D.Run(d, a + b) == D.Run(D.Run(d, a), b)
    decreases |a|
  {
    if a == [] {
      assert a + b == b;
    } else {
      DeliveryRunJoin(D.Apply(d, a[0]), a[1..], b);
      assert (a + b)[0] == a[0] && (a + b)[1..] == a[1..] + b;
    }
  }

  /** Every interleaving of the protocol with the steps of a delivery, from the start, is a
      run of `Delivery` with the same build steps, the lease holder and the cleanup
      status being those of the protocol. */
  lemma HistoriesAreDeliveries(resources: Resources, now: Time, events: seq<Event>) returns (history: seq<D.Step>)
    requires forall i :: 0 <= i < |events| && events[i].Build? ==> !Shown(events[i].move)
    ensures var w := Run(Initial(resources, now), ProtocolSteps(events));
            var d := D.Run(D.INITIAL, history);
            d.holder == View(w) && d.cleanup == w.manifest.status
    ensures BuildSteps(history) == BuildStepsOf(events)
  {
    InitialInv(resources, now);
    var end;
    history, end := JointHistory(Initial(resources, now), D.INITIAL, events);
  }
}
