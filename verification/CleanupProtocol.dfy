/** The lease and cleanup protocol of one build as a step system. A worker is
    one `build_lease` block: a deployment operation, a cleanup request or a
    cleanup run. Workers interleave at every repository call, heartbeats come or
    stop at any time, leases expire, workers crash, enqueues fail. `Run` plays
    any schedule; a step that is not enabled changes nothing. */
module CleanupProtocol {
  import opened Options
  import opened Manifests

  /** Which statuses each caller passes to `build_lease`. */
  datatype Role = Deployment | Request | Cleanup | TeardownRecovery

  function Claimable(role: Role): set<CleanupStatus> {
    match role
    case Deployment => {NotStarted}
    case Request => {NotStarted, PartialFailed}
    case TeardownRecovery => {NotStarted, PartialFailed}
    case Cleanup => {Queued, Running}
  }

  datatype Phase =
    | Working                      // may read, record and update resources
    | Observed(status: CleanupStatus, generation: nat)  // request: re-read under the lease
    | Judged(clean: bool)                                 // run: last read taken, verdict computed
    | Finished                     // nothing left but to release

  /** `seen` is what the worker last read, with its own later writes. */
  datatype Worker = Worker(role: Role, phase: Phase, seen: Option<Resources>)

  datatype Write = Write(owner: Token, key: Key)

  datatype World = World(
    now: Time,
    manifest: Manifest,
    workers: map<Token, Worker>,
    nextToken: Token,
    log: seq<Write>)

  datatype Step =
    | Tick(elapsed: nat)
    | Enter(role: Role, expiresAt: Time)
    | Heartbeat(t: Token, expiresAt: Time)
    | Leave(t: Token)
    | Crash(t: Token)
    | Read(t: Token)
    | Record(t: Token, entry: Entry)
    | UpdateState(t: Token, key: Key, state: ResourceState, error: Option<string>, note: Metadata)
    | Observe(t: Token)
    | Enqueue(t: Token)
    | EnqueueFailed(generation: nat)
    | MarkRunning(t: Token)
    | NotQuiescent(t: Token)
    | LastRead(t: Token, errors: bool)
    | Conclude(t: Token)

  predicate At(w: World, t: Token, role: Role) {
    t in w.workers && w.workers[t].role == role
  }

  predicate Busy(w: World, t: Token) {
    t in w.workers && w.workers[t].phase.Working?
  }

  function SetPhase(w: World, t: Token, phase: Phase): World
    requires t in w.workers
  {
    w.(workers := w.workers[t := w.workers[t].(phase := phase)])
  }

  /** A manifest write whose refusal the caller ignores. */
  function Commit(w: World, m: Option<Manifest>): World {
    if m.Some? then w.(manifest := m.value) else w
  }

  /** A fenced resource write: stored, remembered by its writer and logged, or refused. */
  function Store(w: World, t: Token, key: Key, resource: Resource): World
    requires t in w.workers && w.workers[t].seen.Some?
  {
    var stored := Put(w.manifest, key, resource, Some(t), w.now);
    if stored.None? then w
    else
      var me := w.workers[t];
      w.(manifest := stored.value,
         workers := w.workers[t := me.(seen := Some(me.seen.value[key := resource]))],
         log := w.log + [Write(t, key)])
  }

  /** `ResourceTracker.update`, given a resource as last read; a removed registry
      image also notes its storage status. */
  function Updated(r: Resource, state: ResourceState, error: Option<string>, note: Metadata): Resource {
    r.(state := state, error := error,
       metadata := if STORAGE_STATUS in note
                   then r.metadata[STORAGE_STATUS := note[STORAGE_STATUS]] else r.metadata)
  }

  const STORAGE_STATUS := "registry_storage_status"

  /** What `BuildCleanupRunner.run` saves: `clean` is no remaining resource and no error. */
  function Verdict(clean: bool): CleanupStatus {
    if clean then Succeeded else PartialFailed
  }

  function Apply(w: World, s: Step): World {
    match s
    case Tick(d) => w.(now := w.now + d)
    case Enter(role, expiresAt) =>
      var claimed := Claim(w.manifest, w.nextToken, expiresAt, Claimable(role), w.now);
      if claimed.None? then w.(nextToken := w.nextToken + 1)
      else w.(manifest := claimed.value, nextToken := w.nextToken + 1,
              workers := w.workers[w.nextToken := Worker(role, Working, None)])
    case Heartbeat(t, expiresAt) =>
      if t in w.workers then Commit(w, Renew(w.manifest, t, expiresAt, w.now)) else w
    case Leave(t) =>
      if t in w.workers
      then w.(manifest := Release(w.manifest, t), workers := w.workers - {t})
      else w
    case Crash(t) => w.(workers := w.workers - {t})
    case Read(t) =>
      if Busy(w, t)
      then w.(workers := w.workers[t := w.workers[t].(seen := Some(w.manifest.resources))])
      else w
    case Record(t, e) =>
      if Busy(w, t) && w.workers[t].seen.Some? && Recorded(w.workers[t].seen.value, e).Ok?
      then Store(w, t, e.key, Recorded(w.workers[t].seen.value, e).value)
      else w
    case UpdateState(t, key, state, error, note) =>
      if Busy(w, t) && w.workers[t].seen.Some? && key in w.workers[t].seen.value
      then Store(w, t, key, Updated(w.workers[t].seen.value[key], state, error, note))
      else w
    case Observe(t) =>
      if Busy(w, t) && At(w, t, Request)
      then SetPhase(w, t, Observed(w.manifest.status, w.manifest.generation))
      else w
    case Enqueue(t) =>
      if At(w, t, Request) && w.workers[t].phase.Observed? then
        var p := w.workers[t].phase;
        var queued := Update(w.manifest,
                             Patch(status := Some(Queued), generation := Some(p.generation + 1)),
                             Expected(leaseOwner := Some(t), status := Some(p.status)), w.now);
        SetPhase(Commit(w, queued), t, Finished)
      else w
    case EnqueueFailed(generation) =>
      Commit(w, Update(w.manifest, Patch(status := Some(PartialFailed)),
                       Expected(status := Some(Queued), generation := Some(generation)), w.now))
    case MarkRunning(t) =>
      if Busy(w, t) && At(w, t, Cleanup)
      then Commit(w, Update(w.manifest, Patch(status := Some(Running)),
                            Expected(leaseOwner := Some(t)), w.now))
      else w
    case NotQuiescent(t) =>
      if Busy(w, t) && At(w, t, Cleanup)
      then SetPhase(Commit(w, Update(w.manifest, Patch(status := Some(PartialFailed)),
                                     Expected(leaseOwner := Some(t)), w.now)), t, Finished)
      else w
    case LastRead(t, errors) =>
      if Busy(w, t) && At(w, t, Cleanup)
      then SetPhase(w.(workers := w.workers[t := w.workers[t].(seen := Some(w.manifest.resources))]),
                    t, Judged(AllRemoved(w.manifest.resources) && !errors))
      else w
    case Conclude(t) =>
      if At(w, t, Cleanup) && w.workers[t].phase.Judged?
      then SetPhase(Commit(w, Update(w.manifest, Patch(status := Some(Verdict(w.workers[t].phase.clean))),
                                     Expected(leaseOwner := Some(t), status := Some(Running)), w.now)),
                    t, Finished)
      else w
  }

  function Run(w: World, schedule: seq<Step>): World
    decreases |schedule|
  {
    if schedule == [] then w else Run(Apply(w, schedule[0]), schedule[1..])
  }

  /** A manifest as `ensure_build_resources` stores it, with any resources. */
  function Initial(resources: Resources, now: Time): World {
    World(now, Manifest(resources, NotStarted, 0, false, None, None), map[], 0, [])
  }

  // ---------------------------------------------------------------- invariant

  /** Each owner's accepted writes are one contiguous block. */
  ghost predicate Blocks(log: seq<Write>) {
    forall i, j, k :: 0 <= i < j < k < |log| && log[i].owner == log[k].owner ==> log[j].owner == log[i].owner
  }

  ghost predicate Wrote(log: seq<Write>, t: Token) {
    exists i :: 0 <= i < |log| && log[i].owner == t
  }

  /** While a worker holds the lease, everything it has read is still current. */
  predicate Exact(me: Worker, m: Manifest) {
    && (me.seen.Some? ==> me.seen.value == m.resources)
    && (me.phase.Observed? ==> me.phase.generation == m.generation)
    && (me.phase.Judged? && me.phase.clean ==> AllRemoved(m.resources))
  }

  ghost predicate Fresh(w: World) {
    && (w.manifest.leaseOwner.Some? ==> w.manifest.leaseOwner.value < w.nextToken)
    && (forall t <- w.workers :: t < w.nextToken)
    && (forall i :: 0 <= i < |w.log| ==> w.log[i].owner < w.nextToken)
  }

  ghost predicate Fenced(w: World) {
    forall t <- w.workers :: Holds(w.manifest, t, w.now) ==>
      && Exact(w.workers[t], w.manifest)
      && (w.manifest.status == Succeeded ==> w.workers[t].phase.Finished?)
  }

  ghost predicate Logged(w: World) {
    && Blocks(w.log)
    && (w.manifest.leaseOwner.Some? && Wrote(w.log, w.manifest.leaseOwner.value) ==>
          w.log[|w.log| - 1].owner == w.manifest.leaseOwner.value)
  }

  ghost predicate Inv(w: World) {
    && Fresh(w) && Fenced(w) && Logged(w)
    && (w.manifest.status == Succeeded ==> AllRemoved(w.manifest.resources))
  }

  lemma InitialInv(resources: Resources, now: Time)
    ensures Inv(Initial(resources, now))
  {
  }

  /** Claiming draws a token no log entry and no worker carries. */
  lemma EnterInv(w: World, role: Role, expiresAt: Time)
    requires Inv(w)
    ensures Inv(Apply(w, Enter(role, expiresAt)))
  {
    var w' := Apply(w, Enter(role, expiresAt));
    assert !Wrote(w.log, w.nextToken);
    if w'.manifest != w.manifest {
      assert w'.manifest.leaseOwner == Some(w.nextToken);
    }
  }

  lemma StoreInv(w: World, t: Token, key: Key, resource: Resource)
    requires Inv(w) && Busy(w, t) && w.workers[t].seen.Some?
    ensures Inv(Store(w, t, key, resource))
  {
    var w' := Store(w, t, key, resource);
    if w' != w {
      assert Holds(w.manifest, t, w.now) && Exact(w.workers[t], w.manifest);
      forall u <- w'.workers | Holds(w'.manifest, u, w'.now)
        ensures Exact(w'.workers[u], w'.manifest)
      {
        assert u == t;
      }
      forall i, j, k | 0 <= i < j < k < |w'.log| && w'.log[i].owner == w'.log[k].owner
        ensures w'.log[j].owner == w'.log[i].owner
      {
        if k == |w.log| {
          assert Wrote(w.log, t);
        }
      }
    }
  }

  /** Steps that touch only the lease, the clock or who is running. */
  lemma LeaseStepInv(w: World, s: Step)
    requires Inv(w)
    requires s.Tick? || s.Heartbeat? || s.Leave? || s.Crash?
    ensures Inv(Apply(w, s))
  {
    var w' := Apply(w, s);
    assert w'.manifest.resources == w.manifest.resources && w'.manifest.status == w.manifest.status;
    assert w'.manifest.leaseOwner.Some? ==> w'.manifest.leaseOwner == w.manifest.leaseOwner;
    forall t <- w'.workers ensures t in w.workers && w'.workers[t] == w.workers[t] {}
    forall t <- w'.workers | Holds(w'.manifest, t, w'.now) ensures Holds(w.manifest, t, w.now) {}
  }

  lemma ReadStepInv(w: World, s: Step)
    requires Inv(w)
    requires s.Read? || s.Observe? || s.LastRead?
    ensures Inv(Apply(w, s))
  {
    var w' := Apply(w, s);
    assert w'.manifest == w.manifest && w'.log == w.log && w'.now == w.now;
    forall t <- w'.workers | Holds(w'.manifest, t, w'.now)
      ensures Exact(w'.workers[t], w'.manifest) && (w'.manifest.status == Succeeded ==> w'.workers[t].phase.Finished?)
    {
      assert t in w.workers;
    }
  }

  /** Steps that move the cleanup status: they never touch a resource, and only
      the lease holder or the compensation of a failed enqueue gets through. */
  lemma StatusStepInv(w: World, s: Step)
    requires Inv(w)
    requires s.Enqueue? || s.EnqueueFailed? || s.MarkRunning? || s.NotQuiescent? || s.Conclude?
    ensures Inv(Apply(w, s))
  {
    if s.Conclude? { ConcludeInv(w, s); } else { MoveInv(w, s); }
  }

  lemma MoveInv(w: World, s: Step)
    requires Inv(w) && (s.Enqueue? || s.EnqueueFailed? || s.MarkRunning? || s.NotQuiescent?)
    ensures Inv(Apply(w, s))
  {
    var w' := Apply(w, s);
    assert w'.manifest.resources == w.manifest.resources && w'.manifest.leaseOwner == w.manifest.leaseOwner;
    assert w'.log == w.log && w'.now == w.now && w'.workers.Keys == w.workers.Keys;
    forall t <- w'.workers | Holds(w'.manifest, t, w'.now)
      ensures Exact(w'.workers[t], w'.manifest) && (w'.manifest.status == Succeeded ==> w'.workers[t].phase.Finished?)
    {
      assert t in w.workers && Holds(w.manifest, t, w.now);
    }
  }

  lemma ConcludeInv(w: World, s: Step)
    requires Inv(w) && s.Conclude?
    ensures Inv(Apply(w, s))
  {
    var w' := Apply(w, s);
    assert w'.manifest.resources == w.manifest.resources && w'.manifest.leaseOwner == w.manifest.leaseOwner;
    assert w'.log == w.log && w'.now == w.now && w'.workers.Keys == w.workers.Keys;
    forall t <- w'.workers | Holds(w'.manifest, t, w'.now)
      ensures Exact(w'.workers[t], w'.manifest) && (w'.manifest.status == Succeeded ==> w'.workers[t].phase.Finished?)
    {
      assert t in w.workers && Holds(w.manifest, t, w.now);
    }
  }

  lemma StepInv(w: World, s: Step)
    requires Inv(w)
    ensures Inv(Apply(w, s))
  {
    match s
    case Enter(role, expiresAt) => EnterInv(w, role, expiresAt);
    case Record(t, e) =>
      if Busy(w, t) && w.workers[t].seen.Some? && Recorded(w.workers[t].seen.value, e).Ok? {
        StoreInv(w, t, e.key, Recorded(w.workers[t].seen.value, e).value);
      }
    case UpdateState(t, key, state, error, note) =>
      if Busy(w, t) && w.workers[t].seen.Some? && key in w.workers[t].seen.value {
        StoreInv(w, t, key, Updated(w.workers[t].seen.value[key], state, error, note));
      }
    case Read(_) => ReadStepInv(w, s);
    case Observe(_) => ReadStepInv(w, s);
    case LastRead(_, _) => ReadStepInv(w, s);
    case Tick(_) => LeaseStepInv(w, s);
    case Heartbeat(_, _) => LeaseStepInv(w, s);
    case Leave(_) => LeaseStepInv(w, s);
    case Crash(_) => LeaseStepInv(w, s);
    case _ => StatusStepInv(w, s);
  }

  lemma {:induction false} RunInv(w: World, schedule: seq<Step>)
    requires Inv(w)
    ensures Inv(Run(w, schedule))
    decreases |schedule|
  {
    if schedule != [] {
      StepInv(w, schedule[0]);
      RunInv(Apply(w, schedule[0]), schedule[1..]);
    }
  }

  lemma {:induction false} RunJoin(w: World, a: seq<Step>, b: seq<Step>)
    ensures Run(w, a + b) == Run(Run(w, a), b)
    decreases |a|
  {
    if a == [] {
      assert a + b == b;
    } else {
      RunJoin(Apply(w, a[0]), a[1..], b);
      assert (a + b)[0] == a[0] && (a + b)[1..] == a[1..] + b;
    }
  }

  // ------------------------------------------------------- what one step keeps

  /** A native id, once known, and a volume's creation token, once non-empty, never change. */
  ghost predicate SameIdentity(before: Resources, after: Resources) {
    forall k <- before :: k in after && KeepsIdentity(k, before[k], after[k])
  }

  predicate KeepsIdentity(k: Key, before: Resource, after: Resource) {
    && (before.nativeId.Some? ==> after.nativeId == before.nativeId)
    && (k.kind == Volume && Truthy(Lookup(before.metadata, CREATION_TOKEN)) ==>
          Lookup(after.metadata, CREATION_TOKEN) == Lookup(before.metadata, CREATION_TOKEN))
  }

  lemma SameIdentityTransitive(a: Resources, b: Resources, c: Resources)
    requires SameIdentity(a, b) && SameIdentity(b, c)
    ensures SameIdentity(a, c)
  {
    forall k <- a ensures k in c && KeepsIdentity(k, a[k], c[k]) {
      assert k in b && KeepsIdentity(k, a[k], b[k]);
    }
  }

  /** `record` refuses every change of identity against what it read. */
  lemma RecordedKeepsIdentity(seen: Resources, e: Entry)
    requires Recorded(seen, e).Ok? && e.key in seen
    ensures KeepsIdentity(e.key, seen[e.key], Recorded(seen, e).value)
  {
  }

  lemma StepSameIdentity(w: World, s: Step)
    requires Inv(w)
    ensures SameIdentity(w.manifest.resources, Apply(w, s).manifest.resources)
  {
    var m, m' := w.manifest, Apply(w, s).manifest;
    if m'.resources != m.resources {
      assert s.Record? || s.UpdateState?;
      assert Holds(m, s.t, w.now) && Exact(w.workers[s.t], m);
      if s.Record? && s.entry.key in m.resources {
        RecordedKeepsIdentity(m.resources, s.entry);
      }
    }
  }

  /** The read and the later write of an accepted `record` act as one atomic
      read-modify-write of the stored manifest: no other owner's update is lost. */
  lemma RecordIsAtomic(w: World, t: Token, e: Entry)
    requires Inv(w)
    ensures var w' := Apply(w, Record(t, e));
            |w'.log| == |w.log| + 1 ==>
              && Holds(w.manifest, t, w.now)
              && Recorded(w.manifest.resources, e).Ok?
              && w'.manifest.resources == w.manifest.resources[e.key := Recorded(w.manifest.resources, e).value]
    ensures var w' := Apply(w, Record(t, e));
            |w'.log| != |w.log| + 1 ==> w' == w
  {
    if Busy(w, t) && Holds(w.manifest, t, w.now) {
      assert Exact(w.workers[t], w.manifest);
    }
  }

  lemma StepSucceededIsFinal(w: World, s: Step)
    requires Inv(w) && w.manifest.status == Succeeded
    ensures Apply(w, s).manifest.status == Succeeded
    ensures Apply(w, s).manifest.resources == w.manifest.resources
  {
    if s.Record? || s.UpdateState? || s.Enqueue? || s.MarkRunning? || s.NotQuiescent? || s.Conclude? {
      if s.t in w.workers && Holds(w.manifest, s.t, w.now) {
        assert w.workers[s.t].phase.Finished?;
      }
    }
  }

  lemma StepGeneration(w: World, s: Step)
    requires Inv(w)
    ensures w.manifest.generation <= Apply(w, s).manifest.generation <= w.manifest.generation + 1
    ensures w.manifest.status != Queued && Apply(w, s).manifest.status == Queued ==>
              Apply(w, s).manifest.generation == w.manifest.generation + 1
  {
    if s.Enqueue? && s.t in w.workers && Holds(w.manifest, s.t, w.now) {
      assert Exact(w.workers[s.t], w.manifest);
    }
  }

  /** A lost lease is never regained: tokens are drawn once and a renewal needs an unexpired lease. */
  lemma StepLostForGood(w: World, s: Step, t: Token)
    requires Inv(w) && t < w.nextToken && !Holds(w.manifest, t, w.now)
    ensures !Holds(Apply(w, s).manifest, t, Apply(w, s).now)
  {
  }

  // ------------------------------------------------------------- over whole runs

  /** In every reachable state, a SUCCEEDED cleanup has removed every resource of the manifest. */
  lemma SucceededMeansRemoved(resources: Resources, now: Time, schedule: seq<Step>)
    ensures var w := Run(Initial(resources, now), schedule);
            w.manifest.status == Succeeded ==>
              forall k <- w.manifest.resources :: w.manifest.resources[k].state == ResourceState.Removed
  {
    InitialInv(resources, now);
    RunInv(Initial(resources, now), schedule);
  }

  /** SUCCEEDED is never left, and the manifest it was concluded on never changes again. */
  lemma {:induction false} SucceededIsFinal(w: World, schedule: seq<Step>)
    requires Inv(w) && w.manifest.status == Succeeded
    ensures Run(w, schedule).manifest.status == Succeeded
    ensures Run(w, schedule).manifest.resources == w.manifest.resources
    decreases |schedule|
  {
    if schedule != [] {
      StepSucceededIsFinal(w, schedule[0]);
      StepInv(w, schedule[0]);
      SucceededIsFinal(Apply(w, schedule[0]), schedule[1..]);
    }
  }

  /** The generation never decreases; within one generation the status, once it
      has left QUEUED, does not return. So the compensation of a failed enqueue,
      which expects its own generation, can only undo its own request, and only
      while no cleanup run has picked that request up. */
  lemma {:induction false} QueuedOncePerGeneration(w: World, schedule: seq<Step>)
    requires Inv(w)
    ensures w.manifest.generation <= Run(w, schedule).manifest.generation
    ensures w.manifest.status != Queued && Run(w, schedule).manifest.generation == w.manifest.generation ==>
              Run(w, schedule).manifest.status != Queued
    decreases |schedule|
  {
    if schedule != [] {
      StepGeneration(w, schedule[0]);
      StepInv(w, schedule[0]);
      QueuedOncePerGeneration(Apply(w, schedule[0]), schedule[1..]);
    }
  }

  /** An owner that once fails `guard` never passes it again. */
  lemma {:induction false} LostForGood(w: World, schedule: seq<Step>, t: Token)
    requires Inv(w) && t < w.nextToken && !Holds(w.manifest, t, w.now)
    ensures !Holds(Run(w, schedule).manifest, t, Run(w, schedule).now)
    decreases |schedule|
  {
    if schedule != [] {
      StepLostForGood(w, schedule[0], t);
      StepInv(w, schedule[0]);
      LostForGood(Apply(w, schedule[0]), schedule[1..], t);
    }
  }

  lemma {:induction false} IdentityIsStable(w: World, schedule: seq<Step>)
    requires Inv(w)
    ensures SameIdentity(w.manifest.resources, Run(w, schedule).manifest.resources)
    decreases |schedule|
  {
    if schedule != [] {
      var w' := Apply(w, schedule[0]);
      StepSameIdentity(w, schedule[0]);
      StepInv(w, schedule[0]);
      IdentityIsStable(w', schedule[1..]);
      SameIdentityTransitive(w.manifest.resources, w'.manifest.resources, Run(w', schedule[1..]).manifest.resources);
    }
  }

  /** The log of accepted fenced writes is a concatenation of per-owner blocks. */
  lemma LogIsBlocks(resources: Resources, now: Time, schedule: seq<Step>)
    ensures Blocks(Run(Initial(resources, now), schedule).log)
  {
    InitialInv(resources, now);
    RunInv(Initial(resources, now), schedule);
  }

  // ---------------------------------------------------------- cleanup can succeed

  /** A cleanup run under its lease, with a current view of the manifest. */
  predicate Cleaning(w: World, t: Token) {
    && Busy(w, t) && At(w, t, Cleanup) && Holds(w.manifest, t, w.now)
    && w.manifest.status == Running && w.workers[t].seen == Some(w.manifest.resources)
  }

  function Unremoved(rs: Resources): set<Key> {
    set k <- rs | rs[k].state != ResourceState.Removed
  }

  lemma RunCons(w: World, s: Step, rest: seq<Step>)
    ensures Run(w, [s] + rest) == Run(Apply(w, s), rest)
  {
    assert ([s] + rest)[1..] == rest;
  }

  lemma RemoveOne(w: World, t: Token, k: Key)
    requires Cleaning(w, t) && k in Unremoved(w.manifest.resources)
    ensures var w' := Apply(w, UpdateState(t, k, ResourceState.Removed, None, map[]));
            Cleaning(w', t) && Unremoved(w'.manifest.resources) == Unremoved(w.manifest.resources) - {k}
  {
  }

  lemma ConcludesClean(w: World, t: Token)
    requires Cleaning(w, t) && Unremoved(w.manifest.resources) == {}
    ensures Run(w, [LastRead(t, false)] + ([Conclude(t)] + [])).manifest.status == Succeeded
  {
    var w1 := Apply(w, LastRead(t, false));
    RunCons(w, LastRead(t, false), [Conclude(t)] + []);
    RunCons(w1, Conclude(t), []);
    JudgesClean(w, t);
    SavesClean(w1, t);
  }

  lemma JudgesClean(w: World, t: Token)
    requires Cleaning(w, t) && Unremoved(w.manifest.resources) == {}
    ensures var w' := Apply(w, LastRead(t, false));
            At(w', t, Cleanup) && w'.workers[t].phase == Judged(true) && w'.manifest == w.manifest && w'.now == w.now
  {
    forall k <- w.manifest.resources ensures w.manifest.resources[k].state == ResourceState.Removed {
      assert k !in Unremoved(w.manifest.resources);
    }
  }

  lemma SavesClean(w: World, t: Token)
    requires At(w, t, Cleanup) && w.workers[t].phase == Judged(true) && Holds(w.manifest, t, w.now)
    requires w.manifest.status == Running
    ensures Apply(w, Conclude(t)).manifest.status == Succeeded
  {
  }

  lemma {:induction false} CleaningSucceeds(w: World, t: Token) returns (schedule: seq<Step>)
    requires Cleaning(w, t)
    ensures Run(w, schedule).manifest.status == Succeeded
    decreases |Unremoved(w.manifest.resources)|
  {
    if Unremoved(w.manifest.resources) == {} {
      ConcludesClean(w, t);
      schedule := [LastRead(t, false)] + ([Conclude(t)] + []);
    } else {
      var k :| k in Unremoved(w.manifest.resources);
      var step := UpdateState(t, k, ResourceState.Removed, None, map[]);
      RemoveOne(w, t, k);
      var rest := CleaningSucceeds(Apply(w, step), t);
      RunCons(w, step, rest);
      schedule := [step] + rest;
    }
  }

  /** A worker that has just claimed the lease. */
  predicate Claimed(w: World, t: Token, role: Role, status: CleanupStatus) {
    Busy(w, t) && At(w, t, role) && Holds(w.manifest, t, w.now) && w.manifest.status == status
  }

  predicate Unheld(w: World) {
    w.manifest.leaseOwner.None? || LeaseExpired(w.manifest.leaseExpiresAt, w.now)
  }

  lemma RunningSucceeds(w: World, t: Token) returns (schedule: seq<Step>)
    requires Claimed(w, t, Cleanup, Running)
    ensures Run(w, schedule).manifest.status == Succeeded
  {
    var rest := CleaningSucceeds(Apply(w, Read(t)), t);
    RunCons(w, Read(t), rest);
    schedule := [Read(t)] + rest;
  }

  lemma PickedUpSucceeds(w: World, t: Token) returns (schedule: seq<Step>)
    requires Claimed(w, t, Cleanup, w.manifest.status)
    ensures Run(w, schedule).manifest.status == Succeeded
  {
    var rest := RunningSucceeds(Apply(w, MarkRunning(t)), t);
    RunCons(w, MarkRunning(t), rest);
    schedule := [MarkRunning(t)] + rest;
  }

  lemma QueuedSucceeds(w: World) returns (schedule: seq<Step>)
    requires w.manifest.status in {Queued, Running} && Unheld(w)
    ensures Run(w, schedule).manifest.status == Succeeded
  {
    var step := Enter(Cleanup, w.now + 1);
    var rest := PickedUpSucceeds(Apply(w, step), w.nextToken);
    RunCons(w, step, rest);
    schedule := [step] + rest;
  }

  lemma EnqueuedSucceeds(w: World, t: Token) returns (schedule: seq<Step>)
    requires t in w.workers && w.manifest.status == Queued && w.manifest.leaseOwner == Some(t)
    ensures Run(w, schedule).manifest.status == Succeeded
  {
    var rest := QueuedSucceeds(Apply(w, Leave(t)));
    RunCons(w, Leave(t), rest);
    schedule := [Leave(t)] + rest;
  }

  lemma ObservedSucceeds(w: World, t: Token) returns (schedule: seq<Step>)
    requires At(w, t, Request) && w.workers[t].phase == Observed(w.manifest.status, w.manifest.generation)
    requires Holds(w.manifest, t, w.now)
    ensures Run(w, schedule).manifest.status == Succeeded
  {
    var rest := EnqueuedSucceeds(Apply(w, Enqueue(t)), t);
    RunCons(w, Enqueue(t), rest);
    schedule := [Enqueue(t)] + rest;
  }

  lemma RequestSucceeds(w: World, t: Token) returns (schedule: seq<Step>)
    requires Claimed(w, t, Request, w.manifest.status)
    ensures Run(w, schedule).manifest.status == Succeeded
  {
    var rest := ObservedSucceeds(Apply(w, Observe(t)), t);
    RunCons(w, Observe(t), rest);
    schedule := [Observe(t)] + rest;
  }

  lemma UnheldSucceeds(w: World) returns (schedule: seq<Step>)
    requires Unheld(w)
    ensures Run(w, schedule).manifest.status == Succeeded
  {
    if w.manifest.status == Succeeded {
      schedule := [];
    } else if w.manifest.status in {Queued, Running} {
      schedule := QueuedSucceeds(w);
    } else {
      NotUnderWay(w.manifest.status);
      var step := Enter(Request, w.now + 1);
      var rest := RequestSucceeds(Apply(w, step), w.nextToken);
      RunCons(w, step, rest);
      schedule := [step] + rest;
    }
  }

  lemma NotUnderWay(status: CleanupStatus)
    requires status != Succeeded && status !in {Queued, Running}
    ensures status in {NotStarted, PartialFailed}
  {
    match status
    case NotStarted =>
    case PartialFailed =>
  }

  /** SUCCEEDED is reachable from every state of the protocol, whatever the manifest lists,
      whoever crashed with the lease and whatever failed before: once the lease has run
      out a request is enqueued, a cleanup run picks it up and removes what there is. */
  lemma CleanupCanSucceed(w: World)
    ensures exists schedule :: Run(w, schedule).manifest.status == Succeeded
  {
    var wait: nat := if w.manifest.leaseExpiresAt.Some? && w.manifest.leaseExpiresAt.value > w.now
                     then w.manifest.leaseExpiresAt.value - w.now else 0;
    var rest := UnheldSucceeds(Apply(w, Tick(wait)));
    RunCons(w, Tick(wait), rest);
    assert Run(w, [Tick(wait)] + rest).manifest.status == Succeeded;
  }
}
