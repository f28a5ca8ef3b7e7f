/** The lease and cleanup protocol played on the repository itself: the stored manifest
    goes through the states of `CleanupProtocol`. */
module CleanupStore {
  import opened Options
  import opened Manifests
  import P = CleanupProtocol
  import opened Repository

  /** The workers around one build's manifest: what each has in memory, and the clock. */
  class Workers {
    const repository: InMemoryRepository
    const build: string
    var now: Time
    var workers: map<Token, P.Worker>
    var nextToken: Token
    ghost var log: seq<P.Write>

    constructor (repository: InMemoryRepository, build: string, now: Time)
      ensures this.repository == repository && this.build == build && this.now == now
      ensures workers == map[] && nextToken == 0 && log == []
    {
      this.repository, this.build, this.now := repository, build, now;
      workers, nextToken, log := map[], 0, [];
    }

    ghost predicate Valid()
      reads this, repository
    {
      build in repository.buildResources && forall t <- workers :: t < nextToken
    }

    /** The protocol's state, read off the repository and the workers. */
    ghost function World(): P.World
      reads this, repository
      requires Valid()
    {
      P.World(now, repository.buildResources[build].manifest, workers, nextToken, log)
    }

    /** No worker of this build touches its owner or any other build. */
    ghost predicate OnlyBuild(was: map<string, Owned>)
      reads this, repository
    {
      && repository.buildResources.Keys == was.Keys
      && (build in was ==> repository.buildResources[build].app == was[build].app)
      && forall id <- was :: id != build ==> repository.buildResources[id] == was[id]
    }

    /** `build_lease` on entry. */
    method Enter(role: P.Role, expiresAt: Time)
      requires Valid()
      modifies this, repository`buildResources
      ensures Valid() && OnlyBuild(old(repository.buildResources)) && World() == P.Apply(old(World()), P.Enter(role, expiresAt))
    {
      var owner := nextToken;
      nextToken := nextToken + 1;
      var claimed := repository.ClaimBuildLease(build, owner, expiresAt, P.Claimable(role), now);
      if claimed.Some? {
        workers := workers[owner := P.Worker(role, P.Working, None)];
      }
    }

    /** One turn of the renewal thread. */
    method Heartbeat(t: Token, expiresAt: Time)
      requires Valid()
      modifies repository`buildResources
      ensures Valid() && OnlyBuild(old(repository.buildResources)) && World() == P.Apply(old(World()), P.Heartbeat(t, expiresAt))
    {
      if t in workers {
        var _ := repository.RenewBuildLease(build, t, expiresAt, now);
      }
    }

    /** `build_lease` on exit. */
    method Leave(t: Token)
      requires Valid()
      modifies this, repository`buildResources
      ensures Valid() && OnlyBuild(old(repository.buildResources)) && World() == P.Apply(old(World()), P.Leave(t))
    {
      if t in workers {
        repository.ReleaseBuildLease(build, t);
        workers := workers - {t};
      }
    }

    method Read(t: Token)
      requires Valid()
      modifies this`workers
      ensures Valid() && OnlyBuild(old(repository.buildResources)) && World() == P.Apply(old(World()), P.Read(t))
    {
      if P.Busy(P.World(now, repository.buildResources[build].manifest, workers, nextToken, []), t) {
        workers := workers[t := workers[t].(seen := Some(repository.buildResources[build].manifest.resources))];
      }
    }

    predicate Working(t: Token)
      reads this
    {
      t in workers && workers[t].phase.Working?
    }

    /** The write behind `record` and `update`, of a resource computed from what was read. */
    method Store(t: Token, key: Key, resource: Resource)
      requires Valid() && t in workers && workers[t].seen.Some?
      modifies this, repository`buildResources
      ensures Valid() && OnlyBuild(old(repository.buildResources)) && World() == P.Store(old(World()), t, key, resource)
    {
      var tracker := new ResourceTracker(repository, build, Some(t));
      var stored := tracker.Update(key, resource, now);
      if stored {
        workers := workers[t := workers[t].(seen := Some(workers[t].seen.value[key := resource]))];
        log := log + [P.Write(t, key)];
      }
    }

    method Record(t: Token, e: Entry)
      requires Valid()
      modifies this, repository`buildResources
      ensures Valid() && OnlyBuild(old(repository.buildResources)) && World() == P.Apply(old(World()), P.Record(t, e))
    {
      if Working(t) && workers[t].seen.Some? {
        var merged := Recorded(workers[t].seen.value, e);
        if merged.Ok? {
          Store(t, e.key, merged.value);
        }
      }
    }

    method UpdateState(t: Token, key: Key, state: ResourceState, error: Option<string>, note: Metadata)
      requires Valid()
      modifies this, repository`buildResources
      ensures Valid() && OnlyBuild(old(repository.buildResources)) && World() == P.Apply(old(World()), P.UpdateState(t, key, state, error, note))
    {
      if Working(t) && workers[t].seen.Some? && key in workers[t].seen.value {
        Store(t, key, P.Updated(workers[t].seen.value[key], state, error, note));
      }
    }

    method SetPhase(t: Token, phase: P.Phase)
      requires t in workers
      modifies this`workers
      ensures workers == old(workers)[t := old(workers)[t].(phase := phase)]
    {
      workers := workers[t := workers[t].(phase := phase)];
    }

    method Observe(t: Token)
      requires Valid()
      modifies this`workers
      ensures Valid() && OnlyBuild(old(repository.buildResources)) && World() == P.Apply(old(World()), P.Observe(t))
    {
      if Working(t) && workers[t].role == P.Request {
        var m := repository.buildResources[build].manifest;
        SetPhase(t, P.Observed(m.status, m.generation));
      }
    }

    method Enqueue(t: Token)
      requires Valid()
      modifies this, repository`buildResources
      ensures Valid() && OnlyBuild(old(repository.buildResources)) && World() == P.Apply(old(World()), P.Enqueue(t))
    {
      if t in workers && workers[t].role == P.Request && workers[t].phase.Observed? {
        var p := workers[t].phase;
        var _ := repository.UpdateBuildResources(build,
          Patch(status := Some(Queued), generation := Some(p.generation + 1)),
          Expected(leaseOwner := Some(t), status := Some(p.status)), now);
        SetPhase(t, P.Finished);
      }
    }

    method EnqueueFailed(generation: nat)
      requires Valid()
      modifies repository`buildResources
      ensures Valid() && OnlyBuild(old(repository.buildResources)) && World() == P.Apply(old(World()), P.EnqueueFailed(generation))
    {
      var _ := repository.UpdateBuildResources(build, Patch(status := Some(PartialFailed)),
                                               Expected(status := Some(Queued), generation := Some(generation)), now);
    }

    method MarkRunning(t: Token)
      requires Valid()
      modifies repository`buildResources
      ensures Valid() && OnlyBuild(old(repository.buildResources)) && World() == P.Apply(old(World()), P.MarkRunning(t))
    {
      if Working(t) && workers[t].role == P.Cleanup {
        var _ := repository.UpdateBuildResources(build, Patch(status := Some(Running)), Expected(leaseOwner := Some(t)), now);
      }
    }

    method NotQuiescent(t: Token)
      requires Valid()
      modifies this, repository`buildResources
      ensures Valid() && OnlyBuild(old(repository.buildResources)) && World() == P.Apply(old(World()), P.NotQuiescent(t))
    {
      if Working(t) && workers[t].role == P.Cleanup {
        var _ := repository.UpdateBuildResources(build, Patch(status := Some(PartialFailed)), Expected(leaseOwner := Some(t)), now);
        SetPhase(t, P.Finished);
      }
    }

    method LastRead(t: Token, errors: bool)
      requires Valid()
      modifies this`workers
      ensures Valid() && OnlyBuild(old(repository.buildResources)) && World() == P.Apply(old(World()), P.LastRead(t, errors))
    {
      if Working(t) && workers[t].role == P.Cleanup {
        var resources := repository.buildResources[build].manifest.resources;
        workers := workers[t := workers[t].(seen := Some(resources), phase := P.Judged(AllRemoved(resources) && !errors))];
      }
    }

    method Conclude(t: Token)
      requires Valid()
      modifies this, repository`buildResources
      ensures Valid() && OnlyBuild(old(repository.buildResources)) && World() == P.Apply(old(World()), P.Conclude(t))
    {
      if t in workers && workers[t].role == P.Cleanup && workers[t].phase.Judged? {
        var _ := repository.UpdateBuildResources(build, Patch(status := Some(P.Verdict(workers[t].phase.clean))),
                                                 Expected(leaseOwner := Some(t), status := Some(Running)), now);
        SetPhase(t, P.Finished);
      }
    }

    /** `request_cleanup`, from the first look at the manifest to the release of the lease:
        four steps of the protocol in a row. It queues exactly when cleanup is neither
        under way nor done and the lease is free. */
    method RequestCleanup(expiresAt: Time) returns (queued: bool)
      requires Valid()
      modifies this, repository`buildResources
      ensures Valid() && OnlyBuild(old(repository.buildResources))
      ensures var w := old(World());
              World() == if w.manifest.status in {Succeeded, Queued, Running} then w
                         else P.Run(w, Requesting(w.nextToken, expiresAt))
      ensures var m := old(World().manifest);
              queued <==> m.status in {NotStarted, PartialFailed} && old(now) < expiresAt
                          && (m.leaseOwner.None? || LeaseExpired(m.leaseExpiresAt, old(now)))
      ensures queued ==> World().manifest.status == Queued && World().manifest.leaseOwner.None?
                         && World().manifest.generation == old(World().manifest.generation) + 1
    {
      if repository.buildResources[build].manifest.status in {Succeeded, Queued, Running} {
        return false;
      }
      ghost var w := World();
      AskedOnce(expiresAt);
      OtherStatus(w.manifest.status);
      RequestingQueues(w, expiresAt);
      queued := repository.buildResources[build].manifest.status == Queued;
    }

    method AskedOnce(expiresAt: Time)
      requires Valid()
      modifies this, repository`buildResources
      ensures Valid() && OnlyBuild(old(repository.buildResources))
      ensures World() == P.Run(old(World()), Requesting(old(nextToken), expiresAt))
    {
      var t := nextToken;
      RequestingRuns(World(), t, expiresAt);
      Enter(P.Request, expiresAt);
      Observe(t);
      Enqueue(t);
      Leave(t);
    }

    /** One step of any worker. */
    method Do(s: P.Step)
      requires Valid()
      modifies this, repository`buildResources
      ensures Valid() && OnlyBuild(old(repository.buildResources)) && World() == P.Apply(old(World()), s)
    {
      match s {
        case Tick(d) => now := now + d;
        case Enter(role, expiresAt) => Enter(role, expiresAt);
        case Heartbeat(t, expiresAt) => Heartbeat(t, expiresAt);
        case Leave(t) => Leave(t);
        case Crash(t) => workers := workers - {t};
        case Read(t) => Read(t);
        case Record(t, e) => Record(t, e);
        case UpdateState(t, key, state, error, note) => UpdateState(t, key, state, error, note);
        case Observe(t) => Observe(t);
        case Enqueue(t) => Enqueue(t);
        case EnqueueFailed(generation) => EnqueueFailed(generation);
        case MarkRunning(t) => MarkRunning(t);
        case NotQuiescent(t) => NotQuiescent(t);
        case LastRead(t, errors) => LastRead(t, errors);
        case Conclude(t) => Conclude(t);
      }
    }

    /** Any schedule of workers on the repository is a run of the protocol. */
    method Play(schedule: seq<P.Step>)
      requires Valid()
      modifies this, repository`buildResources
      ensures Valid() && OnlyBuild(old(repository.buildResources)) && World() == P.Run(old(World()), schedule)
    {
      assert schedule[..|schedule|] == schedule;
      for i := 0 to |schedule|
        invariant Valid() && OnlyBuild(old(repository.buildResources)) && World() == P.Run(old(World()), schedule[..i])
      {
        RunOneMore(old(World()), schedule, i);
        Do(schedule[i]);
      }
    }
  }

  function Requesting(t: Token, expiresAt: Time): seq<P.Step> {
    [P.Enter(P.Request, expiresAt)] + ([P.Observe(t)] + ([P.Enqueue(t)] + ([P.Leave(t)] + [])))
  }

  lemma RequestingRuns(w: P.World, t: Token, expiresAt: Time)
    ensures P.Run(w, Requesting(t, expiresAt))
         == P.Apply(P.Apply(P.Apply(P.Apply(w, P.Enter(P.Request, expiresAt)), P.Observe(t)), P.Enqueue(t)), P.Leave(t))
  {
    var w1 := P.Apply(w, P.Enter(P.Request, expiresAt));
    P.RunCons(w, P.Enter(P.Request, expiresAt), [P.Observe(t)] + ([P.Enqueue(t)] + ([P.Leave(t)] + [])));
    ThreeStepsRun(w1, P.Observe(t), P.Enqueue(t), P.Leave(t));
  }

  /** The status after a request, told from the manifest before it. */
  lemma RequestingQueues(w: P.World, expiresAt: Time)
    requires w.manifest.status in {NotStarted, PartialFailed} && w.nextToken !in w.workers
    ensures var m, m' := w.manifest, P.Run(w, Requesting(w.nextToken, expiresAt)).manifest;
            && (m'.status == Queued <==> w.now < expiresAt && (m.leaseOwner.None? || LeaseExpired(m.leaseExpiresAt, w.now)))
            && (m'.status == Queued ==> m'.leaseOwner.None? && m'.generation == m.generation + 1)
  {
    var t := w.nextToken;
    RequestingRuns(w, t, expiresAt);
    var w1 := P.Apply(w, P.Enter(P.Request, expiresAt));
    if t !in w1.workers {
      UnclaimedRequest(w1, t);
    } else {
      ClaimedRequest(w1, t);
    }
  }

  lemma OtherStatus(status: CleanupStatus)
    ensures status in {Succeeded, Queued, Running} || status in {NotStarted, PartialFailed}
  {
    match status
    case NotStarted =>
    case Queued =>
    case Running =>
    case Succeeded =>
    case PartialFailed =>
  }

  lemma UnclaimedRequest(w: P.World, t: Token)
    requires t !in w.workers
    ensures P.Apply(P.Apply(P.Apply(w, P.Observe(t)), P.Enqueue(t)), P.Leave(t)) == w
  {
  }

  lemma ClaimedRequest(w: P.World, t: Token)
    requires P.Claimed(w.(manifest := w.manifest.(leaseExpiresAt := Some(w.now + 1))), t, P.Request, w.manifest.status)
    ensures var m := P.Apply(P.Apply(P.Apply(w, P.Observe(t)), P.Enqueue(t)), P.Leave(t)).manifest;
            if LeaseExpired(w.manifest.leaseExpiresAt, w.now) then m.status == w.manifest.status
            else m.status == Queued && m.leaseOwner.None? && m.generation == w.manifest.generation + 1
  {
    var w1 := P.Apply(w, P.Observe(t));
    assert w1 == P.SetPhase(w, t, P.Observed(w.manifest.status, w.manifest.generation));
    var w2 := P.Apply(w1, P.Enqueue(t));
    assert t in w2.workers && w2.manifest.leaseOwner == Some(t);
  }

  lemma ThreeStepsRun(w: P.World, a: P.Step, b: P.Step, c: P.Step)
    ensures P.Run(w, [a] + ([b] + ([c] + []))) == P.Apply(P.Apply(P.Apply(w, a), b), c)
  {
    P.RunCons(w, a, [b] + ([c] + []));
    P.RunCons(P.Apply(w, a), b, [c] + []);
    P.RunCons(P.Apply(P.Apply(w, a), b), c, []);
  }

  lemma RunOneMore(w: P.World, schedule: seq<P.Step>, i: nat)
    requires i < |schedule|
    ensures P.Run(w, schedule[..i + 1]) == P.Apply(P.Run(w, schedule[..i]), schedule[i])
  {
    assert schedule[..i + 1] == schedule[..i] + [schedule[i]];
    P.RunJoin(w, schedule[..i], [schedule[i]]);
    assert [schedule[i]][1..] == [];
    assert P.Run(P.Apply(P.Run(w, schedule[..i]), schedule[i]), []) == P.Apply(P.Run(w, schedule[..i]), schedule[i]);
  }

  /** From the registration of a build on, whatever its workers do, a stored SUCCEEDED
      cleanup has removed everything, nobody loses an update, and identities stay. */
  method ServeBuild(repository: InMemoryRepository, build: string, app: string, resources: Resources, now: Time,
                    schedule: seq<P.Step>)
    requires build !in repository.buildResources
    modifies repository`buildResources
    ensures build in repository.buildResources && repository.buildResources[build].app == app
    ensures repository.buildResources.Keys == old(repository.buildResources).Keys + {build}
    ensures forall id <- old(repository.buildResources) :: repository.buildResources[id] == old(repository.buildResources)[id]
    ensures var m := repository.buildResources[build].manifest;
            && (m.status == Succeeded ==> AllRemoved(m.resources))
            && P.SameIdentity(resources, m.resources)
  {
    var unclaimed := Manifest(resources, NotStarted, 0, false, None, None);
    var registered := repository.EnsureBuildResources(build, Owned(app, unclaimed));
    var workers := new Workers(repository, build, now);
    assert workers.World() == P.Initial(resources, now);
    workers.Play(schedule);
    P.SucceededMeansRemoved(resources, now, schedule);
    P.InitialInv(resources, now);
    P.IdentityIsStable(P.Initial(resources, now), schedule);
  }

  /** `record` reads and writes in one go: on the repository that is the two steps of the
      protocol, one after the other. */
  method RecordNow(workers: Workers, t: Token, e: Entry) returns (r: Result<Resource, RecordError>)
    requires workers.Valid() && workers.Working(t)
    modifies workers.repository`buildResources
    ensures workers.Valid()
    ensures workers.World().manifest == P.Run(old(workers.World()), [P.Read(t), P.Record(t, e)]).manifest
  {
    ghost var w := workers.World();
    ReadAndRecord(w, t, e);
    var tracker := new ResourceTracker(workers.repository, workers.build, Some(t));
    r := tracker.Record(e, workers.now);
  }

  lemma ReadAndRecord(w: P.World, t: Token, e: Entry)
    requires P.Busy(w, t)
    ensures P.Run(w, [P.Read(t), P.Record(t, e)]).manifest ==
      match Recorded(w.manifest.resources, e)
      case Err(_) => w.manifest
      case Ok(resource) =>
        (match Put(w.manifest, e.key, resource, Some(t), w.now)
         case None => w.manifest
         case Some(m) => m)
  {
    assert [P.Read(t), P.Record(t, e)][1..] == [P.Record(t, e)];
    var w1 := P.Apply(w, P.Read(t));
    assert w1.workers[t].seen == Some(w.manifest.resources) && w1.manifest == w.manifest;
    var w2 := P.Apply(w1, P.Record(t, e));
    assert [P.Record(t, e)][1..] == [];
    assert P.Run(w1, [P.Record(t, e)]) == P.Run(w2, []) == w2;
  }
}
