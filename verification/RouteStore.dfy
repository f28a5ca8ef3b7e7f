/** The route check protocol played on the repository itself: the stored row goes through
    the states of `RouteProtocol`. */
module RouteStore {
  import opened Options
  import opened RouteRows
  import P = RouteProtocol
  import opened Repository

  /** Everybody who touches one row: static runs, resubmitters, deliveries of builds. */
  class Callers {
    const repository: InMemoryRepository
    const check: string
    var now: Time
    var runs: map<Token, nat>
    var nextToken: Token
    ghost var verdicts: seq<P.Verdict>
    ghost var recorded: set<P.Recorded>

    constructor (repository: InMemoryRepository, check: string, now: Time)
      ensures this.repository == repository && this.check == check && this.now == now
      ensures runs == map[] && nextToken == 0 && verdicts == [] && recorded == {}
    {
      this.repository, this.check, this.now := repository, check, now;
      runs, nextToken, verdicts, recorded := map[], 0, [], {};
    }

    ghost function World(): P.World
      reads this, repository
    {
      P.World(now, if check in repository.routeChecks then Some(repository.routeChecks[check]) else None,
              runs, nextToken, verdicts, recorded)
    }

    /** No other row is touched. */
    ghost predicate OnlyCheck(was: map<string, Row>)
      reads this, repository
    {
      && repository.routeChecks.Keys + {check} == was.Keys + {check}
      && forall id <- was :: id != check ==> repository.routeChecks[id] == was[id]
    }

    /** `_lease`: claims the row if it still is what was read. */
    method Claim(seen: Row, expiresAt: Time)
      modifies this, repository`routeChecks
      ensures OnlyCheck(old(repository.routeChecks)) && World() == P.Apply(old(World()), P.Claim(seen, expiresAt))
    {
      if !P.Claimable(seen, now) {
        return;
      }
      var token := nextToken;
      var owned := repository.UpdateRouteCheck(check,
        Patch(staticStatus := Some(Running), token := Some(Some(token)), leaseExpiresAt := Some(Some(expiresAt))),
        Expected(generation := Some(seen.generation), staticStatus := Some(seen.staticStatus),
                 token := Some(seen.token), leaseExpiresAt := Some(seen.leaseExpiresAt)));
      if owned.Some? {
        runs := runs[token := seen.generation];
        nextToken := nextToken + 1;
      }
    }

    method Renew(t: Token, expiresAt: Time)
      modifies repository`routeChecks
      ensures OnlyCheck(old(repository.routeChecks)) && World() == P.Apply(old(World()), P.Renew(t, expiresAt))
    {
      if t in runs {
        var _ := repository.UpdateRouteCheck(check, Patch(leaseExpiresAt := Some(Some(expiresAt))),
          Expected(generation := Some(runs[t]), token := Some(Some(t)), staticStatus := Some(Running)));
      }
    }

    /** The end of `execute_static`. */
    method Decide(t: Token, passed: bool)
      modifies this, repository`routeChecks
      ensures OnlyCheck(old(repository.routeChecks)) && World() == P.Apply(old(World()), P.Decide(t, passed))
    {
      if t !in runs {
        return;
      }
      var saved := repository.UpdateRouteCheck(check,
        Patch(staticStatus := Some(if passed then Succeeded else Failed), staticPassed := Some(Some(passed)),
              token := Some(None), leaseExpiresAt := Some(None)),
        Expected(generation := Some(runs[t]), token := Some(Some(t)), staticStatus := Some(Running)));
      if saved.Some? {
        verdicts := verdicts + [P.Verdict(runs[t], t, passed)];
      }
    }

    /** A forced resubmission that last read generation `g`. */
    method Force(g: nat)
      modifies repository`routeChecks
      ensures OnlyCheck(old(repository.routeChecks)) && World() == P.Apply(old(World()), P.Force(g))
    {
      var f := Fresh(g + 1);
      var _ := repository.UpdateRouteCheck(check,
        Patch(Some(g + 1), Some(f.staticStatus), Some(f.token), Some(f.leaseExpiresAt), Some(f.staticPassed),
              Some(f.dynamicBuild), Some(f.dynamicRun), Some(f.dynamicStatus), Some(f.dynamicPassed)),
        Expected(generation := Some(g)));
    }

    /** `_claim_result` of a delivery. */
    method ClaimDynamic(build: BuildId, run: Option<RunId>, g: nat, waiting: bool, seenBuild: Option<BuildId>, seenRun: Option<RunId>)
      modifies repository`routeChecks
      ensures OnlyCheck(old(repository.routeChecks))
      ensures World() == P.Apply(old(World()), P.ClaimDynamic(build, run, g, waiting, seenBuild, seenRun))
    {
      var _ := repository.UpdateRouteCheck(check,
        Patch(dynamicBuild := Some(Some(build)), dynamicRun := Some(run),
              dynamicStatus := Some(if waiting then Waiting else InProgress), dynamicPassed := Some(None)),
        Expected(generation := Some(g), dynamicBuild := Some(seenBuild), dynamicRun := Some(seenRun)));
    }

    /** `_sync_result`, when it copies what the build has saved. */
    method SyncDynamic(build: BuildId, run: Option<RunId>, g: nat, status: DynamicStatus, result: Option<bool>)
      requires result.Some? ==> P.Recorded(g, build, run, result.value) in recorded
      modifies repository`routeChecks
      ensures OnlyCheck(old(repository.routeChecks))
      ensures World() == P.Apply(old(World()), P.SyncDynamic(build, run, g, status, result))
    {
      var _ := repository.UpdateRouteCheck(check, Patch(dynamicStatus := Some(status), dynamicPassed := Some(result)),
        Expected(generation := Some(g), dynamicBuild := Some(Some(build)), dynamicRun := Some(run)));
    }

    /** The worker failure, after the build has saved its failed verdict. */
    method FailDynamic(build: BuildId, run: Option<RunId>, g: nat, seenBuild: Option<BuildId>, seenRun: Option<RunId>)
      requires P.Recorded(g, build, run, false) in recorded
      modifies repository`routeChecks
      ensures OnlyCheck(old(repository.routeChecks))
      ensures World() == P.Apply(old(World()), P.FailDynamic(build, run, g, seenBuild, seenRun))
    {
      var _ := repository.UpdateRouteCheck(check,
        Patch(dynamicBuild := Some(Some(build)), dynamicRun := Some(run),
              dynamicStatus := Some(Rejected), dynamicPassed := Some(Some(false))),
        Expected(generation := Some(g), dynamicBuild := Some(seenBuild), dynamicRun := Some(seenRun)));
    }

    method Delete()
      modifies repository`routeChecks
      ensures OnlyCheck(old(repository.routeChecks)) && World() == P.Apply(old(World()), P.Delete)
    {
      var _ := repository.DeleteRouteCheck(check);
    }

    /** One step of anybody. */
    method Do(s: P.Step)
      requires s.SyncDynamic? && s.result.Some? ==> P.Recorded(s.generation, s.build, s.run, s.result.value) in recorded
      requires s.FailDynamic? ==> P.Recorded(s.generation, s.build, s.run, false) in recorded
      modifies this, repository`routeChecks
      ensures OnlyCheck(old(repository.routeChecks)) && World() == P.Apply(old(World()), s)
    {
      match s {
        case Tick(d) => now := now + d;
        case Claim(seen, expiresAt) => Claim(seen, expiresAt);
        case Renew(t, expiresAt) => Renew(t, expiresAt);
        case Decide(t, passed) => Decide(t, passed);
        case Stop(t) => runs := runs - {t};
        case Force(g) => Force(g);
        case Delete => Delete();
        case RecordDynamic(entry) => recorded := recorded + {entry};
        case ClaimDynamic(build, run, g, waiting, seenBuild, seenRun) => ClaimDynamic(build, run, g, waiting, seenBuild, seenRun);
        case SyncDynamic(build, run, g, status, result) => SyncDynamic(build, run, g, status, result);
        case FailDynamic(build, run, g, seenBuild, seenRun) => FailDynamic(build, run, g, seenBuild, seenRun);
      }
    }

    /** Any schedule on the repository, dynamic verdicts being copied only once saved, is a
        run of the protocol. */
    method Play(schedule: seq<P.Step>)
      requires CopiesSaved(World(), schedule)
      modifies this, repository`routeChecks
      ensures OnlyCheck(old(repository.routeChecks)) && World() == P.Run(old(World()), schedule)
    {
      assert schedule[..|schedule|] == schedule;
      for i := 0 to |schedule|
        invariant OnlyCheck(old(repository.routeChecks)) && World() == P.Run(old(World()), schedule[..i])
        invariant CopiesSaved(World(), schedule[i..])
      {
        RunOneMore(old(World()), schedule, i);
        assert schedule[i..][0] == schedule[i] && schedule[i..][1..] == schedule[i + 1..];
        Do(schedule[i]);
      }
    }
  }

  /** Each copied dynamic verdict has been saved by its build before. */
  ghost predicate CopiesSaved(w: P.World, schedule: seq<P.Step>)
    decreases |schedule|
  {
    schedule == [] ||
    (var s := schedule[0];
     && (s.SyncDynamic? && s.result.Some? ==> P.Recorded(s.generation, s.build, s.run, s.result.value) in w.recorded)
     && (s.FailDynamic? ==> P.Recorded(s.generation, s.build, s.run, false) in w.recorded)
     && CopiesSaved(P.Apply(w, s), schedule[1..]))
  }

  lemma {:induction false} RunJoin(w: P.World, a: seq<P.Step>, b: seq<P.Step>)
    ensures P.Run(w, a + b) == P.Run(P.Run(w, a), b)
    decreases |a|
  {
    if a == [] {
      assert a + b == b;
    } else {
      RunJoin(P.Apply(w, a[0]), a[1..], b);
      assert (a + b)[0] == a[0] && (a + b)[1..] == a[1..] + b;
    }
  }

  lemma RunOneMore(w: P.World, schedule: seq<P.Step>, i: nat)
    requires i < |schedule|
    ensures P.Run(w, schedule[..i + 1]) == P.Apply(P.Run(w, schedule[..i]), schedule[i])
  {
    assert schedule[..i + 1] == schedule[..i] + [schedule[i]];
    RunJoin(w, schedule[..i], [schedule[i]]);
    var mid := P.Run(w, schedule[..i]);
    assert [schedule[i]][1..] == [];
    assert P.Run(P.Apply(mid, schedule[i]), []) == P.Apply(mid, schedule[i]);
  }

  /** From a freshly queued row on, whatever runs, resubmissions and deliveries do: a gate
      that is open for the stored generation rests on an accepted passing verdict, and a
      stored dynamic verdict is that of the build and run the row names. */
  method ServeCheck(repository: InMemoryRepository, check: string, now: Time, schedule: seq<P.Step>)
    returns (callers: Callers)
    requires check in repository.routeChecks && repository.routeChecks[check] == Fresh(1)
    requires CopiesSaved(P.Initial(now), schedule)
    modifies repository`routeChecks
    ensures fresh(callers) && callers.repository == repository && callers.check == check
    ensures P.OneVerdictEach(callers.verdicts)
    ensures P.DynamicIsOwn(callers.World())
    ensures check in repository.routeChecks ==>
      (GateOpen(Some(repository.routeChecks[check]), repository.routeChecks[check].generation)
       <==> P.HasVerdict(callers.verdicts, repository.routeChecks[check].generation, true))
  {
    callers := new Callers(repository, check, now);
    assert callers.World() == P.Initial(now);
    callers.Play(schedule);
    P.OneVerdictPerGeneration(now, schedule);
    P.DynamicVerdictIsOwn(now, schedule);
    if check in repository.routeChecks {
      P.GateOpensOnTheVerdict(now, schedule, repository.routeChecks[check].generation);
    }
  }
}
