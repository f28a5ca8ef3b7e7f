/** The generation and compare-and-set protocol of one route check row. Static
    runs, heartbeats, forced resubmissions, a deletion and the dynamic results of
    any number of builds interleave; every value a caller read earlier is a
    parameter of its step, so a read may be arbitrarily stale. */
module RouteProtocol {
  import opened Options
  import opened RouteRows

  /** One accepted static verdict. */
  datatype Verdict = Verdict(generation: nat, token: Token, passed: bool)

  /** A dynamic verdict a build saved in its own record for a run and a generation. */
  datatype Recorded = Recorded(generation: nat, build: BuildId, run: Option<RunId>, passed: bool)

  /** `runs` maps the token of a static run to the generation it claimed. */
  datatype World = World(
    now: Time,
    row: Option<Row>,
    runs: map<Token, nat>,
    nextToken: Token,
    verdicts: seq<Verdict>,
    recorded: set<Recorded>)

  datatype Step =
    | Tick(elapsed: nat)
    | Claim(seen: Row, expiresAt: Time)
    | Renew(t: Token, expiresAt: Time)
    | Decide(t: Token, passed: bool)
    | Stop(t: Token)
    | Force(seenGeneration: nat)
    | Delete
    | RecordDynamic(entry: Recorded)
    | ClaimDynamic(build: BuildId, run: Option<RunId>, generation: nat, waiting: bool,
                   seenBuild: Option<BuildId>, seenRun: Option<RunId>)
    | SyncDynamic(build: BuildId, run: Option<RunId>, generation: nat,
                  status: DynamicStatus, result: Option<bool>)
    | FailDynamic(build: BuildId, run: Option<RunId>, generation: nat,
                  seenBuild: Option<BuildId>, seenRun: Option<RunId>)

  function Commit(w: World, r: Option<Row>): World {
    if r.Some? then w.(row := r) else w
  }

  /** Which of the checks it reads a worker tries to claim. */
  predicate Claimable(seen: Row, now: Time) {
    || seen.staticStatus == Queued
    || (seen.staticStatus == Running && (seen.leaseExpiresAt.None? || seen.leaseExpiresAt.value <= now))
  }

  function Apply(w: World, s: Step): World {
    match s
    case Tick(d) => w.(now := w.now + d)
    case Claim(seen, expiresAt) =>
      var t := w.nextToken;
      var owned := Update(w.row,
        Patch(staticStatus := Some(Running), token := Some(Some(t)), leaseExpiresAt := Some(Some(expiresAt))),
        Expected(generation := Some(seen.generation), staticStatus := Some(seen.staticStatus),
                 token := Some(seen.token), leaseExpiresAt := Some(seen.leaseExpiresAt)));
      if !Claimable(seen, w.now) || owned.None? then w
      else w.(row := owned, runs := w.runs[t := seen.generation], nextToken := t + 1)
    case Renew(t, expiresAt) =>
      if t in w.runs
      then Commit(w, Update(w.row, Patch(leaseExpiresAt := Some(Some(expiresAt))),
                            Expected(generation := Some(w.runs[t]), token := Some(Some(t)), staticStatus := Some(Running))))
      else w
    case Decide(t, passed) =>
      if t !in w.runs then w
      else
        var g := w.runs[t];
        var decided := Update(w.row,
          Patch(staticStatus := Some(if passed then Succeeded else Failed), staticPassed := Some(Some(passed)),
                token := Some(None), leaseExpiresAt := Some(None)),
          Expected(generation := Some(g), token := Some(Some(t)), staticStatus := Some(Running)));
        if decided.None? then w
        else w.(row := decided, verdicts := w.verdicts + [Verdict(g, t, passed)])
    case Stop(t) => w.(runs := w.runs - {t})
    case Force(g) =>
      var f := Fresh(g + 1);
      Commit(w, Update(w.row,
        Patch(Some(g + 1), Some(f.staticStatus), Some(f.token), Some(f.leaseExpiresAt), Some(f.staticPassed),
              Some(f.dynamicBuild), Some(f.dynamicRun), Some(f.dynamicStatus), Some(f.dynamicPassed)),
        Expected(generation := Some(g))))
    case Delete => w.(row := None)
    case RecordDynamic(entry) => w.(recorded := w.recorded + {entry})
    case ClaimDynamic(build, run, g, waiting, seenBuild, seenRun) =>
      // `_claim_result`: the row must still carry the names it was read with
      Commit(w, Update(w.row,
        Patch(dynamicBuild := Some(Some(build)), dynamicRun := Some(run),
              dynamicStatus := Some(if waiting then Waiting else InProgress), dynamicPassed := Some(None)),
        Expected(generation := Some(g), dynamicBuild := Some(seenBuild), dynamicRun := Some(seenRun))))
    case SyncDynamic(build, run, g, status, result) =>
      // `_sync_result` copies what the build has saved
      if result.Some? ==> Recorded(g, build, run, result.value) in w.recorded
      then Commit(w, Update(w.row, Patch(dynamicStatus := Some(status), dynamicPassed := Some(result)),
             Expected(generation := Some(g), dynamicBuild := Some(Some(build)), dynamicRun := Some(run))))
      else w
    case FailDynamic(build, run, g, seenBuild, seenRun) =>
      // the worker failure, after the build has saved its failed verdict
      if Recorded(g, build, run, false) in w.recorded
      then Commit(w, Update(w.row,
             Patch(dynamicBuild := Some(Some(build)), dynamicRun := Some(run),
                   dynamicStatus := Some(Rejected), dynamicPassed := Some(Some(false))),
             Expected(generation := Some(g), dynamicBuild := Some(seenBuild), dynamicRun := Some(seenRun))))
      else w
  }

  function Run(w: World, schedule: seq<Step>): World
    decreases |schedule|
  {
    if schedule == [] then w else Run(Apply(w, schedule[0]), schedule[1..])
  }

  function Initial(now: Time): World {
    World(now, Some(Fresh(1)), map[], 0, [], {})
  }

  // ---------------------------------------------------------------- invariant

  predicate Decided(r: Row) {
    r.staticStatus in {Succeeded, Failed}
  }

  /** No generation has two verdicts. */
  ghost predicate OneVerdictEach(verdicts: seq<Verdict>) {
    forall i, j :: 0 <= i < j < |verdicts| ==> verdicts[i].generation != verdicts[j].generation
  }

  ghost predicate HasVerdict(verdicts: seq<Verdict>, generation: nat, passed: bool) {
    exists i :: 0 <= i < |verdicts| && verdicts[i].generation == generation && verdicts[i].passed == passed
  }

  /** A dynamic verdict in the row was recorded by the build and run the row names, in its generation. */
  predicate DynamicIsOwn(w: World) {
    w.row.Some? && w.row.value.dynamicPassed.Some? ==>
      && w.row.value.dynamicBuild.Some?
      && Recorded(w.row.value.generation, w.row.value.dynamicBuild.value, w.row.value.dynamicRun,
                  w.row.value.dynamicPassed.value) in w.recorded
  }

  ghost predicate StaticInv(w: World) {
    && OneVerdictEach(w.verdicts)
    && (forall t <- w.runs :: t < w.nextToken)
    && (w.row.Some? ==>
          var r := w.row.value;
          && (r.token.Some? ==> r.token.value < w.nextToken)
          && (forall i :: 0 <= i < |w.verdicts| ==> w.verdicts[i].generation <= r.generation)
          && (Decided(r) <==> r.staticPassed.Some?)
          && (Decided(r) ==> r.token.None? && HasVerdict(w.verdicts, r.generation, r.staticPassed.value))
          && (r.staticPassed.Some? ==> (r.staticPassed.value <==> r.staticStatus == Succeeded))
          && (!Decided(r) ==> forall i :: 0 <= i < |w.verdicts| ==> w.verdicts[i].generation < r.generation))
  }

  ghost predicate Inv(w: World) {
    StaticInv(w) && DynamicIsOwn(w)
  }

  lemma StepInv(w: World, s: Step)
    requires Inv(w)
    ensures Inv(Apply(w, s))
  {
    var w' := Apply(w, s);
    if s.Decide? && w'.verdicts != w.verdicts {
      assert w'.verdicts[|w.verdicts|] == Verdict(w.runs[s.t], s.t, s.passed);
    } else {
      assert w'.verdicts == w.verdicts;
    }
  }

  lemma {:induction false} RunInv(w: World, schedule: seq<Step>)
    requires Inv(w)
    ensures Inv(Run(w, schedule))
    decreases |schedule|
  {
    if schedule != [] {
      StepInv(w, schedule[0]);
      RunInv(Apply(w, schedule[0]), schedule[1..]);
    }
  }

  // ------------------------------------------------------------ main results

  /** Under any interleaving of duplicate deliveries, takeovers, heartbeats and
      forced resubmissions each generation receives at most one static verdict. */
  lemma OneVerdictPerGeneration(now: Time, schedule: seq<Step>)
    ensures OneVerdictEach(Run(Initial(now), schedule).verdicts)
  {
    RunInv(Initial(now), schedule);
  }

  /** A dynamic verdict in the row was recorded by the very build and run the row
      names, in the row's current generation. */
  lemma DynamicVerdictIsOwn(now: Time, schedule: seq<Step>)
    ensures DynamicIsOwn(Run(Initial(now), schedule))
  {
    RunInv(Initial(now), schedule);
  }

  /** The run whose writes the row still accepts. */
  predicate Current(w: World, t: Token) {
    && t in w.runs && w.row.Some?
    && w.row.value.generation == w.runs[t] && w.row.value.token == Some(t)
  }

  /** A verdict is accepted only from the current run, for the generation it claimed. */
  lemma VerdictIsFromCurrentRun(w: World, t: Token, passed: bool)
    requires Inv(w)
    ensures var w' := Apply(w, Decide(t, passed));
            if Current(w, t) && w.row.value.staticStatus == Running then
              && w'.verdicts == w.verdicts + [Verdict(w.row.value.generation, t, passed)]
              && w'.row == Some(w.row.value.(staticStatus := if passed then Succeeded else Failed,
                                             staticPassed := Some(passed), token := None, leaseExpiresAt := None))
            else w' == w
  {
  }

  /** Once a run is not current, nothing it does ever changes the row again,
      whatever else happens: tokens are drawn once and generations only grow. */
  lemma StaleStaysStale(w: World, s: Step, t: Token)
    requires Inv(w) && t < w.nextToken && !Current(w, t)
    requires w.row.Some? && w.row.value.token != Some(t)
    ensures !Current(Apply(w, s), t)
    ensures Apply(w, s).row.Some? ==> Apply(w, s).row.value.token != Some(t)
  {
  }

  lemma {:induction false} SupersededForGood(w: World, schedule: seq<Step>, t: Token, own: Step)
    requires Inv(w) && t < w.nextToken && w.row.Some? && w.row.value.token != Some(t)
    requires own.Renew? || own.Decide?
    requires own.t == t
    ensures var w' := Run(w, schedule); Apply(w', own) == w'
    decreases |schedule|
  {
    if schedule != [] {
      var w1 := Apply(w, schedule[0]);
      StaleStaysStale(w, schedule[0], t);
      StepInv(w, schedule[0]);
      if w1.row.Some? {
        SupersededForGood(w1, schedule[1..], t, own);
      } else {
        DeletedForGood(w1, schedule[1..]);
      }
    }
  }

  /** A deleted row is never written again; a new check has a new identity. */
  lemma {:induction false} DeletedForGood(w: World, schedule: seq<Step>)
    requires w.row.None?
    ensures Run(w, schedule).row.None?
    decreases |schedule|
  {
    if schedule != [] {
      DeletedForGood(Apply(w, schedule[0]), schedule[1..]);
    }
  }

  /** The static half of a row. */
  predicate SameStatic(a: Row, b: Row) {
    && a.generation == b.generation && a.staticStatus == b.staticStatus
    && a.staticPassed == b.staticPassed && a.token == b.token && a.leaseExpiresAt == b.leaseExpiresAt
  }

  lemma StepGeneration(w: World, s: Step)
    requires Inv(w) && w.row.Some? && Apply(w, s).row.Some?
    ensures var r, r' := w.row.value, Apply(w, s).row.value;
            && r.generation <= r'.generation
            && (Decided(r) && r'.generation == r.generation ==> SameStatic(r, r'))
  {
  }

  /** The generation never decreases, and within one generation a static verdict,
      once written, is frozen. */
  lemma {:induction false} DecidedIsFrozen(w: World, schedule: seq<Step>)
    requires Inv(w) && w.row.Some? && Run(w, schedule).row.Some?
    ensures var r, r' := w.row.value, Run(w, schedule).row.value;
            && r.generation <= r'.generation
            && (Decided(r) && r'.generation == r.generation ==> SameStatic(r, r'))
    decreases |schedule|
  {
    if schedule != [] {
      var w1 := Apply(w, schedule[0]);
      StepInv(w, schedule[0]);
      if w1.row.None? {
        DeletedForGood(w1, schedule[1..]);
      } else {
        StepGeneration(w, schedule[0]);
        DecidedIsFrozen(w1, schedule[1..]);
      }
    }
  }

  /** The build gate for a frozen generation opens exactly when that generation
      is current and its one verdict was a pass. */
  lemma GateOpensOnTheVerdict(now: Time, schedule: seq<Step>, generation: nat)
    ensures var w := Run(Initial(now), schedule);
            GateOpen(w.row, generation) <==>
              w.row.Some? && w.row.value.generation == generation && HasVerdict(w.verdicts, generation, true)
  {
    RunInv(Initial(now), schedule);
    var w := Run(Initial(now), schedule);
    if w.row.Some? && w.row.value.generation == generation && HasVerdict(w.verdicts, generation, true) {
      var i :| 0 <= i < |w.verdicts| && w.verdicts[i].generation == generation && w.verdicts[i].passed == true;
      assert Decided(w.row.value);
      var j :| 0 <= j < |w.verdicts| && w.verdicts[j].generation == generation
               && w.verdicts[j].passed == w.row.value.staticPassed.value;
      assert i == j;
    }
  }
}
