/** What the steps of the route check protocol achieve: who takes a row over, what a
    resubmission opens, how dynamic results arrive, and that no check is stuck. */
module RouteProgress {
  import opened Options
  import opened RouteRows
  import opened RouteProtocol

  /** Nobody is working on the row: it is queued, or its run has let the lease run out. */
  predicate Open(r: Row, now: Time) {
    || r.staticStatus == Queued
    || (r.staticStatus == Running && r.leaseExpiresAt == None)
    || (r.staticStatus == Running && r.leaseExpiresAt.Some? && r.leaseExpiresAt.value <= now)
  }

  /** The row a claim leaves. */
  predicate Claimed(r: Row, r': Row, t: Token, expiresAt: Time) {
    && r'.generation == r.generation && r'.staticStatus == Running && r'.token == Some(t)
    && r'.leaseExpiresAt == Some(expiresAt) && r'.staticPassed == r.staticPassed
    && SameDynamic(r, r')
  }

  predicate SameDynamic(r: Row, r': Row) {
    && r'.dynamicBuild == r.dynamicBuild && r'.dynamicRun == r.dynamicRun
    && r'.dynamicStatus == r.dynamicStatus && r'.dynamicPassed == r.dynamicPassed
  }

  /** A worker that read the row as it is takes it over exactly when nobody is working on
      it; then the drawn token names the current run, for the row's generation. */
  lemma ClaimTakesOver(w: World, expiresAt: Time)
    requires w.row.Some?
    ensures var r := w.row.value;
            var w' := Apply(w, Claim(r, expiresAt));
            if Open(r, w.now) then
              && w'.row.Some? && Claimed(r, w'.row.value, w.nextToken, expiresAt)
              && Current(w', w.nextToken) && w'.nextToken == w.nextToken + 1
              && w'.runs == w.runs[w.nextToken := r.generation]
              && w'.verdicts == w.verdicts && w'.recorded == w.recorded && w'.now == w.now
            else w' == w
  {
  }

  /** A worker whose read is out of date in any of the four fields takes nothing over. */
  lemma StaleClaimFails(w: World, seen: Row, expiresAt: Time)
    requires w.row.Some? ==>
      || seen.generation != w.row.value.generation || seen.staticStatus != w.row.value.staticStatus
      || seen.token != w.row.value.token || seen.leaseExpiresAt != w.row.value.leaseExpiresAt
    ensures Apply(w, Claim(seen, expiresAt)) == w
  {
  }

  /** A heartbeat moves the lease of the current run, and nothing else. */
  lemma RenewMovesTheLease(w: World, t: Token, expiresAt: Time)
    ensures var w' := Apply(w, Renew(t, expiresAt));
            if Current(w, t) && w.row.value.staticStatus == Running
            then w' == w.(row := Some(w.row.value.(leaseExpiresAt := Some(expiresAt))))
            else w' == w
  {
  }

  /** A forced resubmission that read the current generation opens the next one, empty;
      any other changes nothing. */
  lemma ForceOpensTheNext(w: World, g: nat)
    ensures var w' := Apply(w, Force(g));
            if w.row.Some? && w.row.value.generation == g then
              && w' == w.(row := w'.row) && w'.row.Some?
              && var r' := w'.row.value;
                 && r'.generation == g + 1 && r'.staticStatus == Queued && r'.token == None && r'.leaseExpiresAt == None
                 && r'.staticPassed == None && r'.dynamicBuild == None && r'.dynamicRun == None
                 && r'.dynamicStatus == Pending && r'.dynamicPassed == None
            else w' == w
  {
  }

  /** A delivery that read the row's names puts its own there, for the row's generation. */
  lemma DynamicClaimNames(w: World, build: BuildId, run: Option<RunId>, g: nat, waiting: bool,
                          seenBuild: Option<BuildId>, seenRun: Option<RunId>)
    ensures var w' := Apply(w, ClaimDynamic(build, run, g, waiting, seenBuild, seenRun));
            if w.row.Some? && w.row.value.generation == g
               && w.row.value.dynamicBuild == seenBuild && w.row.value.dynamicRun == seenRun then
              && w' == w.(row := w'.row) && w'.row.Some?
              && var r, r' := w.row.value, w'.row.value;
                 && SameStatic(r, r') && r'.dynamicBuild == Some(build) && r'.dynamicRun == run
                 && r'.dynamicStatus == (if waiting then Waiting else InProgress) && r'.dynamicPassed == None
            else w' == w
  {
  }

  /** What the named build and run have saved is copied into the row of its generation. */
  lemma DynamicResultArrives(w: World, build: BuildId, run: Option<RunId>, g: nat, status: DynamicStatus, passed: bool)
    requires Recorded(g, build, run, passed) in w.recorded
    ensures var w' := Apply(w, SyncDynamic(build, run, g, status, Some(passed)));
            if w.row.Some? && w.row.value.generation == g
               && w.row.value.dynamicBuild == Some(build) && w.row.value.dynamicRun == run then
              && w' == w.(row := w'.row) && w'.row.Some?
              && var r, r' := w.row.value, w'.row.value;
                 && SameStatic(r, r') && r'.dynamicBuild == r.dynamicBuild && r'.dynamicRun == r.dynamicRun
                 && r'.dynamicStatus == status && r'.dynamicPassed == Some(passed)
            else w' == w
  {
  }

  /** A worker failure enters the failed verdict its build has saved, if the row's names are
      as read. */
  lemma DynamicFailureArrives(w: World, build: BuildId, run: Option<RunId>, g: nat,
                              seenBuild: Option<BuildId>, seenRun: Option<RunId>)
    requires Recorded(g, build, run, false) in w.recorded
    ensures var w' := Apply(w, FailDynamic(build, run, g, seenBuild, seenRun));
            if w.row.Some? && w.row.value.generation == g
               && w.row.value.dynamicBuild == seenBuild && w.row.value.dynamicRun == seenRun then
              && w' == w.(row := w'.row) && w'.row.Some?
              && var r, r' := w.row.value, w'.row.value;
                 && SameStatic(r, r') && r'.dynamicBuild == Some(build) && r'.dynamicRun == run
                 && r'.dynamicStatus == Rejected && r'.dynamicPassed == Some(false)
            else w' == w
  {
  }

  /** A delivery's whole way through the row: claim it, save a verdict, copy it. */
  lemma DynamicVerdictCanArrive(w: World, build: BuildId, run: Option<RunId>, passed: bool)
    requires w.row.Some?
    ensures var r := w.row.value;
            var status := if passed then Passed else Rejected;
            var w1 := Apply(w, ClaimDynamic(build, run, r.generation, false, r.dynamicBuild, r.dynamicRun));
            var w2 := Apply(w1, RecordDynamic(Recorded(r.generation, build, run, passed)));
            var w3 := Apply(w2, SyncDynamic(build, run, r.generation, status, Some(passed)));
            && w3.row.Some? && w3.row.value.generation == r.generation && SameStatic(r, w3.row.value)
            && w3.row.value.dynamicBuild == Some(build) && w3.row.value.dynamicRun == run
            && w3.row.value.dynamicPassed == Some(passed)
  {
    var r := w.row.value;
    DynamicClaimNames(w, build, run, r.generation, false, r.dynamicBuild, r.dynamicRun);
    var w1 := Apply(w, ClaimDynamic(build, run, r.generation, false, r.dynamicBuild, r.dynamicRun));
    var w2 := Apply(w1, RecordDynamic(Recorded(r.generation, build, run, passed)));
    DynamicResultArrives(w2, build, run, r.generation, if passed then Passed else Rejected, passed);
  }

  // --------------------------------------------------------- no check is stuck

  lemma RunCons(w: World, s: Step, rest: seq<Step>)
    ensures Run(w, [s] + rest) == Run(Apply(w, s), rest)
  {
    assert ([s] + rest)[1..] == rest;
  }

  lemma CurrentDecides(w: World, t: Token, passed: bool)
    requires Inv(w) && Current(w, t) && w.row.value.staticStatus == Running
    ensures var w' := Run(w, [Decide(t, passed)] + []);
            HasVerdict(w'.verdicts, w.row.value.generation, passed) && GateOpen(w'.row, w.row.value.generation) == passed
  {
    RunCons(w, Decide(t, passed), []);
    VerdictIsFromCurrentRun(w, t, passed);
    var w' := Apply(w, Decide(t, passed));
    assert w'.verdicts[|w.verdicts|] == Verdict(w.row.value.generation, t, passed);
  }

  lemma OpenDecides(w: World, passed: bool) returns (schedule: seq<Step>)
    requires Inv(w) && w.row.Some? && Open(w.row.value, w.now)
    ensures var w' := Run(w, schedule);
            HasVerdict(w'.verdicts, w.row.value.generation, passed) && GateOpen(w'.row, w.row.value.generation) == passed
  {
    var claim := Claim(w.row.value, w.now + 1);
    ClaimTakesOver(w, w.now + 1);
    StepInv(w, claim);
    var w1 := Apply(w, claim);
    CurrentDecides(w1, w.nextToken, passed);
    RunCons(w, claim, [Decide(w.nextToken, passed)] + []);
    schedule := [claim] + ([Decide(w.nextToken, passed)] + []);
  }

  /** In every state a run can reach, an undecided row can still get either verdict for its
      generation, whoever crashed while working on it, and the gate opens on a pass. */
  lemma UndecidedCanBeDecided(now: Time, history: seq<Step>, passed: bool)
    requires var w := Run(Initial(now), history); w.row.Some? && w.row.value.staticStatus in {Queued, Running}
    ensures var w := Run(Initial(now), history);
            exists schedule :: HasVerdict(Run(w, schedule).verdicts, w.row.value.generation, passed)
                               && GateOpen(Run(w, schedule).row, w.row.value.generation) == passed
  {
    RunInv(Initial(now), history);
    var w := Run(Initial(now), history);
    var r := w.row.value;
    var wait: nat := if r.leaseExpiresAt.Some? && r.leaseExpiresAt.value > w.now then r.leaseExpiresAt.value - w.now else 0;
    var later := Apply(w, Tick(wait));
    StepInv(w, Tick(wait));
    var rest := OpenDecides(later, passed);
    RunCons(w, Tick(wait), rest);
    assert Run(w, [Tick(wait)] + rest) == Run(later, rest);
  }
}
