/** What an undisturbed execution of the dynamic check ends in, told from what was saved
    before it and from the answers of the calls it made. */
module DeliveryOutcome {
  import opened Options
  import opened Manifests
  import B = Builds
  import opened Delivery

  /** One call of the execution and its answer; for the agent, whether it gave a repair. */
  datatype Answered = Answered(call: Call, good: bool)

  function MadeBy(run: RunId, t: Token, calls: seq<Answered>): seq<Made> {
    seq(|calls|, i requires 0 <= i < |calls| => Made(run, calls[i].call, t, calls[i].good))
  }

  /** After a failed initial probe: a saved retry decides; a retry or an agent call that was
      begun and left no result fails; a saved repair is retried, once; without one the
      agent is asked, once, and its repair is retried. */
  predicate AfterFailedProbe(b: Build, calls: seq<Answered>, passed: bool) {
    if b.retry.Some? then calls == [] && passed == b.retry.value
    else if Retry in b.reserved then calls == [] && !passed
    else if b.repair then calls == [Answered(Retry, passed)]
    else if Agent in b.reserved then calls == [] && !passed
    else
      || (calls == [Answered(Agent, false)] && !passed)
      || calls == [Answered(Agent, true), Answered(Retry, passed)]
  }

  /** A saved passing probe passes without another call; a probe that was begun and left no
      result fails; otherwise the probe is made, once, and a good answer passes. */
  predicate Outcome(b: Build, calls: seq<Answered>, passed: bool) {
    if b.initial == Some(true) then calls == [] && passed
    else if b.initial == Some(false) then AfterFailedProbe(b, calls, passed)
    else if Probe in b.reserved then calls == [] && !passed
    else
      || (calls == [Answered(Probe, true)] && passed)
      || (|calls| >= 1 && calls[0] == Answered(Probe, false) && AfterFailedProbe(b, calls[1..], passed))
  }

  predicate WasAnswered(calls: seq<Answered>, c: Call, good: bool) {
    exists i :: 0 <= i < |calls| && calls[i] == Answered(c, good)
  }

  /** The record keeps what it had and the answers of the calls. */
  predicate Saves(b: Build, calls: seq<Answered>, b': Build) {
    && (forall good: bool :: WasAnswered(calls, Probe, good) ==> b'.initial == Some(good))
    && (forall good: bool :: WasAnswered(calls, Retry, good) ==> b'.retry == Some(good))
    && (WasAnswered(calls, Agent, true) ==> b'.repair)
    && (b.initial.Some? ==> b'.initial == b.initial) && (b.retry.Some? ==> b'.retry == b.retry) && (b.repair ==> b'.repair)
  }

  /** The execution is over: these calls were made, the answers are saved, and verdict,
      status and teardown obligation go together. */
  ghost predicate Ended(w: World, w': World, t: Token, run: RunId, calls: seq<Answered>, passed: bool) {
    && t in w'.workers && w'.workers[t].Gone?
    && w'.made == w.made + MadeBy(run, t, calls) && Saves(w.build, calls, w'.build)
    && w'.build.check == (if passed then Passed else Rejected) && w'.build.checkPassed == Some(passed)
    && w'.build.status == (if passed then B.Succeeded else B.Failed)
    && (w'.build.teardownRequired <==> !passed)
  }

  predicate AllFine(lucks: seq<Luck>) {
    forall i :: 0 <= i < |lucks| ==> lucks[i].Fine?
  }

  lemma DriveOne(w: World, t: Token, lucks: seq<Luck>)
    requires t in w.workers && !w.workers[t].Gone? && lucks != []
    ensures Drive(w, t, lucks) == Drive(Apply(w, Own(w, t, lucks[0])), t, lucks[1..])
  {
  }

  // ------------------------------------------------------------ after the verdict

  predicate SameRecord(w: World, w': World) {
    && w'.made == w.made && w'.build.check == w.build.check && w'.build.checkPassed == w.build.checkPassed
    && w'.build.initial == w.build.initial && w'.build.retry == w.build.retry && w'.build.repair == w.build.repair
    && w'.build.teardownRequired == w.build.teardownRequired && w'.cleanup == w.cleanup
  }

  lemma EndKeeps(w: World, t: Token, luck: Luck)
    requires OnTrack(w, t) && (w.workers[t].Failing? || w.workers[t].Checked?)
    ensures SameRecord(w, Apply(w, Own(w, t, luck)))
    ensures w.workers[t].Failing? ==> Apply(w, Own(w, t, luck)).workers[t].Checked?
    ensures w.workers[t].Checked? ==> Apply(w, Own(w, t, luck)).workers[t].Gone?
  {
    OwnStepAdvances(w, t, luck);
  }

  /** With a verdict saved, the rest changes neither the record nor the verdict. */
  lemma {:induction false} ClosedEnds(w: World, t: Token, lucks: seq<Luck>)
    requires OnTrack(w, t) && |lucks| >= 2
    requires w.workers[t].Failing? || w.workers[t].Checked?
    ensures SameRecord(w, Drive(w, t, lucks))
    ensures ExecutionEnded(Drive(w, t, lucks), t, w.build.check)
  {
    var w1 := Apply(w, Own(w, t, lucks[0]));
    OwnStepAdvances(w, t, lucks[0]);
    EndKeeps(w, t, lucks[0]);
    DriveOne(w, t, lucks);
    if w.workers[t].Failing? {
      OwnStepAdvances(w1, t, lucks[1]);
      EndKeeps(w1, t, lucks[1]);
      DriveOne(w1, t, lucks[1..]);
    }
  }

  ghost predicate ExecutionEnded(w: World, t: Token, check: CheckStatus) {
    t in w.workers && w.workers[t].Gone? && OnTrack(w, t) && w.build.check == check
  }

  // ------------------------------------------------------------ from a running check

  lemma ConcludeCloses(w: World, t: Token)
    requires OnTrack(w, t) && w.workers[t].Executing? && Next(w.build).Finish?
    ensures var w' := Apply(w, Conclude(t));
            && OnTrack(w', t) && (w'.workers[t].Failing? || w'.workers[t].Checked?) && w'.made == w.made
            && w'.build.check == (if Next(w.build).passed then Passed else Rejected)
            && w'.build.checkPassed == Some(Next(w.build).passed)
            && w'.build.initial == w.build.initial && w'.build.retry == w.build.retry && w'.build.repair == w.build.repair
  {
    DecisionAdvances(w, t);
  }

  lemma CallGoesOut(w: World, t: Token, luck: Luck)
    requires OnTrack(w, t) && w.workers[t].Executing? && Next(w.build).Ask? && luck.Fine?
    ensures var c, r := Next(w.build).call, w.workers[t].run;
            var w1 := Apply(w, Reserve(t));
            var w2 := Apply(w1, CallOut(t, luck.good));
            && Own(w, t, luck) == Reserve(t) && OnTrack(w1, t) && Own(w1, t, luck) == CallOut(t, luck.good) && OnTrack(w2, t)
            && w2.workers[t] == Called(c, r, luck.good)
            && w2.build == w.build.(reserved := w.build.reserved + {c})
            && w2.made == w.made + [Made(r, c, t, luck.good)]
  {
    DecisionAdvances(w, t);
    CallingAdvances(Apply(w, Reserve(t)), t, luck.good);
  }

  /** What keeping an answer leads to. */
  lemma AnswerIsKept(w: World, t: Token)
    requires OnTrack(w, t) && w.workers[t].Called?
    ensures var p := w.workers[t];
            var w' := Apply(w, Keep(t));
            && OnTrack(w', t) && w'.made == w.made && w'.build.reserved == w.build.reserved
            && (if p.call == Probe || (p.call == Agent && p.good) then
                  w'.workers[t] == Executing(p.run)
                  && w'.build == if p.call == Probe then w.build.(initial := Some(p.good)) else w.build.(repair := true)
                else
                  && (w'.workers[t].Failing? || w'.workers[t].Checked?)
                  && w'.build.check == (if p.call == Retry && p.good then Passed else Rejected)
                  && w'.build.initial == w.build.initial && w'.build.repair == w.build.repair
                  && w'.build.retry == if p.call == Retry then Some(p.good) else w.build.retry)
  {
    KeepAdvances(w, t);
  }

  lemma OneMoreMade(made: seq<Made>, run: RunId, t: Token, a: Answered, calls: seq<Answered>)
    ensures made + [Made(run, a.call, t, a.good)] + MadeBy(run, t, calls) == made + MadeBy(run, t, [a] + calls)
  {
    assert MadeBy(run, t, [a] + calls) == [Made(run, a.call, t, a.good)] + MadeBy(run, t, calls);
  }

  lemma OneMoreAnswered(calls: seq<Answered>, a: Answered, c: Call, good: bool)
    ensures WasAnswered([a] + calls, c, good) <==> a == Answered(c, good) || WasAnswered(calls, c, good)
  {
    assert ([a] + calls)[0] == a;
    if WasAnswered(calls, c, good) {
      var i :| 0 <= i < |calls| && calls[i] == Answered(c, good);
      assert ([a] + calls)[i + 1] == calls[i];
    }
  }

  /** The record after `Called(c, _, good)` was kept, as far as the outcome depends on it. */
  function After(b: Build, a: Answered): Build {
    var b1 := b.(reserved := b.reserved + {a.call});
    match a.call
    case Probe => b1.(initial := Some(a.good))
    case Agent => b1.(repair := b.repair || a.good)
    case Retry => b1.(retry := Some(a.good))
  }

  lemma OutcomeOneMore(b: Build, a: Answered, calls: seq<Answered>, passed: bool)
    requires Next(b) == Ask(a.call)
    requires a.call == Probe || (a.call == Agent && a.good)
    requires Outcome(After(b, a), calls, passed)
    ensures Outcome(b, [a] + calls, passed)
  {
    assert ([a] + calls)[1..] == calls;
  }

  lemma OutcomeLast(b: Build, a: Answered)
    requires Next(b) == Ask(a.call)
    requires (a.call == Agent && !a.good) || a.call == Retry
    ensures Outcome(b, [a], a.call == Retry && a.good)
  {
  }

  lemma SavesOneMore(b: Build, a: Answered, calls: seq<Answered>, passed: bool, b': Build)
    requires Next(b) == Ask(a.call) && Outcome(b, [a] + calls, passed) && Saves(After(b, a), calls, b')
    ensures Saves(b, [a] + calls, b')
  {
    forall c: Call, good: bool ensures WasAnswered([a] + calls, c, good) <==> a == Answered(c, good) || WasAnswered(calls, c, good) {
      OneMoreAnswered(calls, a, c, good);
    }
    OnceEach(b, [a] + calls, passed);
  }

  /** No outcome answers a call twice. */
  lemma OnceEach(b: Build, calls: seq<Answered>, passed: bool)
    requires Outcome(b, calls, passed)
    ensures |calls| <= 3 && forall i, j :: 0 <= i < j < |calls| ==> calls[i].call != calls[j].call
  {
  }

  lemma EndedOneMore(w: World, w3: World, w': World, t: Token, run: RunId, a: Answered, calls: seq<Answered>, passed: bool)
    requires Next(w.build) == Ask(a.call) && Outcome(w.build, [a] + calls, passed)
    requires w3.made == w.made + [Made(run, a.call, t, a.good)]
    requires Ended(w3, w', t, run, calls, passed)
    requires w3.build.initial == After(w.build, a).initial && w3.build.retry == After(w.build, a).retry
    requires w3.build.repair == After(w.build, a).repair
    ensures Ended(w, w', t, run, [a] + calls, passed)
  {
    OneMoreMade(w.made, run, t, a, calls);
    SavesOneMore(w.build, a, calls, passed, w'.build);
  }

  lemma NothingMoreEnds(w: World, t: Token, run: RunId, lucks: seq<Luck>)
    requires OnTrack(w, t) && |lucks| >= 2 && (w.workers[t].Failing? || w.workers[t].Checked?) && HasVerdict(w.build)
    ensures Ended(w, Drive(w, t, lucks), t, run, [], w.build.check == Passed)
  {
    ClosedEnds(w, t, lucks);
    assert MadeBy(run, t, []) == [];
  }

  /** An undisturbed check, from the point where it looks at its record. */
  lemma {:induction false} ExecutingEnds(w: World, t: Token, lucks: seq<Luck>) returns (calls: seq<Answered>, passed: bool)
    requires OnTrack(w, t) && w.workers[t].Executing? && AllFine(lucks) && |lucks| >= Rank(w.build, w.workers[t])
    ensures Outcome(w.build, calls, passed)
    ensures Ended(w, Drive(w, t, lucks), t, w.workers[t].run, calls, passed)
    decreases |lucks|
  {
    var run := w.workers[t].run;
    DriveOne(w, t, lucks);
    if Next(w.build).Finish? {
      ConcludeCloses(w, t);
      var w1 := Apply(w, Conclude(t));
      NothingMoreEnds(w1, t, run, lucks[1..]);
      calls, passed := [], Next(w.build).passed;
    } else {
      var a := Answered(Next(w.build).call, lucks[1].good);
      var w2, w3 := MakeCall(w, t, lucks);
      if w3.workers[t].Executing? {
        var rest;
        rest, passed := ExecutingEnds(w3, t, lucks[3..]);
        OutcomeOneMore(w.build, a, rest, passed);
        EndedOneMore(w, w3, Drive(w, t, lucks), t, run, a, rest, passed);
        calls := [a] + rest;
      } else {
        NothingMoreEnds(w3, t, run, lucks[3..]);
        passed := a.call == Retry && a.good;
        OutcomeLast(w.build, a);
        assert [a] + [] == [a];
        EndedOneMore(w, w3, Drive(w, t, lucks), t, run, a, [], passed);
        calls := [a];
      }
    }
  }

  /** Reservation, call and answer, one after the other. */
  lemma MakeCall(w: World, t: Token, lucks: seq<Luck>) returns (w2: World, w3: World)
    requires OnTrack(w, t) && w.workers[t].Executing? && Next(w.build).Ask? && AllFine(lucks)
    requires |lucks| >= Rank(w.build, w.workers[t])
    ensures |lucks| >= 5 && Drive(w, t, lucks) == Drive(w3, t, lucks[3..])
    ensures OnTrack(w3, t) && Rank(w3.build, w3.workers[t]) <= |lucks| - 3
    ensures var a := Answered(Next(w.build).call, lucks[1].good);
            && w3.made == w.made + [Made(w.workers[t].run, a.call, t, a.good)]
            && (if a.call == Probe || (a.call == Agent && a.good)
                then w3.workers[t] == Executing(w.workers[t].run) && w3.build == After(w.build, a)
                else
                  && (w3.workers[t].Failing? || w3.workers[t].Checked?)
                  && w3.build.check == (if a.call == Retry && a.good then Passed else Rejected)
                  && w3.build.initial == w.build.initial && w3.build.repair == w.build.repair
                  && w3.build.retry == After(w.build, a).retry)
  {
    var w1 := Apply(w, Reserve(t));
    OwnStepAdvances(w, t, lucks[0]);
    CallGoesOut(w, t, lucks[0]);
    CallGoesOut(w, t, lucks[1]);
    DriveOne(w, t, lucks);
    w2 := Apply(w1, CallOut(t, lucks[1].good));
    OwnStepAdvances(w1, t, lucks[1]);
    DriveOne(w1, t, lucks[1..]);
    w3 := Apply(w2, Keep(t));
    OwnStepAdvances(w2, t, lucks[2]);
    AnswerIsKept(w2, t);
    DriveOne(w2, t, lucks[1..][1..]);
    assert lucks[1..][1..][1..] == lucks[3..];
  }

  // ------------------------------------------------------------- main results

  lemma BeginsRunning(w: World, t: Token, lucks: seq<Luck>) returns (w2: World)
    requires OnTrack(w, t) && w.workers[t].Idle? && !HasVerdict(w.build) && |lucks| >= 2 && AllFine(lucks)
    ensures OnTrack(w2, t) && Drive(w, t, lucks) == Drive(w2, t, lucks[2..])
    ensures var run := if w.build.run.Some? then w.build.run.value else w.nextRun;
            w2.workers[t] == Executing(run) && w2.build == w.build.(run := Some(run), check := InProgress) && w2.made == w.made
  {
    OwnStepAdvances(w, t, lucks[0]);
    DriveOne(w, t, lucks);
    var w1 := Apply(w, Begin(t));
    OwnStepAdvances(w1, t, lucks[1]);
    DriveOne(w1, t, lucks[1..]);
    w2 := Apply(w1, MarkRunning(t));
    assert lucks[1..][1..] == lucks[2..];
  }

  /** An undisturbed execution of a DEPLOYING build without a verdict: which calls it makes,
      and the verdict, status, record and teardown obligation it ends with. */
  lemma ExecutionOutcome(w: World, t: Token, lucks: seq<Luck>) returns (calls: seq<Answered>, passed: bool)
    requires OnTrack(w, t) && w.workers[t].Idle? && !HasVerdict(w.build) && AllFine(lucks) && |lucks| >= 14
    ensures Outcome(w.build, calls, passed)
    ensures Ended(w, Drive(w, t, lucks), t, if w.build.run.Some? then w.build.run.value else w.nextRun, calls, passed)
  {
    var w2 := BeginsRunning(w, t, lucks);
    calls, passed := ExecutingEnds(w2, t, lucks[2..]);
  }

  /** A build whose check was never begun: it passes, and is delivered, exactly when the
      initial probe passes, or fails, the agent gives a repair, and the retry passes. */
  lemma FreshExecutionPassesIff(w: World, t: Token, lucks: seq<Luck>) returns (calls: seq<Answered>)
    requires OnTrack(w, t) && w.workers[t].Idle? && !HasVerdict(w.build) && AllFine(lucks) && |lucks| >= 14
    requires w.build.reserved == {} && w.build.initial == None && w.build.retry == None && !w.build.repair
    ensures var w' := Drive(w, t, lucks);
            && w'.made == w.made + MadeBy(if w.build.run.Some? then w.build.run.value else w.nextRun, t, calls)
            && (w'.build.status == B.Succeeded <==> w'.build.check == Passed)
            && (w'.build.check == Passed <==>
                  || calls == [Answered(Probe, true)]
                  || calls == [Answered(Probe, false), Answered(Agent, true), Answered(Retry, true)])
            && (w'.build.check == Rejected && w'.build.status == B.Failed <==>
                  || calls == [Answered(Probe, false), Answered(Agent, false)]
                  || calls == [Answered(Probe, false), Answered(Agent, true), Answered(Retry, false)])
  {
    var passed;
    calls, passed := ExecutionOutcome(w, t, lucks);
    if calls != [] && !calls[0].good {
      assert calls == [calls[0]] + calls[1..];
    }
  }

  /** Re-entry after a crash: a saved passing probe delivers, a saved retry decides, and a
      call that left no result fails, all without another call. */
  lemma ReentryDecides(w: World, t: Token, lucks: seq<Luck>)
    requires OnTrack(w, t) && w.workers[t].Idle? && !HasVerdict(w.build) && AllFine(lucks) && |lucks| >= 14
    ensures var b, w' := w.build, Drive(w, t, lucks);
            && (b.initial == Some(true) ==> w'.build.status == B.Succeeded && w'.made == w.made)
            && (b.initial == None && Probe in b.reserved ==> w'.build.status == B.Failed && w'.made == w.made)
            && (b.initial == Some(false) && b.retry.Some? ==>
                  w'.build.status == (if b.retry.value then B.Succeeded else B.Failed) && w'.made == w.made)
            && (b.initial == Some(false) && b.retry.None? && Retry in b.reserved ==>
                  w'.build.status == B.Failed && w'.made == w.made)
            && (b.initial == Some(false) && b.retry.None? && Retry !in b.reserved && !b.repair && Agent in b.reserved ==>
                  w'.build.status == B.Failed && w'.made == w.made)
  {
    var calls, passed := ExecutionOutcome(w, t, lucks);
    assert calls == [] ==> MadeBy(if w.build.run.Some? then w.build.run.value else w.nextRun, t, calls) == [];
  }

  /** A verdict saved before a crash stands: the build is delivered or failed by it. */
  lemma SavedVerdictStands(w: World, t: Token, lucks: seq<Luck>)
    requires OnTrack(w, t) && w.workers[t].Idle? && HasVerdict(w.build) && |lucks| >= 3
    ensures var w' := Drive(w, t, lucks);
            && w'.made == w.made && w'.build.check == w.build.check
            && w'.build.status == (if w.build.check == Passed then B.Succeeded else B.Failed)
  {
    OwnStepAdvances(w, t, lucks[0]);
    DriveOne(w, t, lucks);
    BeginWithVerdict(w, t);
    ClosedEnds(Apply(w, Begin(t)), t, lucks[1..]);
  }

  lemma BeginWithVerdict(w: World, t: Token)
    requires OnTrack(w, t) && w.workers[t].Idle? && HasVerdict(w.build)
    ensures var w' := Apply(w, Begin(t));
            w'.workers == w.workers[t := Checked] && w'.made == w.made && w'.build.check == w.build.check
  {
  }

  /** Any other failure of the worker: a DEPLOYING build gets a failed verdict with a
      teardown obligation and is failed next; one further back is failed at once. */
  lemma WorkerFailureFails(w: World, t: Token)
    requires Leads(w, t) && w.workers[t] == Raised
    ensures var w' := Apply(w, MarkFailed(t));
            if w.build.status == B.Deploying then
              && w'.workers[t] == Failing && w'.build.check == Rejected && w'.build.teardownRequired
              && Apply(w', FailBuild(t)).build.status == B.Failed
            else if w.build.status in {B.Succeeded, B.Failed, B.Cancelled} then w'.build == w.build
            else w'.build == w.build.(status := B.Failed)
  {
    assert B.Terminal(w.build.status) <==> w.build.status in {B.Succeeded, B.Failed, B.Cancelled};
  }

  /** An error in the middle of a check fails the build, with a teardown obligation. */
  lemma TroubleFails(w: World, t: Token, lucks: seq<Luck>)
    requires OnTrack(w, t) && MidCheck(w.workers[t]) && |lucks| >= 3 && lucks[0].Trouble?
    ensures var w' := Drive(w, t, lucks);
            && w'.build.status == B.Failed && w'.build.check == Rejected && w'.build.teardownRequired && w'.made == w.made
  {
    OwnStepAdvances(w, t, lucks[0]);
    DriveOne(w, t, lucks);
    TroubleCloses(w, t);
    ClosedEnds(Apply(w, Except(t)), t, lucks[1..]);
  }

  lemma TroubleCloses(w: World, t: Token)
    requires OnTrack(w, t) && MidCheck(w.workers[t])
    ensures var w' := Apply(w, Except(t));
            t in w'.workers && w'.workers[t].Failing? && w'.build.check == Rejected && w'.build.teardownRequired && w'.made == w.made
  {
  }

  /** Every reachable DEPLOYING build with an idle lease holder is on track. */
  lemma ReachableIsOnTrack(schedule: seq<Step>, t: Token)
    requires var w := Run(INITIAL, schedule);
             Leads(w, t) && w.workers[t].Idle? && w.build.status == B.Deploying
    ensures OnTrack(Run(INITIAL, schedule), t)
  {
    RunSafe(INITIAL, schedule);
  }

  // ----------------------------------------------- around the check

  /** A DEPLOYING or SUCCEEDED build without a running check or a teardown obligation can be
      resubmitted, and then has a fresh run with nothing begun and nothing saved; in any
      other state resubmission changes nothing. */
  lemma ResubmissionReopens(w: World, t: Token)
    requires Leads(w, t) && w.workers[t].Idle?
    ensures var w' := Apply(w, Submit(t));
            if w.build.check !in {Waiting, InProgress} && w.build.status in {B.Deploying, B.Succeeded} && !w.build.teardownRequired
            then
              && w'.build.status == B.Deploying && w'.build.run == Some(w.nextRun) && w'.nextRun == w.nextRun + 1
              && w'.build.reserved == {} && w'.build.initial == None && w'.build.retry == None && !w'.build.repair
              && w'.build.check == Waiting && w'.build.checkPassed == None && w'.workers[t].Idle?
            else w' == w
  {
  }

  /** A build left DEPLOYING with a failed verdict, its worker gone, is failed by recovery. */
  lemma RecoveryFails(w: World)
    requires w.holder.None? && w.build.check == Rejected && w.build.teardownRequired && w.build.status == B.Deploying
    ensures Apply(w, RecoverFailed) == w.(build := w.build.(status := B.Failed))
  {
  }

  /** Reading the cleanup status and then writing what was read settles the teardown fields:
      the obligation ends exactly with a SUCCEEDED cleanup. */
  lemma SyncSettles(w: World)
    requires w.build.teardownRequired || w.build.teardownStatus.Some?
    ensures var w' := Apply(Apply(w, SyncRead), SyncWrite(w.cleanup));
            && (w'.build.teardownRequired <==> w.cleanup != Succeeded)
            && (w'.build.teardownStatus == Some(Complete) <==> w.cleanup == Succeeded)
            && (w'.build.teardownStatus == Some(Partial) <==> w.cleanup == PartialFailed)
            && (w'.build.teardownStatus == Some(Ongoing) <==> w.cleanup == Running)
            && (w'.build.teardownStatus == Some(ToDo) <==> w.cleanup in {NotStarted, Queued})
            && w'.build.status == w.build.status && w'.build.check == w.build.check && w'.cleanup == w.cleanup
  {
    var w1 := Apply(w, SyncRead);
    assert w.cleanup in w1.syncs && w1.build == w.build;
    StatusCases(w.cleanup);
  }

  /** A teardown notes that it runs, and after an exception that it is partial and still
      owed; it does neither unless a teardown is owed. */
  lemma TeardownNotes(w: World)
    requires w.build.teardownRequired
    ensures var w1 := Apply(w, TeardownRead);
            && Apply(w1, TeardownWrite(Ongoing)).build == w.build.(teardownStatus := Some(Ongoing))
            && Apply(w1, TeardownWrite(Partial)).build == w.build.(teardownStatus := Some(Partial), teardownRequired := true)
    ensures !w.tearing ==> Apply(w, TeardownWrite(Ongoing)) == w && Apply(w, TeardownWrite(Partial)) == w
  {
  }

  /** A cancellation or a failed dispatch ends a build that is not over, and no other. */
  lemma OutsideEnds(w: World)
    ensures var over := w.build.status in {B.Succeeded, B.Failed, B.Cancelled};
            && Apply(w, Cancel) == (if over then w else w.(build := w.build.(status := B.Cancelled)))
            && Apply(w, DispatchFailed) == (if over then w else w.(build := w.build.(status := B.Failed)))
  {
  }

  lemma StatusCases(c: CleanupStatus)
    ensures c in {Queued, NotStarted, Succeeded, PartialFailed, Running}
  {
    match c
    case NotStarted =>
    case Queued =>
    case Running =>
    case Succeeded =>
    case PartialFailed =>
  }
}
