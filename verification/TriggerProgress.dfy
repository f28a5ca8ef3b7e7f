/** What the trigger steps achieve: an accepted trigger reaches BUILDING, a rejected one
    leaves the way free, an unknown one stops later deliveries, and cleanup can follow. */
module TriggerProgress {
  import opened Options
  import opened Manifests
  import B = Builds
  import opened Trigger

  lemma RunTwo(w: World, a: Step, b: Step)
    ensures Run(w, [a] + ([b] + [])) == Apply(Apply(w, a), b)
  {
    RunCons(w, a, [b] + []);
    RunCons(Apply(w, a), b, []);
  }

  lemma RunThree(w: World, a: Step, b: Step, c: Step)
    ensures Run(w, [a] + ([b] + ([c] + []))) == Apply(Apply(Apply(w, a), b), c)
  {
    RunCons(w, a, [b] + ([c] + []));
    RunTwo(Apply(w, a), b, c);
  }

  /** An accepted trigger under the lease: the queue URL is saved, the reservation cleared,
      and the build moves to BUILDING. */
  lemma AcceptedReachesBuilding(w: World, t: Token)
    requires Leads(w, t, Answered(Accepted)) && w.status == B.Triggering
    ensures var w' := Run(w, [Settle(t)] + ([Settle(t)] + ([Progress(t, B.Building)] + [])));
            && w'.status == B.Building && w'.queueUrl == Some(t) && !w'.manifest.triggerPending
            && w'.started == w.started && Leads(w', t, Entered)
  {
    RunThree(w, Settle(t), Settle(t), Progress(t, B.Building));
    var w1 := Apply(w, Settle(t));
    assert w1 == Goto(w, t, UrlSaved).(queueUrl := Some(t));
    var w2 := Apply(w1, Settle(t));
    assert w2.queueUrl == Some(t) && !w2.manifest.triggerPending && Leads(w2, t, Entered) && w2.status == B.Triggering;
  }

  /** A definite rejection under the lease clears the reservation and fails the delivery. */
  lemma RejectedClears(w: World, t: Token)
    requires Leads(w, t, Answered(Rejected))
    ensures var w' := Apply(w, Settle(t));
            && !w'.manifest.triggerPending && w'.queueUrl == w.queueUrl && Leads(w', t, Failing)
            && w'.started == w.started && w'.status == w.status
  {
  }

  /** An unknown outcome leaves the reservation on record. */
  lemma UnknownStays(w: World, t: Token)
    requires Leads(w, t, Answered(Unknown))
    ensures Apply(w, Settle(t)) == Goto(w, t, Failing)
  {
  }

  /** Losing the lease stops the delivery before another write, whatever the answer. */
  lemma LostLeaseStops(w: World, t: Token)
    requires t in w.workers && w.workers[t].Answered? && !Holds(w.manifest, t, w.now)
    ensures Apply(w, Settle(t)) == Goto(w, t, Gone)
  {
  }

  /** With a reservation on record a later delivery fails the build instead of calling. */
  lemma PendingFails(w: World, t: Token)
    requires Leads(w, t, Entered) && w.status == B.Triggering && w.queueUrl.None? && w.manifest.triggerPending
    ensures var w' := Run(w, [CheckPending(t)] + ([Fail(t)] + []));
            w'.status == B.Failed && w'.started == w.started && In(w', t, Gone)
  {
    RunTwo(w, CheckPending(t), Fail(t));
  }

  predicate Unrecorded(w: World) {
    w.status == B.Triggering && w.queueUrl.None? && !w.manifest.triggerPending
  }

  /** A delivery that finds nothing on record triggers, once, and reaches BUILDING. */
  lemma EnteredBuilds(w: World, t: Token) returns (schedule: seq<Step>)
    requires Leads(w, t, Entered) && Unrecorded(w)
    ensures InTime(w, schedule)
    ensures var w' := Run(w, schedule);
            && w'.status == B.Building && w'.queueUrl == Some(t) && w'.started == w.started + {t}
            && !w'.manifest.triggerPending && w'.manifest.leaseOwner == Some(t)
  {
    var w1 := Apply(w, CheckPending(t));
    assert Leads(w1, t, Ready) && w1.manifest == w.manifest;
    var w2 := Apply(w1, Reserve(t));
    assert In(w2, t, Calling(true)) && Holds(w2.manifest, t, w2.now) && w2.status == B.Triggering && w2.queueUrl.None?;
    var w3 := Apply(w2, Call(t, Accepted));
    assert Leads(w3, t, Answered(Accepted)) && w3.started == w.started + {t};
    var rest := [Settle(t)] + ([Settle(t)] + ([Progress(t, B.Building)] + []));
    AcceptedReachesBuilding(w3, t);
    SettlingInTime(w3, t);
    RunCons(w2, Call(t, Accepted), rest);
    RunCons(w1, Reserve(t), [Call(t, Accepted)] + rest);
    RunCons(w, CheckPending(t), [Reserve(t)] + ([Call(t, Accepted)] + rest));
    schedule := [CheckPending(t)] + ([Reserve(t)] + ([Call(t, Accepted)] + rest));
    OwnerIsKept(w3, t);
  }

  lemma SettlingInTime(w: World, t: Token)
    ensures InTime(w, [Settle(t)] + ([Settle(t)] + ([Progress(t, B.Building)] + [])))
  {
    RunCons(w, Settle(t), [Settle(t)] + ([Progress(t, B.Building)] + []));
    var w1 := Apply(w, Settle(t));
    RunCons(w1, Settle(t), [Progress(t, B.Building)] + []);
    RunCons(Apply(w1, Settle(t)), Progress(t, B.Building), []);
  }

  lemma OwnerIsKept(w: World, t: Token)
    ensures Run(w, [Settle(t)] + ([Settle(t)] + ([Progress(t, B.Building)] + []))).manifest.leaseOwner == w.manifest.leaseOwner
  {
    RunThree(w, Settle(t), Settle(t), Progress(t, B.Building));
    SettleKeeps(w, t);
    SettleKeeps(Apply(w, Settle(t)), t);
  }

  /** A fresh build can be triggered and reach BUILDING with exactly one execution. */
  lemma BuildingIsReachable()
    ensures exists schedule :: InTime(Initial(0), schedule)
              && var w := Run(Initial(0), schedule); w.status == B.Building && w.started == {0} && w.queueUrl == Some(0)
  {
    var w1 := Apply(Initial(0), Enter({NotStarted}, 10));
    assert Leads(w1, 0, Entered) && w1.status == B.Queued;
    var w2 := Apply(w1, Progress(0, B.Validating));
    assert Leads(w2, 0, Entered) && w2.status == B.Validating;
    var w3 := Apply(w2, Progress(0, B.Triggering));
    assert Leads(w3, 0, Entered) && Unrecorded(w3) && w3.started == {};
    var rest := EnteredBuilds(w3, 0);
    RunCons(w2, Progress(0, B.Triggering), rest);
    RunCons(w1, Progress(0, B.Validating), [Progress(0, B.Triggering)] + rest);
    RunCons(Initial(0), Enter({NotStarted}, 10), [Progress(0, B.Validating)] + ([Progress(0, B.Triggering)] + rest));
    var schedule := [Enter({NotStarted}, 10)] + ([Progress(0, B.Validating)] + ([Progress(0, B.Triggering)] + rest));
    assert InTime(Initial(0), schedule) && Run(Initial(0), schedule) == Run(w3, rest);
  }

  /** How the status moves under the lease: one stage on or to an end, BUILDING only with a
      queue URL, back to DEPLOYING only from SUCCEEDED; a failing delivery ends the build
      unless it is over. */
  lemma StatusRules(w: World, t: Token, target: B.BuildStatus)
    requires Leads(w, t, Entered)
    ensures var over := w.status in {B.Succeeded, B.Failed, B.Cancelled};
            && Apply(w, Progress(t, target)) ==
                 (if target in B.Allowed(w.status) && (target == B.Building ==> w.queueUrl.Some?)
                  then w.(status := target) else w)
            && Apply(w, Recheck(t)) == (if w.status == B.Succeeded then w.(status := B.Deploying) else w)
            && Apply(w, Fail(t)) == Goto(w, t, Gone).(status := if over then w.status else B.Failed)
            && Apply(w, DispatchFailed) == w.(status := if over then w.status else B.Failed)
  {
  }

  /** A started execution can end, and a call that was not rejected counts as started. */
  lemma ExecutionRules(w: World, t: Token, answer: Answer, e: Token)
    requires t in w.workers && w.workers[t].Calling?
    ensures Apply(w, Call(t, answer)) ==
              Goto(w, t, Answered(answer)).(started := if answer.Rejected? then w.started else w.started + {t})
    ensures Apply(w, ExecutionEnds(e)) == (if e in w.started then w.(finished := w.finished + {e}) else w)
  {
  }

  // ------------------------------------------------------------ cleanup afterwards

  /** When the check finds a build quiescent: it is over, no trigger of unknown outcome is on
      record, and a known execution has ended. */
  lemma QuiescentExactly(w: World)
    ensures Apply(w, CheckQuiescent).quiescent <==>
      || w.quiescent
      || (&& w.status in {B.Succeeded, B.Failed, B.Cancelled}
          && (w.manifest.triggerPending ==> w.queueUrl.Some?)
          && (w.queueUrl.Some? ==> w.queueUrl.value in w.finished))
  {
  }

  /** A build that is over, with its execution ended, can be cleaned up once the lease is
      free. */
  lemma CleanupCanFollow(w: World)
    requires w.status in {B.Succeeded, B.Failed, B.Cancelled} && w.queueUrl.Some? && w.queueUrl.value in w.finished
    requires w.manifest.leaseOwner.None?
    ensures var n := w.nextToken;
            Run(w, [CheckQuiescent] + ([Enter({w.manifest.status}, w.now + 1)] + ([EnqueueCleanup(n)] + []))).manifest.status == Queued
  {
    var enter := Enter({w.manifest.status}, w.now + 1);
    RunThree(w, CheckQuiescent, enter, EnqueueCleanup(w.nextToken));
    QuiescentExactly(w);
    var w1 := Apply(w, CheckQuiescent);
    var w2 := Apply(w1, enter);
    assert w2.quiescent && Leads(w2, w.nextToken, Entered) && w2.manifest.status == w.manifest.status;
  }
}
