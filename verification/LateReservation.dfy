/** The reservation write whose refusal the source ignores: when a worker that no
    longer holds the lease can cause a second execution, and when it cannot. */
module LateReservation {
  import opened Options
  import opened Manifests
  import B = Builds
  import opened Trigger

  /** Some continuation, with every later reservation in time, starts two executions. */
  ghost predicate CanStartTwo(w: World) {
    exists schedule :: InTime(w, schedule) && !AtMostOne(Run(w, schedule))
  }

  ghost predicate NeverStartsTwo(w: World) {
    forall schedule :: InTime(w, schedule) ==> AtMostOne(Run(w, schedule))
  }

  lemma Opposite(w: World)
    ensures NeverStartsTwo(w) <==> !CanStartTwo(w)
  {
  }

  lemma TwoStarted(w: World, a: Token, b: Token)
    requires a in w.started && b in w.started && a != b
    ensures CanStartTwo(w)
  {
    assert InTime(w, []) && Run(w, []) == w && !AtMostOne(w);
  }

  lemma OneStepBefore(w: World, s: Step)
    requires OnTime(w, s) && CanStartTwo(Apply(w, s))
    ensures CanStartTwo(w)
  {
    var rest :| InTime(Apply(w, s), rest) && !AtMostOne(Run(Apply(w, s), rest));
    RunCons(w, s, rest);
  }

  /** No call can follow the late one: nothing was started, nobody else is calling, and
      either the reservation on record stays there or the build is past triggering. */
  predicate Spent(w: World, t: Token) {
    && w.started == {}
    && (forall u <- w.workers :: u != t ==> !w.workers[u].Calling?)
    && (if w.manifest.triggerPending
        then w.status != B.Triggering || forall u <- w.workers :: !Leads(w, u, Answered(Rejected))
        else w.status != B.Triggering && forall u <- w.workers :: !Leads(w, u, Ready))
  }

  // ------------------------------------------- two executions, step by step back

  lemma CallingStartsTwo(w: World, t: Token, u: Token)
    requires t in w.started && u != t && u in w.workers && w.workers[u].Calling?
    ensures CanStartTwo(w)
  {
    TwoStarted(Apply(w, Call(u, Accepted)), t, u);
    OneStepBefore(w, Call(u, Accepted));
  }

  lemma ReadyStartsTwo(w: World, t: Token, u: Token)
    requires t in w.started && u != t && Leads(w, u, Ready)
    ensures CanStartTwo(w)
  {
    CallingStartsTwo(Apply(w, Reserve(u)), t, u);
    OneStepBefore(w, Reserve(u));
  }

  predicate Unrecorded(w: World) {
    w.status == B.Triggering && w.queueUrl.None? && !w.manifest.triggerPending
  }

  lemma EnteredStartsTwo(w: World, t: Token, u: Token)
    requires t in w.started && u != t && Leads(w, u, Entered) && Unrecorded(w)
    ensures CanStartTwo(w)
  {
    ReadyStartsTwo(Apply(w, CheckPending(u)), t, u);
    OneStepBefore(w, CheckPending(u));
  }

  lemma ExpiredStartsTwo(w: World, t: Token)
    requires t in w.started && t < w.nextToken && Unrecorded(w) && LeaseExpired(w.manifest.leaseExpiresAt, w.now)
    ensures CanStartTwo(w)
  {
    var enter := Enter({w.manifest.status}, w.now + 1);
    EnteredStartsTwo(Apply(w, enter), t, w.nextToken);
    OneStepBefore(w, enter);
  }

  /** The next delivery, once the lease has run out, finds nothing on record. */
  lemma UnrecordedStartsTwo(w: World, t: Token)
    requires t in w.started && t < w.nextToken && Unrecorded(w)
    ensures CanStartTwo(w)
  {
    var wait: nat := if w.manifest.leaseExpiresAt.Some? && w.manifest.leaseExpiresAt.value > w.now
                     then w.manifest.leaseExpiresAt.value - w.now else 0;
    ExpiredStartsTwo(Apply(w, Tick(wait)), t);
    OneStepBefore(w, Tick(wait));
  }

  lemma RejectedStartsTwo(w: World, t: Token, u: Token)
    requires t in w.started && t < w.nextToken && Leads(w, u, Answered(Rejected))
    requires w.status == B.Triggering && w.queueUrl.None?
    ensures CanStartTwo(w)
  {
    UnrecordedStartsTwo(Apply(w, Settle(u)), t);
    OneStepBefore(w, Settle(u));
  }

  /** A late call that is not spent can be followed by a second one. */
  lemma UnspentStartsTwo(w: World, t: Token)
    requires Inv(w) && In(w, t, Ready) && !Holds(w.manifest, t, w.now) && !Spent(w, t)
    ensures CanStartTwo(Apply(w, Reserve(t)))
  {
    assert PhaseInv(w, t);
    var w1 := Apply(w, Reserve(t));
    var w2 := Apply(w1, Call(t, Accepted));
    assert w1 == Goto(w, t, Calling(false));
    assert w2 == Goto(w, t, Answered(Accepted)).(started := w.started + {t});
    if w.started != {} {
      var u :| u in w.started;
      TwoStarted(w2, t, u);
    } else if exists u <- w.workers :: u != t && w.workers[u].Calling? {
      var u :| u in w.workers && u != t && w.workers[u].Calling?;
      CallingStartsTwo(w2, t, u);
    } else if w.manifest.triggerPending {
      var u :| u in w.workers && Leads(w, u, Answered(Rejected));
      RejectedStartsTwo(w2, t, u);
    } else if w.status == B.Triggering {
      UnrecordedStartsTwo(w2, t);
    } else {
      var u :| u in w.workers && Leads(w, u, Ready);
      ReadyStartsTwo(w2, t, u);
    }
    OneStepBefore(w1, Call(t, Accepted));
  }

  // ---------------------------------------------------- a spent call stays alone

  predicate Over(w: World) {
    w.status in {B.Failed, B.Cancelled}
  }

  /** The reservation on record stays: whoever could clear it has lost the lease. */
  predicate Stuck(w: World, t: Token) {
    w.manifest.triggerPending
    && forall u <- w.workers :: u != t && w.workers[u].Answered? ==> !Holds(w.manifest, u, w.now)
  }

  /** What the phase of another worker may be. */
  predicate Harmless(w: World, u: Token)
    requires u in w.workers
  {
    match w.workers[u]
    case Ready => !Holds(w.manifest, u, w.now)
    case Calling(_) => false
    case Answered(answer) => answer == Rejected
    case UrlSaved => false
    case _ => true
  }

  /** Only the late worker ever calls, and it has lost the lease. */
  ghost predicate Alone(w: World, t: Token) {
    && Fresh(w) && t < w.nextToken && !Holds(w.manifest, t, w.now)
    && w.started <= {t} && w.queueUrl.None?
    && (t in w.workers ==> InFlight(w.workers[t]) || w.workers[t] == Gone)
    && (forall u <- w.workers :: u != t ==> Harmless(w, u))
    && (Over(w) || Stuck(w, t))
  }

  lemma SpentIsAlone(w: World, t: Token)
    requires Inv(w) && In(w, t, Ready) && !Holds(w.manifest, t, w.now) && Spent(w, t)
    ensures Alone(Apply(w, Reserve(t)), t)
  {
    var w' := Apply(w, Reserve(t));
    assert w' == Goto(w, t, Calling(false));
    forall u <- w.workers | u != t ensures Harmless(w', u) {
      assert PhaseInv(w, u);
      assert w.manifest.triggerPending || !Leads(w, u, Ready);
    }
    if w.manifest.triggerPending && !Over(w) {
      forall u <- w'.workers | u != t && w'.workers[u].Answered? ensures !Holds(w'.manifest, u, w'.now) {
        assert PhaseInv(w, u) && !Leads(w, u, Answered(Rejected));
      }
    }
  }

  /** Nobody gains the lease, nobody new is ready, and the trigger's record is left alone. */
  ghost predicate Tame(w: World, w': World) {
    && w'.started == w.started && w'.queueUrl == w.queueUrl
    && (Over(w) ==> Over(w'))
    && (w.manifest.triggerPending ==> w'.manifest.triggerPending)
    && (forall u: Token :: u < w.nextToken && Holds(w'.manifest, u, w'.now) ==> Holds(w.manifest, u, w.now))
    && (forall u <- w'.workers ::
          (u in w.workers && w'.workers[u] == w.workers[u]) || w'.workers[u] in {Entered, Failing, Gone})
  }

  lemma TameIsAlone(w: World, w': World, t: Token)
    requires Alone(w, t) && Fresh(w') && Tame(w, w') && w.nextToken <= w'.nextToken
    requires t in w'.workers ==> t in w.workers && (w'.workers[t] == w.workers[t] || w'.workers[t] == Gone)
    ensures Alone(w', t)
  {
    forall u <- w'.workers | u != t ensures Harmless(w', u) {
      if u in w.workers && w'.workers[u] == w.workers[u] { assert Harmless(w, u); }
    }
  }

  predicate KeepsLate(w: World, w': World, t: Token) {
    && w.nextToken <= w'.nextToken
    && (t in w'.workers ==> t in w.workers && (w'.workers[t] == w.workers[t] || w'.workers[t] == Gone))
  }

  lemma TimeTame(w: World, s: Step, t: Token)
    requires Alone(w, t) && (s.Tick? || s.Heartbeat? || s.Leave? || s.Crash?)
    ensures Tame(w, Apply(w, s)) && KeepsLate(w, Apply(w, s), t)
  {
  }

  lemma EnterTame(w: World, statuses: set<CleanupStatus>, expiresAt: Time, t: Token)
    requires Alone(w, t)
    ensures var w' := Apply(w, Enter(statuses, expiresAt)); Tame(w, w') && KeepsLate(w, w', t)
  {
  }

  lemma StatusTame(w: World, s: Step, t: Token)
    requires Alone(w, t) && (s.Progress? || s.Recheck? || s.Fail? || s.DispatchFailed?)
    ensures Tame(w, Apply(w, s)) && KeepsLate(w, Apply(w, s), t)
  {
  }

  lemma CleanupTame(w: World, s: Step, t: Token)
    requires Alone(w, t) && (s.ExecutionEnds? || s.CheckQuiescent? || s.EnqueueCleanup? || s.CleanupMoves?)
    ensures Tame(w, Apply(w, s)) && KeepsLate(w, Apply(w, s), t)
  {
  }

  lemma CheckPendingTame(w: World, u: Token, t: Token)
    requires Alone(w, t)
    ensures var w' := Apply(w, CheckPending(u)); Tame(w, w') && KeepsLate(w, w', t)
  {
  }

  lemma ReserveTame(w: World, u: Token, t: Token)
    requires Alone(w, t) && OnTime(w, Reserve(u))
    ensures Apply(w, Reserve(u)) == w
  {
    assert u in w.workers && u != t ==> Harmless(w, u);
  }

  lemma CallAlone(w: World, u: Token, answer: Answer, t: Token)
    requires Alone(w, t)
    ensures Alone(Apply(w, Call(u, answer)), t)
  {
    var w' := Apply(w, Call(u, answer));
    StepFresh(w, Call(u, answer));
    if u in w.workers && w.workers[u].Calling? {
      forall v <- w'.workers | v != t ensures Harmless(w', v) { assert Harmless(w, v); }
    }
  }

  lemma SettleAlone(w: World, u: Token, t: Token)
    requires Alone(w, t)
    ensures Alone(Apply(w, Settle(u)), t)
  {
    var w' := Apply(w, Settle(u));
    StepFresh(w, Settle(u));
    if u in w.workers && (w.workers[u].Answered? || w.workers[u].UrlSaved?) {
      if u != t { assert Harmless(w, u); }
      if Holds(w.manifest, u, w.now) {
        assert SetPending(w, u, false) == Some(w.manifest.(triggerPending := false));
        assert w' == Goto(w.(manifest := w.manifest.(triggerPending := false)), u, Failing);
        assert Over(w);
      } else {
        assert w' == Goto(w, u, Gone);
      }
      forall v <- w'.workers | v != t ensures Harmless(w', v) {
        if v != u { assert Harmless(w, v); }
      }
    }
  }

  lemma StepAlone(w: World, s: Step, t: Token)
    requires Alone(w, t) && OnTime(w, s)
    ensures Alone(Apply(w, s), t)
  {
    var w' := Apply(w, s);
    if s.Reserve? {
      ReserveTame(w, s.t, t);
    } else if s.Call? {
      CallAlone(w, s.t, s.answer, t);
    } else if s.Settle? {
      SettleAlone(w, s.t, t);
    } else {
      StepFresh(w, s);
      QuietTame(w, s, t);
      TameIsAlone(w, w', t);
    }
  }

  lemma QuietTame(w: World, s: Step, t: Token)
    requires Alone(w, t) && !s.Reserve? && !s.Call? && !s.Settle?
    ensures Tame(w, Apply(w, s)) && KeepsLate(w, Apply(w, s), t)
  {
    if s.Enter? {
      EnterTame(w, s.statuses, s.expiresAt, t);
    } else if s.CheckPending? {
      CheckPendingTame(w, s.t, t);
    } else if s.Tick? || s.Heartbeat? || s.Leave? || s.Crash? {
      TimeTame(w, s, t);
    } else if s.Progress? || s.Recheck? || s.Fail? || s.DispatchFailed? {
      StatusTame(w, s, t);
    } else {
      CleanupTame(w, s, t);
    }
  }

  lemma {:induction false} RunAlone(w: World, schedule: seq<Step>, t: Token)
    requires Alone(w, t) && InTime(w, schedule)
    ensures Alone(Run(w, schedule), t)
    decreases |schedule|
  {
    if schedule != [] {
      StepAlone(w, schedule[0], t);
      RunAlone(Apply(w, schedule[0]), schedule[1..], t);
    }
  }

  // ------------------------------------------------------------- main results

  /** The exact condition, known before the write: whatever is scheduled next (with
      later reservations in time), at most one execution starts, if and only if the
      worker still holds the lease or its call can have no second. */
  lemma ReservationDecides(w: World, t: Token)
    requires Inv(w) && In(w, t, Ready)
    ensures var w' := Apply(w, Reserve(t));
            Holds(w.manifest, t, w.now) || Spent(w, t) <==> NeverStartsTwo(w')
  {
    var w' := Apply(w, Reserve(t));
    if Holds(w.manifest, t, w.now) {
      StepInv(w, Reserve(t));
      forall schedule | InTime(w', schedule) ensures AtMostOne(Run(w', schedule)) {
        RunInv(w', schedule);
      }
    } else if Spent(w, t) {
      SpentIsAlone(w, t);
      forall schedule | InTime(w', schedule) ensures AtMostOne(Run(w', schedule)) {
        RunAlone(w', schedule, t);
      }
    } else {
      UnspentStartsTwo(w, t);
    }
    Opposite(w');
  }

  /** A build that is about to be triggered, with nothing reserved or started: there the
      lease alone decides. */
  lemma LeaseDecides(w: World, t: Token)
    requires Inv(w) && In(w, t, Ready) && Unrecorded(w) && w.started == {}
    ensures var w' := Apply(w, Reserve(t));
            Holds(w.manifest, t, w.now) <==> NeverStartsTwo(w')
  {
    ReservationDecides(w, t);
  }

  /** A worker reaches the point between its last `guard` and the reservation. */
  const READY_TO_RESERVE: seq<Step> := [Enter({NotStarted}, 10)] + ([Progress(0, B.Validating)] +
    ([Progress(0, B.Triggering)] + ([CheckPending(0)] + [])))

  lemma ReadyIsReachable()
    ensures var w := Run(Initial(0), READY_TO_RESERVE);
            && InTime(Initial(0), READY_TO_RESERVE) && Inv(w) && Leads(w, 0, Ready) && Unrecorded(w)
            && w.started == {} && w.manifest.leaseExpiresAt == Some(10) && w.now == 0
  {
    var w1 := Apply(Initial(0), Enter({NotStarted}, 10));
    assert Leads(w1, 0, Entered);
    var w2 := Apply(w1, Progress(0, B.Validating));
    assert Leads(w2, 0, Entered) && w2.status == B.Validating;
    var w3 := Apply(w2, Progress(0, B.Triggering));
    assert Leads(w3, 0, Entered) && w3.status == B.Triggering;
    RunCons(w3, CheckPending(0), []);
    RunCons(w2, Progress(0, B.Triggering), [CheckPending(0)] + []);
    RunCons(w1, Progress(0, B.Validating), [Progress(0, B.Triggering)] + ([CheckPending(0)] + []));
    RunCons(Initial(0), Enter({NotStarted}, 10),
            [Progress(0, B.Validating)] + ([Progress(0, B.Triggering)] + ([CheckPending(0)] + [])));
    RunInv(Initial(0), READY_TO_RESERVE);
  }

  /** From there the lease runs out before the reservation, and two executions start:
      the build's promise does not hold of the code. */
  lemma TwoExecutionsAreReachable()
    ensures exists schedule :: !AtMostOne(Run(Initial(0), schedule))
  {
    ReadyIsReachable();
    var w := Run(Initial(0), READY_TO_RESERVE);
    var late := Apply(w, Tick(10));
    StepInv(w, Tick(10));
    LeaseDecides(late, 0);
    Opposite(Apply(late, Reserve(0)));
    var rest :| !AtMostOne(Run(Apply(late, Reserve(0)), rest));
    RunCons(late, Reserve(0), rest);
    RunCons(w, Tick(10), [Reserve(0)] + rest);
    RunJoin(Initial(0), READY_TO_RESERVE, [Tick(10)] + ([Reserve(0)] + rest));
  }
}
