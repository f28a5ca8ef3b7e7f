/** Any number of deployments allocating ports at the same time. Each step is one
    repository call of one of them, or a call by anybody else; deployments start,
    crash and start again, and end at any point. */
module Deployments {
  import opened Options
  import opened Ports
  import opened PortStability

  /** Where a deployment is with its current port. */
  datatype Phase =
    | Asking                          // before `list_build_ports`
    | Trying(wanted: Option<nat>)     // before the reservation of the remembered or requested port
    | Scanning(candidate: nat)        // in the loop over the range
    | Exhausted                       // the exception

  datatype Deployment = Deployment(
    setting: Setting,
    ds: seq<Declared>,
    initial: set<Triple>,
    occupied: set<Triple>,
    given: seq<Published>,
    phase: Phase)

  datatype World = World(table: Table, running: map<nat, Deployment>)

  datatype Move =
    | Join(n: nat, setting: Setting, ds: seq<Declared>, occupied: set<Triple>)
    | Advance(n: nat)
    | Restart(n: nat)
    | Retire(n: nat)
    | Call(op: Op)

  function Fresh(setting: Setting, ds: seq<Declared>, occupied: set<Triple>): Deployment {
    Deployment(setting, ds, occupied, occupied, [], Asking)
  }

  /** The reservation was granted: the port is given to the current declaration. */
  function Grant(t: Table, d: Deployment, port: nat): (Table, Deployment)
    requires |d.given| < |d.ds|
  {
    var decl := d.ds[|d.given|];
    (Booked(d.setting, t, decl, port),
     d.(occupied := d.occupied + {KeyOf(decl, port)}, phase := Asking,
        given := d.given + [Published(decl.owner.targetPort, port, decl.protocol, decl.owner.mode)]))
  }

  /** One repository call of a deployment. A refused reservation leaves the table alone. */
  function Advanced(t: Table, d: Deployment): (Table, Deployment) {
    if |d.given| >= |d.ds| || d.phase.Exhausted? then (t, d)
    else
      var c, decl := d.setting, d.ds[|d.given|];
      match d.phase
      case Asking => (t, d.(phase := Trying(Wanted(c, t, decl))))
      case Trying(wanted) =>
        if wanted.Some? && Free(c, t, d.occupied, decl, wanted.value) then Grant(t, d, wanted.value)
        else (t, d.(phase := Scanning(c.first)))
      case Scanning(candidate) =>
        if candidate > c.last then (t, d.(phase := Exhausted))
        else if Free(c, t, d.occupied, decl, candidate) then Grant(t, d, candidate)
        else (t, d.(phase := Scanning(candidate + 1)))
      case Exhausted => (t, d)
  }

  /** A build's ports are released by its cleanup, which the lease keeps apart from its
      deployment; so a release for a build that is being deployed is not enabled. */
  predicate Enabled(w: World, op: Op) {
    op.ReleaseOp? ==> forall n <- w.running :: w.running[n].setting.build != op.build
  }

  function Apply(w: World, m: Move): World {
    match m
    case Join(n, setting, ds, occupied) =>
      if n in w.running then w else w.(running := w.running[n := Fresh(setting, ds, occupied)])
    case Advance(n) =>
      if n in w.running then
        var (t, d) := Advanced(w.table, w.running[n]);
        World(t, w.running[n := d])
      else w
    case Restart(n) =>
      if n in w.running
      then w.(running := w.running[n := Fresh(w.running[n].setting, w.running[n].ds, w.running[n].initial)])
      else w
    case Retire(n) => w.(running := w.running - {n})
    case Call(op) => if Enabled(w, op) then w.(table := After(w.table, op)) else w
  }

  function Run(w: World, moves: seq<Move>): World
    decreases |moves|
  {
    if moves == [] then w else Run(Apply(w, moves[0]), moves[1..])
  }

  // ---------------------------------------------------------------- invariant

  /** The ports given so far keep off the occupied ones and off each other. */
  ghost predicate Apart(t: Table, d: Deployment) {
    && |d.given| <= |d.ds|
    && Answers(d.initial, Progress(t, d.occupied, d.given, false), d.ds[..|d.given|])
  }

  /** Every port given so far is held by its own declaration. */
  ghost predicate Held(t: Table, d: Deployment) {
    && |d.given| <= |d.ds|
    && (d.setting.tracked ==> forall i :: 0 <= i < |d.given| ==>
          && d.given[i].protocol == d.ds[i].protocol
          && Lookup(t, IdOf(d.setting, d.ds[i], d.given[i].port)) == Some(HolderOf(d.setting, d.ds[i])))
  }

  ghost predicate Inv(w: World) {
    forall n <- w.running :: Apart(w.table, w.running[n]) && Held(w.table, w.running[n])
  }

  lemma FreshIsSound(t: Table, setting: Setting, ds: seq<Declared>, occupied: set<Triple>)
    ensures Apart(t, Fresh(setting, ds, occupied)) && Held(t, Fresh(setting, ds, occupied))
  {
    assert (set p: Published <- [] :: TripleOf(p)) == {};
  }

  lemma GrantApart(t: Table, d: Deployment, port: nat)
    requires Apart(t, d) && |d.given| < |d.ds| && KeyOf(d.ds[|d.given|], port) !in d.occupied
    ensures Apart(Grant(t, d, port).0, Grant(t, d, port).1)
  {
    var decl := d.ds[|d.given|];
    AnswerOneMore(d.setting, d.initial, Progress(t, d.occupied, d.given, false), d.ds[..|d.given|], decl, port);
    assert d.ds[..|d.given| + 1] == d.ds[..|d.given|] + [decl];
  }

  lemma GrantHeld(t: Table, d: Deployment, port: nat)
    requires Held(t, d) && |d.given| < |d.ds| && Free(d.setting, t, d.occupied, d.ds[|d.given|], port)
    ensures Held(Grant(t, d, port).0, Grant(t, d, port).1)
  {
    var c, decl := d.setting, d.ds[|d.given|];
    if c.tracked {
      var (t', d') := Grant(t, d, port);
      forall i | 0 <= i < |d'.given|
        ensures d'.given[i].protocol == d.ds[i].protocol
        ensures Lookup(t', IdOf(c, d.ds[i], d'.given[i].port)) == Some(HolderOf(c, d.ds[i]))
      {
        ReserveLookup(t, IdOf(c, decl, port), HolderOf(c, decl), IdOf(c, d.ds[i], d'.given[i].port));
      }
    }
  }

  lemma AdvanceSound(t: Table, d: Deployment)
    requires Apart(t, d) && Held(t, d)
    ensures Apart(Advanced(t, d).0, Advanced(t, d).1) && Held(Advanced(t, d).0, Advanced(t, d).1)
  {
    if |d.given| < |d.ds| {
      var decl := d.ds[|d.given|];
      if d.phase.Trying? && d.phase.wanted.Some? && Free(d.setting, t, d.occupied, decl, d.phase.wanted.value) {
        GrantApart(t, d, d.phase.wanted.value);
        GrantHeld(t, d, d.phase.wanted.value);
      } else if d.phase.Scanning? && Free(d.setting, t, d.occupied, decl, d.phase.candidate) {
        GrantApart(t, d, d.phase.candidate);
        GrantHeld(t, d, d.phase.candidate);
      }
    }
  }

  /** No held entry is lost from one table to the other. */
  ghost predicate KeepsHeld(t: Table, t': Table, d: Deployment) {
    forall id: Id, owner: Owner :: Lookup(t, id) == Some(Holder(d.setting.build, owner)) ==> Lookup(t', id) == Lookup(t, id)
  }

  lemma KeptSound(t: Table, t': Table, d: Deployment)
    requires Apart(t, d) && Held(t, d) && KeepsHeld(t, t', d)
    ensures Apart(t', d) && Held(t', d)
  {
  }

  /** A step of one deployment loses no entry of any other. */
  lemma AdvanceKeeps(t: Table, d: Deployment, other: Deployment)
    ensures KeepsHeld(t, Advanced(t, d).0, other)
  {
    var t' := Advanced(t, d).0;
    if t' != t {
      var decl := d.ds[|d.given|];
      var port := if d.phase.Trying? then d.phase.wanted.value else d.phase.candidate;
      forall id: Id ensures Lookup(t, id).Some? ==> Lookup(t', id) == Lookup(t, id) {
        ReserveLookup(t, IdOf(d.setting, decl, port), HolderOf(d.setting, decl), id);
      }
    }
  }

  lemma CallKeeps(w: World, op: Op, n: nat)
    requires n in w.running && Enabled(w, op)
    ensures KeepsHeld(w.table, After(w.table, op), w.running[n])
  {
    forall id: Id, owner: Owner | Lookup(w.table, id) == Some(Holder(w.running[n].setting.build, owner))
      ensures Lookup(After(w.table, op), id) == Lookup(w.table, id)
    {
      if op.ReserveOp? {
        ReserveLookup(w.table, op.id, op.holder, id);
      } else {
        DeleteLookup(w.table, op.id, id);
      }
    }
  }

  lemma StepInv(w: World, m: Move)
    requires Inv(w)
    ensures Inv(Apply(w, m))
  {
    var w' := Apply(w, m);
    forall n <- w'.running ensures Apart(w'.table, w'.running[n]) && Held(w'.table, w'.running[n]) {
      if m.Join? && n == m.n && n !in w.running {
        FreshIsSound(w.table, m.setting, m.ds, m.occupied);
      } else if m.Restart? && n == m.n {
        FreshIsSound(w.table, w.running[n].setting, w.running[n].ds, w.running[n].initial);
      } else if m.Advance? && n == m.n {
        AdvanceSound(w.table, w.running[n]);
      } else if m.Advance? && m.n in w.running {
        AdvanceKeeps(w.table, w.running[m.n], w.running[n]);
        KeptSound(w.table, w'.table, w.running[n]);
      } else if m.Call? && Enabled(w, m.op) {
        CallKeeps(w, m.op, n);
        KeptSound(w.table, w'.table, w.running[n]);
      }
    }
  }

  lemma {:induction false} RunInv(w: World, moves: seq<Move>)
    requires Inv(w)
    ensures Inv(Run(w, moves))
    decreases |moves|
  {
    if moves != [] {
      StepInv(w, moves[0]);
      RunInv(Apply(w, moves[0]), moves[1..]);
    }
  }

  // ------------------------------------------------------------- main results

  /** At every moment of every interleaving, two ports given on one target to different
      declarations, of one deployment or of two, differ in number or protocol. */
  lemma NoPortIsShared(t: Table, moves: seq<Move>, a: nat, b: nat, i: nat, j: nat)
    requires var w := Run(World(t, map[]), moves);
             && a in w.running && b in w.running
             && w.running[a].setting.tracked && w.running[b].setting.tracked
             && w.running[a].setting.target == w.running[b].setting.target
             && i < |w.running[a].given| <= |w.running[a].ds| && j < |w.running[b].given| <= |w.running[b].ds|
             && HolderOf(w.running[a].setting, w.running[a].ds[i]) != HolderOf(w.running[b].setting, w.running[b].ds[j])
    ensures var w := Run(World(t, map[]), moves);
            (w.running[a].given[i].port, w.running[a].given[i].protocol)
            != (w.running[b].given[j].port, w.running[b].given[j].protocol)
  {
    RunInv(World(t, map[]), moves);
    var w := Run(World(t, map[]), moves);
    assert Held(w.table, w.running[a]) && Held(w.table, w.running[b]);
  }

  /** In particular no two builds share a port, whatever they do at the same time. */
  lemma BuildsDoNotShare(t: Table, moves: seq<Move>, a: nat, b: nat, i: nat, j: nat)
    requires var w := Run(World(t, map[]), moves);
             && a in w.running && b in w.running
             && w.running[a].setting.tracked && w.running[b].setting.tracked
             && w.running[a].setting.build != w.running[b].setting.build
             && w.running[a].setting.target == w.running[b].setting.target
             && i < |w.running[a].given| && j < |w.running[b].given|
    ensures var w := Run(World(t, map[]), moves);
            (w.running[a].given[i].port, w.running[a].given[i].protocol)
            != (w.running[b].given[j].port, w.running[b].given[j].protocol)
  {
    RunInv(World(t, map[]), moves);
    var w := Run(World(t, map[]), moves);
    assert Held(w.table, w.running[a]) && Held(w.table, w.running[b]);
    NoPortIsShared(t, moves, a, b, i, j);
  }

  /** And each deployment's ports keep off the occupied ones and off each other, with
      target, protocol and mode as declared, tracked or not. */
  lemma PortsKeepApart(t: Table, moves: seq<Move>, n: nat)
    requires n in Run(World(t, map[]), moves).running
    ensures var w := Run(World(t, map[]), moves);
            Apart(w.table, w.running[n])
  {
    RunInv(World(t, map[]), moves);
  }

  // --------------------------------------- alone, the calls make up the allocator

  function Drive(t: Table, d: Deployment, n: nat): (Table, Deployment)
    decreases n
  {
    if n == 0 then (t, d) else Drive(Advanced(t, d).0, Advanced(t, d).1, n - 1)
  }

  lemma {:induction false} DriveJoin(t: Table, d: Deployment, m: nat, n: nat)
    ensures Drive(t, d, m + n) == Drive(Drive(t, d, m).0, Drive(t, d, m).1, n)
    decreases m
  {
    if m > 0 { DriveJoin(Advanced(t, d).0, Advanced(t, d).1, m - 1, n); }
  }

  function State(t: Table, d: Deployment): Progress {
    Progress(t, d.occupied, d.given, d.phase.Exhausted?)
  }

  /** The state of a deployment between two ports, or at the end. */
  predicate Settled(t: Table, d: Deployment, to: (Table, Deployment), s: Progress) {
    && State(to.0, to.1) == s && to.1.setting == d.setting && to.1.ds == d.ds && to.1.initial == d.initial
    && (to.1.phase.Asking? || to.1.phase.Exhausted?)
  }

  /** The loop over the range ends at the first free port, or with the exception. */
  lemma {:induction false} ScanAlone(t: Table, d: Deployment) returns (n: nat)
    requires |d.given| < |d.ds| && d.phase.Scanning? && d.setting.first <= d.phase.candidate
    requires !TakesWanted(d.setting, t, d.occupied, d.ds[|d.given|])
    requires forall p :: d.setting.first <= p < d.phase.candidate ==> !Free(d.setting, t, d.occupied, d.ds[|d.given|], p)
    ensures Settled(t, d, Drive(t, d, n), Step(d.setting, Progress(t, d.occupied, d.given, false), d.ds[|d.given|]))
    decreases d.setting.last + 1 - d.phase.candidate
  {
    var c, decl, k := d.setting, d.ds[|d.given|], d.phase.candidate;
    var choice := Choice(c, t, d.occupied, decl);
    if k > c.last {
      ChoiceIsUnique(c, t, d.occupied, decl, None, choice);
      n := 1;
      assert Drive(t, d, 1) == Drive(t, d.(phase := Exhausted), 0);
    } else if Free(c, t, d.occupied, decl, k) {
      ChoiceIsUnique(c, t, d.occupied, decl, Some(k), choice);
      n := 1;
      assert Drive(t, d, 1) == Drive(Grant(t, d, k).0, Grant(t, d, k).1, 0);
    } else {
      var rest := ScanAlone(t, d.(phase := Scanning(k + 1)));
      n := rest + 1;
    }
  }

  /** Undisturbed, a deployment's calls for one port add up to one step of the allocator. */
  lemma PortAlone(t: Table, d: Deployment) returns (n: nat)
    requires |d.given| < |d.ds| && d.phase.Asking?
    ensures Settled(t, d, Drive(t, d, n), Step(d.setting, Progress(t, d.occupied, d.given, false), d.ds[|d.given|]))
  {
    var c, decl := d.setting, d.ds[|d.given|];
    var d1 := d.(phase := Trying(Wanted(c, t, decl)));
    assert Advanced(t, d) == (t, d1);
    if TakesWanted(c, t, d.occupied, decl) {
      var port := Wanted(c, t, decl).value;
      assert Advanced(t, d1) == Grant(t, d1, port);
      n := 2;
      assert Drive(t, d, 2) == Drive(t, d1, 1) == Drive(Grant(t, d1, port).0, Grant(t, d1, port).1, 0);
    } else {
      var d2 := d.(phase := Scanning(c.first));
      assert Advanced(t, d1) == (t, d2);
      var rest := ScanAlone(t, d2);
      n := rest + 2;
      assert Drive(t, d, n) == Drive(t, d1, rest + 1) == Drive(t, d2, rest);
    }
  }

  /** Undisturbed, a whole deployment goes through the states of the sequential allocator. */
  lemma {:induction false} DeploymentAlone(t: Table, c: Setting, ds: seq<Declared>, occupied: set<Triple>, j: nat) returns (n: nat)
    requires j <= |ds|
    ensures Settled(t, Fresh(c, ds, occupied), Drive(t, Fresh(c, ds, occupied), n), At(c, t, occupied, ds, j))
    ensures !At(c, t, occupied, ds, j).failed ==> |At(c, t, occupied, ds, j).given| == j
    decreases j
  {
    var d := Fresh(c, ds, occupied);
    if j == 0 {
      n := 0;
    } else {
      var m := DeploymentAlone(t, c, ds, occupied, j - 1);
      AtNext(c, t, occupied, ds, j - 1);
      var (t1, d1) := Drive(t, d, m);
      if d1.phase.Exhausted? {
        n := m;
      } else {
        assert d1.phase.Asking? && |d1.given| == j - 1;
        var k := PortAlone(t1, d1);
        DriveJoin(t, d, m, k);
        n := m + k;
      }
    }
  }
}
