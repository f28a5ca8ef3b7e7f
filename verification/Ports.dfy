/** Published ports: the reservation table of the repository and the allocator
    that must give the same answer when a deployment is run again. */
module Ports {
  import opened Options

  datatype Id = Id(target: string, protocol: string, port: nat)

  /** The string `service:index:target:mode`, kept as its four parts. */
  datatype Owner = Owner(service: string, index: nat, targetPort: nat, mode: string)

  datatype Holder = Holder(build: string, owner: Owner)

  datatype Entry = Entry(id: Id, holder: Holder)

  /** A dictionary from identity to holder, in insertion order. */
  type Table = seq<Entry>

  // ------------------------------------------------------------ the table

  function Lookup(t: Table, id: Id): Option<Holder>
    decreases |t|
  {
    if t == [] then None else if t[0].id == id then Some(t[0].holder) else Lookup(t[1..], id)
  }

  predicate Granted(t: Table, id: Id, h: Holder) {
    Lookup(t, id) == None || Lookup(t, id) == Some(h)
  }

  /** `setdefault`. */
  function Reserve(t: Table, id: Id, h: Holder): Table {
    if Lookup(t, id) == None then t + [Entry(id, h)] else t
  }

  predicate Releasable(t: Table, id: Id, build: string) {
    Lookup(t, id) == None || Lookup(t, id).value.build == build
  }

  function Delete(t: Table, id: Id): Table
    decreases |t|
  {
    if t == [] then [] else if t[0].id == id then Delete(t[1..], id) else [t[0]] + Delete(t[1..], id)
  }

  function Release(t: Table, id: Id, build: string): Table {
    if Releasable(t, id, build) then Delete(t, id) else t
  }

  function ListBuild(t: Table, build: string): Table
    decreases |t|
  {
    if t == [] then []
    else if t[0].holder.build == build then [t[0]] + ListBuild(t[1..], build)
    else ListBuild(t[1..], build)
  }

  /** The entries one declared port already has on the target, oldest first. */
  function Mine(t: Table, target: string, protocol: string, h: Holder): Table
    decreases |t|
  {
    if t == [] then []
    else if t[0].id.target == target && t[0].id.protocol == protocol && t[0].holder == h
      then [t[0]] + Mine(t[1..], target, protocol, h)
    else Mine(t[1..], target, protocol, h)
  }

  /** No identity has two holders. */
  predicate Unique(t: Table) {
    forall i, j :: 0 <= i < j < |t| ==> t[i].id != t[j].id
  }

  lemma {:induction false} LookupJoin(a: Table, b: Table, id: Id)
    ensures Lookup(a + b, id) == if Lookup(a, id).Some? then Lookup(a, id) else Lookup(b, id)
    decreases |a|
  {
    if a == [] {
      assert a + b == b;
    } else {
      assert (a + b)[1..] == a[1..] + b;
      LookupJoin(a[1..], b, id);
    }
  }

  lemma {:induction false} LookupFinds(t: Table, id: Id)
    ensures Lookup(t, id).Some? ==> Entry(id, Lookup(t, id).value) in t
    ensures Lookup(t, id).None? ==> forall e <- t :: e.id != id
    decreases |t|
  {
    if t != [] && t[0].id != id { LookupFinds(t[1..], id); }
  }

  lemma LookupIs(t: Table, e: Entry)
    requires Unique(t) && e in t
    ensures Lookup(t, e.id) == Some(e.holder)
  {
    LookupFinds(t, e.id);
  }

  lemma ReserveLookup(t: Table, id: Id, h: Holder, other: Id)
    ensures Lookup(Reserve(t, id, h), other)
         == if other == id && Lookup(t, id).None? then Some(h) else Lookup(t, other)
  {
    LookupJoin(t, [Entry(id, h)], other);
  }

  lemma {:induction false} DeleteLookup(t: Table, id: Id, other: Id)
    ensures Lookup(Delete(t, id), other) == if other == id then None else Lookup(t, other)
    decreases |t|
  {
    if t != [] {
      DeleteLookup(t[1..], id, other);
      if t[0].id != id { LookupJoin([t[0]], Delete(t[1..], id), other); }
    }
  }

  lemma {:induction false} MineJoin(a: Table, b: Table, target: string, protocol: string, h: Holder)
    ensures Mine(a + b, target, protocol, h) == Mine(a, target, protocol, h) + Mine(b, target, protocol, h)
    decreases |a|
  {
    if a == [] {
      assert a + b == b;
    } else {
      assert (a + b)[1..] == a[1..] + b;
      MineJoin(a[1..], b, target, protocol, h);
    }
  }

  lemma {:induction false} MineIsIn(t: Table, target: string, protocol: string, h: Holder)
    ensures forall e <- t :: e.id.target == target && e.id.protocol == protocol && e.holder == h
                             ==> e in Mine(t, target, protocol, h)
    ensures forall e <- Mine(t, target, protocol, h) ::
              e in t && e.id.target == target && e.id.protocol == protocol && e.holder == h
    decreases |t|
  {
    if t != [] { MineIsIn(t[1..], target, protocol, h); }
  }

  /** What the allocator filters from the build's list. */
  function MineIn(listed: Table, target: string, protocol: string, owner: Owner): Table
    decreases |listed|
  {
    if listed == [] then []
    else if listed[0].id.target == target && listed[0].id.protocol == protocol && listed[0].holder.owner == owner
      then [listed[0]] + MineIn(listed[1..], target, protocol, owner)
    else MineIn(listed[1..], target, protocol, owner)
  }

  lemma {:induction false} ListedIsMine(t: Table, target: string, protocol: string, h: Holder)
    ensures MineIn(ListBuild(t, h.build), target, protocol, h.owner) == Mine(t, target, protocol, h)
    decreases |t|
  {
    if t != [] {
      ListedIsMine(t[1..], target, protocol, h);
      var rest := ListBuild(t[1..], h.build);
      if t[0].holder.build == h.build { assert ([t[0]] + rest)[1..] == rest; }
    }
  }

  /** The repository's `port_allocations` and the methods on it. */
  class PortLedger {
    var allocations: Table

    constructor ()
      ensures allocations == []
    {
      allocations := [];
    }

    method ReservePort(id: Id, h: Holder) returns (granted: bool)
      modifies this
      ensures allocations == Reserve(old(allocations), id, h)
      ensures granted == Granted(old(allocations), id, h)
    {
      var previous := Lookup(allocations, id);
      ReserveLookup(allocations, id, h, id);
      if previous.None? {
        allocations := allocations + [Entry(id, h)];
        previous := Some(h);
      }
      granted := previous == Some(h);
    }

    method ReleasePort(id: Id, build: string) returns (released: bool)
      modifies this
      ensures allocations == Release(old(allocations), id, build)
      ensures released == Releasable(old(allocations), id, build)
    {
      var owner := Lookup(allocations, id);
      if owner.None? {
        DeleteAbsent(allocations, id);
        return true;
      }
      if owner.value.build != build {
        return false;
      }
      allocations := Delete(allocations, id);
      return true;
    }

    method ListBuildPorts(build: string) returns (listed: Table)
      ensures listed == ListBuild(allocations, build)
    {
      listed := [];
      for i := 0 to |allocations|
        invariant listed == ListBuild(allocations[..i], build)
      {
        ListBuildOneMore(allocations, build, i);
        if allocations[i].holder.build == build {
          listed := listed + [allocations[i]];
        }
      }
      assert allocations[..|allocations|] == allocations;
    }
  }

  lemma {:induction false} DeleteAbsent(t: Table, id: Id)
    requires Lookup(t, id).None?
    ensures Delete(t, id) == t
    decreases |t|
  {
    if t != [] { DeleteAbsent(t[1..], id); }
  }

  lemma {:induction false} ListBuildOneMore(t: Table, build: string, i: nat)
    requires i < |t|
    ensures ListBuild(t[..i + 1], build)
         == ListBuild(t[..i], build) + if t[i].holder.build == build then [t[i]] else []
    decreases i
  {
    if i > 0 {
      assert t[..i + 1][1..] == t[1..][..i] && t[..i][1..] == t[1..][..i - 1];
      ListBuildOneMore(t[1..], build, i - 1);
    }
  }

  // ------------------------------------------------------------ many builds

  /** One repository call, by any build. */
  datatype Op = ReserveOp(id: Id, holder: Holder) | ReleaseOp(id: Id, build: string)

  function After(t: Table, op: Op): Table {
    match op
    case ReserveOp(id, h) => Reserve(t, id, h)
    case ReleaseOp(id, build) => Release(t, id, build)
  }

  function Tables(t: Table, ops: seq<Op>): Table
    decreases |ops|
  {
    if ops == [] then t else Tables(After(t, ops[0]), ops[1..])
  }

  lemma {:induction false} HeldUntilReleased(t: Table, ops: seq<Op>, id: Id, h: Holder)
    requires Lookup(t, id) == Some(h) && ReleaseOp(id, h.build) !in ops
    ensures Lookup(Tables(t, ops), id) == Some(h)
    decreases |ops|
  {
    if ops != [] {
      var op := ops[0];
      assert op in ops;
      if op.ReserveOp? {
        ReserveLookup(t, op.id, op.holder, id);
      } else {
        DeleteLookup(t, op.id, id);
      }
      HeldUntilReleased(After(t, op), ops[1..], id, h);
    }
  }

  lemma {:induction false} DeleteKeepsUnique(t: Table, id: Id)
    requires Unique(t)
    ensures Unique(Delete(t, id)) && forall e <- Delete(t, id) :: e in t
    decreases |t|
  {
    if t != [] {
      DeleteKeepsUnique(t[1..], id);
      assert forall e <- t[1..] :: e.id != t[0].id;
    }
  }

  /** Whatever all builds do, a port never has two holders. */
  lemma {:induction false} TablesStayUnique(t: Table, ops: seq<Op>)
    requires Unique(t)
    ensures Unique(Tables(t, ops))
    decreases |ops|
  {
    if ops != [] {
      if ops[0].ReserveOp? {
        LookupFinds(t, ops[0].id);
      } else {
        DeleteKeepsUnique(t, ops[0].id);
      }
      TablesStayUnique(After(t, ops[0]), ops[1..]);
    }
  }

  /** A reservation adds its own entry when the port has none, and nothing else. */
  lemma ReserveAdds(t: Table, id: Id, h: Holder, e: Entry)
    ensures e in Reserve(t, id, h) <==> e in t || (e == Entry(id, h) && forall x <- t :: x.id != id)
  {
    LookupFinds(t, id);
    assert forall x <- t :: x.id == id ==> Lookup(t, id).Some?;
  }

  /** A release takes away exactly the port's entry, and only if its build asks. */
  lemma {:induction false} DeleteTakes(t: Table, id: Id, e: Entry)
    ensures e in Delete(t, id) <==> e in t && e.id != id
    decreases |t|
  {
    if t != [] { DeleteTakes(t[1..], id, e); }
  }

  lemma ReleaseTakes(t: Table, id: Id, build: string, e: Entry)
    requires Unique(t)
    ensures e in Release(t, id, build) <==> e in t && !(e.id == id && e.holder.build == build)
  {
    DeleteTakes(t, id, e);
    LookupFinds(t, id);
    if e in t { LookupIs(t, e); }
  }

  /** The list of a build has exactly its entries. */
  lemma {:induction false} ListBuildHas(t: Table, build: string, e: Entry)
    ensures e in ListBuild(t, build) <==> e in t && e.holder.build == build
    decreases |t|
  {
    if t != [] { ListBuildHas(t[1..], build, e); }
  }

  /** Between two grants of one port to different holders the first holder's
      build has released it, whatever all builds do in between. */
  lemma NoTwoHolders(t: Table, id: Id, first: Holder, between: seq<Op>, second: Holder)
    requires Granted(t, id, first) && first != second
    requires Granted(Tables(Reserve(t, id, first), between), id, second)
    ensures ReleaseOp(id, first.build) in between
  {
    ReserveLookup(t, id, first, id);
    if ReleaseOp(id, first.build) !in between {
      HeldUntilReleased(Reserve(t, id, first), between, id, first);
    }
  }

  // ------------------------------------------------------------ the allocator

  datatype Triple = Triple(port: nat, protocol: string, mode: string)

  /** One port a service declares. */
  datatype Declared = Declared(owner: Owner, requested: Option<nat>, protocol: string)

  datatype Published = Published(targetPort: nat, port: nat, protocol: string, mode: string)

  /** `tracked` is false when the deployment belongs to no build: then nothing is
      reserved and nothing is remembered. */
  datatype Setting = Setting(tracked: bool, build: string, target: string, first: nat, last: nat)

  function KeyOf(d: Declared, port: nat): Triple {
    Triple(port, d.protocol, d.owner.mode)
  }

  function IdOf(c: Setting, d: Declared, port: nat): Id {
    Id(c.target, d.protocol, port)
  }

  function HolderOf(c: Setting, d: Declared): Holder {
    Holder(c.build, d.owner)
  }

  function Previous(c: Setting, t: Table, d: Declared): Table {
    if c.tracked then Mine(t, c.target, d.protocol, HolderOf(c, d)) else []
  }

  function Wanted(c: Setting, t: Table, d: Declared): Option<nat> {
    if Previous(c, t, d) != [] then Some(Previous(c, t, d)[0].id.port) else d.requested
  }

  /** The port may be given to the declaration. */
  predicate Free(c: Setting, t: Table, occupied: set<Triple>, d: Declared, port: nat) {
    && KeyOf(d, port) !in occupied
    && (c.tracked ==> Granted(t, IdOf(c, d, port), HolderOf(c, d)))
  }

  predicate TakesWanted(c: Setting, t: Table, occupied: set<Triple>, d: Declared) {
    Wanted(c, t, d).Some? && Free(c, t, occupied, d, Wanted(c, t, d).value)
  }

  predicate IsFirstFree(c: Setting, t: Table, occupied: set<Triple>, d: Declared, port: nat) {
    && c.first <= port <= c.last && Free(c, t, occupied, d, port)
    && forall p :: c.first <= p < port ==> !Free(c, t, occupied, d, p)
  }

  predicate NoneFree(c: Setting, t: Table, occupied: set<Triple>, d: Declared) {
    forall p :: c.first <= p <= c.last ==> !Free(c, t, occupied, d, p)
  }

  /** The remembered or requested port when it is free, else the first free port
      of the range, else nothing. */
  predicate IsChoice(c: Setting, t: Table, occupied: set<Triple>, d: Declared, choice: Option<nat>) {
    if TakesWanted(c, t, occupied, d) then choice == Wanted(c, t, d)
    else if choice.Some? then IsFirstFree(c, t, occupied, d, choice.value)
    else NoneFree(c, t, occupied, d)
  }

  lemma ChoiceIsUnique(c: Setting, t: Table, occupied: set<Triple>, d: Declared, a: Option<nat>, b: Option<nat>)
    requires IsChoice(c, t, occupied, d, a) && IsChoice(c, t, occupied, d, b)
    ensures a == b
  {
  }

  function FirstFreeFrom(c: Setting, t: Table, occupied: set<Triple>, d: Declared, from: nat): (r: Option<nat>)
    requires forall p :: c.first <= p < from ==> !Free(c, t, occupied, d, p)
    requires c.first <= from
    ensures if r.Some? then IsFirstFree(c, t, occupied, d, r.value) else NoneFree(c, t, occupied, d)
    decreases c.last + 1 - from
  {
    if from > c.last then None
    else if Free(c, t, occupied, d, from) then Some(from)
    else FirstFreeFrom(c, t, occupied, d, from + 1)
  }

  function Choice(c: Setting, t: Table, occupied: set<Triple>, d: Declared): (r: Option<nat>)
    ensures IsChoice(c, t, occupied, d, r)
  {
    if TakesWanted(c, t, occupied, d) then Wanted(c, t, d) else FirstFreeFrom(c, t, occupied, d, c.first)
  }

  /** The allocator's state: `failed` once an exception has left the loop. */
  datatype Progress = Progress(table: Table, occupied: set<Triple>, given: seq<Published>, failed: bool)

  function Booked(c: Setting, t: Table, d: Declared, port: nat): Table {
    if c.tracked then Reserve(t, IdOf(c, d, port), HolderOf(c, d)) else t
  }

  function Take(c: Setting, s: Progress, d: Declared, port: nat): Progress {
    Progress(Booked(c, s.table, d, port), s.occupied + {KeyOf(d, port)},
             s.given + [Published(d.owner.targetPort, port, d.protocol, d.owner.mode)], false)
  }

  function Step(c: Setting, s: Progress, d: Declared): Progress {
    if s.failed then s
    else match Choice(c, s.table, s.occupied, d)
         case None => s.(failed := true)
         case Some(port) => Take(c, s, d, port)
  }

  function Run(c: Setting, s: Progress, ds: seq<Declared>): Progress
    decreases |ds|
  {
    if ds == [] then s else Step(c, Run(c, s, ds[..|ds| - 1]), ds[|ds| - 1])
  }

  lemma RunOneMore(c: Setting, s: Progress, ds: seq<Declared>, j: nat)
    requires j < |ds|
    ensures Run(c, s, ds[..j + 1]) == Step(c, Run(c, s, ds[..j]), ds[j])
  {
    assert ds[..j + 1][..j] == ds[..j];
  }

  lemma {:induction false} RunJoin(c: Setting, s: Progress, a: seq<Declared>, b: seq<Declared>)
    ensures Run(c, s, a + b) == Run(c, Run(c, s, a), b)
    decreases |b|
  {
    if b == [] {
      assert a + b == a;
    } else {
      assert (a + b)[..|a + b| - 1] == a + b[..|b| - 1];
      RunJoin(c, s, a, b[..|b| - 1]);
    }
  }

  lemma {:induction false} FailedStays(c: Setting, s: Progress, ds: seq<Declared>)
    requires s.failed
    ensures Run(c, s, ds) == s
    decreases |ds|
  {
    if ds != [] { FailedStays(c, s, ds[..|ds| - 1]); }
  }

  /** Once failed, the rest of the run changes nothing. */
  lemma RunStops(c: Setting, s: Progress, done: seq<Declared>, all: seq<Declared>)
    requires done <= all && Run(c, s, done).failed
    ensures Run(c, s, all) == Run(c, s, done)
  {
    assert all == done + all[|done|..];
    RunJoin(c, s, done, all[|done|..]);
    FailedStays(c, Run(c, s, done), all[|done|..]);
  }

  datatype PortSpec = PortSpec(targetPort: nat, requested: Option<nat>, protocol: string, mode: string)

  function Declare(service: string, ports: seq<PortSpec>): (r: seq<Declared>)
    ensures |r| == |ports|
  {
    seq(|ports|, i requires 0 <= i < |ports| =>
      Declared(Owner(service, i, ports[i].targetPort, ports[i].mode), ports[i].requested, ports[i].protocol))
  }

  function DeclareAll(services: seq<(string, seq<PortSpec>)>): seq<Declared>
    decreases |services|
  {
    if services == [] then []
    else DeclareAll(services[..|services| - 1]) + Declare(services[|services| - 1].0, services[|services| - 1].1)
  }

  lemma NextService(c: Setting, s: Progress, services: seq<(string, seq<PortSpec>)>, i: nat)
    requires i < |services|
    ensures Run(c, s, DeclareAll(services[..i + 1]))
         == Run(c, Run(c, s, DeclareAll(services[..i])), Declare(services[i].0, services[i].1))
  {
    assert services[..i + 1][..i] == services[..i];
    RunJoin(c, s, DeclareAll(services[..i]), Declare(services[i].0, services[i].1));
  }

  /** A deployment's adapter: the ledger it shares and the ports it keeps off. */
  class PortAllocator {
    const setting: Setting
    const ledger: PortLedger
    var occupied: set<Triple>

    constructor (setting: Setting, ledger: PortLedger, occupied: set<Triple>)
      ensures this.setting == setting && this.ledger == ledger && this.occupied == occupied
    {
      this.setting, this.ledger, this.occupied := setting, ledger, occupied;
    }

    ghost function State(given: seq<Published>): Progress
      reads this, ledger
    {
      Progress(ledger.allocations, occupied, given, false)
    }

    method ReservePort(port: nat, d: Declared) returns (granted: bool)
      modifies ledger
      ensures granted == (setting.tracked ==> Granted(old(ledger.allocations), IdOf(setting, d, port), HolderOf(setting, d)))
      ensures ledger.allocations == Booked(setting, old(ledger.allocations), d, port)
      ensures !granted ==> ledger.allocations == old(ledger.allocations)
    {
      if !setting.tracked {
        return true;
      }
      granted := ledger.ReservePort(IdOf(setting, d, port), HolderOf(setting, d));
    }

    method Remembered(d: Declared) returns (requested: Option<nat>)
      ensures requested == Wanted(setting, ledger.allocations, d)
    {
      requested := d.requested;
      if setting.tracked {
        var listed := ledger.ListBuildPorts(setting.build);
        var previous := MineIn(listed, setting.target, d.protocol, d.owner);
        ListedIsMine(ledger.allocations, setting.target, d.protocol, HolderOf(setting, d));
        if previous != [] {
          requested := Some(previous[0].id.port);
        }
      }
    }

    method ChoosePort(d: Declared) returns (chosen: Option<nat>)
      modifies ledger
      ensures chosen == Choice(setting, old(ledger.allocations), occupied, d)
      ensures ledger.allocations == if chosen.Some? then Booked(setting, old(ledger.allocations), d, chosen.value)
                                    else old(ledger.allocations)
    {
      var requested := Remembered(d);
      ghost var t := ledger.allocations;
      if requested.Some? && KeyOf(d, requested.value) !in occupied {
        var granted := ReservePort(requested.value, d);
        if granted {
          return requested;
        }
      }
      chosen := None;
      for candidate := setting.first to if setting.first <= setting.last then setting.last + 1 else setting.first
        invariant chosen == None && ledger.allocations == t
        invariant forall p :: setting.first <= p < candidate ==> !Free(setting, t, occupied, d, p)
      {
        if KeyOf(d, candidate) !in occupied {
          var granted := ReservePort(candidate, d);
          if granted {
            ChoiceIsUnique(setting, t, occupied, d, Some(candidate), Choice(setting, t, occupied, d));
            return Some(candidate);
          }
        }
      }
    }

    /** One service's ports; `None` is the exception for an exhausted range. */
    method AllocatePorts(service: string, ports: seq<PortSpec>, ghost earlier: seq<Published>)
      returns (r: Option<seq<Published>>)
      modifies this, ledger
      ensures var after := Run(setting, old(State(earlier)), Declare(service, ports));
              && ledger.allocations == after.table && occupied == after.occupied
              && after.failed == r.None?
              && (r.Some? ==> after.given == earlier + r.value)
    {
      var given: seq<Published> := [];
      ghost var before := State(earlier);
      ghost var ds := Declare(service, ports);
      for i := 0 to |ports|
        invariant Run(setting, before, ds[..i]) == State(earlier + given)
      {
        RunOneMore(setting, before, ds, i);
        var port := ports[i];
        var d := Declared(Owner(service, i, port.targetPort, port.mode), port.requested, port.protocol);
        assert d == ds[i];
        var chosen := ChoosePort(d);
        if chosen.None? {
          RunStops(setting, before, ds[..i + 1], ds);
          return None;
        }
        var published := Published(port.targetPort, chosen.value, port.protocol, port.mode);
        assert earlier + (given + [published]) == (earlier + given) + [published];
        given := given + [published];
        occupied := occupied + {KeyOf(d, chosen.value)};
      }
      assert ds[..|ports|] == ds;
      return Some(given);
    }

    /** The deployment loop, in the deployment order of its services. */
    method Deploy(services: seq<(string, seq<PortSpec>)>) returns (r: Option<seq<Published>>)
      modifies this, ledger
      ensures var after := Run(setting, old(State([])), DeclareAll(services));
              && ledger.allocations == after.table && occupied == after.occupied
              && after.failed == r.None?
              && (r.Some? ==> after.given == r.value)
    {
      var given: seq<Published> := [];
      ghost var before := State([]);
      for i := 0 to |services|
        invariant Run(setting, before, DeclareAll(services[..i])) == State(given)
      {
        NextService(setting, before, services, i);
        var ports := AllocatePorts(services[i].0, services[i].1, given);
        if ports.None? {
          DeclareAllJoin(services, i + 1);
          RunStops(setting, before, DeclareAll(services[..i + 1]), DeclareAll(services));
          return None;
        }
        given := given + ports.value;
      }
      assert services[..|services|] == services;
      return Some(given);
    }
  }

  lemma {:induction false} DeclareAllJoin(services: seq<(string, seq<PortSpec>)>, i: nat)
    requires i <= |services|
    ensures DeclareAll(services[..i]) <= DeclareAll(services)
    decreases |services|
  {
    if i == |services| {
      assert services[..i] == services;
    } else {
      var rest := services[..|services| - 1];
      assert rest[..i] == services[..i];
      DeclareAllJoin(rest, i);
    }
  }
}
