/** What port allocation promises: the same answer after any crash, one
    reservation per declared port, and no port given twice. */
module PortStability {
  import opened Options
  import opened Ports

  function Start(t: Table, occupied: set<Triple>): Progress {
    Progress(t, occupied, [], false)
  }

  /** An owner names one port of one service. */
  ghost predicate DistinctOwners(ds: seq<Declared>) {
    forall i, j :: 0 <= i < j < |ds| ==> ds[i].owner != ds[j].owner
  }

  lemma {:induction false} DeclaredService(services: seq<(string, seq<PortSpec>)>)
    ensures forall d <- DeclareAll(services) :: exists k :: 0 <= k < |services| && services[k].0 == d.owner.service
    decreases |services|
  {
    if services != [] {
      var last := |services| - 1;
      DeclaredService(services[..last]);
      forall d <- DeclareAll(services)
        ensures exists k :: 0 <= k < |services| && services[k].0 == d.owner.service
      {
        if d in DeclareAll(services[..last]) {
          var k :| 0 <= k < last && services[..last][k].0 == d.owner.service;
          assert services[k].0 == d.owner.service;
        } else {
          assert d in Declare(services[last].0, services[last].1);
          assert services[last].0 == d.owner.service;
        }
      }
    }
  }

  /** The `i`th port of service `k`, as the document has it. */
  predicate IsPortOf(services: seq<(string, seq<PortSpec>)>, k: nat, i: nat, d: Declared) {
    && k < |services| && i < |services[k].1|
    && d.owner.service == services[k].0 && d.owner.index == i
    && d.owner.targetPort == services[k].1[i].targetPort && d.owner.mode == services[k].1[i].mode
    && d.requested == services[k].1[i].requested && d.protocol == services[k].1[i].protocol
  }

  /** The declarations of a deployment are exactly the ports of its services. */
  lemma {:induction false} DeclaredPorts(services: seq<(string, seq<PortSpec>)>, d: Declared)
    ensures d in DeclareAll(services) <==> exists k, i :: IsPortOf(services, k, i, d)
    decreases |services|
  {
    if services != [] {
      var last := |services| - 1;
      var rest := services[..last];
      DeclaredPorts(rest, d);
      var own := Declare(services[last].0, services[last].1);
      if d in own {
        var i :| 0 <= i < |own| && own[i] == d;
        assert IsPortOf(services, last, i, d);
      }
      if exists k, i :: IsPortOf(rest, k, i, d) {
        var k: nat, i: nat :| IsPortOf(rest, k, i, d);
        assert IsPortOf(services, k, i, d);
      }
      if exists k, i :: IsPortOf(services, k, i, d) {
        var k: nat, i: nat :| IsPortOf(services, k, i, d);
        if k == last { assert own[i] == d; } else { assert IsPortOf(rest, k, i, d); }
      }
    }
  }

  /** Services with different names declare ports with different owners. */
  lemma {:induction false} ServicesHaveDistinctOwners(services: seq<(string, seq<PortSpec>)>)
    requires forall i, j :: 0 <= i < j < |services| ==> services[i].0 != services[j].0
    ensures DistinctOwners(DeclareAll(services))
    decreases |services|
  {
    if services != [] {
      var rest := services[..|services| - 1];
      ServicesHaveDistinctOwners(rest);
      DeclaredService(rest);
      var a := DeclareAll(rest);
      var ds := DeclareAll(services);
      forall i, j | 0 <= i < j < |ds| ensures ds[i].owner != ds[j].owner {
        if i < |a| <= j {
          assert a[i] in a;
          var k :| 0 <= k < |rest| && rest[k].0 == a[i].owner.service;
          assert services[k].0 != services[|services| - 1].0;
        }
      }
    }
  }

  // ------------------------------------------------------------ how the table grows

  /** The entries belong to ports declared in `ds`. */
  ghost predicate BelongTo(c: Setting, added: Table, ds: seq<Declared>) {
    forall e <- added :: exists i :: 0 <= i < |ds| && e.holder == HolderOf(c, ds[i])
  }

  lemma StepGrows(c: Setting, s: Progress, d: Declared)
    ensures s.table <= Step(c, s, d).table
    ensures forall e <- Step(c, s, d).table[|s.table|..] :: e.holder == HolderOf(c, d)
  {
  }

  /** Reservations are only ever appended, by the ports being allocated. */
  lemma {:induction false} RunGrows(c: Setting, s: Progress, ds: seq<Declared>)
    ensures s.table <= Run(c, s, ds).table
    ensures BelongTo(c, Run(c, s, ds).table[|s.table|..], ds)
    decreases |ds|
  {
    if ds != [] {
      var rest := ds[..|ds| - 1];
      var d := ds[|ds| - 1];
      var mid := Run(c, s, rest);
      RunGrows(c, s, rest);
      StepGrows(c, mid, d);
      var end := Step(c, mid, d);
      assert end.table[|s.table|..] == mid.table[|s.table|..] + end.table[|mid.table|..];
      forall e <- end.table[|s.table|..]
        ensures exists i :: 0 <= i < |ds| && e.holder == HolderOf(c, ds[i])
      {
        if e in mid.table[|s.table|..] {
          var i :| 0 <= i < |rest| && e.holder == HolderOf(c, rest[i]);
          assert ds[i] == rest[i];
        } else {
          assert e.holder == HolderOf(c, ds[|ds| - 1]);
        }
      }
    }
  }

  lemma RunSplits(c: Setting, s: Progress, ds: seq<Declared>, j: nat, k: nat)
    requires j <= k <= |ds|
    ensures Run(c, s, ds[..k]) == Run(c, Run(c, s, ds[..j]), ds[j..k])
  {
    assert ds[..k] == ds[..j] + ds[j..k];
    RunJoin(c, s, ds[..j], ds[j..k]);
  }

  /** Later ports add no entry of an earlier port. */
  lemma LaterEntries(c: Setting, s: Progress, ds: seq<Declared>, j: nat, k: nat)
    requires j < k <= |ds| && DistinctOwners(ds)
    ensures Run(c, s, ds[..j + 1]).table <= Run(c, s, ds[..k]).table
    ensures forall e <- Run(c, s, ds[..k]).table[|Run(c, s, ds[..j + 1]).table|..] :: e.holder != HolderOf(c, ds[j])
  {
    RunSplits(c, s, ds, j + 1, k);
    RunGrows(c, Run(c, s, ds[..j + 1]), ds[j + 1..k]);
    var added := Run(c, s, ds[..k]).table[|Run(c, s, ds[..j + 1]).table|..];
    forall e <- added ensures e.holder != HolderOf(c, ds[j]) {
      var i :| 0 <= i < |ds[j + 1..k]| && e.holder == HolderOf(c, ds[j + 1..k][i]);
      assert ds[j + 1..k][i] == ds[j + 1 + i];
    }
  }

  // ------------------------------------------------------------ stability

  lemma {:induction false} NoneMine(t: Table, target: string, protocol: string, h: Holder)
    requires forall e <- t :: e.holder != h
    ensures Mine(t, target, protocol, h) == []
    decreases |t|
  {
    if t != [] { NoneMine(t[1..], target, protocol, h); }
  }

  lemma FreeStays(c: Setting, t: Table, more: Table, occupied: set<Triple>, d: Declared, p: nat)
    requires !Free(c, t, occupied, d, p)
    ensures !Free(c, t + more, occupied, d, p)
  {
    LookupJoin(t, more, IdOf(c, d, p));
  }

  /** A declared port with no entry is given an identity nobody holds. */
  lemma NothingMine(c: Setting, t: Table, occupied: set<Triple>, d: Declared, port: nat)
    requires c.tracked && Choice(c, t, occupied, d) == Some(port) && Previous(c, t, d) == []
    ensures Booked(c, t, d, port) == t + [Entry(IdOf(c, d, port), HolderOf(c, d))]
  {
    MineIsIn(t, c.target, d.protocol, HolderOf(c, d));
    LookupFinds(t, IdOf(c, d, port));
  }

  lemma BookedIsMine(c: Setting, t: Table, occupied: set<Triple>, d: Declared, port: nat, more: Table)
    requires c.tracked && Choice(c, t, occupied, d) == Some(port)
    ensures Lookup(Booked(c, t, d, port) + more, IdOf(c, d, port)) == Some(HolderOf(c, d))
  {
    ReserveLookup(t, IdOf(c, d, port), HolderOf(c, d), IdOf(c, d, port));
    LookupJoin(Booked(c, t, d, port), more, IdOf(c, d, port));
  }

  /** With the choice already booked and only other owners' entries added, the
      same port is chosen again and nothing more is booked. */
  lemma ChosenAgain(c: Setting, t: Table, occupied: set<Triple>, d: Declared, port: nat, more: Table)
    requires c.tracked && Choice(c, t, occupied, d) == Some(port)
    requires forall e <- more :: e.holder != HolderOf(c, d)
    ensures var later := Booked(c, t, d, port) + more;
            Choice(c, later, occupied, d) == Some(port) && Booked(c, later, d, port) == later
  {
    var h := HolderOf(c, d);
    var booked := Booked(c, t, d, port);
    var later := booked + more;
    var added := booked[|t|..];
    BookedIsMine(c, t, occupied, d, port, more);
    assert later == t + (added + more);
    MineJoin(t, added + more, c.target, d.protocol, h);
    if Previous(c, t, d) == [] {
      NothingMine(c, t, occupied, d, port);
      assert added + more == [Entry(IdOf(c, d, port), h)] + more;
      assert Wanted(c, later, d) == Some(port);
    } else {
      assert Wanted(c, later, d) == Wanted(c, t, d);
      forall p | !Free(c, t, occupied, d, p) ensures !Free(c, later, occupied, d, p) {
        FreeStays(c, t, added + more, occupied, d, p);
      }
    }
    ChoiceIsUnique(c, later, occupied, d, Some(port), Choice(c, later, occupied, d));
  }

  /** The allocator's state after the first `j` ports. */
  function At(c: Setting, t: Table, occupied: set<Triple>, ds: seq<Declared>, j: nat): Progress
    requires j <= |ds|
  {
    Run(c, Start(t, occupied), ds[..j])
  }

  lemma AtNext(c: Setting, t: Table, occupied: set<Triple>, ds: seq<Declared>, j: nat)
    requires j < |ds|
    ensures At(c, t, occupied, ds, j + 1) == Step(c, At(c, t, occupied, ds, j), ds[j])
  {
    RunOneMore(c, Start(t, occupied), ds, j);
  }

  /** One port of the re-run: what the first attempt did is done again. */
  lemma StepAgain(c: Setting, t: Table, occupied: set<Triple>, ds: seq<Declared>, j: nat, k: nat)
    requires c.tracked && DistinctOwners(ds) && j < k <= |ds|
    ensures var first := At(c, t, occupied, ds, j);
            var table := At(c, t, occupied, ds, k).table;
            Step(c, first.(table := table), ds[j]) == Step(c, first, ds[j]).(table := table)
  {
    var s := Start(t, occupied);
    var first := At(c, t, occupied, ds, j);
    AtNext(c, t, occupied, ds, j);
    var next := At(c, t, occupied, ds, j + 1);
    if next.failed {
      RunSplits(c, s, ds, j + 1, k);
      FailedStays(c, next, ds[j + 1..k]);
    } else {
      var port := Choice(c, first.table, first.occupied, ds[j]).value;
      LaterEntries(c, s, ds, j, k);
      var more := At(c, t, occupied, ds, k).table[|next.table|..];
      ChosenAgain(c, first.table, first.occupied, ds[j], port, more);
      assert next.table + more == At(c, t, occupied, ds, k).table;
    }
  }

  /** Re-running from the reservations that a crash after `k` ports leaves goes
      through the very states of the uninterrupted run. */
  lemma {:induction false} RerunIsStable(c: Setting, t: Table, occupied: set<Triple>, ds: seq<Declared>, k: nat, j: nat)
    requires c.tracked && DistinctOwners(ds) && k <= |ds| && j <= |ds|
    ensures var crashed := At(c, t, occupied, ds, k).table;
            At(c, crashed, occupied, ds, j)
            == At(c, t, occupied, ds, j).(table := At(c, t, occupied, ds, if j < k then k else j).table)
    decreases j
  {
    var crashed := At(c, t, occupied, ds, k).table;
    if j > 0 {
      RerunIsStable(c, t, occupied, ds, k, j - 1);
      AtNext(c, crashed, occupied, ds, j - 1);
      AtNext(c, t, occupied, ds, j - 1);
      if j - 1 < k {
        StepAgain(c, t, occupied, ds, j - 1, k);
      }
    }
  }

  /** The reservations left by a sequence of attempts, each cut short by a crash. */
  function Crashed(c: Setting, t: Table, occupied: set<Triple>, ds: seq<Declared>, crashes: seq<nat>): Table
    requires forall i :: 0 <= i < |crashes| ==> crashes[i] <= |ds|
    decreases |crashes|
  {
    if crashes == [] then t
    else At(c, Crashed(c, t, occupied, ds, crashes[..|crashes| - 1]), occupied, ds, crashes[|crashes| - 1]).table
  }

  lemma {:induction false} CrashesLeaveAPrefix(c: Setting, t: Table, occupied: set<Triple>, ds: seq<Declared>, crashes: seq<nat>)
    returns (k: nat)
    requires c.tracked && DistinctOwners(ds) && forall i :: 0 <= i < |crashes| ==> crashes[i] <= |ds|
    ensures k <= |ds| && Crashed(c, t, occupied, ds, crashes) == At(c, t, occupied, ds, k).table
    decreases |crashes|
  {
    if crashes == [] {
      k := 0;
    } else {
      var last := crashes[|crashes| - 1];
      k := CrashesLeaveAPrefix(c, t, occupied, ds, crashes[..|crashes| - 1]);
      RerunIsStable(c, t, occupied, ds, k, last);
      k := if last < k then k else last;
    }
  }

  /** After any number of crashes, each at any point, a full run gives the result
      and leaves the table of the run that was never interrupted. */
  lemma CrashesDoNotMatter(c: Setting, t: Table, occupied: set<Triple>, ds: seq<Declared>, crashes: seq<nat>)
    requires c.tracked && DistinctOwners(ds) && forall i :: 0 <= i < |crashes| ==> crashes[i] <= |ds|
    ensures At(c, Crashed(c, t, occupied, ds, crashes), occupied, ds, |ds|) == At(c, t, occupied, ds, |ds|)
  {
    var k := CrashesLeaveAPrefix(c, t, occupied, ds, crashes);
    RerunIsStable(c, t, occupied, ds, k, |ds|);
  }

  // ------------------------------------------------------------ what is allocated

  function TripleOf(p: Published): Triple {
    Triple(p.port, p.protocol, p.mode)
  }

  /** `given` answers the declarations one by one, and `occupied` has grown by them. */
  ghost predicate Answers(initial: set<Triple>, s: Progress, ds: seq<Declared>) {
    && |s.given| == |ds|
    && (forall i :: 0 <= i < |ds| ==>
          && s.given[i].targetPort == ds[i].owner.targetPort
          && s.given[i].protocol == ds[i].protocol
          && s.given[i].mode == ds[i].owner.mode)
    && (forall i :: 0 <= i < |ds| ==> TripleOf(s.given[i]) !in initial)
    && (forall i, j :: 0 <= i < j < |ds| ==> TripleOf(s.given[i]) != TripleOf(s.given[j]))
    && s.occupied == initial + set p <- s.given :: TripleOf(p)
  }

  lemma GivenOneMore(given: seq<Published>, p: Published)
    ensures (set q <- given + [p] :: TripleOf(q)) == (set q <- given :: TripleOf(q)) + {TripleOf(p)}
  {
    assert forall q :: q in given + [p] <==> q in given || q == p;
  }

  lemma AnswerOneMore(c: Setting, initial: set<Triple>, s: Progress, ds: seq<Declared>, d: Declared, port: nat)
    requires Answers(initial, s, ds) && KeyOf(d, port) !in s.occupied
    ensures Answers(initial, Take(c, s, d, port), ds + [d])
  {
    var p := Published(d.owner.targetPort, port, d.protocol, d.owner.mode);
    GivenOneMore(s.given, p);
    assert TripleOf(p) == KeyOf(d, port);
    forall i | 0 <= i < |ds| ensures TripleOf(s.given[i]) != TripleOf(p) {
      assert s.given[i] in s.given;
    }
  }

  lemma StepTakes(c: Setting, s: Progress, d: Declared) returns (port: nat)
    requires !Step(c, s, d).failed
    ensures Step(c, s, d) == Take(c, s, d, port) && KeyOf(d, port) !in s.occupied
  {
    port := Choice(c, s.table, s.occupied, d).value;
  }

  /** Allocated triples are pairwise distinct and keep off the occupied ones; the
      target port, protocol and mode are those declared. */
  lemma {:induction false} AllocationIsDisjoint(c: Setting, t: Table, occupied: set<Triple>, ds: seq<Declared>)
    requires !Run(c, Start(t, occupied), ds).failed
    ensures Answers(occupied, Run(c, Start(t, occupied), ds), ds)
    decreases |ds|
  {
    if ds == [] {
      assert (set p: Published <- [] :: TripleOf(p)) == {};
    } else {
      var rest := ds[..|ds| - 1];
      var d := ds[|ds| - 1];
      AllocationIsDisjoint(c, t, occupied, rest);
      var port := StepTakes(c, Run(c, Start(t, occupied), rest), d);
      assert ds == rest + [d];
      AnswerOneMore(c, occupied, Run(c, Start(t, occupied), rest), rest, d, port);
    }
  }

  /** Every allocated port is held by its own declaration. */
  ghost predicate HoldsAll(c: Setting, s: Progress, ds: seq<Declared>) {
    |s.given| == |ds| && forall i :: 0 <= i < |ds| ==>
      && s.given[i].protocol == ds[i].protocol
      && Lookup(s.table, IdOf(c, ds[i], s.given[i].port)) == Some(HolderOf(c, ds[i]))
  }

  lemma {:induction false} AllocationIsHeld(c: Setting, t: Table, occupied: set<Triple>, ds: seq<Declared>)
    requires c.tracked && !Run(c, Start(t, occupied), ds).failed
    ensures HoldsAll(c, Run(c, Start(t, occupied), ds), ds)
    decreases |ds|
  {
    if ds != [] {
      var rest := ds[..|ds| - 1];
      var d := ds[|ds| - 1];
      var mid := Run(c, Start(t, occupied), rest);
      AllocationIsHeld(c, t, occupied, rest);
      var port := Choice(c, mid.table, mid.occupied, d).value;
      BookedIsMine(c, mid.table, mid.occupied, d, port, []);
      assert Booked(c, mid.table, d, port) + [] == Booked(c, mid.table, d, port);
      forall i | 0 <= i < |rest|
        ensures Lookup(Booked(c, mid.table, d, port), IdOf(c, rest[i], mid.given[i].port)) == Some(HolderOf(c, rest[i]))
      {
        ReserveLookup(mid.table, IdOf(c, d, port), HolderOf(c, d), IdOf(c, rest[i], mid.given[i].port));
      }
    }
  }

  /** With a tracker no two ports of a deployment share number and protocol, whatever
      their modes. */
  lemma TrackedPortsAreDistinct(c: Setting, t: Table, occupied: set<Triple>, ds: seq<Declared>, i: nat, j: nat)
    requires c.tracked && DistinctOwners(ds) && !Run(c, Start(t, occupied), ds).failed && i < j < |ds|
    ensures var given := Run(c, Start(t, occupied), ds).given;
            |given| == |ds| && (given[i].port, given[i].protocol) != (given[j].port, given[j].protocol)
  {
    AllocationIsHeld(c, t, occupied, ds);
  }

  // ------------------------------------------------------------ one reservation each

  /** The number of entries a declared port has. */
  function Count(c: Setting, t: Table, d: Declared): nat {
    |Mine(t, c.target, d.protocol, HolderOf(c, d))|
  }

  /** The declaration has no entry, or one it can still use. */
  predicate Clean(c: Setting, t: Table, occupied: set<Triple>, d: Declared) {
    var mine := Mine(t, c.target, d.protocol, HolderOf(c, d));
    mine == [] || (|mine| == 1 && KeyOf(d, mine[0].id.port) !in occupied)
  }

  lemma MineOfOthers(c: Setting, s: Progress, ds: seq<Declared>, d: Declared)
    requires forall i :: 0 <= i < |ds| ==> ds[i].owner != d.owner
    ensures Mine(Run(c, s, ds).table, c.target, d.protocol, HolderOf(c, d))
         == Mine(s.table, c.target, d.protocol, HolderOf(c, d))
  {
    RunGrows(c, s, ds);
    var end := Run(c, s, ds).table;
    var added := end[|s.table|..];
    assert end == s.table + added;
    MineJoin(s.table, added, c.target, d.protocol, HolderOf(c, d));
    NoneMine(added, c.target, d.protocol, HolderOf(c, d));
  }

  /** Choosing leaves one entry exactly when it started clean. */
  lemma ChoosingCounts(c: Setting, t: Table, occupied: set<Triple>, d: Declared, port: nat)
    requires c.tracked && Unique(t) && Choice(c, t, occupied, d) == Some(port)
    ensures Count(c, Booked(c, t, d, port), d) == 1 <==> Clean(c, t, occupied, d)
  {
    var h := HolderOf(c, d);
    var id := IdOf(c, d, port);
    MineIsIn(t, c.target, d.protocol, h);
    LookupFinds(t, id);
    MineJoin(t, [Entry(id, h)], c.target, d.protocol, h);
    var mine := Mine(t, c.target, d.protocol, h);
    if mine != [] {
      assert mine[0] in mine;
      LookupIs(t, mine[0]);
      assert mine[0].id == IdOf(c, d, mine[0].id.port);
      if |mine| == 1 && Lookup(t, id) == Some(h) {
        assert Entry(id, h) in mine;
      }
    }
  }

  /** An entry of the port itself is occupied during the run only if it was at the start. */
  lemma OwnEntryStaysFree(c: Setting, t: Table, occupied: set<Triple>, ds: seq<Declared>, j: nat)
    requires c.tracked && Unique(t) && DistinctOwners(ds) && j < |ds|
    requires !At(c, t, occupied, ds, j).failed
    ensures var s := At(c, t, occupied, ds, j);
            Clean(c, s.table, s.occupied, ds[j]) <==> Clean(c, t, occupied, ds[j])
  {
    var s := At(c, t, occupied, ds, j);
    var d := ds[j];
    MineOfOthers(c, Start(t, occupied), ds[..j], d);
    AllocationIsDisjoint(c, t, occupied, ds[..j]);
    AllocationIsHeld(c, t, occupied, ds[..j]);
    RunKeepsUnique(c, Start(t, occupied), ds[..j]);
    var mine := Mine(s.table, c.target, d.protocol, HolderOf(c, d));
    MineIsIn(s.table, c.target, d.protocol, HolderOf(c, d));
    if |mine| == 1 {
      assert mine[0] in mine;
      LookupIs(s.table, mine[0]);
      assert forall i :: 0 <= i < j ==> IdOf(c, ds[..j][i], s.given[i].port) != mine[0].id;
    }
  }

  lemma MidDidNotFail(c: Setting, t: Table, occupied: set<Triple>, ds: seq<Declared>, j: nat)
    requires j <= |ds| && !Run(c, Start(t, occupied), ds).failed
    ensures !At(c, t, occupied, ds, j).failed
  {
    if At(c, t, occupied, ds, j).failed { RunStops(c, Start(t, occupied), ds[..j], ds); }
  }

  /** A completed run leaves a declared port with exactly one reservation if and only
      if it began with none, or with one on a port that was not occupied. */
  lemma OneReservationEach(c: Setting, t: Table, occupied: set<Triple>, ds: seq<Declared>, j: nat)
    requires c.tracked && Unique(t) && DistinctOwners(ds) && j < |ds|
    requires !Run(c, Start(t, occupied), ds).failed
    ensures Count(c, Run(c, Start(t, occupied), ds).table, ds[j]) == 1 <==> Clean(c, t, occupied, ds[j])
  {
    var start := Start(t, occupied);
    MidDidNotFail(c, t, occupied, ds, j);
    MidDidNotFail(c, t, occupied, ds, j + 1);
    var s := At(c, t, occupied, ds, j);
    AtNext(c, t, occupied, ds, j);
    RunKeepsUnique(c, start, ds[..j]);
    ChoosingCounts(c, s.table, s.occupied, ds[j], Choice(c, s.table, s.occupied, ds[j]).value);
    OwnEntryStaysFree(c, t, occupied, ds, j);
    LaterPortsDoNotCount(c, t, occupied, ds, j);
  }

  /** The other case occurs: one earlier reservation on a port that has since been
      occupied, and a free range, leave the declaration with two. */
  lemma OccupiedReservationLeavesTwo(c: Setting, d: Declared, port: nat)
    requires c.tracked && c.first <= c.last && port != c.first
    ensures var t := [Entry(IdOf(c, d, port), HolderOf(c, d))];
            var end := Run(c, Start(t, {KeyOf(d, port)}), [d]);
            !end.failed && end.given[0].port == c.first && Count(c, end.table, d) == 2
  {
    var h := HolderOf(c, d);
    var t := [Entry(IdOf(c, d, port), h)];
    var occupied := {KeyOf(d, port)};
    var s := Start(t, occupied);
    assert Mine(t, c.target, d.protocol, h) == [t[0]] + Mine(t[1..], c.target, d.protocol, h);
    assert t[1..] == [];
    assert Wanted(c, t, d) == Some(port) && !TakesWanted(c, t, occupied, d);
    assert Lookup(t, IdOf(c, d, c.first)) == Lookup(t[1..], IdOf(c, d, c.first)) == None;
    ChoiceIsUnique(c, t, occupied, d, Some(c.first), Choice(c, t, occupied, d));
    assert Run(c, s, [d]) == Step(c, Run(c, s, []), d) by { assert [d][..0] == []; }
    assert Booked(c, t, d, c.first) == t + [Entry(IdOf(c, d, c.first), h)];
    MineJoin(t, [Entry(IdOf(c, d, c.first), h)], c.target, d.protocol, h);
  }

  lemma LaterPortsDoNotCount(c: Setting, t: Table, occupied: set<Triple>, ds: seq<Declared>, j: nat)
    requires DistinctOwners(ds) && j < |ds|
    ensures Count(c, Run(c, Start(t, occupied), ds).table, ds[j]) == Count(c, At(c, t, occupied, ds, j + 1).table, ds[j])
  {
    assert ds == ds[..j + 1] + ds[j + 1..];
    RunJoin(c, Start(t, occupied), ds[..j + 1], ds[j + 1..]);
    MineOfOthers(c, At(c, t, occupied, ds, j + 1), ds[j + 1..], ds[j]);
  }

  // ------------------------------------------------------------ failure

  /** The whole range is occupied or reserved by other owners. */
  ghost predicate Exhausted(c: Setting, s: Progress, d: Declared) {
    forall p :: c.first <= p <= c.last ==>
      || KeyOf(d, p) in s.occupied
      || (c.tracked && exists e <- s.table :: e.id == IdOf(c, d, p) && e.holder != HolderOf(c, d))
  }

  lemma ExhaustedIffNoneFree(c: Setting, s: Progress, d: Declared)
    requires Unique(s.table)
    ensures Exhausted(c, s, d) <==> NoneFree(c, s.table, s.occupied, d)
  {
    forall p ensures !Free(c, s.table, s.occupied, d, p) <==>
        KeyOf(d, p) in s.occupied
        || (c.tracked && exists e <- s.table :: e.id == IdOf(c, d, p) && e.holder != HolderOf(c, d))
    {
      LookupFinds(s.table, IdOf(c, d, p));
      forall e <- s.table | e.id == IdOf(c, d, p) ensures Lookup(s.table, e.id) == Some(e.holder) {
        LookupIs(s.table, e);
      }
    }
  }

  lemma {:induction false} RunKeepsUnique(c: Setting, s: Progress, ds: seq<Declared>)
    requires Unique(s.table)
    ensures Unique(Run(c, s, ds).table)
    decreases |ds|
  {
    if ds != [] {
      var mid := Run(c, s, ds[..|ds| - 1]);
      RunKeepsUnique(c, s, ds[..|ds| - 1]);
      if !mid.failed && Choice(c, mid.table, mid.occupied, ds[|ds| - 1]).Some? {
        LookupFinds(mid.table, IdOf(c, ds[|ds| - 1], Choice(c, mid.table, mid.occupied, ds[|ds| - 1]).value));
      }
    }
  }

  /** Allocation fails exactly when, at some port, the remembered or requested number
      is not free and the whole range is taken. */
  lemma {:induction false} FailsIffExhausted(c: Setting, t: Table, occupied: set<Triple>, ds: seq<Declared>)
    requires Unique(t)
    ensures Run(c, Start(t, occupied), ds).failed <==> exists j :: StuckAt(c, t, occupied, ds, j)
    decreases |ds|
  {
    if ds != [] {
      var last := |ds| - 1;
      var rest := ds[..last];
      FailsIffExhausted(c, t, occupied, rest);
      forall j: nat ensures StuckAt(c, t, occupied, rest, j) <==> j < last && StuckAt(c, t, occupied, ds, j) {
        if j < last { assert rest[..j] == ds[..j]; }
      }
      LastStep(c, t, occupied, ds);
      if exists j :: StuckAt(c, t, occupied, ds, j) {
        var j: nat :| StuckAt(c, t, occupied, ds, j);
        if j < last { assert StuckAt(c, t, occupied, rest, j); }
      }
    }
  }

  /** At port `j` nothing can be given. */
  ghost predicate StuckAt(c: Setting, t: Table, occupied: set<Triple>, ds: seq<Declared>, j: nat) {
    && j < |ds|
    && var s := At(c, t, occupied, ds, j);
       !TakesWanted(c, s.table, s.occupied, ds[j]) && Exhausted(c, s, ds[j])
  }

  lemma LastStep(c: Setting, t: Table, occupied: set<Triple>, ds: seq<Declared>)
    requires Unique(t) && ds != []
    ensures var s := Start(t, occupied);
            Run(c, s, ds).failed <==> Run(c, s, ds[..|ds| - 1]).failed || StuckAt(c, t, occupied, ds, |ds| - 1)
  {
    var last := |ds| - 1;
    RunKeepsUnique(c, Start(t, occupied), ds[..last]);
    ExhaustedIffNoneFree(c, At(c, t, occupied, ds, last), ds[last]);
    if Run(c, Start(t, occupied), ds[..last]).failed { RunStops(c, Start(t, occupied), ds[..last], ds); }
  }

  // ------------------------------------------------- which number a port is given

  /** The entry is the declaration's own, on the deployment's target. */
  predicate IsOwn(c: Setting, e: Entry, d: Declared) {
    e.id.target == c.target && e.id.protocol == d.protocol && e.holder.build == c.build && e.holder.owner == d.owner
  }

  /** The oldest own entry is the `k`th of the table. */
  predicate IsOldest(c: Setting, t: Table, d: Declared, k: nat) {
    k < |t| && IsOwn(c, t[k], d) && forall i :: 0 <= i < k ==> !IsOwn(c, t[i], d)
  }

  predicate HasNone(c: Setting, t: Table, d: Declared) {
    forall i :: 0 <= i < |t| ==> !IsOwn(c, t[i], d)
  }

  /** Nothing outside uses the number in this mode, and nobody else has reserved it. */
  predicate IsOpen(c: Setting, t: Table, occupied: set<Triple>, d: Declared, port: nat) {
    && Triple(port, d.protocol, d.owner.mode) !in occupied
    && (c.tracked ==> forall e <- t ::
          e.id == Id(c.target, d.protocol, port) ==> e.holder.build == c.build && e.holder.owner == d.owner)
  }

  /** The least open number of the range. */
  predicate IsLeastOpen(c: Setting, t: Table, occupied: set<Triple>, d: Declared, port: nat) {
    && c.first <= port <= c.last && IsOpen(c, t, occupied, d, port)
    && forall p :: c.first <= p < port ==> !IsOpen(c, t, occupied, d, p)
  }

  lemma OpenIsFree(c: Setting, t: Table, occupied: set<Triple>, d: Declared, port: nat)
    requires Unique(t)
    ensures IsOpen(c, t, occupied, d, port) <==> Free(c, t, occupied, d, port)
  {
    var id := IdOf(c, d, port);
    LookupFinds(t, id);
    forall e <- t | e.id == id ensures Lookup(t, id) == Some(e.holder) {
      LookupIs(t, e);
    }
  }

  lemma {:induction false} OldestIsFirst(c: Setting, t: Table, d: Declared, k: nat)
    requires IsOldest(c, t, d, k)
    ensures var mine := Mine(t, c.target, d.protocol, HolderOf(c, d));
            mine != [] && mine[0] == t[k]
    decreases |t|
  {
    if k > 0 {
      assert !IsOwn(c, t[0], d);
      OldestIsFirst(c, t[1..], d, k - 1);
    }
  }

  lemma {:induction false} NoneIsEmpty(c: Setting, t: Table, d: Declared)
    requires HasNone(c, t, d)
    ensures Mine(t, c.target, d.protocol, HolderOf(c, d)) == []
    decreases |t|
  {
    if t != [] {
      assert !IsOwn(c, t[0], d);
      NoneIsEmpty(c, t[1..], d);
    }
  }

  lemma LeastOpenIsChosen(c: Setting, t: Table, occupied: set<Triple>, d: Declared, port: nat)
    requires Unique(t) && !TakesWanted(c, t, occupied, d) && Choice(c, t, occupied, d) == Some(port)
    ensures IsLeastOpen(c, t, occupied, d, port)
  {
    OpenIsFree(c, t, occupied, d, port);
    forall p | c.first <= p < port ensures !IsOpen(c, t, occupied, d, p) {
      OpenIsFree(c, t, occupied, d, p);
    }
  }

  /** What the `j`th declaration was given, when its turn came. */
  lemma GivenIsChosen(c: Setting, t: Table, occupied: set<Triple>, ds: seq<Declared>, j: nat)
    requires j < |ds| && !Run(c, Start(t, occupied), ds).failed
    ensures var s := At(c, t, occupied, ds, j);
            var given := Run(c, Start(t, occupied), ds).given;
            |given| == |ds| && Choice(c, s.table, s.occupied, ds[j]) == Some(given[j].port)
    decreases |ds| - j
  {
    AllocationIsDisjoint(c, t, occupied, ds);
    MidDidNotFail(c, t, occupied, ds, j);
    MidDidNotFail(c, t, occupied, ds, j + 1);
    AtNext(c, t, occupied, ds, j);
    AllocationIsDisjoint(c, t, occupied, ds[..j]);
    RunSplits(c, Start(t, occupied), ds, j + 1, |ds|);
    assert ds[..|ds|] == ds;
    GivenGrows(c, At(c, t, occupied, ds, j + 1), ds[j + 1..]);
  }

  lemma {:induction false} GivenGrows(c: Setting, s: Progress, ds: seq<Declared>)
    ensures s.given <= Run(c, s, ds).given
    decreases |ds|
  {
    if ds != [] { GivenGrows(c, s, ds[..|ds| - 1]); }
  }

  /** The port the `j`th declaration of a completed deployment is given, told from the table
      at the start, what is occupied at its turn, and what the document requests. */
  lemma GivenPort(c: Setting, t: Table, occupied: set<Triple>, ds: seq<Declared>, j: nat)
    requires c.tracked && Unique(t) && DistinctOwners(ds) && j < |ds| && !Run(c, Start(t, occupied), ds).failed
    ensures |Run(c, Start(t, occupied), ds).given| == |ds|
    ensures var d, s := ds[j], At(c, t, occupied, ds, j);
            var port := Run(c, Start(t, occupied), ds).given[j].port;
            // an earlier reservation of its own, the oldest, as long as nothing occupies it
            && (forall k: nat :: IsOldest(c, t, d, k) ==>
                  if Triple(t[k].id.port, d.protocol, d.owner.mode) !in s.occupied then port == t[k].id.port
                  else IsLeastOpen(c, s.table, s.occupied, d, port))
            // otherwise the requested number, as long as it is open, else the least open one
            && (HasNone(c, t, d) ==>
                  if d.requested.Some? && IsOpen(c, s.table, s.occupied, d, d.requested.value) then port == d.requested.value
                  else IsLeastOpen(c, s.table, s.occupied, d, port))
  {
    var d, s := ds[j], At(c, t, occupied, ds, j);
    GivenIsChosen(c, t, occupied, ds, j);
    MineOfOthers(c, Start(t, occupied), ds[..j], d);
    RunKeepsUnique(c, Start(t, occupied), ds[..j]);
    RunGrows(c, Start(t, occupied), ds[..j]);
    var port := Run(c, Start(t, occupied), ds).given[j].port;
    if !TakesWanted(c, s.table, s.occupied, d) { LeastOpenIsChosen(c, s.table, s.occupied, d, port); }
    forall k: nat | IsOldest(c, t, d, k)
      ensures if Triple(t[k].id.port, d.protocol, d.owner.mode) !in s.occupied then port == t[k].id.port
              else IsLeastOpen(c, s.table, s.occupied, d, port)
    {
      OldestIsFirst(c, t, d, k);
      OwnEntryIsGranted(c, s.table, d, t[k]);
    }
    if HasNone(c, t, d) {
      NoneIsEmpty(c, t, d);
      if d.requested.Some? { OpenIsFree(c, s.table, s.occupied, d, d.requested.value); }
    }
  }

  lemma OwnEntryIsGranted(c: Setting, t: Table, d: Declared, e: Entry)
    requires Unique(t) && e in t && IsOwn(c, e, d)
    ensures Granted(t, IdOf(c, d, e.id.port), HolderOf(c, d))
  {
    LookupIs(t, e);
  }

  /** Without a tracker there is nothing to remember: the requested number when nothing
      occupies it, else the least unoccupied one. */
  lemma GivenUntracked(c: Setting, t: Table, occupied: set<Triple>, ds: seq<Declared>, j: nat)
    requires !c.tracked && j < |ds| && !Run(c, Start(t, occupied), ds).failed
    ensures |Run(c, Start(t, occupied), ds).given| == |ds|
    ensures var d, s := ds[j], At(c, t, occupied, ds, j);
            var port := Run(c, Start(t, occupied), ds).given[j].port;
            if d.requested.Some? && Triple(d.requested.value, d.protocol, d.owner.mode) !in s.occupied
            then port == d.requested.value
            else IsLeastOpen(c, [], s.occupied, d, port)
    ensures Run(c, Start(t, occupied), ds).table == t
  {
    GivenIsChosen(c, t, occupied, ds, j);
    UntrackedKeepsTable(c, Start(t, occupied), ds);
    var d, s := ds[j], At(c, t, occupied, ds, j);
    forall p: nat ensures IsOpen(c, [], s.occupied, d, p) <==> Free(c, s.table, s.occupied, d, p) {}
  }

  lemma {:induction false} UntrackedKeepsTable(c: Setting, s: Progress, ds: seq<Declared>)
    requires !c.tracked
    ensures Run(c, s, ds).table == s.table
    decreases |ds|
  {
    if ds != [] { UntrackedKeepsTable(c, s, ds[..|ds| - 1]); }
  }

  /** A tracked port that is given is reserved for its declaration, and for nobody before. */
  lemma GivenIsReserved(c: Setting, t: Table, occupied: set<Triple>, ds: seq<Declared>, j: nat)
    requires c.tracked && Unique(t) && j < |ds| && !Run(c, Start(t, occupied), ds).failed
    ensures var end := Run(c, Start(t, occupied), ds);
            |end.given| == |ds|
            && Entry(Id(c.target, ds[j].protocol, end.given[j].port), Holder(c.build, ds[j].owner)) in end.table
  {
    AllocationIsHeld(c, t, occupied, ds);
    var end := Run(c, Start(t, occupied), ds);
    LookupFinds(end.table, IdOf(c, ds[j], end.given[j].port));
  }
}
