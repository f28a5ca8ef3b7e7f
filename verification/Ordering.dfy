/** `DockerSwarmAdapter._deployment_order`: services in rounds, a round being
    every service whose remaining dependencies are all placed, sorted by name. */
module Ordering {
  import opened Options
  import opened Names
  import opened Graphs

  /** `depends_on` as a Compose document gives it; `Malformed` is anything else. */
  datatype DependsOn = Absent | Listed(names: seq<Name>) | Mapped(names: seq<Name>) | Malformed

  datatype OrderError = InvalidDependencies | ContainsCycle

  predicate WellFormed(d: DependsOn) {
    !d.Malformed? && (d.Listed? || d.Mapped? ==> forall n <- d.names :: n != "")
  }

  function Needs(d: DependsOn): set<Name> {
    if d.Listed? || d.Mapped? then Elements(d.names) else {}
  }

  function Dependencies(services: map<Name, DependsOn>): Result<Graph, OrderError> {
    if exists n <- services :: !WellFormed(services[n]) then Err(InvalidDependencies)
    else Ok(map n <- services :: Needs(services[n]))
  }

  /** A chain of `k` dependencies starts at `n`. A dependency that is not a
      service is never placed, so chains through it have no end. */
  ghost predicate Chain(g: Graph, n: Name, k: nat)
    decreases k
  {
    k == 0 || n !in g || exists d <- g[n] :: Chain(g, d, k - 1)
  }

  lemma {:induction false} ChainShortens(g: Graph, n: Name, j: nat, k: nat)
    requires Chain(g, n, k) && j <= k
    ensures Chain(g, n, j)
    decreases k
  {
    if j > 0 && n in g {
      var d :| d in g[n] && Chain(g, d, k - 1);
      ChainShortens(g, d, j - 1, k - 1);
    }
  }

  /** The length of the longest dependency chain from `n`, up to `limit`. */
  ghost function DepthUpTo(g: Graph, n: Name, limit: nat): nat
    decreases limit
  {
    if limit == 0 || Chain(g, n, limit) then limit else DepthUpTo(g, n, limit - 1)
  }

  /** The length of the longest dependency chain from `n`; no chain without a
      repeated service is longer than the number of services. */
  ghost function Depth(g: Graph, n: Name): nat {
    DepthUpTo(g, n, |g|)
  }

  lemma {:induction false} DepthIs(g: Graph, n: Name, k: nat, limit: nat)
    requires Chain(g, n, k) && !Chain(g, n, k + 1) && k <= limit
    ensures DepthUpTo(g, n, limit) == k
    decreases limit
  {
    if limit > k {
      if Chain(g, n, limit) { ChainShortens(g, n, k + 1, limit); }
      DepthIs(g, n, k, limit - 1);
    }
  }

  ghost predicate Before(g: Graph, a: Name, b: Name) {
    Depth(g, a) < Depth(g, b) || (Depth(g, a) == Depth(g, b) && Less(a, b))
  }

  ghost predicate InDepthOrder(g: Graph, order: seq<Name>) {
    forall i, j :: 0 <= i < j < |order| ==> Before(g, order[i], order[j])
  }

  // ------------------------------------------------------------ the algorithm

  /** What is known of the services placed after `round` rounds. */
  ghost predicate Placed(g: Graph, ordered: seq<Name>, round: nat) {
    && Distinct(ordered) && InDepthOrder(g, ordered) && Elements(ordered) <= g.Keys
    && (forall n <- Elements(ordered) :: Depth(g, n) < round && !Chain(g, n, round))
    && (forall n <- g :: n !in Elements(ordered) ==> Chain(g, n, round))
    && (forall i :: 0 <= i < |ordered| ==> g[ordered[i]] <= Elements(ordered[..i]))
    && round <= |ordered|
  }

  /** A service is ready in a round exactly when its longest chain has that length. */
  lemma ReadyIsDepth(g: Graph, ordered: seq<Name>, round: nat, n: Name)
    requires Placed(g, ordered, round) && n in g && n !in Elements(ordered)
    ensures g[n] <= Elements(ordered) <==> !Chain(g, n, round + 1)
  {
    if g[n] <= Elements(ordered) {
      forall d <- g[n] ensures !Chain(g, d, round) {
        assert d in Elements(ordered);
      }
    } else {
      var d :| d in g[n] && d !in Elements(ordered);
      assert Chain(g, d, round);
    }
  }

  lemma {:induction false} DistinctSize(s: seq<Name>)
    requires Distinct(s)
    ensures |Elements(s)| == |s|
    decreases |s|
  {
    if s != [] {
      var rest := s[..|s| - 1];
      var last := s[|s| - 1];
      assert s == rest + [last];
      ElementsJoin(rest, [last]);
      DistinctSize(rest);
      assert last !in Elements(rest);
      assert Elements([last]) == {last};
    }
  }

  /** The services a round places, sorted. */
  ghost predicate IsRound(g: Graph, ordered: seq<Name>, ready: seq<Name>) {
    && ready != [] && Increasing(ready)
    && (forall n <- Elements(ready) :: n in g && n !in Elements(ordered) && g[n] <= Elements(ordered))
    && (forall n <- g :: n !in Elements(ordered) && n !in Elements(ready) ==> !(g[n] <= Elements(ordered)))
  }

  lemma ReadyDepth(g: Graph, ordered: seq<Name>, round: nat, ready: seq<Name>, n: Name)
    requires Placed(g, ordered, round) && IsRound(g, ordered, ready) && n in Elements(ready)
    ensures Depth(g, n) == round && !Chain(g, n, round + 1)
  {
    assert n in g && n !in Elements(ordered);
    ReadyIsDepth(g, ordered, round, n);
    DistinctSize(ordered);
    assert Elements(ordered) < g.Keys;
    SubsetSize(Elements(ordered), g.Keys);
    DepthIs(g, n, round, |g|);
  }

  lemma RoundInOrder(g: Graph, ordered: seq<Name>, round: nat, ready: seq<Name>, i: nat, j: nat)
    requires Placed(g, ordered, round) && IsRound(g, ordered, ready) && i < j < |ordered + ready|
    ensures Before(g, (ordered + ready)[i], (ordered + ready)[j]) && (ordered + ready)[i] != (ordered + ready)[j]
  {
    if j >= |ordered| {
      var b := ready[j - |ordered|];
      assert b in Elements(ready);
      ReadyDepth(g, ordered, round, ready, b);
      if i < |ordered| {
        assert ordered[i] in Elements(ordered);
      } else {
        var a := ready[i - |ordered|];
        assert a in Elements(ready) && Less(a, b);
        ReadyDepth(g, ordered, round, ready, a);
        LessIrreflexive(a);
      }
    }
  }

  lemma PrefixElements(a: seq<Name>, b: seq<Name>, i: nat)
    requires |a| <= i <= |a| + |b|
    ensures Elements(a) <= Elements((a + b)[..i])
  {
    assert (a + b)[..i] == a + b[..i - |a|];
    ElementsJoin(a, b[..i - |a|]);
  }

  lemma RoundAfterDependencies(g: Graph, ordered: seq<Name>, round: nat, ready: seq<Name>, i: nat)
    requires Placed(g, ordered, round) && IsRound(g, ordered, ready) && i < |ordered + ready|
    ensures (ordered + ready)[i] in g && g[(ordered + ready)[i]] <= Elements((ordered + ready)[..i])
  {
    if i < |ordered| {
      assert (ordered + ready)[..i] == ordered[..i];
      assert (ordered + ready)[i] == ordered[i] && ordered[i] in Elements(ordered);
    } else {
      assert ready[i - |ordered|] in Elements(ready);
      PrefixElements(ordered, ready, i);
    }
  }

  lemma NoLongerChain(g: Graph, n: Name, k: nat)
    requires !Chain(g, n, k)
    ensures !Chain(g, n, k + 1)
  {
    if Chain(g, n, k + 1) { ChainShortens(g, n, k, k + 1); }
  }

  lemma RoundChains(g: Graph, ordered: seq<Name>, round: nat, ready: seq<Name>)
    requires Placed(g, ordered, round) && IsRound(g, ordered, ready)
    ensures forall n <- Elements(ordered) + Elements(ready) :: Depth(g, n) < round + 1 && !Chain(g, n, round + 1)
    ensures forall n <- g :: n !in Elements(ordered) + Elements(ready) ==> Chain(g, n, round + 1)
  {
    forall n <- Elements(ordered) + Elements(ready) ensures Depth(g, n) < round + 1 && !Chain(g, n, round + 1) {
      if n in Elements(ready) {
        ReadyDepth(g, ordered, round, ready, n);
      } else {
        NoLongerChain(g, n, round);
      }
    }
    forall n <- g | n !in Elements(ordered) + Elements(ready) ensures Chain(g, n, round + 1) {
      ReadyIsDepth(g, ordered, round, n);
    }
  }

  /** Appending a round completes it. */
  lemma RoundDone(g: Graph, ordered: seq<Name>, round: nat, ready: seq<Name>)
    requires Placed(g, ordered, round) && IsRound(g, ordered, ready)
    ensures Placed(g, ordered + ready, round + 1)
  {
    var all := ordered + ready;
    ElementsJoin(ordered, ready);
    RoundChains(g, ordered, round, ready);
    forall i, j | 0 <= i < j < |all| ensures Before(g, all[i], all[j]) && all[i] != all[j] {
      RoundInOrder(g, ordered, round, ready, i, j);
    }
    forall i | 0 <= i < |all| ensures g[all[i]] <= Elements(all[..i]) {
      RoundAfterDependencies(g, ordered, round, ready, i);
    }
  }

  lemma {:induction false} SubsetSize(a: set<Name>, b: set<Name>)
    requires a < b
    ensures |a| < |b|
  {
    assert !(b <= a);
    var x :| x in b && x !in a;
    assert a <= b - {x};
    SubsetAtMost(a, b - {x});
  }

  lemma {:induction false} SubsetAtMost(a: set<Name>, b: set<Name>)
    requires a <= b
    ensures |a| <= |b|
  {
    if a != {} {
      var x :| x in a;
      SubsetAtMost(a - {x}, b - {x});
    }
  }

  /** What the deployment order promises. */
  ghost predicate Order(g: Graph, r: Result<seq<Name>, OrderError>) {
    match r
    case Ok(order) => DependenciesFirst(g, order) && InDepthOrder(g, order)
    case Err(e) => e == ContainsCycle
                   && exists stuck: set<Name> :: Stuck(g, stuck)
  }

  /** Services none of which can ever be placed. */
  ghost predicate Stuck(g: Graph, stuck: set<Name>) {
    stuck != {} && stuck <= g.Keys && forall n <- stuck :: exists d <- g[n] :: d in stuck || d !in g
  }

  /** The loop's dictionary of unplaced services and what they still wait for. */
  ghost predicate Waiting(g: Graph, ordered: seq<Name>, remaining: Graph) {
    && remaining.Keys == g.Keys - Elements(ordered)
    && forall n <- remaining :: remaining[n] == g[n] - Elements(ordered)
  }

  lemma NothingReady(g: Graph, ordered: seq<Name>, remaining: Graph)
    requires Waiting(g, ordered, remaining) && remaining != map[]
    requires forall n <- remaining :: remaining[n] != {}
    ensures Stuck(g, remaining.Keys)
  {
    forall n <- remaining.Keys ensures exists d <- g[n] :: d in remaining.Keys || d !in g {
      var d :| d in remaining[n];
    }
  }

  lemma ReadyIsRound(g: Graph, ordered: seq<Name>, remaining: Graph, ready: seq<Name>)
    requires Waiting(g, ordered, remaining) && ready != [] && Increasing(ready)
    requires Elements(ready) == set n <- remaining | remaining[n] == {}
    ensures IsRound(g, ordered, ready)
  {
    forall n <- Elements(ready) ensures n in g && n !in Elements(ordered) && g[n] <= Elements(ordered) {
      assert n in remaining && remaining[n] == {};
      assert forall d <- g[n] :: d in remaining[n] || d in Elements(ordered);
    }
    forall n <- g | n !in Elements(ordered) && n !in Elements(ready) ensures !(g[n] <= Elements(ordered)) {
      assert n in remaining && remaining[n] != {};
    }
  }

  function Without(remaining: Graph, ready: seq<Name>): Graph {
    map n <- remaining | n !in ready :: remaining[n] - Elements(ready)
  }

  lemma WithoutWaits(g: Graph, ordered: seq<Name>, remaining: Graph, ready: seq<Name>)
    requires Waiting(g, ordered, remaining) && ready != [] && Elements(ready) <= remaining.Keys
    ensures Waiting(g, ordered + ready, Without(remaining, ready))
    ensures Without(remaining, ready).Keys < remaining.Keys
  {
    ElementsJoin(ordered, ready);
    assert ready[0] in Elements(ready);
  }

  /** What `depends_on` names, when it is a list or a mapping. */
  predicate DependsOnName(d: DependsOn, name: Name) {
    (d.Listed? || d.Mapped?) && name in d.names
  }

  /** Every service once, and each name its `depends_on` gives placed before it. */
  ghost predicate PlacesDependencies(services: map<Name, DependsOn>, order: seq<Name>) {
    && (forall n :: n in order <==> n in services) && Distinct(order)
    && forall i, name :: 0 <= i < |order| && DependsOnName(services[order[i]], name) ==>
         exists j :: 0 <= j < i && order[j] == name
  }

  /** Services each of which names another of them, or one that is not there. */
  ghost predicate Blocked(services: map<Name, DependsOn>, stuck: set<Name>) {
    && stuck != {} && stuck <= services.Keys
    && forall n <- stuck :: exists name :: DependsOnName(services[n], name) && (name in stuck || name !in services)
  }

  lemma OrderPlaces(services: map<Name, DependsOn>, order: seq<Name>)
    requires Dependencies(services).Ok? && DependenciesFirst(Dependencies(services).value, order)
    ensures PlacesDependencies(services, order)
  {
    var g := Dependencies(services).value;
    forall n ensures n in order <==> n in services {
      assert n in order <==> n in Elements(order);
    }
    forall i, name | 0 <= i < |order| && DependsOnName(services[order[i]], name)
      ensures exists j :: 0 <= j < i && order[j] == name
    {
      assert name in g[order[i]];
      var j := DependencyComesEarlier(g, order, i, name);
    }
  }

  lemma StuckIsBlocked(services: map<Name, DependsOn>, stuck: set<Name>)
    requires Dependencies(services).Ok? && Stuck(Dependencies(services).value, stuck)
    ensures Blocked(services, stuck)
  {
    var g := Dependencies(services).value;
    forall n <- stuck ensures exists name :: DependsOnName(services[n], name) && (name in stuck || name !in services) {
      var d :| d in g[n] && (d in stuck || d !in g);
      assert DependsOnName(services[n], d);
    }
  }

  method DeploymentOrder(services: map<Name, DependsOn>) returns (r: Result<seq<Name>, OrderError>)
    ensures r == Err(InvalidDependencies) <==>
              exists n <- services :: services[n].Malformed? || DependsOnName(services[n], "")
    ensures r.Ok? ==> PlacesDependencies(services, r.value)
    ensures r == Err(ContainsCycle) ==> exists stuck: set<Name> :: Blocked(services, stuck)
    ensures Dependencies(services).Err? ==> r == Err(InvalidDependencies)
    ensures Dependencies(services).Ok? ==> Order(Dependencies(services).value, r)
  {
    InvalidExactly(services);
    if Dependencies(services).Err? {
      return Err(InvalidDependencies);
    }
    r := OrderGraph(Dependencies(services).value);
    if r.Ok? {
      OrderPlaces(services, r.value);
    } else {
      ghost var stuck: set<Name> :| Stuck(Dependencies(services).value, stuck);
      StuckIsBlocked(services, stuck);
    }
  }

  lemma InvalidExactly(services: map<Name, DependsOn>)
    ensures Dependencies(services).Err? <==> exists n <- services :: services[n].Malformed? || DependsOnName(services[n], "")
  {
  }

  /** The rounds. */
  method OrderGraph(g: Graph) returns (r: Result<seq<Name>, OrderError>)
    ensures Order(g, r)
  {
    var ordered: seq<Name> := [];
    var remaining := g;
    ghost var round := 0;
    while remaining != map[]
      invariant Placed(g, ordered, round)
      invariant Waiting(g, ordered, remaining)
      decreases remaining.Keys
    {
      var free := set n <- remaining | remaining[n] == {};
      var ready := Sorted(free);
      SortedIsSorted(free);
      if ready == [] {
        NothingReady(g, ordered, remaining);
        return Err(ContainsCycle);
      }
      ReadyIsRound(g, ordered, remaining, ready);
      RoundDone(g, ordered, round, ready);
      WithoutWaits(g, ordered, remaining, ready);
      ordered := ordered + ready;
      remaining := Without(remaining, ready);
      round := round + 1;
    }
    AllPlaced(g, ordered, round);
    return Ok(ordered);
  }

  lemma AllPlaced(g: Graph, ordered: seq<Name>, round: nat)
    requires Placed(g, ordered, round) && Waiting(g, ordered, map[])
    ensures DependenciesFirst(g, ordered) && InDepthOrder(g, ordered)
  {
    assert g.Keys - Elements(ordered) == {};
  }

  // ------------------------------------------------------------ main results

  /** For graphs whose dependencies are all services, the order exists exactly
      when the graph has no cycle. */
  lemma OrderExistsIffAcyclic(g: Graph, r: Result<seq<Name>, OrderError>)
    requires Known(g) && Order(g, r)
    ensures r.Ok? <==> !Cyclic(g)
  {
    if r.Ok? {
      OrderedIsAcyclic(g, r.value);
    } else {
      var stuck: set<Name> :| Stuck(g, stuck);
      forall n <- stuck ensures g[n] * stuck != {} {
        var d :| d in g[n] && (d in stuck || d !in g);
        assert d in g[n] * stuck;
      }
      StuckIsCyclic(g, stuck);
    }
  }

  lemma DependencyComesEarlier(g: Graph, order: seq<Name>, i: nat, d: Name) returns (j: nat)
    requires DependenciesFirst(g, order) && i < |order|
    requires order[i] in g && d in g[order[i]]
    ensures j < i && order[j] == d
  {
    assert d in Elements(order[..i]);
    j :| 0 <= j < i && order[j] == d;
  }

  ghost predicate Ranked(g: Graph, rank: map<Name, nat>) {
    forall n <- g, d <- g[n] :: n in rank && d in rank && d in g && rank[d] < rank[n]
  }

  lemma {:induction false} ChainFitsRank(g: Graph, rank: map<Name, nat>, n: Name, k: nat)
    requires Ranked(g, rank) && n in g && n in rank && Chain(g, n, k)
    ensures k <= rank[n]
    decreases k
  {
    if k > 0 {
      var d :| d in g[n] && Chain(g, d, k - 1);
      ChainFitsRank(g, rank, d, k - 1);
    }
  }

  /** The positions of an order with dependencies first rank its graph. */
  lemma PositionsRank(g: Graph, order: seq<Name>) returns (rank: map<Name, nat>)
    requires DependenciesFirst(g, order)
    ensures rank.Keys == g.Keys && Ranked(g, rank)
    ensures forall n <- rank :: rank[n] < |g|
  {
    DistinctSize(order);
    rank := map n <- g.Keys :: PositionIn(g, order, n);
    forall n <- g, d <- g[n] ensures d in g && PositionIn(g, order, d) < PositionIn(g, order, n) {
      var j := DependencyComesEarlier(g, order, PositionIn(g, order, n), d);
      assert order[j] in Elements(order);
      assert PositionIn(g, order, d) == j;
    }
  }

  ghost function PositionIn(g: Graph, order: seq<Name>, n: Name): (i: nat)
    requires DependenciesFirst(g, order) && n in g
    ensures i < |order| && order[i] == n
  {
    assert n in Elements(order);
    Position(order, n)
  }

  lemma {:induction false} DepthUpToIsChain(g: Graph, n: Name, limit: nat)
    ensures var d := DepthUpTo(g, n, limit);
            Chain(g, n, d) && (d < limit ==> !Chain(g, n, d + 1))
    decreases limit
  {
    if limit != 0 && !Chain(g, n, limit) {
      DepthUpToIsChain(g, n, limit - 1);
    }
  }

  lemma RankedDepth(g: Graph, rank: map<Name, nat>, n: Name, k: nat)
    requires Ranked(g, rank) && n in g && n in rank && rank[n] < |g|
    ensures Chain(g, n, Depth(g, n))
    ensures Chain(g, n, k) ==> k <= Depth(g, n)
  {
    DepthUpToIsChain(g, n, |g|);
    if Chain(g, n, k) && k > Depth(g, n) {
      ChainFitsRank(g, rank, n, Depth(g, n));
      ChainShortens(g, n, Depth(g, n) + 1, k);
    }
  }

  /** In an orderable graph `Depth` is the length of the longest dependency chain. */
  lemma DepthIsLongestChain(g: Graph, order: seq<Name>, n: Name, k: nat)
    requires DependenciesFirst(g, order) && n in g
    ensures Chain(g, n, Depth(g, n))
    ensures Chain(g, n, k) ==> k <= Depth(g, n)
  {
    var rank := PositionsRank(g, order);
    RankedDepth(g, rank, n, k);
  }

  lemma {:induction false} WalkIsChain(g: Graph, p: seq<Name>)
    requires Walk(g, p) && p != []
    ensures Chain(g, p[0], |p| - 1)
    decreases |p|
  {
    if |p| > 1 {
      assert Walk(g, p[1..]);
      WalkIsChain(g, p[1..]);
      assert p[1] in g[p[0]] && p[1..][0] == p[1];
    }
  }

  lemma {:induction false} ChainHasWalk(g: Graph, n: Name, k: nat) returns (p: seq<Name>)
    requires Known(g) && n in g && Chain(g, n, k)
    ensures Walk(g, p) && |p| == k + 1 && p[0] == n
    decreases k
  {
    if k == 0 {
      p := [n];
    } else {
      var d :| d in g[n] && Chain(g, d, k - 1);
      var rest := ChainHasWalk(g, d, k - 1);
      p := [n] + rest;
      forall i | 0 <= i < |p| - 1 ensures p[i + 1] in g[p[i]] {
        if i > 0 { assert p[i] == rest[i - 1] && p[i + 1] == rest[i]; }
      }
      forall i | 0 <= i < |p| ensures p[i] in g {
        if i > 0 { assert p[i] == rest[i - 1]; }
      }
    }
  }

  lemma OrderedIsKnown(g: Graph, order: seq<Name>)
    requires DependenciesFirst(g, order)
    ensures Known(g)
  {
    forall n <- g, d <- g[n] ensures d in g {
      assert n in Elements(order);
      var i :| 0 <= i < |order| && order[i] == n;
      var j := DependencyComesEarlier(g, order, i, d);
      assert order[j] in Elements(order);
    }
  }

  /** The rank that orders the services is the number of steps of the longest walk along
      dependencies. */
  lemma DepthIsLongestWalk(g: Graph, order: seq<Name>, n: Name)
    requires DependenciesFirst(g, order) && n in g
    ensures exists p :: Walk(g, p) && |p| == Depth(g, n) + 1 && p[0] == n
    ensures forall p :: Walk(g, p) && p != [] && p[0] == n ==> |p| - 1 <= Depth(g, n)
  {
    OrderedIsKnown(g, order);
    DepthIsLongestChain(g, order, n, 0);
    var p := ChainHasWalk(g, n, Depth(g, n));
    forall q | Walk(g, q) && q != [] && q[0] == n ensures |q| - 1 <= Depth(g, n) {
      WalkIsChain(g, q);
      DepthIsLongestChain(g, order, n, |q| - 1);
    }
  }

  lemma BeforeIsAsymmetric(g: Graph, a: Name, b: Name)
    requires Before(g, a, b)
    ensures !Before(g, b, a) && a != b
  {
    if Less(a, b) { LessAsymmetric(a, b); }
    LessIrreflexive(a);
  }

  /** The order is determined by the graph alone: dependencies first, longest
      chain first counted, ties broken by name leave no choice, whatever order
      the document lists its services in. */
  lemma {:induction false} OrderIsUnique(g: Graph, a: seq<Name>, b: seq<Name>)
    requires InDepthOrder(g, a) && InDepthOrder(g, b) && Elements(a) == Elements(b)
    ensures a == b
    decreases |a|
  {
    assert a != [] ==> a[0] in Elements(a);
    assert b != [] ==> b[0] in Elements(b);
    if a != [] && b != [] {
      assert a[0] in Elements(b) && b[0] in Elements(a);
      if a[0] != b[0] {
        assert Before(g, a[0], b[0]) && Before(g, b[0], a[0]);
        BeforeIsAsymmetric(g, a[0], b[0]);
      }
      TailElements(g, a);
      TailElements(g, b);
      OrderIsUnique(g, a[1..], b[1..]);
    }
  }

  lemma TailElements(g: Graph, a: seq<Name>)
    requires InDepthOrder(g, a) && a != []
    ensures Elements(a[1..]) == Elements(a) - {a[0]} && InDepthOrder(g, a[1..])
  {
    forall i | 1 <= i < |a| ensures a[i] != a[0] {
      BeforeIsAsymmetric(g, a[0], a[i]);
    }
    assert a == [a[0]] + a[1..];
    ElementsJoin([a[0]], a[1..]);
    assert forall n <- Elements(a[1..]) :: exists i :: 1 <= i < |a| && a[i] == n;
  }
}
