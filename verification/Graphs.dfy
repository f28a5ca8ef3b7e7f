/** Dependency graphs: a name and the names it depends on. */
module Graphs {
  import opened Names

  type Graph = map<Name, set<Name>>

  predicate Known(g: Graph) {
    forall n <- g, d <- g[n] :: d in g
  }

  /** A walk along dependencies. */
  ghost predicate Walk(g: Graph, p: seq<Name>) {
    && (forall i :: 0 <= i < |p| ==> p[i] in g)
    && (forall i :: 0 <= i < |p| - 1 ==> p[i + 1] in g[p[i]])
  }

  ghost predicate Cycle(g: Graph, p: seq<Name>) {
    |p| >= 2 && Walk(g, p) && p[0] == p[|p| - 1]
  }

  ghost predicate Cyclic(g: Graph) {
    exists p :: Cycle(g, p)
  }

  predicate Distinct(s: seq<Name>) {
    forall i, j :: 0 <= i < j < |s| ==> s[i] != s[j]
  }

  /** Every known service once, each after all it depends on. */
  ghost predicate DependenciesFirst(g: Graph, order: seq<Name>) {
    && Distinct(order) && Elements(order) == g.Keys
    && forall i :: 0 <= i < |order| ==> g[order[i]] <= Elements(order[..i])
  }

  ghost function Position(order: seq<Name>, n: Name): (i: nat)
    requires n in order
    ensures i < |order| && order[i] == n
  {
    var i :| 0 <= i < |order| && order[i] == n; i
  }

  lemma {:induction false} WalkDescends(g: Graph, order: seq<Name>, p: seq<Name>)
    requires DependenciesFirst(g, order) && Walk(g, p) && p != []
    ensures p[0] in order && p[|p| - 1] in order
    ensures |p| >= 2 ==> Position(order, p[|p| - 1]) < Position(order, p[0])
    decreases |p|
  {
    assert p[0] in Elements(order);
    if |p| >= 2 {
      assert Walk(g, p[1..]);
      WalkDescends(g, order, p[1..]);
      var i := Position(order, p[0]);
      assert p[1] in g[order[i]];
      assert p[1] in Elements(order[..i]);
      var k :| 0 <= k < i && order[k] == p[1];
      assert Position(order, p[1]) == k;
    }
  }

  /** An order with dependencies first rules out every cycle. */
  lemma OrderedIsAcyclic(g: Graph, order: seq<Name>)
    requires DependenciesFirst(g, order)
    ensures !Cyclic(g)
  {
    forall p | Cycle(g, p) ensures false {
      WalkDescends(g, order, p);
    }
  }

  lemma {:induction false} PigeonHole(s: seq<Name>, pool: set<Name>)
    requires Distinct(s) && Elements(s) <= pool
    ensures |s| <= |pool|
    decreases |s|
  {
    if s != [] {
      var last := s[|s| - 1];
      var rest := s[..|s| - 1];
      assert last in Elements(s);
      forall n <- Elements(rest) ensures n in pool - {last} {
        assert n in Elements(s);
      }
      PigeonHole(rest, pool - {last});
    }
  }

  /** A walk of any length inside a set that every step can stay in. */
  lemma {:induction false} LongWalk(g: Graph, pool: set<Name>, start: Name, length: nat) returns (p: seq<Name>)
    requires pool <= g.Keys && start in pool && length >= 1
    requires forall n <- pool :: g[n] * pool != {}
    ensures |p| == length && Walk(g, p) && Elements(p) <= pool && p[0] == start
    decreases length
  {
    if length == 1 {
      p := [start];
    } else {
      var next :| next in g[start] * pool;
      var rest := LongWalk(g, pool, next, length - 1);
      p := [start] + rest;
      forall i | 0 <= i < |p| - 1 ensures p[i + 1] in g[p[i]] {
        if i > 0 { assert p[i] == rest[i - 1] && p[i + 1] == rest[i]; }
      }
      forall n <- Elements(p) ensures n in pool {
        if n != start { assert n in Elements(rest); }
      }
    }
  }

  /** A non-empty set of services each of which depends on the set contains a cycle. */
  lemma StuckIsCyclic(g: Graph, pool: set<Name>)
    requires pool != {} && pool <= g.Keys
    requires forall n <- pool :: g[n] * pool != {}
    ensures Cyclic(g)
  {
    var start :| start in pool;
    var p := LongWalk(g, pool, start, |pool| + 1);
    if Distinct(p) {
      PigeonHole(p, pool);
    } else {
      var i, j :| 0 <= i < j < |p| && p[i] == p[j];
      var c := p[i..j + 1];
      assert c[0] == c[|c| - 1];
      forall k | 0 <= k < |c| - 1 ensures c[k + 1] in g[c[k]] {
        assert p[i + k + 1] in g[p[i + k]];
      }
      assert Cycle(g, c);
    }
  }
}
