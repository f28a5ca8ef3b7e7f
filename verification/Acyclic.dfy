/** The template generator's dependency checks: `_normalize_dependencies` fills a
    mapping, `_assert_acyclic` walks it depth first with two mutable sets. */
module Acyclic {
  import opened Options
  import opened Names
  import opened Graphs
  import opened Ordering

  /** What each component lists, in the order the walk visits it. */
  type Listing = map<Name, seq<Name>>

  function AsGraph(d: Listing): Graph {
    map n <- d :: Elements(d[n])
  }

  // ------------------------------------------------------------ normalisation

  datatype Edge = Edge(from: Name, to: Name)

  datatype TemplateError = NotSelected | DuplicateDependency

  type Canonical = Name -> Name

  function EdgesOf(canonical: Canonical, name: Name, required: seq<Name>): (r: seq<Edge>)
    ensures |r| == |required|
  {
    seq(|required|, i requires 0 <= i < |required| => Edge(canonical(name), canonical(required[i])))
  }

  /** All dependencies of a document, aliases replaced by component names. */
  function Edges(canonical: Canonical, items: seq<(Name, seq<Name>)>): seq<Edge>
    decreases |items|
  {
    if items == [] then []
    else Edges(canonical, items[..|items| - 1])
         + EdgesOf(canonical, items[|items| - 1].0, items[|items| - 1].1)
  }

  ghost predicate NoRepeat(edges: seq<Edge>) {
    forall i, j :: 0 <= i < j < |edges| ==> edges[i] != edges[j]
  }

  ghost predicate Selected(selected: set<Name>, edges: seq<Edge>) {
    forall e <- edges :: e.from in selected && e.to in selected
  }

  /** What a document's dependency section must satisfy to be accepted. */
  ghost predicate Acceptable(canonical: Canonical, selected: set<Name>, items: seq<(Name, seq<Name>)>) {
    && (forall item <- items :: canonical(item.0) in selected)
    && Selected(selected, Edges(canonical, items))
    && NoRepeat(Edges(canonical, items))
  }

  /** `normalized` holds exactly the edges seen so far. */
  ghost predicate Holding(selected: set<Name>, normalized: Graph, edges: seq<Edge>) {
    && normalized.Keys == selected
    && Selected(selected, edges) && NoRepeat(edges)
    && forall n <- selected, d: Name :: d in normalized[n] <==> Edge(n, d) in edges
  }

  lemma HoldingOneMore(selected: set<Name>, normalized: Graph, edges: seq<Edge>, n: Name, d: Name)
    requires Holding(selected, normalized, edges) && n in selected && d in selected && d !in normalized[n]
    ensures Holding(selected, normalized[n := normalized[n] + {d}], edges + [Edge(n, d)])
  {
  }

  lemma PrefixOfEdges(canonical: Canonical, items: seq<(Name, seq<Name>)>, k: nat)
    requires k < |items|
    ensures Edges(canonical, items[..k + 1])
         == Edges(canonical, items[..k]) + EdgesOf(canonical, items[k].0, items[k].1)
  {
    assert items[..k + 1][..k] == items[..k];
  }

  /** Every prefix of an acceptable section is acceptable. */
  lemma {:induction false} EdgesArePrefix(canonical: Canonical, items: seq<(Name, seq<Name>)>, k: nat)
    requires k <= |items|
    ensures Edges(canonical, items[..k]) <= Edges(canonical, items)
    decreases |items|
  {
    if k == |items| {
      assert items[..k] == items;
    } else {
      var rest := items[..|items| - 1];
      assert rest[..k] == items[..k];
      EdgesArePrefix(canonical, rest, k);
    }
  }

  /** A prefix of the document's edges that breaks a rule condemns the document. */
  lemma Condemned(canonical: Canonical, selected: set<Name>, items: seq<(Name, seq<Name>)>, k: nat, j: nat)
    requires k < |items| && j < |items[k].1|
    requires var edge := Edge(canonical(items[k].0), canonical(items[k].1[j]));
             edge.to !in selected
             || edge in Edges(canonical, items[..k]) + EdgesOf(canonical, items[k].0, items[k].1)[..j]
    ensures !Acceptable(canonical, selected, items)
  {
    var edge := Edge(canonical(items[k].0), canonical(items[k].1[j]));
    var before := Edges(canonical, items[..k]);
    var own := EdgesOf(canonical, items[k].0, items[k].1);
    PrefixOfEdges(canonical, items, k);
    EdgesArePrefix(canonical, items, k + 1);
    var all := Edges(canonical, items);
    assert (before + own)[|before| + j] == edge == all[|before| + j];
    if edge in before + own[..j] {
      var i :| 0 <= i < |before + own[..j]| && (before + own[..j])[i] == edge;
      assert all[i] == edge;
    }
  }

  /** A listing covers the selection and has exactly the edges of the section, sorted. */
  ghost predicate Lists(canonical: Canonical, selected: set<Name>, items: seq<(Name, seq<Name>)>, listing: Listing) {
    && listing.Keys == selected && Known(AsGraph(listing))
    && forall n <- selected ::
         && Increasing(listing[n])
         && forall d: Name :: d in listing[n] <==> Edge(n, d) in Edges(canonical, items)
  }

  predicate NamesSelected(canonical: Canonical, selected: set<Name>, items: seq<(Name, seq<Name>)>, k: nat)
    requires k <= |items|
  {
    forall i :: 0 <= i < k ==> canonical(items[i].0) in selected
  }

  lemma NameCondemns(canonical: Canonical, selected: set<Name>, items: seq<(Name, seq<Name>)>, k: nat)
    requires k < |items| && canonical(items[k].0) !in selected
    ensures !Acceptable(canonical, selected, items)
  {
    assert items[k] in items;
  }

  lemma HoldingIsAcceptable(canonical: Canonical, selected: set<Name>, items: seq<(Name, seq<Name>)>, normalized: Graph)
    requires NamesSelected(canonical, selected, items, |items|)
    requires Holding(selected, normalized, Edges(canonical, items[..|items|]))
    ensures Acceptable(canonical, selected, items) && Holding(selected, normalized, Edges(canonical, items))
  {
    assert items[..|items|] == items;
  }

  /** Succeeds exactly on acceptable sections; the result covers the selection and
      lists each component's dependencies once, sorted. */
  method NormalizeDependencies(canonical: Canonical, selected: set<Name>, items: seq<(Name, seq<Name>)>)
    returns (r: Result<Listing, TemplateError>)
    ensures r.Ok? <==> Acceptable(canonical, selected, items)
    ensures r.Ok? ==> Lists(canonical, selected, items, r.value)
  {
    var normalized: Graph := map n <- selected :: {};
    for k := 0 to |items|
      invariant NamesSelected(canonical, selected, items, k)
      invariant Holding(selected, normalized, Edges(canonical, items[..k]))
    {
      if canonical(items[k].0) !in selected {
        NameCondemns(canonical, selected, items, k);
        return Err(NotSelected);
      }
      var added := AddDependencies(canonical, selected, items, k, normalized, Edges(canonical, items[..k]));
      if added.Err? {
        return Err(added.error);
      }
      normalized := added.value;
    }
    HoldingIsAcceptable(canonical, selected, items, normalized);
    r := Ok(map n <- selected :: Sorted(normalized[n]));
    SortedListing(selected, normalized, Edges(canonical, items), r.value);
  }

  /** One component's entry of the section. */
  method AddDependencies(canonical: Canonical, selected: set<Name>, items: seq<(Name, seq<Name>)>, k: nat,
                         normalized: Graph, ghost before: seq<Edge>)
    returns (r: Result<Graph, TemplateError>)
    requires k < |items| && canonical(items[k].0) in selected
    requires before == Edges(canonical, items[..k]) && Holding(selected, normalized, before)
    ensures r.Ok? ==> Holding(selected, r.value, Edges(canonical, items[..k + 1]))
    ensures r.Err? ==> !Acceptable(canonical, selected, items)
  {
    var name, required := canonical(items[k].0), items[k].1;
    ghost var own := EdgesOf(canonical, items[k].0, required);
    ghost var seen := before;
    var result := normalized;
    for j := 0 to |required|
      invariant seen == before + own[..j]
      invariant Holding(selected, result, seen)
    {
      var dependency := canonical(required[j]);
      if dependency !in selected {
        Condemned(canonical, selected, items, k, j);
        return Err(NotSelected);
      }
      if dependency in result[name] {
        Condemned(canonical, selected, items, k, j);
        return Err(DuplicateDependency);
      }
      HoldingOneMore(selected, result, seen, name, dependency);
      result := result[name := result[name] + {dependency}];
      assert own[..j + 1] == own[..j] + [own[j]];
      seen := seen + [Edge(name, dependency)];
    }
    assert own[..|required|] == own;
    PrefixOfEdges(canonical, items, k);
    return Ok(result);
  }

  /** The sorted mapping lists exactly the edges held. */
  lemma SortedListing(selected: set<Name>, normalized: Graph, edges: seq<Edge>, listing: Listing)
    requires Holding(selected, normalized, edges)
    requires listing == map n <- selected :: Sorted(normalized[n])
    ensures Known(AsGraph(listing))
    ensures forall n <- selected ::
              Increasing(listing[n]) && forall d: Name :: d in listing[n] <==> Edge(n, d) in edges
  {
    forall n <- selected ensures Increasing(listing[n]) && Elements(listing[n]) == normalized[n] {
      SortedIsSorted(normalized[n]);
    }
    assert forall n <- selected, d: Name :: d in listing[n] <==> d in Elements(listing[n]);
    forall n <- AsGraph(listing), d <- AsGraph(listing)[n] ensures d in AsGraph(listing) {
      assert Edge(n, d) in edges;
    }
  }

  // ------------------------------------------------------------ the walk

  /** The services finished so far, each after everything it depends on. */
  ghost predicate Finished(g: Graph, order: seq<Name>) {
    && Distinct(order) && Elements(order) <= g.Keys
    && forall i :: 0 <= i < |order| ==> g[order[i]] <= Elements(order[..i])
  }

  /** The services being visited form a walk of distinct services. */
  ghost predicate OnPath(g: Graph, path: seq<Name>) {
    Distinct(path) && Walk(g, path)
  }

  lemma ClosingTheWalk(g: Graph, path: seq<Name>, name: Name)
    requires OnPath(g, path) && name in path && name in g[path[|path| - 1]]
    ensures Cyclic(g)
  {
    var i :| 0 <= i < |path| && path[i] == name;
    var c := path[i..] + [name];
    assert Walk(g, c);
    assert Cycle(g, c);
  }

  lemma FinishOne(g: Graph, order: seq<Name>, name: Name)
    requires Finished(g, order) && name in g && name !in Elements(order) && g[name] <= Elements(order)
    ensures Finished(g, order + [name]) && Elements(order + [name]) == Elements(order) + {name}
  {
    ElementsJoin(order, [name]);
    assert Elements([name]) == {name};
    forall i | 0 <= i < |order + [name]| ensures g[(order + [name])[i]] <= Elements((order + [name])[..i]) {
      assert (order + [name])[..i] == order[..i];
      assert i == |order| ==> order[..i] == order;
    }
  }

  lemma ExtendPath(g: Graph, path: seq<Name>, name: Name)
    requires OnPath(g, path) && name in g && name !in Elements(path)
    requires path != [] ==> name in g[path[|path| - 1]]
    ensures OnPath(g, path + [name]) && Elements(path + [name]) == Elements(path) + {name}
  {
    ElementsJoin(path, [name]);
    assert Elements([name]) == {name};
    forall i | 0 <= i < |path| ensures path[i] in Elements(path) {}
  }

  class CycleCheck {
    const dependencies: Listing
    var visiting: set<Name>
    var visited: set<Name>
    ghost var path: seq<Name>
    ghost var finished: seq<Name>

    ghost predicate Valid()
      reads this
    {
      && Known(AsGraph(dependencies))
      && visiting == Elements(path) && OnPath(AsGraph(dependencies), path)
      && visited == Elements(finished) && Finished(AsGraph(dependencies), finished)
      && visiting !! visited
    }

    constructor (dependencies: Listing)
      requires Known(AsGraph(dependencies))
      ensures Valid() && this.dependencies == dependencies && visiting == {} && visited == {} && path == []
    {
      this.dependencies := dependencies;
      visiting, visited, path, finished := {}, {}, [], [];
    }

    /** `false` stands for the exception that reports a cycle. */
    method Visit(name: Name) returns (ok: bool)
      requires Valid() && name in dependencies
      requires path != [] ==> name in AsGraph(dependencies)[path[|path| - 1]]
      modifies this
      ensures ok ==> Valid() && path == old(path) && old(visited) + {name} <= visited
      ensures !ok ==> Cyclic(AsGraph(dependencies))
      decreases dependencies.Keys - visiting
    {
      ghost var g := AsGraph(dependencies);
      if name in visiting {
        ClosingTheWalk(g, path, name);
        return false;
      }
      if name in visited {
        return true;
      }
      ghost var above := path;
      ExtendPath(g, path, name);
      visiting, path := visiting + {name}, path + [name];
      ghost var inside := path;
      var required := dependencies[name];
      for i := 0 to |required|
        invariant Valid() && path == inside && old(visited) <= visited
        invariant forall j :: 0 <= j < i ==> required[j] in visited
      {
        assert name in g && required[i] in g[name];
        assert required[i] in g;
        var done := Visit(required[i]);
        if !done {
          return false;
        }
      }
      FinishOne(g, finished, name);
      assert path == above + [name];
      ElementsJoin(above, [name]);
      visiting, path := visiting - {name}, above;
      visited, finished := visited + {name}, finished + [name];
      return true;
    }
  }

  /** The check passes exactly on graphs without a cycle. */
  method AssertAcyclic(selected: seq<Name>, dependencies: Listing) returns (ok: bool)
    requires Elements(selected) == dependencies.Keys && Known(AsGraph(dependencies))
    ensures ok <==> !Cyclic(AsGraph(dependencies))
  {
    var check := new CycleCheck(dependencies);
    for i := 0 to |selected|
      invariant check.Valid() && check.dependencies == dependencies && check.path == []
      invariant forall j :: 0 <= j < i ==> selected[j] in check.visited
    {
      assert selected[i] in Elements(selected);
      var done := check.Visit(selected[i]);
      if !done {
        return false;
      }
    }
    assert forall n <- Elements(selected) :: n in check.visited;
    assert Elements(check.finished) == AsGraph(dependencies).Keys;
    OrderedIsAcyclic(AsGraph(dependencies), check.finished);
    return true;
  }

  /** The generator and the deployer take the same decision on one dependency graph. */
  method SameDecision(selected: seq<Name>, dependencies: Listing, services: map<Name, DependsOn>)
    returns (accepted: bool, order: Result<seq<Name>, OrderError>)
    requires Elements(selected) == dependencies.Keys && Known(AsGraph(dependencies))
    requires Dependencies(services) == Ok(AsGraph(dependencies))
    ensures accepted <==> order.Ok?
  {
    accepted := AssertAcyclic(selected, dependencies);
    order := DeploymentOrder(services);
    OrderExistsIffAcyclic(AsGraph(dependencies), order);
  }
}
