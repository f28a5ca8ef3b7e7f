/** Names and their order: Python compares strings by code point, left to right. */
module Names {

  type Name = string

  predicate Less(a: Name, b: Name)
    decreases |b|
  {
    && b != []
    && (a == [] || a[0] < b[0] || (a[0] == b[0] && Less(a[1..], b[1..])))
  }

  /** The names agree up to `k`, where `a` ends or has the smaller character. */
  predicate PrecedesAt(a: Name, b: Name, k: nat) {
    k <= |a| && k < |b| && a[..k] == b[..k] && (k == |a| || a[k] < b[k])
  }

  lemma {:induction false} LessIsPrecedes(a: Name, b: Name)
    ensures Less(a, b) <==> exists k: nat :: PrecedesAt(a, b, k)
    decreases |b|
  {
    if b != [] && (a == [] || a[0] < b[0]) {
      assert PrecedesAt(a, b, 0);
    } else if b != [] && a != [] && a[0] == b[0] {
      LessIsPrecedes(a[1..], b[1..]);
      if Less(a, b) {
        var k: nat :| PrecedesAt(a[1..], b[1..], k);
        assert a[..k + 1] == [a[0]] + a[1..][..k] && b[..k + 1] == [b[0]] + b[1..][..k];
        assert PrecedesAt(a, b, k + 1);
      }
      forall k: nat | PrecedesAt(a, b, k) ensures Less(a, b) {
        assert k > 0;
        assert a[1..][..k - 1] == a[..k][1..] && b[1..][..k - 1] == b[..k][1..];
        assert PrecedesAt(a[1..], b[1..], k - 1);
      }
    } else {
      forall k: nat ensures !PrecedesAt(a, b, k) {
        assert 0 < k <= |a| && k < |b| ==> a[..k][0] == a[0] && b[..k][0] == b[0];
      }
    }
  }

  lemma {:induction false} LessIrreflexive(a: Name)
    ensures !Less(a, a)
    decreases |a|
  {
    if a != [] { LessIrreflexive(a[1..]); }
  }

  lemma {:induction false} LessTransitive(a: Name, b: Name, c: Name)
    requires Less(a, b) && Less(b, c)
    ensures Less(a, c)
    decreases |a|
  {
    if a != [] && a[0] == b[0] && b[0] == c[0] { LessTransitive(a[1..], b[1..], c[1..]); }
  }

  lemma {:induction false} LessTotal(a: Name, b: Name)
    requires a != b
    ensures Less(a, b) || Less(b, a)
    decreases |a|
  {
    if a != [] && b != [] && a[0] == b[0] {
      assert a == [a[0]] + a[1..] && b == [b[0]] + b[1..];
      LessTotal(a[1..], b[1..]);
    }
  }

  lemma LessAsymmetric(a: Name, b: Name)
    requires Less(a, b)
    ensures !Less(b, a)
  {
    if Less(b, a) {
      LessTransitive(a, b, a);
      LessIrreflexive(a);
    }
  }

  predicate IsLeast(m: Name, s: set<Name>) {
    m in s && forall x <- s :: x == m || Less(m, x)
  }

  lemma {:induction false} LeastExists(s: set<Name>)
    requires s != {}
    ensures exists m :: IsLeast(m, s)
  {
    var x :| x in s;
    if s == {x} {
      assert IsLeast(x, s);
    } else {
      LeastExists(s - {x});
      var m :| IsLeast(m, s - {x});
      LessTotal(x, m);
      if Less(x, m) {
        forall y <- s ensures y == x || Less(x, y) {
          if y != x && y != m { LessTransitive(x, m, y); }
        }
        assert IsLeast(x, s);
      } else {
        assert IsLeast(m, s);
      }
    }
  }

  lemma LeastIsUnique(s: set<Name>)
    ensures forall a, b :: IsLeast(a, s) && IsLeast(b, s) ==> a == b
  {
    forall a, b | IsLeast(a, s) && IsLeast(b, s) ensures a == b {
      if a != b { LessAsymmetric(a, b); }
    }
  }

  function Least(s: set<Name>): (m: Name)
    requires s != {}
    ensures IsLeast(m, s)
  {
    LeastExists(s);
    LeastIsUnique(s);
    var m :| IsLeast(m, s); m
  }

  predicate Increasing(r: seq<Name>) {
    forall i, j :: 0 <= i < j < |r| ==> Less(r[i], r[j])
  }

  function Elements(r: seq<Name>): set<Name> {
    set n <- r
  }

  lemma ElementsJoin(a: seq<Name>, b: seq<Name>)
    ensures Elements(a + b) == Elements(a) + Elements(b)
  {
    forall n <- Elements(a) + Elements(b) ensures n in a + b {
      if n in a {
        var i :| 0 <= i < |a| && a[i] == n;
        assert (a + b)[i] == n;
      } else {
        var i :| 0 <= i < |b| && b[i] == n;
        assert (a + b)[|a| + i] == n;
      }
    }
  }

  /** `sorted` on distinct names. */
  function Sorted(s: set<Name>): seq<Name> {
    if s == {} then [] else [Least(s)] + Sorted(s - {Least(s)})
  }

  lemma {:induction false} SortedIsSorted(s: set<Name>)
    ensures Elements(Sorted(s)) == s && Increasing(Sorted(s))
  {
    if s != {} {
      var m := Least(s);
      var rest := Sorted(s - {m});
      SortedIsSorted(s - {m});
      ElementsJoin([m], rest);
      assert Elements([m]) == {m};
      forall i | 0 <= i < |rest| ensures Less(m, rest[i]) {
        assert rest[i] in Elements(rest);
      }
    }
  }
}
