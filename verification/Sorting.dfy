/** Sorting a set of texts by a strict total order: the one sequence it can give
    (`Sorted`), and an insertion sort proved to give it. */
module Sorting {
  import opened Text

  ghost predicate StrictTotal(less: (string, string) -> bool) {
    && (forall a: string :: !less(a, a))
    && (forall a: string, b: string, c: string :: less(a, b) && less(b, c) ==> less(a, c))
    && (forall a: string, b: string :: a == b || less(a, b) || less(b, a))
  }

  ghost predicate Ordered(q: seq<string>, less: (string, string) -> bool) {
    forall i, j | 0 <= i < j < |q| :: less(q[i], q[j])
  }

  ghost predicate IsLeast(x: string, s: set<string>, less: (string, string) -> bool) {
    x in s && forall y | y in s && y != x :: less(x, y)
  }

  function Elements(q: seq<string>): set<string> {
    set x | x in q
  }

  lemma {:induction false} LeastExists(s: set<string>, less: (string, string) -> bool)
    requires StrictTotal(less) && s != {}
    ensures exists x :: IsLeast(x, s, less)
  {
    var y :| y in s;
    if s == {y} {
      assert IsLeast(y, s, less);
    } else {
      var rest := s - {y};
      LeastExists(rest, less);
      var x :| IsLeast(x, rest, less);
      if less(x, y) {
        assert IsLeast(x, s, less);
      } else {
        assert IsLeast(y, s, less);
      }
    }
  }

  ghost function Sorted(s: set<string>, less: (string, string) -> bool): (q: seq<string>)
    requires StrictTotal(less)
    ensures |q| == |s| && Ordered(q, less) && forall x :: x in q <==> x in s
  {
    if s == {} then []
    else
      LeastExists(s, less);
      var x :| IsLeast(x, s, less);
      [x] + Sorted(s - {x}, less)
  }

  // Nothing else is ordered and has the same elements.
  lemma {:induction false} SortedUnique(q: seq<string>, s: set<string>, less: (string, string) -> bool)
    requires StrictTotal(less) && Ordered(q, less) && forall x :: x in q <==> x in s
    ensures q == Sorted(s, less)
  {
    var r := Sorted(s, less);
    if |q| == 0 {
      assert forall x :: x !in s;
      assert s == {};
    } else {
      assert q[0] in q;
      assert q[0] in s && r[0] in s;
      assert r[0] in q && q[0] in r;
      assert q[0] == r[0] by {
        var i :| 0 <= i < |q| && q[i] == r[0];
        var j :| 0 <= j < |r| && r[j] == q[0];
        assert forall k | 0 < k < |q| :: less(q[0], q[k]);
        assert forall k | 0 < k < |r| :: less(r[0], r[k]);
      }
      var t := s - {q[0]};
      TailElements(q, s, less);
      TailElements(r, s, less);
      SortedUnique(q[1..], t, less);
      SortedUnique(r[1..], t, less);
    }
  }

  lemma TailElements(q: seq<string>, s: set<string>, less: (string, string) -> bool)
    requires StrictTotal(less) && Ordered(q, less) && q != [] && forall x :: x in q <==> x in s
    ensures Ordered(q[1..], less) && forall x :: x in q[1..] <==> x in s - {q[0]}
  {
    assert q == [q[0]] + q[1..];
    assert forall i | 1 <= i < |q| :: less(q[0], q[i]);
    assert forall i | 0 <= i < |q[1..]| :: q[1..][i] == q[i + 1];
    assert q[0] !in q[1..];
    forall i, j | 0 <= i < j < |q[1..]| ensures less(q[1..][i], q[1..][j]) {
      assert q[1..][i] == q[i + 1] && q[1..][j] == q[j + 1];
    }
  }

  // Two orders that agree on the elements sort them alike.
  lemma SortedAgree(s: set<string>, less: (string, string) -> bool, less': (string, string) -> bool)
    requires StrictTotal(less) && StrictTotal(less')
    requires forall a, b | a in s && b in s :: less(a, b) ==> less'(a, b)
    ensures Sorted(s, less) == Sorted(s, less')
  {
    var q := Sorted(s, less);
    forall i, j | 0 <= i < j < |q| ensures less'(q[i], q[j]) {
      assert q[i] in q && q[j] in q;
    }
    SortedUnique(q, s, less');
  }

  lemma TextOrder()
    ensures StrictTotal(Before)
  {
    forall a: string, b: string, c: string | Before(a, b) && Before(b, c) ensures Before(a, c) {
      BeforeTransitive(a, b, c);
    }
    forall a: string, b: string ensures a == b || Before(a, b) || Before(b, a) {
      BeforeTotal(a, b);
    }
    forall a: string ensures !Before(a, a) {
      BeforeIrreflexive(a);
    }
  }

  // What `sort` prints for a set of lines.
  ghost function TextSorted(s: set<string>): seq<string> {
    TextOrder();
    Sorted(s, Before)
  }

  // `sort`, `sort.Slice` and `sort.Strings` on texts without repetition.
  method Sort(names: seq<string>, less: (string, string) -> bool) returns (out: seq<string>)
    requires StrictTotal(less)
    requires forall i, j | 0 <= i < j < |names| :: names[i] != names[j]
    ensures out == Sorted(Elements(names), less)
  {
    out := [];
    for i := 0 to |names|
      invariant Ordered(out, less)
      invariant forall x :: x in out <==> x in names[..i]
    {
      var x := names[i];
      assert x !in names[..i];
      var k := 0;
      while k < |out| && less(out[k], x)
        invariant 0 <= k <= |out|
        invariant forall j | 0 <= j < k :: less(out[j], x)
      {
        k := k + 1;
      }
      assert forall j | k <= j < |out| :: less(x, out[j]) by {
        if k < |out| {
          assert out[k] in out;
        }
      }
      ghost var before := out;
      out := out[..k] + [x] + out[k..];
      assert forall y :: y in out <==> y in before || y == x;
      assert names[..i + 1] == names[..i] + [x];
    }
    assert names[..|names|] == names;
    SortedUnique(out, Elements(names), less);
  }
}
