/** The order of names, and the first of several. */
module Names {
  import opened Basics

  /** Strings as Python sorts them. */
  predicate AtMost(a: string, b: string) {
    a == [] || (b != [] && (a[0] < b[0] || (a[0] == b[0] && AtMost(a[1..], b[1..]))))
  }

  /** Names are compared by their first difference, and a name comes before its continuations. */
  lemma {:induction false} OrderIsByFirstDifference(front: string, a: string, b: string)
    requires a != [] && b != [] && a[0] != b[0]
    ensures AtMost(front, front + a) && (AtMost(front + a, front + b) <==> a[0] < b[0])
  {
    if front != [] {
      OrderIsByFirstDifference(front[1..], a, b);
      assert (front + a)[1..] == front[1..] + a && (front + b)[1..] == front[1..] + b;
    }
  }

  lemma {:induction false} OrderIsTotal(a: string, b: string)
    ensures AtMost(a, b) || AtMost(b, a)
  {
    if a != [] && b != [] {
      OrderIsTotal(a[1..], b[1..]);
    }
  }

  lemma {:induction false} OrderIsStrict(a: string, b: string)
    requires AtMost(a, b) && AtMost(b, a)
    ensures a == b
  {
    if a != [] {
      OrderIsStrict(a[1..], b[1..]);
      assert a == [a[0]] + a[1..] && b == [b[0]] + b[1..];
    }
  }

  lemma {:induction false} OrderIsTransitive(a: string, b: string, c: string)
    requires AtMost(a, b) && AtMost(b, c)
    ensures AtMost(a, c)
  {
    if a != [] && a[0] == b[0] && b[0] == c[0] {
      OrderIsTransitive(a[1..], b[1..], c[1..]);
    }
  }

  predicate IsFirst(names: set<string>, n: string) {
    n in names && forall m :: m in names ==> AtMost(n, m)
  }

  lemma {:induction false} SomeFirst(names: set<string>)
    requires names != {}
    ensures exists n :: IsFirst(names, n)
    decreases |names|
  {
    var m :| m in names;
    var rest := names - {m};
    OrderIsTotal(m, m);
    if rest == {} {
      assert names == {m};
      assert IsFirst(names, m);
    } else {
      SomeFirst(rest);
      var n :| IsFirst(rest, n);
      OrderIsTotal(m, n);
      if AtMost(n, m) {
        assert IsFirst(names, n);
      } else {
        forall k | k in rest
          ensures AtMost(m, k)
        {
          OrderIsTransitive(m, n, k);
        }
        assert IsFirst(names, m);
      }
    }
  }

  lemma OneFirst(names: set<string>)
    ensures forall m, n :: IsFirst(names, m) && IsFirst(names, n) ==> m == n
  {
    forall m, n | IsFirst(names, m) && IsFirst(names, n)
      ensures m == n
    {
      OrderIsStrict(m, n);
    }
  }

  /** `sorted(names)[0]`, if there is one. */
  function First(names: set<string>): (r: Option<string>)
    ensures if names == {} then r.None? else r.Some? && IsFirst(names, r.value)
  {
    if names == {} then None
    else
      SomeFirst(names);
      OneFirst(names);
      var n :| n in names && IsFirst(names, n);
      Some(n)
  }
}
