/** Sums of a function over a finite set of keys, independent of the order of summation. */
module FiniteSums {
  import opened BasisStrings

  ghost function Sum(s: set<Key>, f: Key -> real): real
    decreases |s|
  {
    if s == {} then 0.0
    else
      var x :| x in s;
      f(x) + Sum(s - {x}, f)
  }

  /** Any element may be taken out first. */
  lemma {:induction false} SumRemove(s: set<Key>, f: Key -> real, x: Key)
    requires x in s
    ensures Sum(s, f) == f(x) + Sum(s - {x}, f)
    decreases |s|
  {
    var y :| y in s && Sum(s, f) == f(y) + Sum(s - {y}, f);
    if y != x {
      SumRemove(s - {y}, f, x);
      SumRemove(s - {x}, f, y);
      assert s - {y} - {x} == s - {x} - {y};
    }
  }

  lemma {:induction false} SumSame(s: set<Key>, f: Key -> real, g: Key -> real)
    requires forall x :: x in s ==> f(x) == g(x)
    ensures Sum(s, f) == Sum(s, g)
    decreases |s|
  {
    if s != {} {
      var x :| x in s;
      SumRemove(s, f, x);
      SumRemove(s, g, x);
      SumSame(s - {x}, f, g);
    }
  }

  lemma {:induction false} SumZero(s: set<Key>, f: Key -> real)
    requires forall x :: x in s ==> f(x) == 0.0
    ensures Sum(s, f) == 0.0
    decreases |s|
  {
    if s != {} {
      var x :| x in s;
      SumRemove(s, f, x);
      SumZero(s - {x}, f);
    }
  }

  /** Elements where the function vanishes do not matter. */
  lemma {:induction false} SumExtend(s: set<Key>, t: set<Key>, f: Key -> real)
    requires s <= t
    requires forall x :: x in t && x !in s ==> f(x) == 0.0
    ensures Sum(t, f) == Sum(s, f)
    decreases |s|
  {
    if s == {} {
      SumZero(t, f);
    } else {
      var x :| x in s;
      SumRemove(s, f, x);
      SumRemove(t, f, x);
      SumExtend(s - {x}, t - {x}, f);
    }
  }

  /** A sum may be taken over the images of an injective relabelling. */
  lemma {:induction false} SumImage(s: set<Key>, t: set<Key>, phi: Key -> Key, f: Key -> real, g: Key -> real)
    requires forall x :: x in s ==> phi(x) in t && g(phi(x)) == f(x)
    requires forall x, y :: x in s && y in s && phi(x) == phi(y) ==> x == y
    requires forall y :: y in t ==> exists x :: x in s && phi(x) == y
    ensures Sum(s, f) == Sum(t, g)
    decreases |s|
  {
    if s == {} {
      assert t == {};
    } else {
      var x :| x in s;
      SumRemove(s, f, x);
      SumRemove(t, g, phi(x));
      forall y | y in t - {phi(x)} ensures exists z :: z in s - {x} && phi(z) == y {
        var z :| z in s && phi(z) == y;
        assert z in s - {x};
      }
      SumImage(s - {x}, t - {phi(x)}, phi, f, g);
    }
  }
}
