/** Reclaiming a partition: the rows a predicate keeps, in order. */
module Reclaims {
  import opened BasisStrings
  import opened PairProtocol

  type Keep = (Key, real) -> bool

  function KeptKeys(keys: seq<Key>, coeffs: seq<real>, keep: Keep): (r: seq<Key>)
    requires |keys| == |coeffs|
    ensures |r| == |KeptCoeffs(keys, coeffs, keep)| <= |keys|
  {
    if keys == [] then []
    else
      var last := |keys| - 1;
      KeptKeys(keys[..last], coeffs[..last], keep) + if keep(keys[last], coeffs[last]) then [keys[last]] else []
  }

  function KeptCoeffs(keys: seq<Key>, coeffs: seq<real>, keep: Keep): seq<real>
    requires |keys| == |coeffs|
  {
    if keys == [] then []
    else
      var last := |keys| - 1;
      KeptCoeffs(keys[..last], coeffs[..last], keep) + if keep(keys[last], coeffs[last]) then [coeffs[last]] else []
  }

  lemma {:induction false} NoneKept(keys: seq<Key>, coeffs: seq<real>, keep: Keep)
    requires keys == [] && coeffs == []
    ensures KeptKeys(keys, coeffs, keep) == [] && KeptCoeffs(keys, coeffs, keep) == []
  {
  }

  /** The partition afterwards; whatever was held back is forgotten. */
  function Kept(p: Part, keep: Keep): Part
    requires |p.keys| == |p.coeffs|
  {
    Part(KeptKeys(p.keys, p.coeffs, keep), KeptCoeffs(p.keys, p.coeffs, keep), map[], [])
  }

  lemma KeptNext(keys: seq<Key>, coeffs: seq<real>, i: nat, keep: Keep)
    requires i < |keys| == |coeffs|
    ensures KeptKeys(keys[..i + 1], coeffs[..i + 1], keep) ==
      KeptKeys(keys[..i], coeffs[..i], keep) + if keep(keys[i], coeffs[i]) then [keys[i]] else []
    ensures KeptCoeffs(keys[..i + 1], coeffs[..i + 1], keep) ==
      KeptCoeffs(keys[..i], coeffs[..i], keep) + if keep(keys[i], coeffs[i]) then [coeffs[i]] else []
  {
    assert keys[..i + 1][..i] == keys[..i] && coeffs[..i + 1][..i] == coeffs[..i];
  }

  /** The term is row `i`. */
  predicate RowIs(keys: seq<Key>, coeffs: seq<real>, i: nat, k: Key, c: real)
  {
    i < |keys| == |coeffs| && keys[i] == k && coeffs[i] == c
  }

  /** Every kept row was there before, and the predicate keeps it. */
  lemma {:induction false} KeptWasThere(keys: seq<Key>, coeffs: seq<real>, keep: Keep, j: nat) returns (i: nat)
    requires |keys| == |coeffs| && j < |KeptKeys(keys, coeffs, keep)|
    ensures RowIs(keys, coeffs, i, KeptKeys(keys, coeffs, keep)[j], KeptCoeffs(keys, coeffs, keep)[j])
      && keep(keys[i], coeffs[i])
    decreases |keys|
  {
    var last := |keys| - 1;
    var front := KeptKeys(keys[..last], coeffs[..last], keep);
    if j < |front| {
      i := KeptWasThere(keys[..last], coeffs[..last], keep, j);
    } else {
      i := last;
    }
  }

  /** Every row the predicate keeps stays. */
  lemma {:induction false} KeptStays(keys: seq<Key>, coeffs: seq<real>, keep: Keep, i: nat) returns (j: nat)
    requires i < |keys| == |coeffs| && keep(keys[i], coeffs[i])
    ensures RowIs(KeptKeys(keys, coeffs, keep), KeptCoeffs(keys, coeffs, keep), j, keys[i], coeffs[i])
    decreases |keys|
  {
    var last := |keys| - 1;
    if i < last {
      j := KeptStays(keys[..last], coeffs[..last], keep, i);
    } else {
      j := |KeptKeys(keys[..last], coeffs[..last], keep)|;
    }
  }

  lemma {:induction false} KeptDistinct(keys: seq<Key>, coeffs: seq<real>, keep: Keep)
    requires |keys| == |coeffs| && Distinct(keys)
    ensures Distinct(KeptKeys(keys, coeffs, keep))
    decreases |keys|
  {
    if keys != [] {
      var last := |keys| - 1;
      KeptDistinct(keys[..last], coeffs[..last], keep);
      var front := KeptKeys(keys[..last], coeffs[..last], keep);
      forall j | 0 <= j < |front| ensures front[j] != keys[last] {
        var i := KeptWasThere(keys[..last], coeffs[..last], keep, j);
      }
    }
  }

  /** Reclaiming removes exactly the terms the predicate rejects and changes no coefficient. */
  lemma ReclaimIsFilter(p: Part, n: nat, keep: Keep, k: Key)
    requires PartOk(p, n)
    ensures PartOk(Kept(p, keep), n)
    ensures k in Kept(p, keep).keys <==> k in p.keys && keep(k, CoeffAt(p, k))
    ensures k in Kept(p, keep).keys ==> CoeffAt(Kept(p, keep), k) == CoeffAt(p, k)
  {
    var q := Kept(p, keep);
    KeptDistinct(p.keys, p.coeffs, keep);
    forall j | 0 <= j < |q.keys|
      ensures |q.keys[j]| == n && q.keys[j] in p.keys && keep(q.keys[j], q.coeffs[j])
        && CoeffAt(p, q.keys[j]) == q.coeffs[j]
    {
      var i := KeptWasThere(p.keys, p.coeffs, keep, j);
      assert RowOf(p.keys, q.keys[j]) == i;
    }
    if k in p.keys && keep(k, CoeffAt(p, k)) {
      var j := KeptStays(p.keys, p.coeffs, keep, RowOf(p.keys, k));
      assert q.keys[j] == k;
    }
    if k in q.keys {
      var j := RowOf(q.keys, k);
      assert q.keys[j] == k;
    }
  }

  function KeepAll(): Keep { (k, c) => true }

  lemma {:induction false} KeptAll(keys: seq<Key>, coeffs: seq<real>)
    requires |keys| == |coeffs|
    ensures KeptKeys(keys, coeffs, KeepAll()) == keys && KeptCoeffs(keys, coeffs, KeepAll()) == coeffs
    decreases |keys|
  {
    hide KeptKeys, KeptCoeffs;
    if keys == [] {
      NoneKept(keys, coeffs, KeepAll());
    } else {
      var last := |keys| - 1;
      KeptAll(keys[..last], coeffs[..last]);
      KeptNext(keys, coeffs, last, KeepAll());
      assert keys[..last + 1] == keys && coeffs[..last + 1] == coeffs;
      assert keys[..last] + [keys[last]] == keys && coeffs[..last] + [coeffs[last]] == coeffs;
    }
  }
}
