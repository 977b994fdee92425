/** The deferred Clifford as the engine holds it: two row lists and an identity flag. */
module CliffordTableaus {
  import opened Wrappers
  import opened BasisStrings
  import opened BasisAlgebra
  import opened TableauRows
  import opened Frames
  import opened PairRule
  import opened Propagation

  /** Folds the rows selected by `mono` together, rebuilding `mono` alongside for its phase. */
  method ApplyRows(kind: BasisKind, rows: seq<Row>, mono: Key) returns (r: Row)
    requires RowsOf(rows, |mono|)
    ensures r == Applied(kind, rows, mono)
  {
    var n := |mono|;
    var source, image := Phased(0, Zero(n)), Phased(0, Zero(n));
    var p := 0;
    while p < n
      invariant p <= n && Fold(source, image) == FoldRows(kind, rows, mono, p)
    {
      if mono[p] {
        source := Mul(kind, Phased(0, Unit(n, p)), source);
        image := Mul(kind, RowPhased(rows[p]), image);
      }
      p := p + 1;
    }
    var ratio := Plus(image.exp, Neg(source.exp));
    r := Row(image.key, if ratio == 2 then -1.0 else 1.0);
  }

  class CliffordTableau {
    var readout: seq<Row>
    var generator: seq<Row>
    var identity: bool

    ghost function View(): Frame
      reads this
    {
      Frame(readout, generator)
    }

    /** Both row lists cover `n` positions and the flag tells the truth. */
    ghost predicate Shape(n: nat)
      reads this
    {
      FrameShape(n, View()) && identity == (readout == IdentityRows(n))
    }

    /** The two maps are homomorphisms that undo each other. */
    ghost predicate Lawful(kind: BasisKind, n: nat)
      reads this
    {
      FrameOk(kind, n, View())
    }

    /** The tableau that conjugates nothing. */
    constructor (n: nat)
      requires n % 2 == 0
      ensures View() == IdentityFrame(n) && identity && Shape(n)
    {
      readout, generator, identity := IdentityRows(n), IdentityRows(n), true;
    }

    /** Where a stored term is read out, and with what sign. */
    method Conjugate(kind: BasisKind, mono: Key) returns (r: Row)
      requires Shape(|mono|) && Lawful(kind, |mono|)
      ensures r == Applied(kind, readout, mono)
    {
      hide FrameOk, Image, IdentityRows;
      if identity {
        IdentityBothWays(kind, |mono|, View(), mono);
        return Row(mono, 1.0);
      }
      r := ApplyRows(kind, readout, mono);
    }

    /** A later gate's generator pulled back through the tableau. */
    method ConjugateGenerator(kind: BasisKind, mono: Key) returns (r: Row)
      requires Shape(|mono|) && Lawful(kind, |mono|)
      ensures r == Applied(kind, generator, mono)
    {
      hide FrameOk, Image, IdentityRows;
      if identity {
        IdentityBothWays(kind, |mono|, View(), mono);
        return Row(mono, 1.0);
      }
      r := ApplyRows(kind, generator, mono);
    }

    /** Recomputes the identity flag after the rows change. */
    method RefreshIdentity(n: nat)
      requires |readout| == n
      modifies `identity
      ensures identity == (readout == IdentityRows(n))
    {
      identity := true;
      var p := 0;
      while p < n
        invariant p <= n && identity == (readout[..p] == IdentityRows(n)[..p])
      {
        assert readout[..p + 1] == readout[..p] + [readout[p]];
        assert IdentityRows(n)[..p + 1] == IdentityRows(n)[..p] + [Row(Unit(n, p), 1.0)];
        if readout[p] != Row(Unit(n, p), 1.0) {
          identity := false;
        }
        p := p + 1;
      }
      assert readout[..p] == readout && IdentityRows(n)[..p] == IdentityRows(n);
    }

    /** Composes `next` after this tableau: readout forward, generator backward. */
    method Compose(kind: BasisKind, n: nat, next: CliffordTableau)
      requires Shape(n) && Lawful(kind, n) && next.Shape(n) && next.Lawful(kind, n) && next != this
      modifies this
      ensures View() == ComposeFrames(kind, old(View()), next.View())
      ensures Shape(n) && Lawful(kind, n)
    {
      hide FrameOk, Image, IdentityRows, ComposeRows;
      ghost var before := View();
      ComposeFramesOk(kind, n, before, next.View());
      if next.identity {
        return;
      }
      var newReadout := ThroughRows(kind, next.readout, readout);
      var newGenerator := ThroughRows(kind, generator, next.generator);
      readout, generator := newReadout, newGenerator;
      RefreshIdentity(n);
    }

    /** Builds the tableau of one rotation, when its angle makes it a Clifford. */
    static method ForRotation(kind: BasisKind, n: nat, g: Gate) returns (r: Option<CliffordTableau>)
      requires GateOf(g, n)
      ensures r.Some? <==> g.cos == 0.0
      ensures r.Some? ==>
        fresh(r.value) && IsSign(g.sin) && r.value.View() == RotationFrame(kind, g.gen, g.sin) && r.value.Shape(n)
          && r.value.Lawful(kind, n)
    {
      hide FrameOk, Anticommutes, Xor, PhaseExp;
      if g.cos != 0.0 {
        return None;
      }
      SineIsSign(g);
      var t := new CliffordTableau(n);
      var p := 0;
      while p < n
        invariant p <= n && |t.readout| == |t.generator| == n && fresh(t)
        invariant forall i ::
          0 <= i < n ==> t.readout[i] == (if i < p then RotationRow(kind, g.gen, g.sin, i) else IdentityRows(n)[i])
        invariant forall i ::
          0 <= i < n ==> t.generator[i] == (if i < p then RotationRow(kind, g.gen, -g.sin, i) else IdentityRows(n)[i])
      {
        var unit := Unit(n, p);
        if Anticommutes(kind, g.gen, unit) {
          var image := Xor(g.gen, unit);
          var sign := g.sin * -PhaseIm(PhaseExp(kind, g.gen, unit));
          t.readout := t.readout[p := Row(image, sign)];
          t.generator := t.generator[p := Row(image, -sign)];
        }
        p := p + 1;
      }
      assert t.readout == RotationRows(kind, g.gen, g.sin);
      assert t.generator == RotationRows(kind, g.gen, -g.sin);
      t.RefreshIdentity(n);
      RotationFrameOk(kind, g.gen, g.sin);
      r := Some(t);
    }

    /** True if some generator's image covers another number of units than the generator. */
    method ChangesWeight() returns (b: bool)
      requires RowsOf(readout, |readout|)
      ensures b <==> ChangesSupport(readout)
    {
      b := false;
      var p := 0;
      while p < |readout|
        invariant p <= |readout|
          && b == exists i :: 0 <= i < p && Support(readout[i].image) != Support(Unit(|readout|, i))
      {
        if Support(readout[p].image) != Support(Unit(|readout|, p)) {
          b := true;
        }
        p := p + 1;
      }
    }
  }

  method ThroughRows(kind: BasisKind, outer: seq<Row>, inner: seq<Row>) returns (rows: seq<Row>)
    requires RowsOf(outer, |inner|) && RowsOf(inner, |inner|)
    ensures rows == ComposeRows(kind, outer, inner)
  {
    rows := [];
    var p := 0;
    while p < |inner|
      invariant p <= |inner| && rows == ComposeRows(kind, outer, inner)[..p]
    {
      var r := ApplyRows(kind, outer, inner[p].image);
      rows := rows + [Row(r.image, r.sign * inner[p].sign)];
      p := p + 1;
    }
  }
}
