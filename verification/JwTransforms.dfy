/**
 The Jordan-Wigner conversions as the library performs them: one pass over the letters of a
 Pauli string or over the bits of a mode mask, carrying a parity and a phase.
 */
module JwTransforms {
  import opened BasisStrings
  import opened BasisAlgebra
  import opened JordanWigner

  /** The letter of one unit. */
  function Letter(x: bool, z: bool): char
  {
    if x then (if z then 'Y' else 'X') else if z then 'Z' else 'I'
  }

  /** The letters of a string; the first character is the highest unit. */
  function LettersOf(p: Key): (s: string)
    requires |p| % 2 == 0
    ensures |s| == |p| / 2
  {
    seq(|p| / 2, i requires 0 <= i < |p| / 2 && |p| % 2 == 0 => Letter(p[|p| - 2 * i - 2], p[|p| - 2 * i - 1]))
  }

  predicate IsLetter(c: char) { c == 'I' || c == 'X' || c == 'Y' || c == 'Z' }

  predicate IsPauliText(s: string) { forall i :: 0 <= i < |s| ==> IsLetter(s[i]) }

  /** The string a text spells. */
  function KeyOf(s: string): (p: Key)
    ensures |p| == 2 * |s|
  {
    seq(2 * |s|, b requires 0 <= b < 2 * |s| =>
      var c := s[|s| - 1 - b / 2];
      if b % 2 == 0 then c == 'X' || c == 'Y' else c == 'Z' || c == 'Y')
  }

  lemma KeyAt(s: string, q: nat)
    requires q < |s|
    ensures KeyOf(s)[2 * q] == (s[|s| - 1 - q] == 'X' || s[|s| - 1 - q] == 'Y')
    ensures KeyOf(s)[2 * q + 1] == (s[|s| - 1 - q] == 'Z' || s[|s| - 1 - q] == 'Y')
  {
    assert (2 * q) / 2 == q && (2 * q + 1) / 2 == q && (2 * q) % 2 == 0 && (2 * q + 1) % 2 == 1;
  }

  /** Spelling and reading undo each other. */
  lemma TextRoundTrip(p: Key, s: string)
    requires |p| % 2 == 0 && IsPauliText(s)
    ensures KeyOf(LettersOf(p)) == p && IsPauliText(LettersOf(p))
    ensures LettersOf(KeyOf(s)) == s
  {
    hide KeyOf;
    var t := LettersOf(p);
    forall q: nat | q < |p| / 2 ensures SameUnit(KeyOf(t), p, q) {
      KeyAt(t, q);
      assert t[|t| - 1 - q] == Letter(p[2 * q], p[2 * q + 1]);
    }
    KeysByUnit(KeyOf(t), p);
    forall i | 0 <= i < |s| ensures LettersOf(KeyOf(s))[i] == s[i] {
      KeyAt(s, |s| - 1 - i);
    }
  }

  lemma PhaseStep(odd: nat, y: nat, dOdd: nat, dY: nat, phase: Exp, factor: Exp)
    requires phase == (odd - y) % 4 && (dOdd - dY) % 4 == factor
    ensures Plus(phase, factor) == (odd + dOdd - (y + dY)) % 4
  {
  }

  /** Modes to letters, from the highest unit down. */
  method JwInverseTransform(modes: Key) returns (chars: string, phase: Exp)
    requires |modes| % 2 == 0
    ensures chars == LettersOf(ToPauli(modes))
    ensures phase == ForwardExp(ToPauli(modes))
  {
    hide ToModes, ToPauli;
    ghost var p := ToPauli(modes);
    ModesRoundTrip(modes);
    var n := |modes| / 2;
    chars, phase := "", 0;
    var zParity := false;
    var q: nat := n;
    while q > 0
      invariant q <= n && |chars| == n - q
      invariant zParity == SingleAbove(modes, q)
      invariant forall i :: 0 <= i < |chars| ==> chars[i] == LettersOf(p)[i]
      invariant phase == (OddModesFrom(modes, q) - YFrom(p, q)) % 4
    {
      q := q - 1;
      PauliAt(modes, q);
      ghost var odd, y := OddModesFrom(modes, q + 1), YFrom(p, q + 1);
      var be, bo := modes[2 * q], modes[2 * q + 1];
      var c: char, factor: Exp := 'I', 0;
      if !be && !bo {
        c := if zParity then 'Z' else 'I';
      } else if be && !bo {
        if !zParity {
          c := 'X';
        } else {
          c, factor := 'Y', 3;
        }
        zParity := !zParity;
      } else if !be && bo {
        if !zParity {
          c := 'Y';
        } else {
          c, factor := 'X', 1;
        }
        zParity := !zParity;
      } else {
        c, factor := if !zParity then 'Z' else 'I', 1;
      }
      assert c == LettersOf(p)[|chars|] by {
        assert |p| - 2 * |chars| - 2 == 2 * q;
      }
      PhaseStep(odd, y, Bit(bo), Bit(p[2 * q] && p[2 * q + 1]), phase, factor);
      chars := chars + [c];
      phase := Plus(phase, factor);
    }
    assert chars == LettersOf(p);
  }

  /** Letters to modes, from the highest unit down. */
  method JwTransform(text: string) returns (modes: Key, phase: Exp)
    requires IsPauliText(text)
    ensures modes == ToModes(KeyOf(text))
    ensures phase == ForwardExp(KeyOf(text))
  {
    hide ToModes, KeyOf;
    var n := |text|;
    ghost var p := KeyOf(text);
    ghost var m := ToModes(p);
    modes, phase := Zero(2 * n), 0;
    var zParity := false;
    var q: nat := n;
    while q > 0
      invariant q <= n && |modes| == 2 * n
      invariant zParity == XAbove(p, q)
      invariant forall i :: 0 <= i < 2 * n ==> modes[i] == (i >= 2 * q && m[i])
      invariant phase == (OddModesFrom(m, q) - YFrom(p, q)) % 4
    {
      q := q - 1;
      KeyAt(text, q);
      ModesAt(p, q);
      ghost var odd, y := OddModesFrom(m, q + 1), YFrom(p, q + 1);
      var c := text[n - 1 - q];
      var factor: Exp := 0;
      assert IsLetter(c);
      if c == 'I' {
        if zParity {
          modes, factor := modes[2 * q := true][2 * q + 1 := true], 1;
        }
      } else if c == 'X' {
        if !zParity {
          modes := modes[2 * q := true];
        } else {
          modes, factor := modes[2 * q + 1 := true], 1;
        }
        zParity := !zParity;
      } else if c == 'Y' {
        if !zParity {
          modes := modes[2 * q + 1 := true];
        } else {
          modes, factor := modes[2 * q := true], 3;
        }
        zParity := !zParity;
      } else if !zParity {
        modes, factor := modes[2 * q := true][2 * q + 1 := true], 1;
      }
      PhaseStep(odd, y, Bit(m[2 * q + 1]), Bit(p[2 * q] && p[2 * q + 1]), phase, factor);
      phase := Plus(phase, factor);
    }
    assert modes == m;
  }

  // ---- converting terms ---------------------------------------------------------

  /** The real part of a power of i; the imaginary part vanishes for the exponents met here. */
  function RealPart(e: Exp): real { if e == 0 then 1.0 else if e == 2 then -1.0 else 0.0 }

  function HermiticityOf(modes: Key): Exp { (Count(modes) / 2) % 2 }

  lemma HermiticityIs(k: nat)
    ensures (k / 2) % 2 == HermiticityExp(k)
  {
  }

  /** A Pauli term becomes a Majorana term: the complex factor is divided out. */
  method FromPauliTerm(text: string, coeff: real) returns (modes: Key, value: real)
    requires IsPauliText(text)
    ensures modes == ToModes(KeyOf(text))
    ensures SignExpOf(KeyOf(text)) == 0 || SignExpOf(KeyOf(text)) == 2
    ensures value == coeff * RealPart(SignExpOf(KeyOf(text)))
  {
    hide ToModes, KeyOf;
    var phase: Exp;
    modes, phase := JwTransform(text);
    HermiticityIs(Count(modes));
    SignIsReal(KeyOf(text));
    var factor := Plus(HermiticityOf(modes), phase);
    NegPlus(HermiticityOf(modes), phase);
    value := coeff * RealPart(Neg(factor));
  }

  lemma NegPlus(h: Exp, f: Exp)
    ensures var (x: int, y: int) := (h, f); Neg(Plus(h, f)) == (-x - y) % 4
  {
  }

  /** A Majorana term becomes a Pauli term: the factor is multiplied back in. */
  method ToPauliTerm(modes: Key, coeff: real) returns (text: string, value: real)
    requires |modes| % 2 == 0
    ensures text == LettersOf(ToPauli(modes))
    ensures value == coeff * RealPart(SignExpOf(ToPauli(modes)))
  {
    hide ToModes, ToPauli;
    var phase: Exp;
    text, phase := JwInverseTransform(modes);
    ModesRoundTrip(modes);
    HermiticityIs(Count(modes));
    SignIsReal(ToPauli(modes));
    var factor := Plus(HermiticityOf(modes), phase);
    NegPlus(HermiticityOf(modes), phase);
    value := coeff * RealPart(factor);
  }

  /** Converting there and back returns the term, text and coefficient. */
  lemma TermRoundTrip(text: string, coeff: real)
    requires IsPauliText(text)
    ensures var modes := ToModes(KeyOf(text));
      var value := coeff * RealPart(SignExpOf(KeyOf(text)));
      && LettersOf(ToPauli(modes)) == text
      && value * RealPart(SignExpOf(ToPauli(modes))) == coeff
  {
    hide ToModes, ToPauli, KeyOf, LettersOf;
    PauliRoundTrip(KeyOf(text));
    TextRoundTrip([], text);
    SignIsReal(KeyOf(text));
  }
}
