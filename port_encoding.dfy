/**
 * `convertPortsOnArrayToData` of index.js: a 4- or 8-element array of 0/1 port
 * states becomes the byte driven onto the FT245R's eight bit-bang lines.
 *
 * The source works by string manipulation: a 4-element array is widened with
 * `flatMap(x => [0, x])`, the array is reversed, joined into a string of
 * digits and parsed with `parseInt(_, 2)`. The functions below follow those
 * steps one by one; `PortsValue` is the independent meaning (element i is
 * worth 2^i) and the lemmas connect the two.
 */
module PortEncoding {
  import opened Wrappers
  import opened JsValues

  type Bit = b: int | 0 <= b <= 1

  /** The element test of switchPorts: `v === 0 || v === 1`. */
  predicate IsBitValue(v: JsValue) {
    v == Number(0) || v == Number(1)
  }

  predicate AllBitValues(s: seq<JsValue>) {
    forall i :: 0 <= i < |s| ==> IsBitValue(s[i])
  }

  /** The numbers held by an array of 0/1 values. */
  function PortBits(s: seq<JsValue>): (bits: seq<Bit>)
    requires AllBitValues(s)
    ensures |bits| == |s|
    ensures forall i :: 0 <= i < |s| ==> s[i] == Number(bits[i])
  {
    seq(|s|, i requires 0 <= i < |s| => s[i].n)
  }

  /** `Array.prototype.reverse`, as a value. */
  function Reverse<T>(s: seq<T>): seq<T> {
    seq(|s|, i requires 0 <= i < |s| => s[|s| - 1 - i])
  }

  /** `flatMap(x => [zero, x])`: each element preceded by `zero`. */
  function Interleave<T>(s: seq<T>, zero: T): seq<T> {
    seq(2 * |s|, i requires 0 <= i < 2 * |s| => if i % 2 == 0 then zero else s[i / 2])
  }

  /** `join('')` of an array of 0/1 numbers. */
  function Join(bits: seq<Bit>): string {
    seq(|bits|, i requires 0 <= i < |bits| => if bits[i] == 1 then '1' else '0')
  }

  predicate IsBinaryDigit(c: char) {
    c == '0' || c == '1'
  }

  /** Length of the longest run of binary digits at the front of `s`: the part `parseInt(s, 2)` reads. */
  function BinaryPrefixLength(s: string): (k: nat)
    ensures k <= |s|
    ensures forall i :: 0 <= i < k ==> IsBinaryDigit(s[i])
    ensures k < |s| ==> !IsBinaryDigit(s[k])
  {
    if s == [] || !IsBinaryDigit(s[0]) then 0 else 1 + BinaryPrefixLength(s[1..])
  }

  /** The number a string of binary digits denotes, most significant digit first. */
  function DigitsValue(d: string): nat {
    if d == [] then 0 else 2 * DigitsValue(d[..|d| - 1]) + (if d[|d| - 1] == '1' then 1 else 0)
  }

  /** `parseInt(s, 2)`: the value of the leading binary digits, `None` standing for NaN when there are none. */
  function ParseBinary(s: string): (r: Option<nat>)
    ensures r.None? <==> (s == [] || !IsBinaryDigit(s[0]))
  {
    var k := BinaryPrefixLength(s);
    if k == 0 then None else Some(DigitsValue(s[..k]))
  }

  /** The array that gets reversed: a 4-element array is widened to 8 first. */
  function Widened(ports: seq<Bit>): seq<Bit> {
    if |ports| == 4 then Interleave(ports, 0) else ports
  }

  /** `convertPortsOnArrayToData` on the values it is given; NaN (`None`) only for an empty array. */
  function Convert(ports: seq<Bit>): (r: Option<nat>)
    ensures r.Some? <==> ports != []
  {
    ParseBinary(Join(Reverse(Widened(ports))))
  }

  function Pow2(n: nat): (p: nat)
    ensures p >= 1
  {
    if n == 0 then 1 else 2 * Pow2(n - 1)
  }

  /** The reference meaning: the sum of ports[i] * 2^i, element i driving line i. */
  function PortsValue(ports: seq<Bit>): nat {
    if ports == [] then 0
    else PortsValue(ports[..|ports| - 1]) + ports[|ports| - 1] * Pow2(|ports| - 1)
  }

  /** The sum of ports[i] * 2^(2i+1): element i driving the odd line 2i+1. */
  function OddPortsValue(ports: seq<Bit>): nat {
    if ports == [] then 0
    else OddPortsValue(ports[..|ports| - 1]) + ports[|ports| - 1] * Pow2(2 * |ports| - 1)
  }

  /** Bit i of n, i.e. the state of output line i when n is written. */
  function BitAt(n: nat, i: nat): Bit {
    if i == 0 then n % 2 else BitAt(n / 2, i - 1)
  }

  /** The port array a byte denotes: the inverse of the 8-element encoding. */
  function PortsOf(n: nat, width: nat): (ports: seq<Bit>)
    ensures |ports| == width
  {
    seq(width, i requires 0 <= i < width => BitAt(n, i))
  }

  // ---------------------------------------------------------------------------
  // The string pipeline computes the reference sum.

  lemma {:induction false} PortsValuePrepend(x: Bit, ports: seq<Bit>)
    ensures PortsValue([x] + ports) == x + 2 * PortsValue(ports)
  {
    if ports != [] {
      var init := ports[..|ports| - 1];
      assert ([x] + ports)[..|ports|] == [x] + init;
      PortsValuePrepend(x, init);
    }
  }

  lemma PortsValueAppendTwo(s: seq<Bit>, a: Bit, b: Bit)
    ensures PortsValue(s + [a, b]) == PortsValue(s) + a * Pow2(|s|) + b * Pow2(|s| + 1)
  {
    assert (s + [a, b])[..|s| + 1] == s + [a];
    assert (s + [a])[..|s|] == s;
  }

  lemma {:induction false} DigitsOfReversedPorts(ports: seq<Bit>)
    ensures DigitsValue(Join(Reverse(ports))) == PortsValue(ports)
  {
    if ports != [] {
      var rest := ports[1..];
      var d := Join(Reverse(rest));
      assert Join(Reverse(ports)) == d + [if ports[0] == 1 then '1' else '0'];
      assert (d + [if ports[0] == 1 then '1' else '0'])[..|d|] == d;
      DigitsOfReversedPorts(rest);
      assert ports == [ports[0]] + rest;
      PortsValuePrepend(ports[0], rest);
    }
  }

  lemma JoinIsBinary(bits: seq<Bit>)
    ensures BinaryPrefixLength(Join(bits)) == |bits|
  {
  }

  /** The encoder computes the reference sum of the (widened) array. */
  lemma ConvertIsPortsValue(ports: seq<Bit>)
    requires ports != []
    ensures Convert(ports) == Some(PortsValue(Widened(ports)))
  {
    var w := Widened(ports);
    var s := Join(Reverse(w));
    JoinIsBinary(Reverse(w));
    assert s[..|s|] == s;
    DigitsOfReversedPorts(w);
  }

  // ---------------------------------------------------------------------------
  // Bits of the reference sum.

  lemma {:induction false} PortsValueBound(ports: seq<Bit>)
    ensures PortsValue(ports) < Pow2(|ports|)
  {
    if ports != [] {
      PortsValueBound(ports[..|ports| - 1]);
    }
  }

  lemma {:induction false} BitAtZero(i: nat)
    ensures BitAt(0, i) == 0
  {
    if i > 0 {
      BitAtZero(i - 1);
    }
  }

  /** Element i of the array is bit i of its value; bits beyond the array are clear. */
  lemma {:induction false} PortsValueBits(ports: seq<Bit>, i: nat)
    ensures BitAt(PortsValue(ports), i) == if i < |ports| then ports[i] else 0
  {
    if ports == [] {
      BitAtZero(i);
    } else {
      var rest := ports[1..];
      assert ports == [ports[0]] + rest;
      PortsValuePrepend(ports[0], rest);
      if i > 0 {
        assert PortsValue(ports) / 2 == PortsValue(rest);
        PortsValueBits(rest, i - 1);
      }
    }
  }

  /** A power of two has exactly one bit set. */
  lemma {:induction false} BitAtPow2(m: nat, i: nat)
    ensures BitAt(Pow2(m), i) == if i == m then 1 else 0
  {
    if i > 0 {
      if m == 0 {
        BitAtZero(i - 1);
      } else {
        BitAtPow2(m - 1, i - 1);
      }
    }
  }

  /** Pow2 is monotone. */
  lemma {:induction false} Pow2Monotone(m: nat, n: nat)
    requires m <= n
    ensures Pow2(m) <= Pow2(n)
  {
    if m < n {
      Pow2Monotone(m, n - 1);
    }
  }

  /** An array with every element equal to x has value x * (2^n - 1). */
  lemma {:induction false} ConstantPortsValue(x: Bit, n: nat)
    ensures PortsValue(seq(n, _ => x)) == x * (Pow2(n) - 1)
  {
    if n > 0 {
      assert seq(n, _ => x)[..n - 1] == seq(n - 1, _ => x);
      ConstantPortsValue(x, n - 1);
      if x == 0 {
        assert PortsValue(seq(n, _ => x)) == 0;
      } else {
        assert PortsValue(seq(n, _ => x)) == Pow2(n) - 1;
      }
    }
  }

  lemma {:induction false} InterleaveValue(ports: seq<Bit>)
    ensures PortsValue(Interleave(ports, 0)) == OddPortsValue(ports)
  {
    if ports != [] {
      var init := ports[..|ports| - 1];
      var x := ports[|ports| - 1];
      assert Interleave(ports, 0) == Interleave(init, 0) + [0, x];
      PortsValueAppendTwo(Interleave(init, 0), 0, x);
      InterleaveValue(init);
    }
  }

  lemma {:induction false} PortsOfValue(n: nat, width: nat)
    requires n < Pow2(width)
    ensures PortsValue(PortsOf(n, width)) == n
  {
    if width > 0 {
      var rest := PortsOf(n / 2, width - 1);
      assert PortsOf(n, width) == [n % 2] + rest;
      PortsOfValue(n / 2, width - 1);
      PortsValuePrepend(n % 2, rest);
    }
  }

  // ---------------------------------------------------------------------------
  // What the encoder promises for the two accepted lengths.

  /** With 8 elements, element i drives bit i and the result is a byte. */
  lemma EightPorts(ports: seq<Bit>)
    requires |ports| == 8
    ensures Convert(ports) == Some(PortsValue(ports))
    ensures PortsValue(ports) < 256
    ensures forall i :: 0 <= i < 8 ==> BitAt(Convert(ports).value, i) == ports[i]
    ensures forall i :: i >= 8 ==> BitAt(Convert(ports).value, i) == 0
  {
    ConvertIsPortsValue(ports);
    PortsValueBound(ports);
    forall i: nat ensures BitAt(PortsValue(ports), i) == if i < 8 then ports[i] else 0 {
      PortsValueBits(ports, i);
    }
  }

  lemma FourPortsBound(ports: seq<Bit>)
    requires |ports| == 4
    ensures OddPortsValue(ports) <= 0xAA
  {
    assert Pow2(1) == 2 && Pow2(3) == 8 && Pow2(5) == 32 && Pow2(7) == 128;
    assert ports[..3][..2] == ports[..2] && ports[..2][..1] == ports[..1] && ports[..1][..0] == [];
    assert OddPortsValue(ports[..1]) <= 2;
    assert OddPortsValue(ports[..2]) <= 2 + 8;
    assert OddPortsValue(ports[..3]) <= 2 + 8 + 32;
    assert ports[..4] == ports;
  }

  /** With 4 elements, element i drives bit 2i+1, even bits and bits from 8 on stay clear, and the result is at most 0xAA. */
  lemma FourPorts(ports: seq<Bit>)
    requires |ports| == 4
    ensures Convert(ports) == Some(OddPortsValue(ports))
    ensures OddPortsValue(ports) <= 0xAA
    ensures forall i :: 0 <= i < 4 ==> BitAt(Convert(ports).value, 2 * i + 1) == ports[i]
    ensures forall i :: 0 <= i < 4 ==> BitAt(Convert(ports).value, 2 * i) == 0
    ensures forall i :: i >= 8 ==> BitAt(Convert(ports).value, i) == 0
  {
    var w := Interleave(ports, 0);
    ConvertIsPortsValue(ports);
    InterleaveValue(ports);
    FourPortsBound(ports);
    var v := OddPortsValue(ports);
    assert v == PortsValue(w);
    forall i | 0 <= i < 4 ensures BitAt(v, 2 * i + 1) == ports[i] && BitAt(v, 2 * i) == 0 {
      assert (2 * i + 1) / 2 == i && (2 * i + 1) % 2 == 1 && (2 * i) % 2 == 0;
      PortsValueBits(w, 2 * i + 1);
      PortsValueBits(w, 2 * i);
    }
    forall i: nat | i >= 8 ensures BitAt(v, i) == 0 {
      PortsValueBits(w, i);
    }
  }

  /** Decoding the written byte gives back the 8-element array. */
  lemma DecodeEightPorts(ports: seq<Bit>)
    requires |ports| == 8
    ensures PortsOf(Convert(ports).value, 8) == ports
  {
    EightPorts(ports);
  }

  /** Every byte is written by exactly the 8-element array that decodes from it. */
  lemma EncodeDecodedByte(n: nat)
    requires n < 256
    ensures Convert(PortsOf(n, 8)) == Some(n)
  {
    assert Pow2(8) == 256;
    PortsOfValue(n, 8);
    EightPorts(PortsOf(n, 8));
  }

  /** Distinct 8-element arrays write distinct bytes. */
  lemma EightPortsInjective(a: seq<Bit>, b: seq<Bit>)
    requires |a| == 8 && |b| == 8
    requires Convert(a) == Convert(b)
    ensures a == b
  {
    DecodeEightPorts(a);
    DecodeEightPorts(b);
  }

  // ---------------------------------------------------------------------------
  // The in-place behaviour of the source.

  lemma PortBitsReverse(s: seq<JsValue>)
    requires AllBitValues(s)
    ensures AllBitValues(Reverse(s))
    ensures PortBits(Reverse(s)) == Reverse(PortBits(s))
  {
  }

  lemma PortBitsInterleave(s: seq<JsValue>)
    requires AllBitValues(s)
    ensures AllBitValues(Interleave(s, Number(0)))
    ensures PortBits(Interleave(s, Number(0))) == Interleave(PortBits(s), 0)
  {
  }

  /** `Array.prototype.reverse` on an array. */
  method ReverseInPlace<T>(a: array<T>)
    modifies a
    ensures a[..] == Reverse(old(a[..]))
  {
    var lo, hi := 0, a.Length - 1;
    while lo < hi
      invariant 0 <= lo <= a.Length && hi == a.Length - 1 - lo
      invariant forall k :: 0 <= k < lo ==> a[k] == old(a[a.Length - 1 - k]) && a[a.Length - 1 - k] == old(a[k])
      invariant forall k :: lo <= k <= hi ==> a[k] == old(a[k])
    {
      a[lo], a[hi] := a[hi], a[lo];
      lo, hi := lo + 1, hi - 1;
    }
  }

  /**
   * `convertPortsOnArrayToData(aPortsOnArray)` on an array of 0/1 numbers.
   * An 8-element (or any non-4-element) array is reversed in place, so the
   * caller sees its array reversed; a 4-element array is widened into a fresh
   * array first and is left as it was.
   */
  method ConvertPortsOnArrayToData(ports: array<JsValue>) returns (r: Option<nat>)
    requires AllBitValues(ports[..])
    modifies ports
    ensures r == Convert(PortBits(old(ports[..])))
    ensures ports.Length == 4 ==> ports[..] == old(ports[..])
    ensures ports.Length != 4 ==> ports[..] == Reverse(old(ports[..]))
  {
    ghost var original := ports[..];
    var computed := ports;
    if ports.Length == 4 {
      computed := new JsValue[8];
      var i := 0;
      while i < 4
        invariant 0 <= i <= 4
        invariant ports[..] == original
        invariant forall k :: 0 <= k < 2 * i ==> computed[k] == Interleave(original, Number(0))[k]
      {
        computed[2 * i] := Number(0);
        computed[2 * i + 1] := ports[i];
        i := i + 1;
      }
      assert computed[..] == Interleave(original, Number(0));
      PortBitsInterleave(original);
    }
    ghost var widened := computed[..];
    assert AllBitValues(widened) && PortBits(widened) == Widened(PortBits(original));
    ReverseInPlace(computed);
    PortBitsReverse(widened);
    r := ParseBinary(Join(PortBits(computed[..])));
  }
}
