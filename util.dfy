/** Model of util/util.go: linear search, parsing with a default, the scalar
    product with its length sentinel, arg-max, and the most-significant-bit-first
    binary encoder and decoder. None of these operations mutates its inputs. */
module Util {

  /** A float64 result: a finite value, or the NaN that Go produces for 0.0/0.0. */
  datatype Float = Finite(value: real) | NaN

  datatype Option<T> = None | Some(value: T)

  // ------------------------------------------------------------------
  // Linear search

  /** Position of the first occurrence of `x` in `s`, or -1 when there is none. */
  function FirstIndex<T(==)>(s: seq<T>, x: T): (r: int)
    ensures -1 <= r < |s|
    ensures r == -1 <==> x !in s
    ensures r >= 0 ==> s[r] == x && x !in s[..r]
  {
    if s == [] then -1
    else if s[0] == x then 0
    else
      var r := FirstIndex(s[1..], x);
      assert s[1..][..if r < 0 then 0 else r] == s[1..1 + if r < 0 then 0 else r];
      if r < 0 then -1 else r + 1
  }

  /** StringInSlice: (true, first index of a match), or (false, -1). */
  method StringInSlice(element: string, slice: seq<string>) returns (found: bool, index: int)
    ensures found <==> element in slice
    ensures index == FirstIndex(slice, element)
  {
    var i := 0;
    while i < |slice|
      invariant 0 <= i <= |slice|
      invariant element !in slice[..i]
    {
      if slice[i] == element {
        return true, i;
      }
      assert slice[..i + 1] == slice[..i] + [slice[i]];
      i := i + 1;
    }
    assert slice[..i] == slice;
    return false, -1;
  }

  // ------------------------------------------------------------------
  // StringToFloat, with strconv.ParseFloat taken as the partial function `parse`

  /** The value a position holds in mode 0: the parsed value, or `def`. */
  function ParsedOr(parsed: Option<real>, def: real): real
  {
    match parsed
    case Some(v) => v
    case None => def
  }

  /** The values of mode 1: the parsable entries of `slice`, in order. */
  function ParsedValues(slice: seq<string>, parse: string -> Option<real>): (r: seq<real>)
    ensures |r| <= |slice|
  {
    if slice == [] then []
    else
      var last := parse(slice[|slice| - 1]);
      ParsedValues(slice[..|slice| - 1], parse) + (if last.Some? then [last.value] else [])
  }

  /** Every value of mode 1 is the parse of some entry of the input. */
  lemma {:induction false} ParsedValuesSound(slice: seq<string>, parse: string -> Option<real>)
    ensures forall x :: x in ParsedValues(slice, parse) ==>
              exists i :: 0 <= i < |slice| && parse(slice[i]) == Some(x)
  {
    if slice != [] {
      var init := slice[..|slice| - 1];
      ParsedValuesSound(init, parse);
      forall x | x in ParsedValues(slice, parse)
        ensures exists i :: 0 <= i < |slice| && parse(slice[i]) == Some(x)
      {
        if x in ParsedValues(init, parse) {
          var i :| 0 <= i < |init| && parse(init[i]) == Some(x);
          assert slice[i] == init[i];
        } else {
          assert parse(slice[|slice| - 1]) == Some(x);
        }
      }
    }
  }

  /** When every entry parses, mode 1 keeps every value, position by position. */
  lemma {:induction false} ParsedValuesAllParsable(slice: seq<string>, parse: string -> Option<real>)
    requires forall i :: 0 <= i < |slice| ==> parse(slice[i]).Some?
    ensures |ParsedValues(slice, parse)| == |slice|
    ensures forall i :: 0 <= i < |slice| ==> ParsedValues(slice, parse)[i] == parse(slice[i]).value
  {
    if slice != [] {
      var init := slice[..|slice| - 1];
      ParsedValuesAllParsable(init, parse);
    }
  }

  /** StringToFloat: mode 0 keeps the length and puts `def` where parsing fails;
      every other mode keeps only the parsable values, in order. */
  method StringToFloat(slice: seq<string>, mode: int, def: real, parse: string -> Option<real>)
    returns (result: seq<real>)
    ensures mode == 0 ==> |result| == |slice|
    ensures mode == 0 ==> forall i :: 0 <= i < |slice| ==> result[i] == ParsedOr(parse(slice[i]), def)
    ensures mode != 0 ==> result == ParsedValues(slice, parse)
  {
    result := if mode == 0 then seq(|slice|, _ => 0.0) else [];
    var index := 0;
    while index < |slice|
      invariant 0 <= index <= |slice|
      invariant mode == 0 ==> |result| == |slice|
      invariant mode == 0 ==> forall i :: 0 <= i < index ==> result[i] == ParsedOr(parse(slice[i]), def)
      invariant mode != 0 ==> result == ParsedValues(slice[..index], parse)
    {
      var casted := parse(slice[index]);
      if mode == 0 {
        if casted.Some? {
          result := result[index := casted.value];
        } else {
          result := result[index := def];
        }
      } else {
        assert slice[..index + 1][..index] == slice[..index];
        if casted.Some? {
          result := result + [casted.value];
        }
      }
      index := index + 1;
    }
    assert slice[..index] == slice;
  }

  // ------------------------------------------------------------------
  // Scalar product

  /** Sum of a[k] * b[k] for k < n, accumulated from k = 0 upwards. */
  function Dot(a: seq<real>, b: seq<real>, n: nat): real
    requires n <= |a| && n <= |b|
  {
    if n == 0 then 0.0 else Dot(a, b, n - 1) + a[n - 1] * b[n - 1]
  }

  /** What ScalarProduct returns: -1.0 for different lengths, otherwise the sum. */
  function ScalarValue(a: seq<real>, b: seq<real>): real
  {
    if |a| != |b| then -1.0 else Dot(a, b, |a|)
  }

  /** An all-zero vector has scalar product 0 with any vector of the same length. */
  lemma {:induction false} DotZeros(a: seq<real>, b: seq<real>, n: nat)
    requires n <= |a| && n <= |b|
    requires forall i :: 0 <= i < |a| ==> a[i] == 0.0
    ensures Dot(a, b, n) == 0.0
  {
    if n > 0 {
      DotZeros(a, b, n - 1);
    }
  }

  method ScalarProduct(a: seq<real>, b: seq<real>) returns (r: real)
    ensures |a| != |b| ==> r == -1.0
    ensures |a| == |b| ==> r == Dot(a, b, |a|)
    ensures a == [] && b == [] ==> r == 0.0
  {
    if |a| != |b| {
      return -1.0;
    }
    r := 0.0;
    var index := 0;
    while index < |a|
      invariant 0 <= index <= |a|
      invariant r == Dot(a, b, index)
    {
      r := r + a[index] * b[index];
      index := index + 1;
    }
  }

  // ------------------------------------------------------------------
  // Arg-max

  /** The index MaxInSlice reports for v: the first position of the largest
      element when some element is positive, and 0 otherwise. */
  ghost predicate IsMaxIndex(v: seq<real>, mi: int)
  {
    if exists j :: 0 <= j < |v| && v[j] > 0.0 then
      0 <= mi < |v| && (forall j :: 0 <= j < |v| ==> v[j] <= v[mi]) && forall j :: 0 <= j < mi ==> v[j] < v[mi]
    else
      mi == 0
  }

  /** At most one index fits that description. */
  lemma {:induction false} IsMaxIndexUnique(v: seq<real>, a: int, b: int)
    requires IsMaxIndex(v, a) && IsMaxIndex(v, b)
    ensures a == b
  {
  }

  /** MaxInSlice: mv is max(0, max v); mi is the first position holding mv when
      some element exceeds 0, and 0 otherwise (including the empty slice). */
  method MaxInSlice(v: seq<real>) returns (mv: real, mi: int)
    ensures IsMaxIndex(v, mi)
    ensures mv >= 0.0
    ensures forall j :: 0 <= j < |v| ==> v[j] <= mv
    ensures mv > 0.0 ==> 0 <= mi < |v| && v[mi] == mv && forall j :: 0 <= j < mi ==> v[j] < mv
    ensures mv == 0.0 ==> mi == 0
  {
    mv, mi := 0.0, 0;
    var i := 0;
    while i < |v|
      invariant 0 <= i <= |v|
      invariant mv >= 0.0
      invariant forall j :: 0 <= j < i ==> v[j] <= mv
      invariant mv > 0.0 ==> 0 <= mi < i && v[mi] == mv && forall j :: 0 <= j < mi ==> v[j] < mv
      invariant mv == 0.0 ==> mi == 0
    {
      if v[i] > mv {
        mv, mi := v[i], i;
      }
      i := i + 1;
    }
  }

  // ------------------------------------------------------------------
  // Binary encoding, most significant bit first

  function Pow2(k: nat): (r: nat)
    ensures r >= 1
  {
    if k == 0 then 1 else 2 * Pow2(k - 1)
  }

  /** The digits strconv.FormatInt(n, 2) writes for n >= 0 ("0" for zero). */
  function BinaryDigits(n: nat): (s: string)
    ensures |s| >= 1
    ensures forall i :: 0 <= i < |s| ==> s[i] == '0' || s[i] == '1'
    ensures n > 0 ==> s[0] == '1'
  {
    if n < 2 then [if n == 0 then '0' else '1']
    else BinaryDigits(n / 2) + [if n % 2 == 0 then '0' else '1']
  }

  /** strconv.FormatInt(n, 2): a minus sign before the digits of -n when n < 0. */
  function FormatBase2(n: int): string
  {
    if n < 0 then ['-'] + BinaryDigits(-n) else BinaryDigits(n)
  }

  /** strconv.ParseFloat of a one-character string, with a failed parse giving 0. */
  function DigitValue(c: char): real
  {
    if c == '1' then 1.0 else 0.0
  }

  function DigitValues(s: string): (r: seq<real>)
    ensures |r| == |s|
  {
    seq(|s|, i requires 0 <= i < |s| => DigitValue(s[i]))
  }

  function Zeros(k: nat): (r: seq<real>)
    ensures |r| == k
  {
    seq(k, _ => 0.0)
  }

  /** The result of ConvertIntToBinary(n, d): the digits right-aligned in d slots
      when they fit; otherwise a vector as long as the digits that holds their
      first d, followed by zeros. */
  function IntToBinary(n: int, d: nat): seq<real>
  {
    var bs := FormatBase2(n);
    if |bs| <= d then Zeros(d - |bs|) + DigitValues(bs)
    else DigitValues(bs[..d]) + Zeros(|bs| - d)
  }

  method ConvertIntToBinary(n: int, d: nat) returns (bi: seq<real>)
    ensures bi == IntToBinary(n, d)
  {
    var bs := FormatBase2(n);
    bi := Zeros(d);
    var zn := d - |bs|;
    if zn < 0 {
      bi := Zeros(|bs|);
      zn := 0;
    }
    var zIndex := 0;
    while zIndex < d
      invariant 0 <= zIndex <= d
      invariant |bi| == if |bs| <= d then d else |bs|
      invariant zn == if |bs| <= d then d - |bs| else 0
      invariant forall i :: 0 <= i < zIndex ==>
        bi[i] == if i < zn then 0.0 else DigitValue(bs[i - zn])
      invariant forall i :: zIndex <= i < |bi| ==> bi[i] == 0.0
    {
      if zIndex < zn {
        bi := bi[zIndex := 0.0];
      } else {
        bi := bi[zIndex := DigitValue(bs[zIndex - zn])];
      }
      zIndex := zIndex + 1;
    }
    assert bi == IntToBinary(n, d);
  }

  /** Shape of the encoding: length max(d, digits), every entry 0 or 1. */
  lemma {:induction false} IntToBinaryShape(n: int, d: nat)
    ensures |IntToBinary(n, d)| == if |FormatBase2(n)| <= d then d else |FormatBase2(n)|
    ensures forall i :: 0 <= i < |IntToBinary(n, d)| ==>
      IntToBinary(n, d)[i] == 0.0 || IntToBinary(n, d)[i] == 1.0
  {
  }

  /** int(x) for a float64 x: truncation toward zero. */
  function Trunc(x: real): int
  {
    if x >= 0.0 then x.Floor else -((-x).Floor)
  }

  /** What ConvertBinToInt computes: the sum of int(bits[i]) * 2^(len-1-i). */
  function BinValue(bits: seq<real>): int
  {
    if bits == [] then 0 else Trunc(bits[0]) * Pow2(|bits| - 1) + BinValue(bits[1..])
  }

  method ConvertBinToInt(n: seq<real>) returns (bi: int)
    ensures bi == BinValue(n)
    ensures n == [] ==> bi == 0
  {
    bi := 0;
    var i := |n| - 1;
    while i >= 0
      invariant -1 <= i < |n|
      invariant bi == BinValue(n[i + 1..])
    {
      assert n[i..][1..] == n[i + 1..];
      assert |n[i..]| - 1 == |n| - i - 1;
      assert BinValue(n[i..]) == Trunc(n[i]) * Pow2(|n| - i - 1) + BinValue(n[i + 1..]);
      bi := bi + Trunc(n[i]) * Pow2(|n| - i - 1);
      i := i - 1;
    }
    assert n[0..] == n;
  }

  /** Appending one bit doubles the value and adds the bit (Horner's rule). */
  lemma {:induction false} BinValueSnoc(s: seq<real>, b: real)
    ensures BinValue(s + [b]) == 2 * BinValue(s) + Trunc(b)
  {
    if s == [] {
      assert [b][1..] == [];
    } else {
      assert (s + [b])[1..] == s[1..] + [b];
      BinValueSnoc(s[1..], b);
      calc {
        BinValue(s + [b]);
        Trunc(s[0]) * Pow2(|s|) + BinValue(s[1..] + [b]);
        Trunc(s[0]) * (2 * Pow2(|s| - 1)) + 2 * BinValue(s[1..]) + Trunc(b);
        { assert Trunc(s[0]) * (2 * Pow2(|s| - 1)) == 2 * (Trunc(s[0]) * Pow2(|s| - 1)); }
        2 * BinValue(s) + Trunc(b);
      }
    }
  }

  /** Leading zeros do not change the value. */
  lemma {:induction false} BinValueLeadingZeros(k: nat, s: seq<real>)
    ensures BinValue(Zeros(k) + s) == BinValue(s)
  {
    if k > 0 {
      var z := Zeros(k) + s;
      assert z[0] == 0.0 && Trunc(z[0]) == 0;
      assert z[1..] == Zeros(k - 1) + s;
      BinValueLeadingZeros(k - 1, s);
      assert BinValue(z) == Trunc(z[0]) * Pow2(|z| - 1) + BinValue(z[1..]);
    } else {
      assert Zeros(k) + s == s;
    }
  }

  /** The digits of n read back as n. */
  lemma {:induction false} BinValueDigits(n: nat)
    ensures BinValue(DigitValues(BinaryDigits(n))) == n
  {
    if n >= 2 {
      var c := if n % 2 == 0 then '0' else '1';
      var init := BinaryDigits(n / 2);
      assert DigitValues(init + [c]) == DigitValues(init) + [DigitValue(c)];
      BinValueDigits(n / 2);
      BinValueSnoc(DigitValues(init), DigitValue(c));
    } else {
      assert DigitValues(BinaryDigits(n))[1..] == [];
    }
  }

  /** A positive n has exactly as many digits as it needs: 2^(len-1) <= n < 2^len. */
  lemma {:induction false} DigitsLength(n: nat)
    requires n >= 1
    ensures Pow2(|BinaryDigits(n)| - 1) <= n < Pow2(|BinaryDigits(n)|)
  {
    if n >= 2 {
      DigitsLength(n / 2);
    }
  }

  /** For 0 <= n < 2^d the digits fit into d slots, except that 0 always has one digit. */
  lemma {:induction false} DigitsFit(n: nat, d: nat)
    requires n < Pow2(d)
    ensures |BinaryDigits(n)| <= d || (n == 0 && d == 0)
  {
    if n >= 1 {
      DigitsLength(n);
      Pow2Below(|BinaryDigits(n)| - 1, d);
    }
  }

  lemma {:induction false} Pow2Monotone(a: nat, b: nat)
    requires a <= b
    ensures Pow2(a) <= Pow2(b)
  {
    if a < b {
      Pow2Monotone(a, b - 1);
    }
  }

  lemma {:induction false} Pow2Below(a: nat, b: nat)
    requires Pow2(a) < Pow2(b)
    ensures a < b
  {
    if a >= b {
      Pow2Monotone(b, a);
    }
  }

  /** For 0 <= n < 2^d with d >= 1 (or n >= 1) the encoding has length d and is
      zero-padded before n's digits. */
  lemma {:induction false} IntToBinaryFits(n: nat, d: nat)
    requires n < Pow2(d)
    requires d >= 1 || n >= 1
    ensures |BinaryDigits(n)| <= d
    ensures IntToBinary(n, d) == Zeros(d - |BinaryDigits(n)|) + DigitValues(BinaryDigits(n))
    ensures |IntToBinary(n, d)| == d
  {
    DigitsFit(n, d);
  }

  /** Round trip: ConvertBinToInt(ConvertIntToBinary(n, d)) == n for 0 <= n < 2^d. */
  lemma {:induction false} RoundTrip(n: nat, d: nat)
    requires n < Pow2(d)
    ensures BinValue(IntToBinary(n, d)) == n
  {
    DigitsFit(n, d);
    if |BinaryDigits(n)| <= d {
      BinValueLeadingZeros(d - |BinaryDigits(n)|, DigitValues(BinaryDigits(n)));
      BinValueDigits(n);
    } else {
      assert IntToBinary(n, d) == [0.0];
    }
  }
}
