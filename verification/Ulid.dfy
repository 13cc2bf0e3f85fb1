/** The text form of 16-byte identifiers: 26 Crockford base32 digits. */
module Ulid {
  import opened Prelude
  import opened Encoding

  const ULID_LEN: nat := 26
  const ALPHABET: string := "0123456789ABCDEFGHJKMNPQRSTVWXYZ"
  const MAX_LEADING_DIGIT: nat := 7

  type Digit = d: nat | d < 32

  // ---- positional values -------------------------------------------------------------------------

  /** Big-endian value in base `base`. */
  ghost function Value(base: nat, digits: seq<nat>): nat
    decreases |digits|
  {
    if digits == [] then 0 else Value(base, digits[..|digits| - 1]) * base + digits[|digits| - 1]
  }

  /** The `k` low digits of `v`, most significant first. */
  function Digits(base: nat, v: nat, k: nat): (r: seq<nat>)
    requires base > 0
    ensures |r| == k && forall i :: 0 <= i < k ==> r[i] < base
    decreases k
  {
    if k == 0 then [] else Digits(base, v / base, k - 1) + [v % base]
  }

  ghost function Pow(base: nat, k: nat): nat
    decreases k
  {
    if k == 0 then 1 else Pow(base, k - 1) * base
  }

  lemma {:induction false} ValueOfDigits(base: nat, v: nat, k: nat)
    requires base > 0 && v < Pow(base, k)
    ensures Value(base, Digits(base, v, k)) == v
    decreases k
  {
    if k > 0 {
      var q, r := v / base, v % base;
      DivMod(v, base, Pow(base, k - 1));
      ValueOfDigits(base, q, k - 1);
      ValueSnoc(base, Digits(base, q, k - 1), r);
    }
  }

  lemma ValueSnoc(base: nat, ds: seq<nat>, d: nat)
    ensures Value(base, ds + [d]) == Value(base, ds) * base + d
  {
    assert (ds + [d])[..|ds|] == ds;
  }

  lemma DivMod(v: nat, base: nat, n: nat)
    requires base > 0 && v < n * base
    ensures v == (v / base) * base + v % base && v / base < n
  {
  }

  lemma {:induction false} DigitsOfValue(base: nat, ds: seq<nat>)
    requires base > 0 && forall i :: 0 <= i < |ds| ==> ds[i] < base
    ensures Digits(base, Value(base, ds), |ds|) == ds
    decreases |ds|
  {
    if ds != [] {
      var init, last := ds[..|ds| - 1], ds[|ds| - 1];
      DigitsOfValue(base, init);
      LastDigit(Value(base, init), base, last);
      assert ds == init + [last];
    }
  }

  lemma LastDigit(v: nat, base: nat, d: nat)
    requires d < base
    ensures (v * base + d) / base == v && (v * base + d) % base == d
  {
    var q, r := (v * base + d) / base, (v * base + d) % base;
    assert v * base + d == q * base + r;
    MulOrder(v, q, base);
    MulOrder(q, v, base);
  }

  lemma {:induction false} MulOrder(a: nat, b: nat, base: nat)
    ensures a < b ==> a * base + base <= b * base
    decreases b
  {
    if a < b {
      assert b * base == (b - 1) * base + base;
      MulOrder(a, b - 1, base);
    }
  }

  /** A value lies between its leading digit's multiples. */
  lemma {:induction false} LeadingBound(base: nat, ds: seq<nat>)
    requires base > 0 && ds != [] && forall i :: 0 <= i < |ds| ==> ds[i] < base
    ensures ds[0] * Pow(base, |ds| - 1) <= Value(base, ds) < (ds[0] + 1) * Pow(base, |ds| - 1)
    decreases |ds|
  {
    var n := |ds| - 1;
    var init := ds[..n];
    if n == 0 {
      assert Value(base, init) == 0;
    } else {
      LeadingBound(base, init);
      var v, p := Value(base, init), Pow(base, n - 1);
      assert Pow(base, n) == p * base;
      MulStep(ds[0], p, base, v, ds[n]);
    }
  }

  lemma MulStep(d: nat, p: nat, base: nat, v: nat, last: nat)
    requires d * p <= v < (d + 1) * p && last < base
    ensures d * (p * base) <= v * base + last < (d + 1) * (p * base)
  {
    assert d * (p * base) == (d * p) * base && (d + 1) * (p * base) == ((d + 1) * p) * base;
    assert (d * p) * base <= v * base;
    assert (v + 1) * base <= ((d + 1) * p) * base;
    assert (v + 1) * base == v * base + base;
  }

  // ---- digits and symbols ----------------------------------------------------------------------------

  /** The symbol of a digit: the digits, then the letters without I, L, O and U. */
  function Symbol(d: Digit): Byte {
    if d < 10 then 48 + d
    else if d < 18 then 65 + (d - 10)
    else if d < 20 then 74 + (d - 18)
    else if d < 22 then 77 + (d - 20)
    else if d < 27 then 80 + (d - 22)
    else 86 + (d - 27)
  }

  function Upper(b: Byte): Byte { if 97 <= b <= 122 then b - 32 else b }

  /** The digit a symbol stands for, in either case. */
  function DigitOf(b: Byte): Option<Digit> {
    var u := Upper(b);
    if 48 <= u <= 57 then Some(u - 48)
    else if 65 <= u <= 72 then Some(u - 65 + 10)
    else if 74 <= u <= 75 then Some(u - 74 + 18)
    else if 77 <= u <= 78 then Some(u - 77 + 20)
    else if 80 <= u <= 84 then Some(u - 80 + 22)
    else if 86 <= u <= 90 then Some(u - 86 + 27)
    else None
  }

  lemma AlphabetIs(d: Digit)
    ensures ALPHABET[d] as nat == Symbol(d)
  {
    assert |ALPHABET| == 32;
    if d < 8 {
    } else if d < 16 {
    } else if d < 24 {
    } else {
    }
  }

  /** Printing a digit gives back its upper-case symbol, and reading a printed digit gives it back. */
  lemma SymbolRoundTrip(b: Byte, d: Digit)
    ensures DigitOf(b).Some? ==> Symbol(DigitOf(b).value) == Upper(b)
    ensures DigitOf(Symbol(d)) == Some(d)
  {
  }

  /** The position of an upper-case symbol in the alphabet, found by search. */
  method Position(b: Byte) returns (r: Option<Digit>)
    ensures r == DigitOf(b)
  {
    var upper := Upper(b);
    SymbolRoundTrip(b, 0);
    for i := 0 to 32
      invariant DigitOf(b).Some? ==> DigitOf(b).value >= i
    {
      AlphabetIs(i);
      if ALPHABET[i] as nat == upper {
        return Some(i);
      }
    }
    return None;
  }

  // ---- printing and parsing ------------------------------------------------------------------------------

  const VALUE_LIMIT: nat := 0x1_0000_0000_0000_0000_0000_0000_0000_0000

  type IdBytes = b: seq<nat> | |b| == 16 && forall i :: 0 <= i < |b| ==> b[i] < 256 witness seq(16, i => 0)

  function Symbols(digits: seq<nat>): (r: Bytes)
    requires forall i :: 0 <= i < |digits| ==> digits[i] < 32
    ensures |r| == |digits| && forall i :: 0 <= i < |digits| ==> r[i] == Symbol(digits[i])
  {
    seq(|digits|, i requires 0 <= i < |digits| => Symbol(digits[i]))
  }

  ghost function Print(id: IdBytes): Bytes { Symbols(Digits(32, Value(256, id), ULID_LEN)) }

  datatype ParseError = BadLength(len: nat) | BadCharacter(position: nat) | Overflow

  /** The digits of `text` from `i` on, or the first complaint. */
  ghost function ReadFrom(text: Bytes, i: nat): (r: Result<seq<nat>, ParseError>)
    requires i <= |text|
    ensures r.Ok? ==> |r.value| == |text| - i
    ensures r.Ok? ==> forall k :: 0 <= k < |r.value| ==> DigitOf(text[i + k]) == Some(r.value[k])
    decreases |text| - i
  {
    if i == |text| then Ok([])
    else if DigitOf(text[i]).None? then Err(BadCharacter(i))
    else if i == 0 && DigitOf(text[0]).value > MAX_LEADING_DIGIT then Err(Overflow)
    else
      match ReadFrom(text, i + 1)
      case Err(e) => Err(e)
      case Ok(rest) => Ok([DigitOf(text[i]).value] + rest)
  }

  ghost function Parse(text: Bytes): Result<seq<nat>, ParseError> {
    if |text| != ULID_LEN then Err(BadLength(|text|)) else
      match ReadFrom(text, 0)
      case Err(e) => Err(e)
      case Ok(digits) => Ok(Digits(256, Value(32, digits), 16))
  }

  lemma Powers()
    ensures Pow(256, 16) == VALUE_LIMIT && 8 * Pow(32, 25) == VALUE_LIMIT
    ensures Pow(32, 26) > VALUE_LIMIT
  {
    PowAdd(256, 8, 8);
    PowAdd(256, 4, 4);
    assert Pow(256, 2) == 0x1_0000 && Pow(256, 3) == 0x100_0000 && Pow(256, 4) == 0x1_0000_0000;
    PowAdd(32, 5, 20);
    PowAdd(32, 10, 10);
    PowAdd(32, 5, 5);
    assert Pow(32, 2) == 1024 && Pow(32, 3) == 32768 && Pow(32, 4) == 1048576 && Pow(32, 5) == 33554432;
  }

  lemma {:induction false} PowAdd(base: nat, j: nat, k: nat)
    ensures Pow(base, j + k) == Pow(base, j) * Pow(base, k)
    decreases k
  {
    if k > 0 {
      PowAdd(base, j, k - 1);
      assert Pow(base, j) * Pow(base, k - 1) * base == Pow(base, j) * (Pow(base, k - 1) * base);
    }
  }

  /** The leading-digit check is exactly the 128-bit bound. */
  lemma LeadingDigitIsBound(digits: seq<nat>)
    requires |digits| == ULID_LEN && forall i :: 0 <= i < |digits| ==> digits[i] < 32
    ensures digits[0] <= MAX_LEADING_DIGIT <==> Value(32, digits) < VALUE_LIMIT
  {
    LeadingBound(32, digits);
    Powers();
    var p := Pow(32, 25);
    if digits[0] <= 7 {
      assert (digits[0] + 1) * p <= 8 * p;
    } else {
      assert digits[0] * p >= 8 * p;
    }
  }

  lemma IdValue(id: IdBytes)
    ensures Value(256, id) < VALUE_LIMIT
  {
    LeadingBound(256, id);
    Powers();
    assert Pow(256, 16) == Pow(256, 15) * 256;
    assert (id[0] + 1) * Pow(256, 15) <= 256 * Pow(256, 15);
  }

  lemma {:induction false} ReadSymbols(digits: seq<nat>, i: nat)
    requires i <= |digits| && (forall k :: 0 <= k < |digits| ==> digits[k] < 32)
    requires digits != [] ==> digits[0] <= MAX_LEADING_DIGIT
    ensures ReadFrom(Symbols(digits), i) == Ok(digits[i..])
    decreases |digits| - i
  {
    if i < |digits| {
      SymbolRoundTrip(0, digits[i]);
      ReadSymbols(digits, i + 1);
      assert digits[i..] == [digits[i]] + digits[i + 1..];
    }
  }

  /** Parsing a printed identifier gives it back. */
  lemma ParsePrinted(id: IdBytes)
    ensures Parse(Print(id)) == Ok(id)
  {
    var v := Value(256, id);
    var digits := Digits(32, v, ULID_LEN);
    IdValue(id);
    Powers();
    ValueOfDigits(32, v, ULID_LEN);
    LeadingDigitIsBound(digits);
    ReadSymbols(digits, 0);
    assert digits[0..] == digits;
    DigitsOfValue(256, id);
  }

  ghost function UpperAll(text: Bytes): Bytes { seq(|text|, i requires 0 <= i < |text| => Upper(text[i])) }

  /** Printing what an accepted text parses to gives the text in upper case. */
  lemma PrintParsed(text: Bytes)
    requires Parse(text).Ok?
    ensures |Parse(text).value| == 16 && forall i :: 0 <= i < 16 ==> Parse(text).value[i] < 256
    ensures Print(Parse(text).value) == UpperAll(text)
  {
    var digits := ReadFrom(text, 0).value;
    var v := Value(32, digits);
    LeadingDigitIsBound(digits);
    Powers();
    ValueOfDigits(256, v, 16);
    DigitsOfValue(32, digits);
    forall i | 0 <= i < |text| ensures Symbol(digits[i]) == Upper(text[i]) { SymbolRoundTrip(text[i], 0); }
  }

  // ---- the loops -----------------------------------------------------------------------------------------

  method ReadValue(id: IdBytes) returns (v: nat)
    ensures v == Value(256, id)
  {
    v := 0;
    for i := 0 to |id|
      invariant v == Value(256, id[..i])
    {
      ValueSnoc(256, id[..i], id[i]);
      assert id[..i + 1] == id[..i] + [id[i]];
      v := v * 256 + id[i];
    }
    assert id[..|id|] == id;
  }

  method LookUp(d: Digit) returns (b: Byte)
    ensures b == Symbol(d)
  {
    AlphabetIs(d);
    return ALPHABET[d] as nat;
  }

  /** Fills the text from its last digit, shifting the value down. */
  method WriteUlid(id: IdBytes) returns (out: array<Byte>)
    ensures out.Length == ULID_LEN && out[..] == Print(id)
  {
    var value := ReadValue(id);
    ghost var all := Digits(32, value, ULID_LEN);
    ghost var tail: seq<nat> := [];
    assert all + tail == all;
    out := new Byte[ULID_LEN](_ => 0);
    var i := ULID_LEN;
    while i > 0
      invariant 0 <= i <= ULID_LEN && |tail| == ULID_LEN - i
      invariant all == Digits(32, value, i) + tail
      invariant forall k :: 0 <= k < |tail| ==> tail[k] < 32 && out[i + k] == Symbol(tail[k])
    {
      TailStep(value, i, tail);
      i := i - 1;
      out[i] := LookUp(value % 32);
      tail := [value % 32] + tail;
      value := value / 32;
    }
    assert all == tail;
    assert out[..] == Symbols(tail);
  }

  lemma TailStep(value: nat, i: nat, tail: seq<nat>)
    requires i > 0
    ensures Digits(32, value, i) + tail == Digits(32, value / 32, i - 1) + ([value % 32] + tail)
  {
  }

  method ParseUlid(text: Bytes) returns (r: Result<seq<nat>, ParseError>)
    ensures r == Parse(text)
  {
    if |text| != ULID_LEN {
      return Err(BadLength(|text|));
    }
    var value := 0;
    ghost var soFar: seq<nat> := [];
    assert forall rest: seq<nat> :: [] + rest == rest;
    for position := 0 to |text|
      invariant value == Value(32, soFar)
      invariant ReadFrom(text, 0) == match ReadFrom(text, position)
                                     case Err(e) => Err(e)
                                     case Ok(rest) => Ok(soFar + rest)
    {
      var digit := Position(text[position]);
      if digit.None? {
        return Err(BadCharacter(position));
      }
      if position == 0 && digit.value > MAX_LEADING_DIGIT {
        return Err(Overflow);
      }
      ValueSnoc(32, soFar, digit.value);
      assert forall rest: seq<nat> :: soFar + ([digit.value] + rest) == (soFar + [digit.value]) + rest;
      value := value * 32 + digit.value;
      soFar := soFar + [digit.value];
    }
    assert soFar + [] == soFar;
    return Ok(Digits(256, value, 16));
  }
}
