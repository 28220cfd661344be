/** base58Decode (depositwatcher/internal/addresses/bip32.go), the text encoding of BIP 32 extended
    keys: a bijection between strings over the 58-letter alphabet and byte strings. */
module Base58 {
  import opened Common

  // ---------------------------------------------------------------- positional notation

  /** The two bases between which a key is converted. */
  type Base = b: int | b == 58 || b == 256 witness 58

  function Times(base: Base, n: nat): nat { if base == 58 then 58 * n else 256 * n }

  function Quotient(base: Base, n: nat): nat { if base == 58 then n / 58 else n / 256 }

  function Remainder(base: Base, n: nat): nat { if base == 58 then n % 58 else n % 256 }

  ghost predicate DigitsOf(base: Base, ds: seq<nat>) { forall i :: 0 <= i < |ds| ==> ds[i] < base }

  /** Most significant digit first. */
  function Value(base: Base, ds: seq<nat>): nat {
    if ds == [] then 0 else Times(base, Value(base, ds[..|ds| - 1])) + ds[|ds| - 1]
  }

  /** The digits of n without leading zeros; none for zero, as big.Int.Bytes has it. */
  function Digits(base: Base, n: nat): (ds: seq<nat>)
    ensures DigitsOf(base, ds) && (ds != [] ==> ds[0] != 0)
    ensures Value(base, ds) == n
  {
    if n == 0 then []
    else
      var rest := Digits(base, Quotient(base, n));
      assert (rest + [Remainder(base, n)])[..|rest|] == rest;
      rest + [Remainder(base, n)]
  }

  function Zeros(n: nat): seq<nat> { seq(n, _ => 0) }

  function LeadingZeros(ds: seq<nat>): (n: nat)
    ensures n <= |ds| && ds[..n] == Zeros(n) && (n < |ds| ==> ds[n] != 0)
  {
    if ds == [] || ds[0] != 0 then 0
    else
      var n := LeadingZeros(ds[1..]);
      assert ds[..n + 1] == [0] + ds[1..][..n];
      n + 1
  }

  /** Leading zeros add nothing. */
  lemma {:induction false} ValueOfPadded(base: Base, n: nat, ds: seq<nat>)
    ensures Value(base, Zeros(n) + ds) == Value(base, ds)
  {
    if ds == [] {
      if n > 0 {
        assert (Zeros(n) + ds)[..n - 1] == Zeros(n - 1) + ds;
        ValueOfPadded(base, n - 1, ds);
      }
    } else {
      assert (Zeros(n) + ds)[..n + |ds| - 1] == Zeros(n) + ds[..|ds| - 1];
      ValueOfPadded(base, n, ds[..|ds| - 1]);
    }
  }

  lemma Division(base: Base, v: nat, d: nat)
    requires d < base
    ensures Quotient(base, Times(base, v) + d) == v && Remainder(base, Times(base, v) + d) == d
    ensures Times(base, v) + d == 0 <==> v == 0 && d == 0
  {
    if base == 58 {
      assert (58 * v + d) / 58 == v;
    } else {
      assert (256 * v + d) / 256 == v;
    }
  }

  /** The digits of a value are the ones it was read from, leading zeros aside. */
  lemma {:induction false} DigitsOfValue(base: Base, ds: seq<nat>)
    requires DigitsOf(base, ds) && (ds != [] ==> ds[0] != 0)
    ensures Digits(base, Value(base, ds)) == ds
  {
    if ds != [] {
      var rest, d := ds[..|ds| - 1], ds[|ds| - 1];
      DigitsOfValue(base, rest);
      assert ds == rest + [d];
      NextDigit(base, rest, d);
    }
  }

  lemma NextDigit(base: Base, ds: seq<nat>, d: nat)
    requires Digits(base, Value(base, ds)) == ds && d < base && (ds != [] || d != 0)
    ensures Digits(base, Value(base, ds + [d])) == ds + [d]
  {
    var v := Value(base, ds);
    assert (ds + [d])[..|ds|] == ds;
    if v == 0 { assert Digits(base, 0) == []; }
    DigitsStep(base, v, d, Value(base, ds + [d]));
  }

  lemma DigitsStep(base: Base, v: nat, d: nat, n: nat)
    requires d < base && n == Times(base, v) + d && (v != 0 || d != 0)
    ensures Digits(base, n) == Digits(base, v) + [d]
  {
    Division(base, v, d);
    assert n > 0 && Quotient(base, n) == v && Remainder(base, n) == d;
  }

  // ---------------------------------------------------------------- changing the base

  /** The same number in the other base, each leading zero digit carried over as one. */
  function Convert(from: Base, to: Base, ds: seq<nat>): (r: seq<nat>)
    ensures DigitsOf(to, r)
  {
    Zeros(LeadingZeros(ds)) + Digits(to, Value(from, ds))
  }

  lemma LeadingZerosOfPadded(n: nat, ds: seq<nat>)
    requires ds != [] ==> ds[0] != 0
    ensures LeadingZeros(Zeros(n) + ds) == n
  {
    var all := Zeros(n) + ds;
    assert forall k :: 0 <= k < n ==> all[k] == 0;
    assert n < |all| ==> all[n] != 0;
    FirstNonZero(all, n);
  }

  lemma {:induction false} FirstNonZero(ds: seq<nat>, n: nat)
    requires n <= |ds| && (forall k :: 0 <= k < n ==> ds[k] == 0) && (n < |ds| ==> ds[n] != 0)
    ensures LeadingZeros(ds) == n
  {
    if n > 0 { FirstNonZero(ds[1..], n - 1); }
  }

  /** Converting back gives the digits one started with: value and leading zeros are both kept, and
      together they are all there is to know. */
  lemma ConvertInverse(from: Base, to: Base, ds: seq<nat>)
    requires DigitsOf(from, ds)
    ensures Convert(to, from, Convert(from, to, ds)) == ds
    ensures Value(to, Convert(from, to, ds)) == Value(from, ds)
    ensures LeadingZeros(Convert(from, to, ds)) == LeadingZeros(ds)
  {
    var n := LeadingZeros(ds);
    var core := Digits(to, Value(from, ds));
    LeadingZerosOfPadded(n, core);
    ValueOfPadded(to, n, core);
    assert ds == Zeros(n) + ds[n..];
    ValueOfPadded(from, n, ds[n..]);
    DigitsOfValue(from, ds[n..]);
  }

  // ---------------------------------------------------------------- the alphabet

  /** The table base58Index over the alphabet 1-9, A-H, J-N, P-Z, a-k, m-z: the place of a
      character, or -1. */
  function Index(c: char): (i: int)
    ensures -1 <= i < 58 && (i == 0 <==> c == '1')
  {
    var n := c as int;
    if '1' <= c <= '9' then n - 49
    else if 'A' <= c <= 'H' then n - 56
    else if 'J' <= c <= 'N' then n - 57
    else if 'P' <= c <= 'Z' then n - 58
    else if 'a' <= c <= 'k' then n - 64
    else if 'm' <= c <= 'z' then n - 65
    else -1
  }

  /** The character at a place of the alphabet. */
  function Letter(i: nat): (c: char)
    requires i < 58
    ensures Index(c) == i
  {
    if i < 9 then (i + 49) as char
    else if i < 17 then (i + 56) as char
    else if i < 22 then (i + 57) as char
    else if i < 33 then (i + 58) as char
    else if i < 44 then (i + 64) as char
    else (i + 65) as char
  }

  predicate IsDigitOrLetter(c: char) { '0' <= c <= '9' || 'A' <= c <= 'Z' || 'a' <= c <= 'z' }

  /** The alphabet, from both ends of each stretch: neighbours have neighbouring places, only digits and
      letters have one, and 0, I, O and l have none. */
  lemma AlphabetIs(c: char)
    ensures Index('1') == 0 && Index('9') == 8 && Index('A') == 9 && Index('H') == 16
    ensures Index('J') == 17 && Index('N') == 21 && Index('P') == 22 && Index('Z') == 32
    ensures Index('a') == 33 && Index('k') == 43 && Index('m') == 44 && Index('z') == 57
    ensures Index(c) >= 0 <==> IsDigitOrLetter(c) && c != '0' && c != 'I' && c != 'O' && c != 'l'
    ensures c < 'z' && Index(c) >= 0 && Index((c as int + 1) as char) >= 0 ==>
      Index((c as int + 1) as char) == Index(c) + 1
  {}

  /** Distinct characters of the alphabet have distinct places. */
  lemma IndexInjective(c: char, d: char)
    requires Index(c) >= 0 && Index(c) == Index(d)
    ensures c == d
  {
    assert c as int == d as int;
  }

  // ---------------------------------------------------------------- decoding

  predicate InAlphabet(s: string) { forall i :: 0 <= i < |s| ==> Index(s[i]) >= 0 }

  function DigitsIn(s: string): (ds: seq<nat>)
    requires InAlphabet(s)
    ensures |ds| == |s| && DigitsOf(58, ds)
  {
    seq(|s|, i requires 0 <= i < |s| => Index(s[i]))
  }

  function Letters(ds: seq<nat>): (s: string)
    requires DigitsOf(58, ds)
    ensures |s| == |ds| && InAlphabet(s)
    ensures DigitsIn(s) == ds
  {
    seq(|ds|, i requires 0 <= i < |ds| => Letter(ds[i]))
  }

  lemma LettersOfDigits(s: string)
    requires InAlphabet(s)
    ensures Letters(DigitsIn(s)) == s
  {
    var t := Letters(DigitsIn(s));
    forall i | 0 <= i < |s| ensures t[i] == s[i] {
      assert DigitsIn(t)[i] == DigitsIn(s)[i];
      IndexInjective(t[i], s[i]);
    }
  }

  function Bytes256(ds: seq<nat>): Bytes
    requires DigitsOf(256, ds)
  {
    seq(|ds|, i requires 0 <= i < |ds| => ds[i] as byte)
  }

  function Numbers(b: Bytes): (ds: seq<nat>)
    ensures DigitsOf(256, ds) && |ds| == |b|
  {
    seq(|b|, i requires 0 <= i < |b| => b[i] as int)
  }

  /** What a string stands for; nothing if it has a character outside the alphabet. */
  function Decoded(s: string): Option<Bytes> {
    if InAlphabet(s) then Some(Bytes256(Convert(58, 256, DigitsIn(s)))) else None
  }

  /** The string that stands for these bytes. */
  function Encoded(b: Bytes): string { Letters(Convert(256, 58, Numbers(b))) }

  /** Every byte string has a decodable string: the decoding is onto. */
  lemma DecodeEncode(b: Bytes)
    ensures Decoded(Encoded(b)) == Some(b)
  {
    ConvertInverse(256, 58, Numbers(b));
    assert Bytes256(Numbers(b)) == b;
  }

  /** No two strings decode to the same bytes: the decoding is injective. */
  lemma EncodeDecode(s: string)
    requires Decoded(s).Some?
    ensures Encoded(Decoded(s).value) == s
  {
    var ds := DigitsIn(s);
    assert Numbers(Bytes256(Convert(58, 256, ds))) == Convert(58, 256, ds);
    ConvertInverse(58, 256, ds);
    LettersOfDigits(s);
  }

  /** The decoding keeps the number and the count of leading zeros, '1' standing for a zero byte. */
  lemma DecodeKeepsValue(s: string)
    requires Decoded(s).Some?
    ensures Value(256, Numbers(Decoded(s).value)) == Value(58, DigitsIn(s))
    ensures LeadingZeros(Numbers(Decoded(s).value)) == LeadingZeros(DigitsIn(s))
    ensures forall i :: 0 <= i < |s| ==> (DigitsIn(s)[i] == 0 <==> s[i] == '1')
  {
    var ds := DigitsIn(s);
    assert Numbers(Bytes256(Convert(58, 256, ds))) == Convert(58, 256, ds);
    ConvertInverse(58, 256, ds);
  }

  /** The number a string denotes. */
  method Number(s: string) returns (r: Option<nat>)
    ensures r == if InAlphabet(s) then Some(Value(58, DigitsIn(s))) else None
  {
    var num := 0;
    for i := 0 to |s|
      invariant InAlphabet(s[..i]) && num == Value(58, DigitsIn(s[..i]))
    {
      var digit := Index(s[i]);
      if digit < 0 { return None; }
      assert DigitsIn(s[..i + 1])[..i] == DigitsIn(s[..i]);
      num := 58 * num + digit;
    }
    assert s[..|s|] == s;
    r := Some(num);
  }

  method LeadingOnes(s: string) returns (n: nat)
    requires InAlphabet(s)
    ensures n == LeadingZeros(DigitsIn(s))
  {
    n := 0;
    while n < |s| && s[n] == '1'
      invariant n <= |s| && forall k :: 0 <= k < n ==> DigitsIn(s)[k] == 0
    {
      n := n + 1;
    }
    FirstNonZero(DigitsIn(s), n);
  }

  /** The output buffer, allocated with zeros and the number copied to its end. */
  method Buffer(zeros: nat, decoded: seq<nat>) returns (out: array<byte>)
    requires DigitsOf(256, decoded)
    ensures out[..] == Bytes256(Zeros(zeros) + decoded)
  {
    out := new byte[zeros + |decoded|](_ => 0);
    for k := 0 to |decoded|
      invariant out[..zeros + k] == Bytes256(Zeros(zeros) + decoded[..k])
    {
      out[zeros + k] := decoded[k] as byte;
      assert out[..zeros + k + 1] == out[..zeros + k] + [decoded[k] as byte];
    }
    assert decoded[..|decoded|] == decoded;
  }

  /** base58Decode: the number, the leading ones, then the output buffer. */
  method Decode(s: string) returns (r: Option<Bytes>)
    ensures r == Decoded(s)
  {
    var num := Number(s);
    if num.None? { return None; }
    var zeros := LeadingOnes(s);
    var out := Buffer(zeros, Digits(256, num.value));
    r := Some(out[..]);
  }
}
