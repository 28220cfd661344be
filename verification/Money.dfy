/** Amounts in minor units and their decimal text (depositwatcher/internal/money/money.go). */
module Money {
  import opened Common

  const DECIMALS: nat := 6
  const MAX_INT64: nat := 0x7FFF_FFFF_FFFF_FFFF

  type Amount = a: int | -0x8000_0000_0000_0000 <= a <= 0x7FFF_FFFF_FFFF_FFFF

  // ---------------------------------------------------------------- decimal digits

  predicate IsDigit(c: char) { '0' <= c <= '9' }

  predicate AllDigits(s: string) { forall i :: 0 <= i < |s| ==> IsDigit(s[i]) }

  function DigitOf(n: nat): (c: char)
    requires n < 10
    ensures IsDigit(c) && c as int - 48 == n
  {
    (n + 48) as char
  }

  /** The number a digit string denotes. */
  function Number(s: string): nat
    requires AllDigits(s)
  {
    if s == "" then 0 else 10 * Number(s[..|s| - 1]) + (s[|s| - 1] as int - 48)
  }

  /** strconv.FormatInt of a non-negative number. */
  function Digits(n: nat): (s: string)
    ensures AllDigits(s) && s != "" && Number(s) == n
  {
    if n < 10 then [DigitOf(n)]
    else
      var s := Digits(n / 10) + [DigitOf(n % 10)];
      assert s[..|s| - 1] == Digits(n / 10);
      s
  }

  function Zeros(n: nat): (s: string)
    ensures |s| == n && AllDigits(s)
  {
    seq(n, _ => '0')
  }

  function Pow10(n: nat): (p: nat)
    ensures p > 0
  {
    if n == 0 then 1 else 10 * Pow10(n - 1)
  }

  lemma {:induction false} NumberOfConcat(s: string, t: string)
    requires AllDigits(s) && AllDigits(t)
    ensures Number(s + t) == Number(s) * Pow10(|t|) + Number(t)
  {
    if t == "" {
      assert s + t == s;
    } else {
      var t' := t[..|t| - 1];
      assert (s + t)[..|s + t| - 1] == s + t';
      NumberOfConcat(s, t');
      assert 10 * (Number(s) * Pow10(|t'|)) == Number(s) * (10 * Pow10(|t'|));
    }
  }

  lemma {:induction false} NumberOfZeros(n: nat)
    ensures Number(Zeros(n)) == 0
  {
    if n > 0 {
      assert Zeros(n)[..n - 1] == Zeros(n - 1);
      NumberOfZeros(n - 1);
    }
  }

  /** Leading zeros do not count. */
  lemma NumberOfPadded(n: nat, s: string)
    requires AllDigits(s)
    ensures Number(Zeros(n) + s) == Number(s)
  {
    NumberOfZeros(n);
    NumberOfConcat(Zeros(n), s);
  }

  // ---------------------------------------------------------------- decimals

  datatype Sign = Absent | Plus | Minus

  /** The parts of a decimal: an optional sign, digits, and digits after an optional dot. */
  datatype Decimal = Decimal(sign: Sign, whole: string, dot: bool, frac: string)

  predicate Valid(d: Decimal) {
    && AllDigits(d.whole) && AllDigits(d.frac)
    && (d.whole != "" || d.frac != "")
    && |d.frac| <= DECIMALS
    && (!d.dot ==> d.frac == "")
  }

  function Tail(d: Decimal): string { if d.dot then "." + d.frac else "" }

  function WithSign(sign: Sign, body: string): string {
    match sign
    case Absent => body
    case Plus => "+" + body
    case Minus => "-" + body
  }

  function Text(d: Decimal): string { WithSign(d.sign, d.whole + Tail(d)) }

  /** Its magnitude in minor units. */
  function Units(d: Decimal): nat
    requires Valid(d)
  {
    Number(d.whole + d.frac + Zeros(DECIMALS - |d.frac|))
  }

  function Signed(d: Decimal): int
    requires Valid(d)
  {
    if d.sign.Minus? then 0 - Units(d) else Units(d)
  }

  /** A decimal is worth exactly its digits times 10^6: whole part and fraction, nothing rounded. */
  lemma UnitsAreExact(d: Decimal)
    requires Valid(d)
    ensures Units(d) == Number(d.whole) * Pow10(DECIMALS) + Number(d.frac) * Pow10(DECIMALS - |d.frac|)
  {
    var tail := d.frac + Zeros(DECIMALS - |d.frac|);
    assert d.whole + d.frac + Zeros(DECIMALS - |d.frac|) == d.whole + tail;
    NumberOfConcat(d.whole, tail);
    NumberOfConcat(d.frac, Zeros(DECIMALS - |d.frac|));
    NumberOfZeros(DECIMALS - |d.frac|);
  }

  function FirstDot(s: string): (k: nat)
    ensures k <= |s| && (k < |s| ==> s[k] == '.') && forall i :: 0 <= i < k ==> s[i] != '.'
  {
    if s == "" || s[0] == '.' then 0 else 1 + FirstDot(s[1..])
  }

  function SignOf(s: string): Sign {
    if s != "" && s[0] == '-' then Minus else if s != "" && s[0] == '+' then Plus else Absent
  }

  function Unsigned(s: string): (body: string)
    ensures WithSign(SignOf(s), body) == s
  {
    if SignOf(s).Absent? then s else s[1..]
  }

  function Cut(sign: Sign, rest: string): Decimal {
    var k := FirstDot(rest);
    Decimal(sign, rest[..k], k < |rest|, if k < |rest| then rest[k + 1..] else "")
  }

  /** The only way to take a string apart. */
  function Split(s: string): Decimal { Cut(SignOf(s), Unsigned(s)) }

  lemma TextOfSplit(s: string)
    ensures Text(Split(s)) == s
  {
    var rest := Unsigned(s);
    var d := Split(s);
    assert d.whole + Tail(d) == rest;
  }

  lemma {:induction false} DotPlace(whole: string, tail: string)
    requires AllDigits(whole) && (tail != "" ==> tail[0] == '.')
    ensures FirstDot(whole + tail) == |whole|
  {
    if whole == "" {
      assert whole + tail == tail;
    } else {
      assert IsDigit(whole[0]);
      assert (whole + tail)[0] == whole[0] && (whole + tail)[1..] == whole[1..] + tail;
      DotPlace(whole[1..], tail);
    }
  }

  lemma SignPlace(sign: Sign, body: string)
    requires body != "" && body[0] != '-' && body[0] != '+'
    ensures SignOf(WithSign(sign, body)) == sign && Unsigned(WithSign(sign, body)) == body
  {}

  lemma SplitOfText(d: Decimal)
    requires Valid(d)
    ensures Split(Text(d)) == d
  {
    var body := d.whole + Tail(d);
    assert body != "" && (IsDigit(body[0]) || body[0] == '.') by {
      if d.whole != "" { assert body[0] == d.whole[0]; } else { assert body == Tail(d) && d.dot; }
    }
    SignPlace(d.sign, body);
    DotPlace(d.whole, Tail(d));
    assert body[..|d.whole|] == d.whole;
    if d.dot { assert body[|d.whole| + 1..] == d.frac; }
  }

  /** What a string without its sign is worth. */
  function Magnitude(rest: string): Option<nat> {
    var d := Cut(Absent, rest);
    if Valid(d) && Units(d) <= MAX_INT64 then Some(Units(d)) else None
  }

  /** What ParseDecimal makes of a string. */
  function Parsed(s: string): Option<Amount> {
    match Magnitude(Unsigned(s))
    case None => None
    case Some(n) => if SignOf(s).Minus? then Some(0 - n) else Some(n)
  }

  lemma ParsedIsSplit(s: string)
    ensures Parsed(s) == if Valid(Split(s)) && Units(Split(s)) <= MAX_INT64 then Some(Signed(Split(s))) else None
  {
    assert Split(s) == Cut(Absent, Unsigned(s)).(sign := SignOf(s));
  }

  /** It accepts exactly the decimals with at most six places whose magnitude fits, and gives them
      their exact value. */
  lemma ParsedIff(s: string, a: Amount)
    ensures Parsed(s) == Some(a) <==> exists d :: Valid(d) && Text(d) == s && Units(d) <= MAX_INT64 && a == Signed(d)
  {
    if exists d :: Valid(d) && Text(d) == s && Units(d) <= MAX_INT64 && a == Signed(d) {
      var d :| Valid(d) && Text(d) == s && Units(d) <= MAX_INT64 && a == Signed(d);
      SplitOfText(d);
    }
    TextOfSplit(s);
    ParsedIsSplit(s);
  }

  method AllDigitsIn(s: string) returns (r: bool)
    ensures r <==> s != "" && AllDigits(s)
  {
    if s == "" { return false; }
    for i := 0 to |s|
      invariant AllDigits(s[..i])
    {
      if s[i] < '0' || s[i] > '9' { return false; }
    }
    assert s[..|s|] == s;
    r := true;
  }

  /** strconv.ParseInt of a digit string: anything above the largest int64 is an error. */
  method ParseInt(s: string) returns (r: Option<nat>)
    requires AllDigits(s)
    ensures r == if Number(s) <= MAX_INT64 then Some(Number(s)) else None
  {
    var n := 0;
    for i := 0 to |s|
      invariant n == Number(s[..i])
    {
      assert s[..i + 1][..i] == s[..i];
      n := 10 * n + (s[i] as int - 48);
    }
    assert s[..|s|] == s;
    r := if n <= MAX_INT64 then Some(n) else None;
  }

  /** The digits ParseInt is given: the whole part, an empty one read as 0, and six places. */
  lemma PaddedNumber(intPart: string, fracPart: string)
    requires AllDigits(intPart) && AllDigits(fracPart) && |fracPart| <= DECIMALS
    ensures intPart == "" ==>
      Number("0" + fracPart + Zeros(DECIMALS - |fracPart|)) == Number(intPart + fracPart + Zeros(DECIMALS - |fracPart|))
  {
    if intPart == "" {
      var tail := fracPart + Zeros(DECIMALS - |fracPart|);
      assert "0" + fracPart + Zeros(DECIMALS - |fracPart|) == Zeros(1) + tail;
      assert intPart + fracPart + Zeros(DECIMALS - |fracPart|) == tail;
      NumberOfPadded(1, tail);
    }
  }

  /** The checks on the two parts, and the number they make. */
  method ParseParts(intPart: string, fracPart: string) returns (r: Option<nat>)
    ensures r.Some? <==>
      && AllDigits(intPart) && AllDigits(fracPart) && (intPart != "" || fracPart != "") && |fracPart| <= DECIMALS
      && Number(intPart + fracPart + Zeros(DECIMALS - |fracPart|)) <= MAX_INT64
    ensures r.Some? ==> r.value == Number(intPart + fracPart + Zeros(DECIMALS - |fracPart|))
  {
    if '.' in fracPart { return None; }
    if intPart == "" && fracPart == "" { return None; }
    var whole := if intPart == "" then "0" else intPart;
    var digitsOk := AllDigitsIn(whole);
    var fracOk := AllDigitsIn(fracPart);
    if !digitsOk || (fracPart != "" && !fracOk) { return None; }
    if |fracPart| > DECIMALS { return None; }
    PaddedNumber(intPart, fracPart);
    r := ParseInt(whole + fracPart + Zeros(DECIMALS - |fracPart|));
  }

  /** Cut at the first dot. */
  method ParseMagnitude(rest: string) returns (r: Option<nat>)
    ensures r == Magnitude(rest)
  {
    var k := FirstDot(rest);
    r := ParseParts(rest[..k], if k < |rest| then rest[k + 1..] else "");
  }

  method ParseDecimal(s: string) returns (r: Option<Amount>)
    ensures r == Parsed(s)
  {
    if s == "" { return None; }
    var neg, rest := false, s;
    if rest[0] == '-' {
      neg := true;
      rest := rest[1..];
    } else if rest[0] == '+' {
      rest := rest[1..];
    }
    if rest == "" { return None; }
    assert rest == Unsigned(s) && (neg <==> SignOf(s).Minus?);
    var units := ParseMagnitude(rest);
    if units.None? { return None; }
    var magnitude: int := units.value;
    r := Some(if neg then -magnitude else magnitude);
  }

  // ---------------------------------------------------------------- formatting

  /** The magnitude, with zeros before it up to one digit and six places. */
  function Padded(n: nat): (s: string)
    ensures AllDigits(s) && |s| > DECIMALS && Number(s) == n
  {
    var digits := Digits(n);
    if |digits| > DECIMALS then digits
    else
      NumberOfPadded(DECIMALS + 1 - |digits|, digits);
      Zeros(DECIMALS + 1 - |digits|) + digits
  }

  /** The parts Format writes: at least one digit before the dot, exactly six after it. */
  function Parts(a: Amount): (d: Decimal)
    ensures Valid(d) && d.dot && |d.frac| == DECIMALS && d.whole != "" && !d.sign.Plus?
    ensures Signed(d) == a
  {
    var padded := Padded(if a < 0 then 0 - a else a);
    var n := |padded| - DECIMALS;
    assert padded[..n] + padded[n..] + Zeros(0) == padded;
    Decimal(if a < 0 then Minus else Absent, padded[..n], true, padded[n..])
  }

  lemma OneMoreZero(k: nat, s: string)
    ensures "0" + (Zeros(k) + s) == Zeros(k + 1) + s
  {}

  /** The loop of Format. */
  method Pad(digits: string) returns (padded: string)
    requires AllDigits(digits) && digits != ""
    ensures padded == if |digits| > DECIMALS then digits else Zeros(DECIMALS + 1 - |digits|) + digits
  {
    padded := digits;
    ghost var k := 0;
    assert Zeros(0) + digits == digits;
    while |padded| < DECIMALS + 1
      invariant padded == Zeros(k) + digits && (k > 0 ==> |padded| <= DECIMALS + 1)
      decreases DECIMALS + 1 - |padded|
    {
      OneMoreZero(k, digits);
      padded := "0" + padded;
      k := k + 1;
    }
  }

  lemma TextOfParts(a: Amount, padded: string)
    requires padded == Padded(if a < 0 then 0 - a else a)
    ensures
      var body := padded[..|padded| - DECIMALS] + ("." + padded[|padded| - DECIMALS..]);
      Text(Parts(a)) == if a < 0 then "-" + body else body
  {}

  method Format(a: Amount) returns (s: string)
    ensures s == Text(Parts(a))
  {
    var neg := a < 0;
    var digits := Pad(Digits(if neg then 0 - a else a));
    TextOfParts(a, digits);
    var intPart, fracPart := digits[..|digits| - DECIMALS], digits[|digits| - DECIMALS..];
    s := intPart + ("." + fracPart);
    if neg {
      s := "-" + s;
    }
  }

  /** Parsing what was formatted gives the amount back, for every int64 but the smallest: its
      magnitude is one more than ParseInt takes, and it is rejected. */
  lemma FormatThenParse(a: Amount)
    ensures Parsed(Text(Parts(a))) == if a == -0x8000_0000_0000_0000 then None else Some(a)
  {
    SplitOfText(Parts(a));
    ParsedIsSplit(Text(Parts(a)));
  }

  // ---------------------------------------------------------------- on-chain units

  /** FromOnChainUnits: drop the digits beyond six places; nil, negative, too coarse or too large
      amounts are errors. */
  function FromOnChainUnits(raw: Option<int>, onChainDecimals: int): Option<Amount> {
    if raw.None? || raw.value < 0 || onChainDecimals < DECIMALS then None
    else
      var scaled := raw.value / Pow10(onChainDecimals - DECIMALS);
      if scaled > MAX_INT64 then None else Some(scaled)
  }

  /** The result is the floor, so less than one minor unit is lost, and an amount is refused exactly
      when its floor does not fit. */
  lemma OnChainFloor(raw: nat, onChainDecimals: int)
    requires onChainDecimals >= DECIMALS
    ensures
      var one := Pow10(onChainDecimals - DECIMALS);
      var r := FromOnChainUnits(Some(raw), onChainDecimals);
      && (r.Some? ==> 0 <= r.value && r.value * one <= raw < r.value * one + one)
      && (r.None? <==> raw >= (MAX_INT64 + 1) * one)
  {
    var one := Pow10(onChainDecimals - DECIMALS);
    var q := raw / one;
    assert q * one <= raw < q * one + one by { DivFloor(raw, one); }
    if q > MAX_INT64 {
      MulMono(MAX_INT64 + 1, q, one);
    } else {
      MulMono(q + 1, MAX_INT64 + 1, one);
    }
  }

  lemma DivFloor(n: nat, d: nat)
    requires d > 0
    ensures n / d >= 0 && (n / d) * d <= n < (n / d) * d + d
  {
    assert n == d * (n / d) + n % d;
  }

  lemma {:induction false} MulMono(a: nat, b: nat, c: nat)
    requires a <= b
    ensures a * c <= b * c
  {
    assert (b - a) * c >= 0;
  }

  /** A larger transfer never converts to less. */
  lemma OnChainMonotone(raw: nat, raw': nat, onChainDecimals: int)
    requires onChainDecimals >= DECIMALS && raw <= raw' && FromOnChainUnits(Some(raw'), onChainDecimals).Some?
    ensures FromOnChainUnits(Some(raw), onChainDecimals).Some?
    ensures FromOnChainUnits(Some(raw), onChainDecimals).value <= FromOnChainUnits(Some(raw'), onChainDecimals).value
  {
    var one := Pow10(onChainDecimals - DECIMALS);
    var q, q' := raw / one, raw' / one;
    DivFloor(raw, one);
    DivFloor(raw', one);
    if q > q' {
      MulMono(q' + 1, q, one);
      assert false;
    }
  }
}
