/** Thresholds and taker fees, and the text form in which the fees survive a restart. */
module Config {
  import opened Wrappers
  import opened Numbers
  import opened Text

  const MAX_FEE: real := 0.01
  const DEFAULT_FEE: real := 0.0005
  const HARD_MIN_SPREAD: real := 0.01
  const DEFAULT_KEY := "DEFAULT"

  type HardMin = x: real | x >= HARD_MIN_SPREAD witness HARD_MIN_SPREAD
  type Fee = x: real | 0.0 <= x <= MAX_FEE

  /** What the market-data path reads: the opening threshold and the fee of every exchange. */
  datatype Settings = Settings(hardMin: HardMin, fees: map<string, Fee>)

  function FeeFor(c: Settings, exchange: string): Fee {
    var name := NormalName(exchange);
    if name in c.fees then c.fees[name]
    else if DEFAULT_KEY in c.fees then c.fees[DEFAULT_KEY]
    else DEFAULT_FEE
  }

  function CloseThreshold(c: Settings): (t: real) { Div(c.hardMin, 2.0) }

  /** The closing threshold is half the opening one, up to rounding, and so positive and strictly below it. */
  lemma CloseBelowOpen(c: Settings)
    ensures 0.0 < CloseThreshold(c) < c.hardMin
    ensures -1.0 / SCALE <= 2.0 * CloseThreshold(c) - c.hardMin <= 1.0 / SCALE
  {
    DivError(c.hardMin, 2.0);
    var q := c.hardMin / 2.0 * SCALE;
    assert q >= 0.005 * SCALE;
    assert RoundHalfAway(q) as real <= q + 0.5 && RoundHalfAway(q) as real > q - 0.5;
  }

  // ---- Decimals as text ----

  /** coef / 10^scale. */
  datatype Decimal = Decimal(coef: int, scale: nat)

  function Pow10(n: nat): (r: int)
    ensures r >= 1
  {
    if n == 0 then 1 else 10 * Pow10(n - 1)
  }

  function Value(d: Decimal): real { d.coef as real / Pow10(d.scale) as real }

  predicate IsDigit(c: char) { '0' <= c <= '9' }

  predicate AllDigits(s: string) { forall i :: 0 <= i < |s| ==> IsDigit(s[i]) }

  function DigitChar(n: nat): (c: char)
    requires n < 10
    ensures IsDigit(c) && DigitOf(c) == n
  {
    ['0', '1', '2', '3', '4', '5', '6', '7', '8', '9'][n]
  }

  function DigitOf(c: char): nat
    requires IsDigit(c)
  {
    c as int - '0' as int
  }

  function Number(s: string): nat
    requires AllDigits(s)
  {
    if s == "" then 0 else 10 * Number(s[..|s| - 1]) + DigitOf(s[|s| - 1])
  }

  /** Exactly `width` digits. */
  function Padded(n: nat, width: nat): (s: string)
    ensures |s| == width && AllDigits(s)
  {
    if width == 0 then "" else Padded(n / 10, width - 1) + [DigitChar(n % 10)]
  }

  /** No leading zero, except for zero itself. */
  function Digits(n: nat): (s: string)
    ensures s != "" && AllDigits(s)
  {
    if n < 10 then [DigitChar(n)] else Digits(n / 10) + [DigitChar(n % 10)]
  }

  function DropZeros(s: string): (r: string)
    requires AllDigits(s)
    ensures AllDigits(r)
  {
    if s != "" && s[|s| - 1] == '0' then DropZeros(s[..|s| - 1]) else s
  }

  function Quot(n: nat, p: int): (q: nat)
    requires p >= 1
    ensures q * p <= n
  {
    n / p
  }

  function Rem(n: nat, p: int): (r: nat)
    requires p >= 1
    ensures r < p && Quot(n, p) * p + r == n
  {
    n % p
  }

  /** The plain notation of a non-negative decimal, without trailing zeros. */
  function Print(d: Decimal): string
    requires d.coef >= 0
  {
    var p := Pow10(d.scale);
    var frac := DropZeros(Padded(Rem(d.coef, p), d.scale));
    Digits(Quot(d.coef, p)) + if frac == "" then "" else "." + frac
  }

  /** The position of the first character of a set, or the length. */
  function Find(s: string, chars: set<char>): (i: nat)
    ensures i <= |s| && (i < |s| ==> s[i] in chars)
    ensures forall j :: 0 <= j < i ==> s[j] !in chars
  {
    if s == "" || s[0] in chars then 0 else 1 + Find(s[1..], chars)
  }

  /** An optionally signed integer. */
  function ParseInt(s: string): Option<int> {
    if s != "" && s[0] in {'+', '-'} then
      if |s| > 1 && AllDigits(s[1..]) then
        var n: int := Number(s[1..]);
        Some(if s[0] == '-' then -n else n)
      else None
    else if s != "" && AllDigits(s) then Some(Number(s)) else None
  }

  const MAX_EXPONENT := 0x7FFF_FFFF

  /** Digits with at most one point: the digits as an integer and the number of decimal places. */
  function ParseMantissa(s: string): Option<(int, nat)> {
    var point := Find(s, {'.'});
    var digits := if point == |s| then s else s[..point] + s[point + 1..];
    match ParseInt(digits)
    case None => None
    case Some(coef) => Some((coef, if point == |s| then 0 else |s| - point - 1))
  }

  /** A mantissa and an optional exponent that fits in 32 bits. */
  function Parse(s: string): Option<Decimal> {
    var e := Find(s, {'e', 'E'});
    match (ParseMantissa(s[..e]), if e == |s| then Some(0) else ParseInt(s[e + 1..]))
    case (Some((coef, places)), Some(exponent)) => Scaled(coef, places, exponent)
    case _ => None
  }

  function Scaled(coef: int, places: nat, exponent: int): Option<Decimal> {
    if exponent > MAX_EXPONENT || exponent < -MAX_EXPONENT - 1 || exponent - places < -MAX_EXPONENT - 1 then None
    else if exponent >= places then Some(Decimal(coef * Pow10(exponent - places), 0))
    else Some(Decimal(coef, places - exponent))
  }

  lemma {:induction false} NumberOfPadded(n: nat, width: nat)
    requires n < Pow10(width)
    ensures Number(Padded(n, width)) == n
  {
    if width > 0 {
      NumberOfPadded(n / 10, width - 1);
      var s := Padded(n, width);
      assert s[..|s| - 1] == Padded(n / 10, width - 1);
    }
  }

  lemma {:induction false} NumberOfDigits(n: nat)
    ensures Number(Digits(n)) == n
  {
    var s := Digits(n);
    if n >= 10 {
      NumberOfDigits(n / 10);
      assert s[..|s| - 1] == Digits(n / 10);
    } else {
      assert s[..0] == "";
    }
  }

  lemma {:induction false} NumberOfConcat(a: string, b: string)
    requires AllDigits(a) && AllDigits(b)
    ensures AllDigits(a + b) && Number(a + b) == Number(a) * Pow10(|b|) + Number(b)
  {
    if b == "" {
      assert a + b == a;
    } else {
      var front, s := b[..|b| - 1], a + b;
      assert s[..|s| - 1] == a + front && s[|s| - 1] == b[|b| - 1];
      NumberOfConcat(a, front);
      ShiftIn(Number(a), Pow10(|front|), Number(front), DigitOf(b[|b| - 1]));
    }
  }

  lemma ShiftIn(n: int, p: int, f: int, d: int)
    ensures 10 * (n * p + f) + d == n * (10 * p) + (10 * f + d)
  {
  }

  /** Dropping k trailing zeros divides the number by 10^k. */
  lemma {:induction false} DropZerosScales(s: string)
    requires AllDigits(s)
    ensures var r := DropZeros(s); |r| <= |s| && Number(s) == Number(r) * Pow10(|s| - |r|)
  {
    if s != "" && s[|s| - 1] == '0' {
      var front := s[..|s| - 1];
      DropZerosScales(front);
      var r := DropZeros(front);
      assert Number(s) == 10 * Number(front);
      TenTimes(Number(r), Pow10(|front| - |r|));
    }
  }

  lemma TenTimes(n: int, p: int)
    ensures 10 * (n * p) == n * (10 * p)
  {
  }

  lemma {:induction false} Pow10Add(a: nat, b: nat)
    ensures Pow10(a + b) == Pow10(a) * Pow10(b)
  {
    if a > 0 {
      Pow10Add(a - 1, b);
      assert Pow10(a + b) == 10 * Pow10(a - 1 + b);
    }
  }

  lemma FindNone(s: string, chars: set<char>)
    requires forall i :: 0 <= i < |s| ==> s[i] !in chars
    ensures Find(s, chars) == |s|
  {
  }

  lemma {:induction false} FindAfter(a: string, c: char, b: string)
    requires c !in a
    ensures Find(a + [c] + b, {c}) == |a|
  {
    var i := Find(a + [c] + b, {c});
    assert (a + [c] + b)[|a|] == c;
  }

  /** A decimal prints as digits, with a point and a fraction unless the fraction is zero. */
  lemma PrintShape(d: Decimal) returns (whole: string, frac: string)
    requires d.coef >= 0
    ensures whole != "" && AllDigits(whole) && AllDigits(frac) && |frac| <= d.scale
    ensures Print(d) == whole + if frac == "" then "" else "." + frac
    ensures Number(whole + frac) * Pow10(d.scale - |frac|) == d.coef
  {
    var p := Pow10(d.scale);
    var q, r := Quot(d.coef, p), Rem(d.coef, p);
    var padded := Padded(r, d.scale);
    whole, frac := Digits(q), DropZeros(padded);
    NumberOfDigits(q);
    NumberOfPadded(r, d.scale);
    DropZerosScales(padded);
    NumberOfConcat(whole, frac);
    Pow10Add(|frac|, d.scale - |frac|);
    Regroup(q, Pow10(|frac|), Number(frac), Pow10(d.scale - |frac|));
  }

  lemma Regroup(q: int, a: int, f: int, k: int)
    ensures (q * a + f) * k == q * (a * k) + f * k
  {
  }

  lemma MantissaOfPlain(whole: string, frac: string)
    requires whole != "" && AllDigits(whole) && AllDigits(frac)
    ensures AllDigits(whole + frac)
    ensures ParseMantissa(whole + if frac == "" then "" else "." + frac) == Some((Number(whole + frac), |frac|))
  {
    var s := whole + if frac == "" then "" else "." + frac;
    if frac == "" {
      FindNone(s, {'.'});
      assert whole + frac == whole == s;
    } else {
      assert s == whole + ['.'] + frac;
      FindAfter(whole, '.', frac);
      assert s[..|whole|] + s[|whole| + 1..] == whole + frac;
    }
    assert !((whole + frac)[0] in {'+', '-'});
  }

  /** Printing and parsing give back the same number, for scales a decimal can carry. */
  lemma ParseOfPrint(d: Decimal)
    requires d.coef >= 0 && d.scale <= MAX_EXPONENT + 1
    ensures Parse(Print(d)).Some? && Value(Parse(Print(d)).value) == Value(d)
    ensures Parse(Print(d)).value.scale <= d.scale
  {
    hide Print;
    hide Parse;
    hide ParseMantissa;
    hide Number;
    hide Pow10;
    var whole, frac := PrintShape(d);
    MantissaOfPlain(whole, frac);
    var coef := Number(whole + frac);
    ParsePlain(Print(d), coef, |frac|);
    Pow10Add(|frac|, d.scale - |frac|);
    SameQuotient(coef, Pow10(|frac|), d.coef, Pow10(d.scale), Pow10(d.scale - |frac|));
  }

  lemma ParsePlain(s: string, coef: int, places: nat)
    requires forall i :: 0 <= i < |s| ==> s[i] !in {'e', 'E'}
    requires ParseMantissa(s) == Some((coef, places)) && places <= MAX_EXPONENT + 1
    ensures Parse(s) == Some(Decimal(coef, places))
  {
    FindNone(s, {'e', 'E'});
    assert s[..|s|] == s;
    assert Parse(s) == Scaled(coef, places, 0);
  }

  lemma SameQuotient(n: int, p: int, c: int, q: int, k: int)
    requires p >= 1 && q >= 1 && k >= 1 && n * k == c
    requires q == p * k
    ensures n as real / p as real == c as real / q as real
  {
    var x := n as real / p as real;
    assert x * p as real == n as real;
    assert c as real == n as real * k as real;
    assert q as real == p as real * k as real;
    assert x * q as real == c as real;
  }

  // ---- The fee map as text ----

  type FeeMap = map<string, Decimal>

  function Split(s: string, c: char): (parts: seq<string>)
    ensures parts != []
  {
    var i := Find(s, {c});
    if i == |s| then [s] else [s[..i]] + Split(s[i + 1..], c)
  }

  function Join(parts: seq<string>, c: char): string {
    if parts == [] then "" else if |parts| == 1 then parts[0] else parts[0] + [c] + Join(parts[1..], c)
  }

  /** One KEY:FEE entry, already trimmed. */
  function ParsePart(part: string): Option<(string, Decimal)> {
    var i := Find(part, {':'});
    if i == |part| then None
    else
      Entry(NormalName(part[..i]), Parse(TrimSpace(part[i + 1..])))
  }

  function Entry(key: string, fee: Option<Decimal>): Option<(string, Decimal)> {
    if key == "" || fee.None? || fee.value.coef < 0 || Value(fee.value) > MAX_FEE then None
    else Some((key, fee.value))
  }

  function ParseParts(parts: seq<string>, acc: FeeMap): Option<FeeMap> {
    if parts == [] then Some(acc)
    else
      var part := TrimSpace(parts[0]);
      if part == "" then ParseParts(parts[1..], acc)
      else
        match ParsePart(part)
        case None => None
        case Some((key, v)) => ParseParts(parts[1..], acc[key := v])
  }

  /** Empty entries are skipped and any malformed one rejects the whole text. */
  function ParseFees(raw: string): Option<FeeMap> { ParseParts(Split(raw, ','), map[]) }

  function PrintParts(fees: FeeMap, order: seq<string>): seq<string>
    requires forall k :: k in order ==> k in fees && fees[k].coef >= 0
  {
    if order == [] then [] else [order[0] + ":" + Print(fees[order[0]])] + PrintParts(fees, order[1..])
  }

  /** The text of a fee map whose keys are listed in `order`. */
  function FeesText(fees: FeeMap, order: seq<string>): string
    requires forall k :: k in order ==> k in fees && fees[k].coef >= 0
  {
    Join(PrintParts(fees, order), ',')
  }

  predicate GoodKey(k: string) {
    k != "" && Trimmed(k) && NormalName(k) == k && ',' !in k && ':' !in k
  }

  predicate GoodFee(d: Decimal) {
    0 <= d.coef && Value(d) <= MAX_FEE && d.scale <= MAX_EXPONENT + 1
  }

  /** What every fee map the application can hold looks like. */
  predicate GoodFees(fees: FeeMap) {
    fees != map[] && forall k :: k in fees ==> GoodKey(k) && GoodFee(fees[k])
  }

  lemma {:induction false} SplitOfJoin(parts: seq<string>, c: char)
    requires parts != [] && forall i :: 0 <= i < |parts| ==> c !in parts[i]
    ensures Split(Join(parts, c), c) == parts
  {
    if |parts| == 1 {
      FindNone(parts[0], {c});
    } else {
      var s, rest := Join(parts, c), Join(parts[1..], c);
      assert s == parts[0] + [c] + rest;
      FindAfter(parts[0], c, rest);
      assert s[..|parts[0]|] == parts[0] && s[|parts[0]| + 1..] == rest;
      SplitOfJoin(parts[1..], c);
    }
  }

  lemma {:induction false} SplitIsFree(s: string, c: char)
    ensures forall i :: 0 <= i < |Split(s, c)| ==> c !in Split(s, c)[i]
  {
    var i := Find(s, {c});
    if i < |s| {
      SplitIsFree(s[i + 1..], c);
    }
  }

  /** A printed decimal starts and ends with a digit and holds only digits and a point. */
  lemma PrintIsPlain(d: Decimal)
    requires d.coef >= 0
    ensures Print(d) != "" && IsDigit(Print(d)[0]) && IsDigit(Print(d)[|Print(d)| - 1]) && ',' !in Print(d)
  {
    var whole, frac := PrintShape(d);
  }

  lemma EntryIsTrimmed(k: string, text: string)
    requires GoodKey(k) && text != "" && IsDigit(text[0]) && IsDigit(text[|text| - 1]) && ',' !in text
    ensures var part := k + ":" + text; ',' !in part && part != "" && TrimSpace(part) == part
    ensures TrimSpace(text) == text
  {
    TrimTrims(text);
    TrimTrims(k + ":" + text);
  }

  lemma PartSplitsAtColon(k: string, text: string)
    requires ':' !in k && TrimSpace(text) == text
    ensures ParsePart(k + ":" + text) == Entry(NormalName(k), Parse(text))
  {
    var part := k + ":" + text;
    assert part == k + [':'] + text;
    FindAfter(k, ':', text);
    assert part[..|k|] == k && part[|k| + 1..] == text;
  }

  /** An entry contains no comma, is trimmed, and reads back as the same key and number. */
  lemma PartRoundTrip(k: string, d: Decimal) returns (back: Decimal)
    requires GoodKey(k) && GoodFee(d)
    ensures ',' !in k + ":" + Print(d) && k + ":" + Print(d) != ""
    ensures TrimSpace(k + ":" + Print(d)) == k + ":" + Print(d)
    ensures ParsePart(k + ":" + Print(d)) == Some((k, back))
    ensures GoodFee(back) && Value(back) == Value(d)
  {
    PrintIsPlain(d);
    EntryIsTrimmed(k, Print(d));
    PartSplitsAtColon(k, Print(d));
    ParseOfPrint(d);
    ParseSign(Print(d));
    back := Parse(Print(d)).value;
  }

  lemma ScaledSign(coef: nat, places: nat, exponent: int)
    ensures Scaled(coef, places, exponent).Some? ==> Scaled(coef, places, exponent).value.coef >= 0
  {
    if exponent >= places {
      assert coef * Pow10(exponent - places) >= 0;
    }
  }

  /** A text that does not start with a minus sign is not negative. */
  lemma ParseSign(s: string)
    requires s != "" && IsDigit(s[0])
    ensures Parse(s).Some? ==> Parse(s).value.coef >= 0
  {
    var e := Find(s, {'e', 'E'});
    var m := s[..e];
    var exponent := if e == |s| then Some(0) else ParseInt(s[e + 1..]);
    if ParseMantissa(m).Some? && exponent.Some? {
      MantissaSign(m);
      ScaledSign(ParseMantissa(m).value.0, ParseMantissa(m).value.1, exponent.value);
    }
  }

  lemma MantissaSign(m: string)
    requires ParseMantissa(m).Some?
    requires m != "" ==> IsDigit(m[0])
    ensures ParseMantissa(m).value.0 >= 0
  {
  }

  lemma ParseOnePart(parts: seq<string>, acc: FeeMap, k: string, back: Decimal)
    requires parts != [] && TrimSpace(parts[0]) == parts[0] != "" && ParsePart(parts[0]) == Some((k, back))
    ensures ParseParts(parts, acc) == ParseParts(parts[1..], acc[k := back])
  {
    hide TrimSpace;
    hide ParsePart;
  }

  lemma {:induction false} PartsRoundTrip(fees: FeeMap, order: seq<string>, acc: FeeMap)
    requires forall k :: k in order ==> k in fees && fees[k].coef >= 0
    requires forall k :: k in order ==> GoodKey(k) && GoodFee(fees[k])
    ensures |PrintParts(fees, order)| == |order|
    ensures forall i :: 0 <= i < |order| ==> ',' !in PrintParts(fees, order)[i]
    ensures var back := ParseParts(PrintParts(fees, order), acc);
      && back.Some? && back.value.Keys == acc.Keys + (set k | k in order)
      && (forall k :: k in order ==> Value(back.value[k]) == Value(fees[k]))
      && (forall k :: k in acc && k !in order ==> back.value[k] == acc[k])
  {
    hide Print;
    hide ParsePart;
    hide TrimSpace;
    hide GoodKey;
    hide GoodFee;
    hide Value;
    if order != [] {
      var k, parts := order[0], PrintParts(fees, order);
      var back := PartRoundTrip(k, fees[k]);
      assert parts[0] == k + ":" + Print(fees[k]) && parts[1..] == PrintParts(fees, order[1..]);
      PartsRoundTrip(fees, order[1..], acc[k := back]);
      ParseOnePart(parts, acc, k, back);
    }
  }

  /** A restart restores the fees: the printed map reads back with the same keys and the same numbers. */
  lemma FeesSurviveRestart(fees: FeeMap, order: seq<string>)
    requires GoodFees(fees)
    requires forall k :: k in order <==> k in fees
    ensures var back := ParseFees(FeesText(fees, order));
      back.Some? && back.value.Keys == fees.Keys && forall k :: k in fees ==> Value(back.value[k]) == Value(fees[k])
  {
    PartsRoundTrip(fees, order, map[]);
    var some :| some in fees;
    assert some in order;
    SplitOfJoin(PrintParts(fees, order), ',');
    assert (set k | k in order) == fees.Keys;
  }

  // ---- Every reachable map is good ----

  lemma {:induction false} NormalNameChars(s: string, c: char)
    requires c !in s && !('A' <= c <= 'Z')
    ensures c !in NormalName(s)
  {
    TrimLeftShape(s);
    TrimRightShape(TrimLeft(s));
    ToUpperAt(TrimSpace(s));
  }

  lemma TrimKeepsFree(s: string, c: char)
    requires c !in s
    ensures c !in TrimSpace(s)
  {
    TrimLeftShape(s);
    TrimRightShape(TrimLeft(s));
  }

  lemma ParsedPartIsGood(part: string)
    requires ',' !in part && ParsePart(part).Some?
    ensures GoodKey(ParsePart(part).value.0) && GoodFee(ParsePart(part).value.1)
  {
    var name := part[..Find(part, {':'})];
    NormalNameChars(name, ',');
    NormalNameChars(name, ':');
    NormalNameIdempotent(name);
  }

  lemma {:induction false} ParsedPartsAreGood(parts: seq<string>, acc: FeeMap)
    requires forall i :: 0 <= i < |parts| ==> ',' !in parts[i]
    requires forall k :: k in acc ==> GoodKey(k) && GoodFee(acc[k])
    ensures var r := ParseParts(parts, acc);
      r.Some? ==> forall k :: k in r.value ==> GoodKey(k) && GoodFee(r.value[k])
  {
    if parts != [] {
      var part := TrimSpace(parts[0]);
      TrimKeepsFree(parts[0], ',');
      if part == "" {
        ParsedPartsAreGood(parts[1..], acc);
      } else if ParsePart(part).Some? {
        ParsedPartIsGood(part);
        var (k, v) := ParsePart(part).value;
        ParsedPartsAreGood(parts[1..], acc[k := v]);
      }
    }
  }

  lemma ParsedFeesAreGood(raw: string)
    ensures ParseFees(raw).Some? && ParseFees(raw).value != map[] ==> GoodFees(ParseFees(raw).value)
  {
    SplitIsFree(raw, ',');
    ParsedPartsAreGood(Split(raw, ','), map[]);
  }

  function Clamped(v: Decimal): Decimal {
    if Value(v) < 0.0 then Decimal(0, 0) else if Value(v) > MAX_FEE then Decimal(1, 2) else v
  }

  lemma ClampedInRange(v: Decimal)
    ensures 0.0 <= Value(Clamped(v)) <= MAX_FEE && Clamped(v).coef >= 0
    ensures GoodFee(v) ==> Clamped(v) == v
  {
    if v.coef < 0 {
      assert Value(v) * Pow10(v.scale) as real < 0.0;
    } else {
      assert Value(v) * Pow10(v.scale) as real >= 0.0;
    }
  }

  /** A fee that is set is the number of the allowed range nearest to the one given. */
  lemma ClampedIsNearest(v: Decimal, x: real)
    requires 0.0 <= x <= 0.01
    ensures var d, e := Value(Clamped(v)) - Value(v), x - Value(v); -(if e < 0.0 then -e else e) <= d <= if e < 0.0 then -e else e
  {
    ClampedInRange(v);
  }

  const DEFAULT_FEES: FeeMap := map[DEFAULT_KEY := Decimal(5, 4)]

  lemma GoodFeesInRange(fees: FeeMap)
    requires forall k :: k in fees ==> GoodFee(fees[k])
    ensures forall k :: k in fees ==> 0.0 <= Value(fees[k]) <= MAX_FEE
  {
    forall k | k in fees ensures 0.0 <= Value(fees[k]) <= MAX_FEE {
      ClampedInRange(fees[k]);
    }
  }

  /** What the market-data path reads of a configuration. */
  function SettingsOf(hardMin: HardMin, fees: FeeMap): Settings
    requires forall k :: k in fees ==> 0.0 <= Value(fees[k]) <= MAX_FEE
  {
    Settings(hardMin, map k | k in fees :: Value(fees[k]))
  }

  /** The text is the printed form of a map that can be printed, in some order of its keys. */
  ghost predicate Prints(fees: FeeMap, raw: string) {
    exists order :: PrintsInOrder(fees, order, raw)
  }

  ghost predicate PrintsInOrder(fees: FeeMap, order: seq<string>, raw: string) {
    GoodFees(fees) && (forall k :: k in order <==> k in fees) && raw == FeesText(fees, order)
  }

  /** The settings that the search reads are the same after a restart. */
  lemma SettingsSurviveRestart(hardMin: HardMin, fees: FeeMap, raw: string)
    requires Prints(fees, raw)
    ensures ParseFees(raw).Some? && ParseFees(raw).value != map[] && GoodFees(ParseFees(raw).value)
    ensures (forall k :: k in fees ==> 0.0 <= Value(fees[k]) <= MAX_FEE)
      && (forall k :: k in ParseFees(raw).value ==> 0.0 <= Value(ParseFees(raw).value[k]) <= MAX_FEE)
      && SettingsOf(hardMin, ParseFees(raw).value) == SettingsOf(hardMin, fees)
  {
    hide ParseFees;
    hide FeesText;
    var order :| PrintsInOrder(fees, order, raw);
    FeesSurviveRestart(fees, order);
    var back := ParseFees(raw).value;
    assert back.Keys == fees.Keys;
    ParsedFeesAreGood(raw);
    GoodFeesInRange(fees);
    GoodFeesInRange(back);
    var a, b := SettingsOf(hardMin, back).fees, SettingsOf(hardMin, fees).fees;
    assert forall k :: Get(a, k) == Get(b, k);
    SameMap(a, b);
  }

  class ScreenerConfig {
    var hardMin: HardMin
    var fees: FeeMap

    ghost predicate Valid()
      reads this
    {
      forall k :: k in fees ==> 0.0 <= Value(fees[k]) <= MAX_FEE
    }

    ghost function Current(): Settings
      reads this
      requires Valid()
    {
      SettingsOf(hardMin, fees)
    }

    constructor (hardSpread: real)
      ensures Valid() && GoodFees(fees) && fees == DEFAULT_FEES
      ensures hardMin == if hardSpread < 0.01 then 0.01 else hardSpread
      ensures forall exchange :: FeeFor(Current(), exchange) == 0.0005
    {
      hardMin := if hardSpread < HARD_MIN_SPREAD then HARD_MIN_SPREAD else hardSpread;
      fees := DEFAULT_FEES;
      DefaultIsGood();
      GoodFeesInRange(DEFAULT_FEES);
      DefaultIsCharged(if hardSpread < HARD_MIN_SPREAD then HARD_MIN_SPREAD else hardSpread);
    }

    method SetHardMinSpread(v: real) returns (r: HardMin)
      modifies this`hardMin
      ensures r == hardMin == if v < 0.01 then 0.01 else v
    {
      r := if v < HARD_MIN_SPREAD then HARD_MIN_SPREAD else v;
      hardMin := r;
    }

    method SetFee(exchange: string, v: Decimal)
      requires Valid()
      modifies this`fees
      ensures Valid()
      ensures fees == if NormalName(exchange) == "" then old(fees) else old(fees)[NormalName(exchange) := Clamped(v)]
    {
      var name := NormalName(exchange);
      if name == "" {
        return;
      }
      ClampedInRange(v);
      var fee := v;
      if Value(fee) < 0.0 {
        fee := Decimal(0, 0);
      }
      if Value(fee) > MAX_FEE {
        fee := Decimal(1, 2);
      }
      fees := fees[name := fee];
    }

    /** Reads the entries one by one; the first malformed one rejects the text. */
    static method Read(raw: string) returns (r: Option<FeeMap>)
      ensures r == ParseFees(raw)
    {
      var out: FeeMap, parts := map[], Split(raw, ',');
      var i := 0;
      while i < |parts|
        invariant 0 <= i <= |parts|
        invariant ParseParts(parts, map[]) == ParseParts(parts[i..], out)
      {
        var part := TrimSpace(parts[i]);
        assert parts[i..][0] == parts[i] && parts[i..][1..] == parts[i + 1..];
        if part != "" {
          match ParsePart(part)
          case None => return None;
          case Some(entry) => out := out[entry.0 := entry.1];
        }
        i := i + 1;
      }
      return Some(out);
    }

    /** Replaces the whole map; a rejected or empty text changes nothing. */
    method ApplyFees(raw: string) returns (ok: bool)
      requires Valid()
      modifies this`fees
      ensures Valid() && ok == ParseFees(raw).Some?
      ensures fees == if ok && ParseFees(raw).value != map[] then ParseFees(raw).value else old(fees)
      ensures GoodFees(old(fees)) ==> GoodFees(fees)
      ensures Prints(old(fees), raw) ==> ok && Current() == old(Current())
    {
      hide Prints;
      hide ParseFees;
      hide SettingsOf;
      if Prints(fees, raw) {
        SettingsSurviveRestart(hardMin, fees, raw);
      }
      var parsed := Read(raw);
      if parsed.None? {
        return false;
      }
      if parsed.value != map[] {
        ParsedFeesAreGood(raw);
        GoodFeesInRange(parsed.value);
        fees := parsed.value;
      }
      return true;
    }

    /** The operator command: every parsed entry is set on top of the current map. */
    method SetFees(raw: string) returns (ok: bool)
      requires Valid()
      modifies this`fees
      ensures Valid() && ok == ParseFees(raw).Some?
      ensures fees == if ok then old(fees) + ParseFees(raw).value else old(fees)
      ensures GoodFees(old(fees)) ==> GoodFees(fees)
    {
      hide ParseFees;
      hide NormalName;
      var parsed := Read(raw);
      if parsed.None? {
        return false;
      }
      var entries := parsed.value;
      ParsedFeesAreGood(raw);
      var todo := entries.Keys;
      while todo != {}
        invariant Valid()
        invariant todo <= entries.Keys
        invariant forall k :: Get(fees, k) == if k in entries && k !in todo then Some(entries[k]) else Get(old(fees), k)
      {
        var k := Pick(todo);
        ClampedInRange(entries[k]);
        SetFee(k, entries[k]);
        todo := todo - {k};
      }
      SameMap(fees, old(fees) + entries);
      return true;
    }
  }

  lemma DefaultIsCharged(hardMin: HardMin)
    ensures GoodFees(DEFAULT_FEES) && forall k :: k in DEFAULT_FEES ==> 0.0 <= Value(DEFAULT_FEES[k]) <= MAX_FEE
    ensures forall exchange :: FeeFor(SettingsOf(hardMin, DEFAULT_FEES), exchange) == 0.0005
  {
    DefaultIsGood();
    GoodFeesInRange(DEFAULT_FEES);
    hide NormalName;
    hide GoodFees;
    assert Value(DEFAULT_FEES[DEFAULT_KEY]) == 0.0005 by {
      assert Pow10(4) == 10000;
      assert Value(Decimal(5, 4)) == 5.0 / 10000.0;
    }
  }

  lemma DefaultIsGood()
    ensures GoodFees(DEFAULT_FEES)
  {
    ToUpperAt(DEFAULT_KEY);
    TrimTrims(DEFAULT_KEY);
    assert Trimmed(DEFAULT_KEY);
    assert forall i :: 0 <= i < |DEFAULT_KEY| ==> 'A' <= DEFAULT_KEY[i] <= 'Z';
    assert ToUpper(DEFAULT_KEY) == DEFAULT_KEY;
    assert GoodKey(DEFAULT_KEY);
    assert Pow10(4) == 10000;
    assert Value(Decimal(5, 4)) == 5.0 / 10000.0;
    assert GoodFee(Decimal(5, 4));
    assert DEFAULT_KEY in DEFAULT_FEES;
  }
}
