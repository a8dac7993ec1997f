/** What the fee texts mean: which are accepted, what they set, and what the search then charges. */
module FeeTexts {
  import opened Wrappers
  import opened Text
  import opened Config

  // ---- Numbers ----

  function Sign(negative: bool): int { if negative then -1 else 1 }

  /** A plain number text: an optional sign, digits, and a fraction after a point. */
  function NumberText(sign: string, whole: string, frac: Option<string>): string {
    sign + whole + if frac.Some? then "." + frac.value else ""
  }

  function FracOf(frac: Option<string>): string { if frac.Some? then frac.value else "" }

  lemma WholeMantissa(s: string)
    requires '.' !in s
    ensures ParseMantissa(s) == if ParseInt(s).Some? then Some((ParseInt(s).value, 0)) else None
  {
    hide ParseInt;
    FindNone(s, {'.'});
  }

  lemma PointedMantissa(front: string, frac: string)
    requires '.' !in front
    ensures var n := ParseInt(front + frac);
      ParseMantissa(front + "." + frac) == if n.Some? then Some((n.value, |frac|)) else None
  {
    hide ParseInt;
    var s := front + "." + frac;
    assert s == front + ['.'] + frac;
    FindAfter(front, '.', frac);
    assert s[..|front|] + s[|front| + 1..] == front + frac;
  }

  lemma SignedReads(sign: string, digits: string)
    requires sign in {"", "+", "-"} && AllDigits(digits) && digits != ""
    ensures ParseInt(sign + digits) == Some(Sign(sign == "-") * Number(digits))
  {
    hide Number;
    if sign == "" {
      assert sign + digits == digits;
    } else {
      assert (sign + digits)[1..] == digits;
    }
  }

  lemma MantissaReads(sign: string, whole: string, frac: Option<string>)
    requires sign in {"", "+", "-"} && AllDigits(whole) && AllDigits(FracOf(frac)) && whole + FracOf(frac) != ""
    ensures ParseMantissa(NumberText(sign, whole, frac)) == Some((Sign(sign == "-") * Number(whole + FracOf(frac)), |FracOf(frac)|))
  {
    hide ParseMantissa;
    hide ParseInt;
    hide Number;
    hide Sign;
    var digits := whole + FracOf(frac);
    SignedReads(sign, digits);
    assert sign + digits == sign + whole + FracOf(frac);
    if frac.None? {
      assert NumberText(sign, whole, frac) == sign + digits;
      WholeMantissa(sign + digits);
    } else {
      assert NumberText(sign, whole, frac) == (sign + whole) + "." + frac.value;
      PointedMantissa(sign + whole, frac.value);
    }
  }

  lemma ParseWithout(m: string)
    requires 'e' !in m && 'E' !in m
    requires ParseMantissa(m).Some?
    ensures Parse(m) == Scaled(ParseMantissa(m).value.0, ParseMantissa(m).value.1, 0)
  {
    hide ParseMantissa;
    hide Scaled;
    FindNone(m, {'e', 'E'});
    assert m[..|m|] == m;
  }

  lemma ParseWith(m: string, exponent: string)
    requires 'e' !in m && 'E' !in m
    requires ParseMantissa(m).Some? && ParseInt(exponent).Some?
    ensures Parse(m + "e" + exponent) == Scaled(ParseMantissa(m).value.0, ParseMantissa(m).value.1, ParseInt(exponent).value)
  {
    hide ParseMantissa;
    hide ParseInt;
    hide Scaled;
    var text := m + "e" + exponent;
    FindExponent(m, exponent);
    assert text[..|m|] == m && text[|m| + 1..] == exponent;
  }

  lemma FindExponent(m: string, rest: string)
    requires 'e' !in m && 'E' !in m
    ensures Find(m + "e" + rest, {'e', 'E'}) == |m|
  {
    var i := Find(m + "e" + rest, {'e', 'E'});
    assert (m + "e" + rest)[|m|] == 'e';
  }

  lemma PlainText(sign: string, whole: string, frac: Option<string>)
    requires sign in {"", "+", "-"} && AllDigits(whole) && AllDigits(FracOf(frac))
    ensures 'e' !in NumberText(sign, whole, frac) && 'E' !in NumberText(sign, whole, frac)
  {
    DigitsOnly(whole);
    DigitsOnly(FracOf(frac));
    hide AllDigits;
    assert 'e' !in sign && 'E' !in sign;
  }

  lemma DigitsOnly(s: string)
    requires AllDigits(s)
    ensures 'e' !in s && 'E' !in s
  {
  }

  /** A number text with or without an exponent is read as the number it writes. */
  lemma NumberReads(sign: string, whole: string, frac: Option<string>, exponent: Option<string>)
    requires sign in {"", "+", "-"} && AllDigits(whole) && AllDigits(FracOf(frac)) && whole + FracOf(frac) != ""
    requires exponent.Some? ==> ParseInt(exponent.value).Some?
    ensures var m := NumberText(sign, whole, frac);
      var e := if exponent.Some? then ParseInt(exponent.value).value else 0;
      Parse(if exponent.Some? then m + "e" + exponent.value else m)
      == Scaled(Sign(sign == "-") * Number(whole + FracOf(frac)), |FracOf(frac)|, e)
  {
    var m := NumberText(sign, whole, frac);
    MantissaReads(sign, whole, frac);
    PlainText(sign, whole, frac);
    hide ParseMantissa;
    hide ParseInt;
    hide Number;
    hide Sign;
    hide Scaled;
    hide Parse;
    hide NumberText;
    if exponent.None? {
      ParseWithout(m);
    } else {
      ParseWith(m, exponent.value);
    }
  }

  /** Scaling by an exponent multiplies by that power of ten, inside the range that a decimal can carry. */
  lemma ScaledIsExact(coef: int, places: nat, exponent: int)
    ensures var d := Scaled(coef, places, exponent);
      && (d.Some? <==> -0x8000_0000 <= exponent <= 0x7FFF_FFFF && exponent - places >= -0x8000_0000)
      && (d.Some? && exponent >= 0 ==> Value(d.value) * Pow10(places) as real == coef as real * Pow10(exponent) as real)
      && (d.Some? && exponent < 0 ==> Value(d.value) * Pow10(places - exponent) as real == coef as real)
  {
    hide Pow10;
    hide Value;
    if -0x8000_0000 <= exponent <= 0x7FFF_FFFF && exponent - places >= -0x8000_0000 {
      if exponent >= places {
        ScaledUp(coef, exponent - places, places);
      } else if exponent >= 0 {
        ScaledPartly(coef, places - exponent, exponent);
      } else {
        ValueIsQuotient(coef, places - exponent);
      }
    }
  }

  lemma ScaledUp(coef: int, k: nat, places: nat)
    ensures Value(Decimal(coef * Pow10(k), 0)) * Pow10(places) as real == coef as real * Pow10(k + places) as real
  {
    Pow10Add(k, places);
    hide Pow10;
    assert Pow10(0) == 1 by { OneIsPower(); }
    var c, a, b := coef, Pow10(k), Pow10(places);
    assert Value(Decimal(c * a, 0)) == (c * a) as real;
    RealProduct(c, a);
    RealProduct(a, b);
    Regrouped(c as real, a as real, b as real);
  }

  lemma OneIsPower()
    ensures Pow10(0) == 1
  {
  }

  lemma RealProduct(a: int, b: int)
    ensures (a * b) as real == a as real * b as real
  {
  }

  lemma Regrouped(a: real, b: real, c: real)
    ensures a * b * c == a * (b * c)
  {
  }

  lemma ScaledPartly(coef: int, k: nat, exponent: nat)
    ensures Value(Decimal(coef, k)) * Pow10(k + exponent) as real == coef as real * Pow10(exponent) as real
  {
    Pow10Add(k, exponent);
    ValueIsQuotient(coef, k);
    hide Pow10;
    hide Value;
    RealProduct(Pow10(k), Pow10(exponent));
    Regrouped(Value(Decimal(coef, k)), Pow10(k) as real, Pow10(exponent) as real);
  }

  lemma ValueIsQuotient(coef: int, k: nat)
    ensures Value(Decimal(coef, k)) * Pow10(k) as real == coef as real
  {
    hide Pow10;
  }

  predicate NumberChar(c: char) { IsDigit(c) || c in {'+', '-', '.', 'e', 'E'} }

  lemma IntChars(s: string)
    ensures ParseInt(s).Some? ==> s != "" && forall i :: 0 <= i < |s| ==> IsDigit(s[i]) || s[i] in {'+', '-'}
  {
    if s != "" && s[0] in {'+', '-'} && AllDigits(s[1..]) {
      assert forall i :: 1 <= i < |s| ==> s[i] == s[1..][i - 1];
    }
  }

  lemma MantissaChars(s: string)
    ensures ParseMantissa(s).Some? ==> s != "" && forall i :: 0 <= i < |s| ==> IsDigit(s[i]) || s[i] in {'+', '-', '.'}
  {
    hide ParseInt;
    var point := Find(s, {'.'});
    var digits := if point == |s| then s else s[..point] + s[point + 1..];
    IntChars(digits);
    if point < |s| {
      assert forall i :: 0 <= i < point ==> s[i] == digits[i];
      assert forall i :: point < i < |s| ==> s[i] == digits[i - 1];
    }
  }

  /** No other text is a number: an empty one, or one with any other character, is refused. */
  lemma OnlyNumbersRead(s: string)
    ensures Parse(s).Some? ==> s != "" && forall i :: 0 <= i < |s| ==> NumberChar(s[i])
  {
    hide ParseMantissa;
    hide ParseInt;
    hide Scaled;
    var e := Find(s, {'e', 'E'});
    MantissaChars(s[..e]);
    if e < |s| {
      IntChars(s[e + 1..]);
      assert forall i :: e < i < |s| ==> s[i] == s[e + 1..][i - e - 1];
    }
    assert forall i :: 0 <= i < e ==> s[i] == s[..e][i];
  }

  // ---- Entries ----

  /** The part names an exchange before its first colon and a fee of the allowed range after it. */
  predicate IsEntry(part: string, name: string, text: string, key: string, fee: Decimal) {
    && part == name + ":" + text && ':' !in name && NormalName(name) == key != ""
    && Parse(TrimSpace(text)) == Some(fee) && fee.coef >= 0 && Value(fee) <= 0.01
  }

  lemma ColonSplits(name: string, text: string)
    requires ':' !in name
    ensures var part := name + ":" + text; Find(part, {':'}) == |name| && part[..|name|] == name && part[|name| + 1..] == text
  {
    assert name + ":" + text == name + [':'] + text;
    FindAfter(name, ':', text);
  }

  lemma EntryReads(part: string, name: string, text: string, key: string, fee: Decimal)
    requires IsEntry(part, name, text, key, fee)
    ensures ParsePart(part) == Some((key, fee))
  {
    hide Parse;
    hide NormalName;
    hide TrimSpace;
    hide Value;
    ColonSplits(name, text);
  }

  /** A part is read exactly when it is such an entry. */
  lemma PartReadsExactly(part: string, key: string, fee: Decimal)
    ensures ParsePart(part) == Some((key, fee)) <==> exists name, text :: IsEntry(part, name, text, key, fee)
  {
    hide IsEntry;
    hide ParsePart;
    if ParsePart(part) == Some((key, fee)) {
      var name, text := EntryParts(part, key, fee);
    }
    if exists name, text :: IsEntry(part, name, text, key, fee) {
      var name, text :| IsEntry(part, name, text, key, fee);
      EntryReads(part, name, text, key, fee);
    }
  }

  lemma EntryParts(part: string, key: string, fee: Decimal) returns (name: string, text: string)
    requires ParsePart(part) == Some((key, fee))
    ensures IsEntry(part, name, text, key, fee)
  {
    hide Parse;
    hide NormalName;
    hide TrimSpace;
    hide Value;
    var i := Find(part, {':'});
    name, text := part[..i], part[i + 1..];
    assert part == name + ":" + text;
  }

  // ---- The whole text ----

  /** The fee that the last entry of the key gives. */
  function LastFee(parts: seq<string>, key: string): Option<Decimal> {
    if parts == [] then None
    else
      var entry := ParsePart(TrimSpace(parts[|parts| - 1]));
      if entry.Some? && entry.value.0 == key then Some(entry.value.1) else LastFee(parts[..|parts| - 1], key)
  }

  predicate Readable(part: string) { TrimSpace(part) == "" || ParsePart(TrimSpace(part)).Some? }

  lemma {:induction false} PartsRead(parts: seq<string>, acc: FeeMap)
    ensures var r := ParseParts(parts, acc);
      && (r.Some? <==> forall i :: 0 <= i < |parts| ==> Readable(parts[i]))
      && (r.Some? ==> forall key :: Get(r.value, key) == if LastFee(parts, key).Some? then LastFee(parts, key) else Get(acc, key))
  {
    hide TrimSpace;
    hide ParsePart;
    if parts != [] {
      var part := TrimSpace(parts[0]);
      EmptyIsNoEntry();
      if Readable(parts[0]) {
        var next := if part == "" then acc else acc[ParsePart(part).value.0 := ParsePart(part).value.1];
        PartsRead(parts[1..], next);
        assert ParseParts(parts, acc) == ParseParts(parts[1..], next);
        assert forall i :: 1 <= i < |parts| ==> parts[i] == parts[1..][i - 1];
        assert forall i :: 0 <= i < |parts[1..]| ==> parts[1..][i] == parts[i + 1];
        forall key ensures LastFee(parts, key) == if LastFee(parts[1..], key).Some? then LastFee(parts[1..], key) else LastFee([parts[0]], key) {
          LastFeeOfMore(parts, key);
        }
        forall key ensures LastFee([parts[0]], key) == if part != "" && ParsePart(part).value.0 == key then Some(ParsePart(part).value.1) else None {
          LastFeeOfOne(parts[0], key);
        }
      }
    }
  }

  lemma EmptyIsNoEntry()
    ensures ParsePart("").None?
  {
  }

  lemma LastFeeOfOne(part: string, key: string)
    ensures var entry := ParsePart(TrimSpace(part));
      LastFee([part], key) == if entry.Some? && entry.value.0 == key then Some(entry.value.1) else None
  {
    assert [part][..0] == [];
  }

  lemma {:induction false} LastFeeOfMore(parts: seq<string>, key: string)
    requires parts != []
    ensures LastFee(parts, key) == if LastFee(parts[1..], key).Some? then LastFee(parts[1..], key) else LastFee([parts[0]], key)
    decreases |parts|
  {
    if |parts| > 1 {
      var front := parts[..|parts| - 1];
      assert parts[1..][..|parts| - 2] == front[1..];
      LastFeeOfMore(front, key);
    } else {
      assert parts == [parts[0]];
    }
  }

  lemma {:induction false} JoinOfSplit(s: string, c: char)
    ensures Join(Split(s, c), c) == s
  {
    var i := Find(s, {c});
    if i < |s| {
      var rest := s[i + 1..];
      JoinOfSplit(rest, c);
      var parts, tail := Split(s, c), Split(rest, c);
      assert parts == [s[..i]] + tail;
      hide Split;
      hide Find;
      assert parts[1..] == tail && parts[0] == s[..i];
      assert Join(parts, c) == s[..i] + [c] + Join(tail, c);
      assert s == s[..i] + [c] + rest;
    }
  }

  /** These are the parts between the commas of the text. */
  predicate PartsOf(parts: seq<string>, raw: string) {
    parts != [] && Join(parts, ',') == raw && forall i :: 0 <= i < |parts| ==> ',' !in parts[i]
  }

  /**
   A fee text is accepted exactly when each part between commas is blank or an entry, and then it gives every
   exchange the fee of its last entry and names no other.
   */
  lemma FeesReadExactly(raw: string, parts: seq<string>)
    requires PartsOf(parts, raw)
    ensures ParseFees(raw).Some? <==> forall i :: 0 <= i < |parts| ==> Readable(parts[i])
    ensures ParseFees(raw).Some? ==> forall key :: Get(ParseFees(raw).value, key) == LastFee(parts, key)
  {
    hide Readable;
    SplitOfJoin(parts, ',');
    PartsRead(parts, map[]);
  }

  /** Every text has such parts. */
  lemma EveryTextHasParts(raw: string)
    ensures PartsOf(Split(raw, ','), raw)
  {
    JoinOfSplit(raw, ',');
    SplitIsFree(raw, ',');
  }

  // ---- What is charged ----

  /** The search charges the fee set for the exchange, in whatever spelling, else the default entry, else 5 basis points. */
  lemma ChargedFee(hardMin: HardMin, fees: FeeMap, exchange: string)
    requires forall k :: k in fees ==> 0.0 <= Value(fees[k]) <= MAX_FEE
    ensures var charged := FeeFor(SettingsOf(hardMin, fees), exchange);
      && (NormalName(exchange) in fees ==> charged == Value(fees[NormalName(exchange)]))
      && (NormalName(exchange) !in fees && "DEFAULT" in fees ==> charged == Value(fees["DEFAULT"]))
      && (NormalName(exchange) !in fees && "DEFAULT" !in fees ==> charged == 0.0005)
  {
  }

  /** What an accepted text sets is what the search charges afterwards, for every spelling of the exchange. */
  lemma TextIsCharged(hardMin: HardMin, raw: string, parts: seq<string>, exchange: string)
    requires PartsOf(parts, raw) && ParseFees(raw).Some? && LastFee(parts, NormalName(exchange)).Some?
    ensures (forall k :: k in ParseFees(raw).value ==> 0.0 <= Value(ParseFees(raw).value[k]) <= MAX_FEE)
      && FeeFor(SettingsOf(hardMin, ParseFees(raw).value), exchange) == Value(LastFee(parts, NormalName(exchange)).value)
  {
    hide ParseFees;
    hide NormalName;
    hide LastFee;
    FeesReadExactly(raw, parts);
    var fees := ParseFees(raw).value;
    assert Get(fees, NormalName(exchange)) == LastFee(parts, NormalName(exchange));
    ParsedFeesAreGood(raw);
    GoodFeesInRange(fees);
    ChargedFee(hardMin, fees, exchange);
  }
}
