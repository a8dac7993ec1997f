/**
 The hand-written reader of MEXC's kline messages (Protocol Buffers wire format).  Bytes are
 numbers below 256 and words are numbers below 2^64; groups of seven bits that do not overlap
 are joined by addition.
 */
module MexcProto {

  type Byte = x: int | 0 <= x < 256

  const WORD: nat := 0x1_0000_0000_0000_0000
  const HALF: int := 0x8000_0000_0000_0000

  datatype Error = Truncated | TooLong | BadField | TooShort | BadWire | MissingPayload

  datatype Result<T> = Ok(value: T) | Err(error: Error)

  datatype Kline = Kline(channel: seq<Byte>, symbol: seq<Byte>, createTime: int, sendTime: int,
                         interval: seq<Byte>, windowStart: int, amount: seq<Byte>, windowEnd: int)

  const EMPTY := Kline([], [], 0, 0, [], 0, [], 0)

  // ---- Varints: the meaning ----

  /** How many leading bytes carry the continuation bit. */
  function Continued(data: seq<Byte>): (n: nat)
    ensures n <= |data|
  {
    if data == [] || data[0] < 128 then 0 else 1 + Continued(data[1..])
  }

  /** Seven bits a byte, the least significant group first. */
  function Groups(data: seq<Byte>): nat {
    if data == [] then 0 else data[0] % 128 + 128 * Groups(data[1..])
  }

  function Varint(data: seq<Byte>): (r: Result<(nat, nat)>)
    ensures r.Ok? ==> 1 <= r.value.1 <= |data| && r.value.0 < WORD
  {
    var n := Continued(data);
    if n < |data| && n < 10 then Ok((Groups(data[..n + 1]) % WORD, n + 1))
    else if |data| > 10 then Err(TooLong)
    else Err(Truncated)
  }

  // ---- Varints: the loop ----

  function Power(i: nat): (p: nat)
    ensures p >= 1
  {
    if i == 0 then 1 else 128 * Power(i - 1)
  }

  lemma {:induction false} GroupsAppend(data: seq<Byte>, b: Byte)
    ensures Groups(data + [b]) == Groups(data) + b % 128 * Power(|data|)
  {
    if data == [] {
      assert ([] + [b])[1..] == [];
    } else {
      GroupsAppend(data[1..], b);
      assert (data + [b])[1..] == data[1..] + [b];
      Distribute(data[0] % 128, Groups(data[1..]), b % 128, Power(|data| - 1));
    }
  }

  lemma Distribute(a: int, g: int, b: int, p: int)
    ensures a + 128 * (g + b * p) == a + 128 * g + b * (128 * p)
  {
  }

  lemma {:induction false} ContinuedAtLeast(data: seq<Byte>, i: nat)
    requires i <= |data| && forall k :: 0 <= k < i ==> data[k] >= 128
    ensures Continued(data) >= i
    ensures i == |data| || data[i] < 128 ==> Continued(data) == i
  {
    if i > 0 {
      ContinuedAtLeast(data[1..], i - 1);
    }
  }

  lemma ModAdd(a: int, b: int)
    ensures (a % WORD + b) % WORD == (a + b) % WORD
  {
  }

  method ReadVarint(data: seq<Byte>) returns (r: Result<(nat, nat)>)
    ensures r == Varint(data)
  {
    var value, power, i := 0, 1, 0;
    while i < |data|
      invariant 0 <= i <= |data| && i <= 10
      invariant forall k :: 0 <= k < i ==> data[k] >= 128
      invariant power == Power(i) && value == Groups(data[..i]) % WORD
    {
      ContinuedAtLeast(data, i);
      if i >= 10 {
        return Err(TooLong);
      }
      var b := data[i];
      assert data[..i + 1] == data[..i] + [b];
      GroupsAppend(data[..i], b);
      ModAdd(Groups(data[..i]), b % 128 * power);
      value := (value + b % 128 * power) % WORD;
      if b < 128 {
        return Ok((value, i + 1));
      }
      i, power := i + 1, 128 * power;
    }
    ContinuedAtLeast(data, i);
    return Err(Truncated);
  }

  // ---- Varints: the encoder ----

  function VarintBytes(v: nat): (s: seq<Byte>)
    ensures |s| >= 1
  {
    if v < 128 then [v] else [v % 128 + 128] + VarintBytes(v / 128)
  }

  method AppendVarint(dst: seq<Byte>, value: nat) returns (out: seq<Byte>)
    ensures out == dst + VarintBytes(value)
  {
    out := dst;
    var v := value;
    while v >= 128
      invariant out + VarintBytes(v) == dst + VarintBytes(value)
    {
      assert out + VarintBytes(v) == out + [v % 128 + 128] + VarintBytes(v / 128);
      out := out + [v % 128 + 128];
      v := v / 128;
    }
    out := out + [v];
  }

  lemma {:induction false} VarintShape(v: nat, rest: seq<Byte>, k: nat)
    requires v < Power(k + 1)
    ensures |VarintBytes(v)| <= k + 1
    ensures Continued(VarintBytes(v) + rest) == |VarintBytes(v)| - 1
    ensures Groups(VarintBytes(v)) == v
  {
    var s := VarintBytes(v);
    if v < 128 {
      assert s[1..] == [];
    } else {
      assert Power(1) == 128 * Power(0);
      VarintShape(v / 128, rest, k - 1);
      assert s[1..] == VarintBytes(v / 128);
      assert (s + rest)[1..] == VarintBytes(v / 128) + rest;
    }
  }

  lemma TenGroupsHoldAWord(v: nat)
    requires v < WORD
    ensures v < Power(10)
  {
    assert Power(2) == 128 * Power(1);
    assert Power(4) == 128 * Power(3);
    assert Power(6) == 128 * Power(5);
    assert Power(8) == 128 * Power(7);
  }

  /** Every 64-bit value is read back from its encoding, whatever follows. */
  lemma VarintRoundTrip(v: nat, rest: seq<Byte>)
    requires v < WORD
    ensures Varint(VarintBytes(v) + rest) == Ok((v, |VarintBytes(v)|))
  {
    hide VarintBytes;
    hide Continued;
    hide Groups;
    TenGroupsHoldAWord(v);
    VarintShape(v, rest, 9);
    assert (VarintBytes(v) + rest)[..|VarintBytes(v)|] == VarintBytes(v);
  }

  // ---- Keys and byte strings ----

  function Key(data: seq<Byte>): (r: Result<(nat, nat, nat)>)
    ensures r.Ok? ==> 1 <= r.value.2 <= |data| && r.value.0 >= 1 && r.value.1 < 8
  {
    match Varint(data)
    case Err(e) => Err(e)
    case Ok((v, n)) => if v / 8 == 0 then Err(BadField) else Ok((v / 8, v % 8, n))
  }

  method ReadKey(data: seq<Byte>) returns (r: Result<(nat, nat, nat)>)
    ensures r == Key(data)
  {
    var v := ReadVarint(data);
    if v.Err? {
      return Err(v.error);
    }
    var field, wire := v.value.0 / 8, v.value.0 % 8;
    if field <= 0 {
      return Err(BadField);
    }
    return Ok((field, wire, v.value.1));
  }

  /** The byte string at the front of the data, and where it ends. */
  function Chunk(data: seq<Byte>): (r: Result<(seq<Byte>, nat)>)
    ensures r.Ok? ==> 1 <= r.value.1 <= |data|
  {
    match Varint(data)
    case Err(e) => Err(e)
    case Ok((length, n)) => if length > |data| - n then Err(TooShort) else Ok((data[n..n + length], n + length))
  }

  method ReadBytes(data: seq<Byte>) returns (r: Result<(seq<Byte>, nat)>)
    ensures r == Chunk(data)
  {
    var v := ReadVarint(data);
    if v.Err? {
      return Err(v.error);
    }
    var length, n := v.value.0, v.value.1;
    if length > |data| - n {
      return Err(TooShort);
    }
    return Ok((data[n..n + length], n + length));
  }

  method SkipBytes(data: seq<Byte>) returns (r: Result<seq<Byte>>)
    ensures r == match Chunk(data) case Err(e) => Err(e) case Ok((_, n)) => Ok(data[n..])
  {
    var v := ReadBytes(data);
    if v.Err? {
      return Err(v.error);
    }
    return Ok(data[v.value.1..]);
  }

  // ---- Messages: the meaning ----

  /** One field on the wire. */
  datatype Field =
    | Number(field: nat, value: nat)
    | Text(field: nat, bytes: seq<Byte>)
    | Fixed64(field: nat, bytes: seq<Byte>)
    | Fixed32(field: nat, bytes: seq<Byte>)

  /** The field at the front and where it ends; fixed-width fields only where `fixed` allows them. */
  function FirstField(data: seq<Byte>, fixed: bool): (r: Result<(Field, nat)>)
    ensures r.Ok? ==> 1 <= r.value.1 <= |data|
  {
    match Key(data)
    case Err(e) => Err(e)
    case Ok((field, wire, n)) =>
      if wire == 0 then
        match Varint(data[n..])
        case Err(e) => Err(e)
        case Ok((v, m)) => Ok((Number(field, v), n + m))
      else if wire == 2 then
        match Chunk(data[n..])
        case Err(e) => Err(e)
        case Ok((bytes, m)) => Ok((Text(field, bytes), n + m))
      else if wire == 1 && fixed then
        if |data| - n < 8 then Err(TooShort) else Ok((Fixed64(field, data[n..n + 8]), n + 8))
      else if wire == 5 && fixed then
        if |data| - n < 4 then Err(TooShort) else Ok((Fixed32(field, data[n..n + 4]), n + 4))
      else Err(BadWire)
  }

  /** The fields of a message, in order. */
  function Fields(data: seq<Byte>, fixed: bool): Result<seq<Field>>
    decreases |data|
  {
    if data == [] then Ok([])
    else
      match FirstField(data, fixed)
      case Err(e) => Err(e)
      case Ok((f, n)) =>
        match Fields(data[n..], fixed)
        case Err(e) => Err(e)
        case Ok(fs) => Ok([f] + fs)
  }

  /** The value of the last number field, if there is one. */
  function LastNumber(fs: seq<Field>, field: nat, default: int): int {
    if fs == [] then default
    else
      var f := fs[|fs| - 1];
      if f.Number? && f.field == field then Signed(f.value) else LastNumber(fs[..|fs| - 1], field, default)
  }

  function LastText(fs: seq<Field>, field: nat, default: seq<Byte>): seq<Byte> {
    if fs == [] then default
    else
      var f := fs[|fs| - 1];
      if f.Text? && f.field == field then f.bytes else LastText(fs[..|fs| - 1], field, default)
  }

  /** A word read as a signed 64-bit number. */
  function Signed(v: nat): int { if v < HALF then v else v - WORD }

  function Unsigned(x: int): nat
    requires -HALF <= x < HALF
  {
    if x >= 0 then x else x + WORD
  }

  /** What a message means: of every known field the last value, and the kline itself from field 308. */
  function Meaning(data: seq<Byte>): Result<Kline> {
    match Fields(data, true)
    case Err(e) => Err(e)
    case Ok(fs) =>
      var payload := LastText(fs, 308, []);
      if payload == [] then Err(MissingPayload)
      else
        match Fields(payload, false)
        case Err(e) => Err(e)
        case Ok(ps) =>
          Ok(Kline(LastText(fs, 1, []), LastText(fs, 3, []), LastNumber(fs, 5, 0), LastNumber(fs, 6, 0),
                   LastText(ps, 1, []), LastNumber(ps, 2, 0), LastText(ps, 8, []), LastNumber(ps, 9, 0)))
  }

  // ---- Messages: the loops ----

  function InWrapper(out: Kline, fs: seq<Field>): Kline {
    out.(channel := LastText(fs, 1, out.channel), symbol := LastText(fs, 3, out.symbol),
         createTime := LastNumber(fs, 5, out.createTime), sendTime := LastNumber(fs, 6, out.sendTime))
  }

  function InPayload(out: Kline, fs: seq<Field>): Kline {
    out.(interval := LastText(fs, 1, out.interval), windowStart := LastNumber(fs, 2, out.windowStart),
         amount := LastText(fs, 8, out.amount), windowEnd := LastNumber(fs, 9, out.windowEnd))
  }

  /** The fields read so far joined with those of the rest. */
  function Joined(done: seq<Field>, rest: seq<Byte>, fixed: bool): Result<seq<Field>> {
    match Fields(rest, fixed)
    case Err(e) => Err(e)
    case Ok(fs) => Ok(done + fs)
  }

  lemma JoinNone(data: seq<Byte>, fixed: bool)
    ensures Joined([], data, fixed) == Fields(data, fixed)
  {
    if Fields(data, fixed).Ok? {
      assert [] + Fields(data, fixed).value == Fields(data, fixed).value;
    }
  }

  lemma JoinOne(done: seq<Field>, rest: seq<Byte>, fixed: bool)
    requires rest != [] && FirstField(rest, fixed).Ok?
    ensures var (f, n) := FirstField(rest, fixed).value;
      Joined(done, rest, fixed) == Joined(done + [f], rest[n..], fixed)
  {
    hide FirstField;
    var (f, n) := FirstField(rest, fixed).value;
    if Fields(rest[n..], fixed).Ok? {
      assert done + ([f] + Fields(rest[n..], fixed).value) == done + [f] + Fields(rest[n..], fixed).value;
    }
  }

  lemma LastSnoc(fs: seq<Field>, f: Field, field: nat, number: int, text: seq<Byte>)
    ensures LastNumber(fs + [f], field, number) == if f.Number? && f.field == field then Signed(f.value) else LastNumber(fs, field, number)
    ensures LastText(fs + [f], field, text) == if f.Text? && f.field == field then f.bytes else LastText(fs, field, text)
  {
    assert (fs + [f])[..|fs|] == fs;
  }

  method DecodePayload(payload: seq<Byte>, start: Kline) returns (r: Result<Kline>)
    ensures r == PayloadMeaning(start, payload)
  {
    hide Varint;
    var data, out := payload, start;
    ghost var done: seq<Field> := [];
    JoinNone(payload, false);
    while |data| > 0
      invariant Joined(done, data, false) == Fields(payload, false)
      invariant out == InPayload(start, done)
      decreases |data|
    {
      var key := ReadKey(data);
      if key.Err? {
        return Err(key.error);
      }
      var (field, wire, n) := key.value;
      ghost var was := data;
      data := data[n..];
      if wire == 0 {
        var v := ReadVarint(data);
        if v.Err? {
          return Err(v.error);
        }
        data := data[v.value.1..];
        JoinOne(done, was, false);
        PayloadStep(start, done, Number(field, v.value.0));
        match field {
          case 2 => out := out.(windowStart := Signed(v.value.0));
          case 9 => out := out.(windowEnd := Signed(v.value.0));
          case _ =>
        }
        done := done + [Number(field, v.value.0)];
        assert data == was[n + v.value.1..];
        continue;
      }
      if wire != 2 {
        return Err(BadWire);
      }
      var b := ReadBytes(data);
      if b.Err? {
        return Err(b.error);
      }
      data := data[b.value.1..];
      JoinOne(done, was, false);
      PayloadStep(start, done, Text(field, b.value.0));
      match field {
        case 1 => out := out.(interval := b.value.0);
        case 8 => out := out.(amount := b.value.0);
        case _ =>
      }
      done := done + [Text(field, b.value.0)];
      assert data == was[n + b.value.1..];
    }
    assert done + [] == done;
    return Ok(out);
  }

  lemma PayloadStep(start: Kline, fs: seq<Field>, f: Field)
    ensures var out := InPayload(start, fs);
      InPayload(start, fs + [f])
      == if f.Text? && f.field == 1 then out.(interval := f.bytes)
         else if f.Text? && f.field == 8 then out.(amount := f.bytes)
         else if f.Number? && f.field == 2 then out.(windowStart := Signed(f.value))
         else if f.Number? && f.field == 9 then out.(windowEnd := Signed(f.value))
         else out
  {
    LastSnoc(fs, f, 1, 0, start.interval);
    LastSnoc(fs, f, 2, start.windowStart, []);
    LastSnoc(fs, f, 8, 0, start.amount);
    LastSnoc(fs, f, 9, start.windowEnd, []);
  }

  lemma WrapperStep(start: Kline, fs: seq<Field>, f: Field)
    ensures var out := InWrapper(start, fs);
      InWrapper(start, fs + [f])
      == if f.Text? && f.field == 1 then out.(channel := f.bytes)
         else if f.Text? && f.field == 3 then out.(symbol := f.bytes)
         else if f.Number? && f.field == 5 then out.(createTime := Signed(f.value))
         else if f.Number? && f.field == 6 then out.(sendTime := Signed(f.value))
         else out
    ensures LastText(fs + [f], 308, []) == if f.Text? && f.field == 308 then f.bytes else LastText(fs, 308, [])
  {
    LastSnoc(fs, f, 1, 0, start.channel);
    LastSnoc(fs, f, 3, 0, start.symbol);
    LastSnoc(fs, f, 5, start.createTime, []);
    LastSnoc(fs, f, 6, start.sendTime, []);
    LastSnoc(fs, f, 308, 0, []);
  }

  /** The reader returns exactly what the message means, and every error of the message as an error. */
  method DecodeWrapper(message: seq<Byte>) returns (r: Result<Kline>)
    ensures r == Meaning(message)
  {
    hide Varint;
    var data, out, payload := message, EMPTY, [];
    ghost var done: seq<Field> := [];
    JoinNone(message, true);
    while |data| > 0
      invariant Joined(done, data, true) == Fields(message, true)
      invariant out == InWrapper(EMPTY, done) && payload == LastText(done, 308, [])
      decreases |data|
    {
      var key := ReadKey(data);
      if key.Err? {
        return Err(key.error);
      }
      var (field, wire, n) := key.value;
      ghost var was := data;
      ghost var f: Field;
      data := data[n..];
      match wire {
        case 0 =>
          var v := ReadVarint(data);
          if v.Err? {
            return Err(v.error);
          }
          data := data[v.value.1..];
          f := Number(field, v.value.0);
          match field {
            case 5 => out := out.(createTime := Signed(v.value.0));
            case 6 => out := out.(sendTime := Signed(v.value.0));
            case _ =>
          }
        case 2 =>
          f := Text(field, if Chunk(data).Ok? then Chunk(data).value.0 else []);
          match field {
            case 1 =>
              var b := ReadBytes(data);
              if b.Err? {
                return Err(b.error);
              }
              data := data[b.value.1..];
              out := out.(channel := b.value.0);
            case 308 =>
              var b := ReadBytes(data);
              if b.Err? {
                return Err(b.error);
              }
              data := data[b.value.1..];
              payload := b.value.0;
            case _ =>
              if field == 3 || field == 4 {
                var b := ReadBytes(data);
                if b.Err? {
                  return Err(b.error);
                }
                data := data[b.value.1..];
                if field == 3 {
                  out := out.(symbol := b.value.0);
                }
              } else {
                var rest := SkipBytes(data);
                if rest.Err? {
                  return Err(rest.error);
                }
                data := rest.value;
              }
          }
        case 1 =>
          if |data| < 8 {
            return Err(TooShort);
          }
          f := Fixed64(field, data[..8]);
          data := data[8..];
        case 5 =>
          if |data| < 4 {
            return Err(TooShort);
          }
          f := Fixed32(field, data[..4]);
          data := data[4..];
        case _ =>
          return Err(BadWire);
      }
      assert FirstField(was, true).Ok? && FirstField(was, true).value.0 == f && data == was[FirstField(was, true).value.1..];
      JoinOne(done, was, true);
      WrapperStep(EMPTY, done, f);
      done := done + [f];
    }
    assert done + [] == done;
    if |payload| == 0 {
      return Err(MissingPayload);
    }
    r := DecodePayload(payload, out);
  }

  // ---- The encoder ----

  function Wire(f: Field): nat {
    match f
    case Number(_, _) => 0
    case Text(_, _) => 2
    case Fixed64(_, _) => 1
    case Fixed32(_, _) => 5
  }

  function Body(f: Field): seq<Byte> {
    match f
    case Number(_, v) => VarintBytes(v)
    case Text(_, bytes) => VarintBytes(|bytes|) + bytes
    case Fixed64(_, bytes) => bytes
    case Fixed32(_, bytes) => bytes
  }

  function FieldBytes(f: Field): seq<Byte> { VarintBytes(8 * f.field + Wire(f)) + Body(f) }

  /** What fits the wire format; fixed-width fields only where they are read. */
  predicate GoodField(f: Field, fixed: bool) {
    1 <= f.field && 8 * f.field + 7 < WORD
    && match f
       case Number(_, v) => v < WORD
       case Text(_, bytes) => |bytes| < WORD
       case Fixed64(_, bytes) => fixed && |bytes| == 8
       case Fixed32(_, bytes) => fixed && |bytes| == 4
  }

  function Encode(fs: seq<Field>): seq<Byte> {
    if fs == [] then [] else FieldBytes(fs[0]) + Encode(fs[1..])
  }

  method AppendBytes(dst: seq<Byte>, field: nat, value: seq<Byte>) returns (out: seq<Byte>)
    ensures out == dst + FieldBytes(Text(field, value))
  {
    hide VarintBytes;
    out := AppendVarint(dst, 8 * field + 2);
    ghost var head, length := VarintBytes(8 * field + 2), VarintBytes(|value|);
    out := AppendVarint(out, |value|);
    out := out + value;
    assert dst + head + length + value == dst + (head + (length + value));
  }

  method AppendInt64(dst: seq<Byte>, field: nat, value: int) returns (out: seq<Byte>)
    requires -HALF <= value < HALF
    ensures out == dst + FieldBytes(Number(field, Unsigned(value)))
  {
    hide VarintBytes;
    out := AppendVarint(dst, 8 * field);
    ghost var head, number := VarintBytes(8 * field), VarintBytes(Unsigned(value));
    out := AppendVarint(out, Unsigned(value));
    assert dst + head + number == dst + (head + number);
  }

  // ---- Round trips ----

  lemma SignedRoundTrip(x: int)
    requires -HALF <= x < HALF
    ensures Unsigned(x) < WORD && Signed(Unsigned(x)) == x
  {
  }

  lemma ChunkRoundTrip(bytes: seq<Byte>, rest: seq<Byte>)
    requires |bytes| < WORD
    ensures var s := VarintBytes(|bytes|) + bytes; Chunk(s + rest) == Ok((bytes, |s|))
  {
    hide Varint;
    var head := VarintBytes(|bytes|);
    assert head + bytes + rest == head + (bytes + rest);
    VarintRoundTrip(|bytes|, bytes + rest);
    assert (head + bytes + rest)[|head|..|head| + |bytes|] == bytes;
  }

  lemma KeyRoundTrip(f: Field, rest: seq<Byte>)
    requires 1 <= f.field && 8 * f.field + 7 < WORD
    ensures Key(VarintBytes(8 * f.field + Wire(f)) + rest) == Ok((f.field, Wire(f), |VarintBytes(8 * f.field + Wire(f))|))
  {
    hide Varint;
    VarintRoundTrip(8 * f.field + Wire(f), rest);
  }

  lemma FieldRoundTrip(f: Field, rest: seq<Byte>, fixed: bool)
    requires GoodField(f, fixed)
    ensures FirstField(FieldBytes(f) + rest, fixed) == Ok((f, |FieldBytes(f)|))
  {
    hide Varint;
    hide Key;
    hide Chunk;
    hide VarintBytes;
    var head, data := VarintBytes(8 * f.field + Wire(f)), FieldBytes(f) + rest;
    assert data == head + (Body(f) + rest);
    KeyRoundTrip(f, Body(f) + rest);
    assert data[|head|..] == Body(f) + rest;
    match f {
      case Number(_, v) => VarintRoundTrip(v, rest);
      case Text(_, bytes) => ChunkRoundTrip(bytes, rest);
      case _ => assert data[|head|..|head| + |f.bytes|] == f.bytes;
    }
  }

  /** Reading what was encoded gives the same fields in the same order. */
  lemma {:induction false} FieldsRoundTrip(fs: seq<Field>, fixed: bool)
    requires forall f :: f in fs ==> GoodField(f, fixed)
    ensures Fields(Encode(fs), fixed) == Ok(fs)
  {
    hide FirstField;
    hide FieldBytes;
    if fs != [] {
      var rest := Encode(fs[1..]);
      FieldsRoundTrip(fs[1..], fixed);
      FieldRoundTrip(fs[0], rest, fixed);
      assert (FieldBytes(fs[0]) + rest)[|FieldBytes(fs[0])|..] == rest;
      assert [fs[0]] + fs[1..] == fs;
    }
  }

  // ---- What follows a field does not change it ----

  lemma {:induction false} ContinuedGrows(x: seq<Byte>, z: seq<Byte>)
    requires Continued(x) < |x|
    ensures Continued(x + z) == Continued(x)
  {
    if x[0] >= 128 {
      ContinuedGrows(x[1..], z);
      assert (x + z)[1..] == x[1..] + z;
    }
  }

  lemma VarintGrows(x: seq<Byte>, z: seq<Byte>)
    requires Varint(x).Ok?
    ensures Varint(x + z) == Varint(x)
  {
    ContinuedGrows(x, z);
    assert (x + z)[..Continued(x) + 1] == x[..Continued(x) + 1];
  }

  lemma ChunkGrows(x: seq<Byte>, z: seq<Byte>)
    requires Chunk(x).Ok?
    ensures Chunk(x + z) == Chunk(x)
  {
    hide Varint;
    VarintGrows(x, z);
    var (length, n) := Varint(x).value;
    assert (x + z)[n..n + length] == x[n..n + length];
  }

  lemma FirstFieldGrows(x: seq<Byte>, z: seq<Byte>, fixed: bool)
    requires FirstField(x, fixed).Ok?
    ensures FirstField(x + z, fixed) == FirstField(x, fixed)
  {
    hide Varint;
    hide Chunk;
    VarintGrows(x, z);
    var (_, wire, n) := Key(x).value;
    assert (x + z)[n..] == x[n..] + z;
    if wire == 0 {
      VarintGrows(x[n..], z);
    } else if wire == 2 {
      ChunkGrows(x[n..], z);
    } else {
      var m := if wire == 1 then 8 else 4;
      assert (x + z)[n..n + m] == x[n..n + m];
    }
  }

  lemma {:induction false} FieldsAppend(x: seq<Byte>, z: seq<Byte>, fixed: bool)
    requires Fields(x, fixed).Ok?
    ensures Fields(x + z, fixed) == Joined(Fields(x, fixed).value, z, fixed)
    decreases |x|
  {
    hide FirstField;
    if x == [] {
      assert x + z == z;
      JoinNone(z, fixed);
    } else {
      var (f, n) := FirstField(x, fixed).value;
      FirstFieldGrows(x, z, fixed);
      assert (x + z)[n..] == x[n..] + z;
      FieldsAppend(x[n..], z, fixed);
      if Fields(z, fixed).Ok? {
        assert [f] + (Fields(x[n..], fixed).value + Fields(z, fixed).value) == [f] + Fields(x[n..], fixed).value + Fields(z, fixed).value;
      }
    }
  }

  // ---- Unknown fields ----

  predicate KnownInWrapper(f: Field) {
    (f.Number? && f.field in {5, 6}) || (f.Text? && f.field in {1, 3, 308})
  }

  predicate KnownInPayload(f: Field) {
    (f.Number? && f.field in {2, 9}) || (f.Text? && f.field in {1, 8})
  }

  /** None of the fields is this number field, or this text field. */
  predicate NoNumber(us: seq<Field>, field: nat) { forall u :: u in us ==> !(u.Number? && u.field == field) }

  predicate NoText(us: seq<Field>, field: nat) { forall u :: u in us ==> !(u.Text? && u.field == field) }

  lemma {:induction false} LastSkipsEnd(a: seq<Field>, us: seq<Field>, field: nat, number: int, text: seq<Byte>)
    ensures NoNumber(us, field) ==> LastNumber(a + us, field, number) == LastNumber(a, field, number)
    ensures NoText(us, field) ==> LastText(a + us, field, text) == LastText(a, field, text)
  {
    if us == [] {
      assert a + us == a;
    } else {
      var front, u := us[..|us| - 1], us[|us| - 1];
      LastSkipsEnd(a, front, field, number, text);
      assert a + us == (a + front) + [u] && u in us && forall v :: v in front ==> v in us;
      LastSnoc(a + front, u, field, number, text);
    }
  }

  lemma {:induction false} LastSkips(a: seq<Field>, us: seq<Field>, b: seq<Field>, field: nat, number: int, text: seq<Byte>)
    ensures NoNumber(us, field) ==> LastNumber(a + us + b, field, number) == LastNumber(a + b, field, number)
    ensures NoText(us, field) ==> LastText(a + us + b, field, text) == LastText(a + b, field, text)
  {
    if b == [] {
      assert a + us + b == a + us && a + b == a;
      LastSkipsEnd(a, us, field, number, text);
    } else {
      var front, f := b[..|b| - 1], b[|b| - 1];
      LastSkips(a, us, front, field, number, text);
      assert a + us + b == (a + us + front) + [f] && a + b == (a + front) + [f];
      LastSnoc(a + us + front, f, field, number, text);
      LastSnoc(a + front, f, field, number, text);
    }
  }

  lemma FieldsInserted(x: seq<Byte>, u: seq<Byte>, y: seq<Byte>, fixed: bool)
    requires Fields(x, fixed).Ok? && Fields(u, fixed).Ok?
    ensures Fields(x + u + y, fixed) == Joined(Fields(x, fixed).value + Fields(u, fixed).value, y, fixed)
    ensures Fields(x + y, fixed) == Joined(Fields(x, fixed).value, y, fixed)
  {
    hide FirstField;
    FieldsAppend(x, y, fixed);
    FieldsAppend(x, u, fixed);
    FieldsAppend(x + u, y, fixed);
  }

  /** Bytes that read as fields, none of which the reader uses; numbers in them may be encoded at any length. */
  predicate UnusedInWrapper(u: seq<Byte>) {
    Fields(u, true).Ok? && forall f :: f in Fields(u, true).value ==> !KnownInWrapper(f)
  }

  predicate UnusedInPayload(u: seq<Byte>) {
    Fields(u, false).Ok? && forall f :: f in Fields(u, false).value ==> !KnownInPayload(f)
  }

  /** Fields the reader does not use, put at any field boundary of any message, valid or not, change nothing. */
  lemma UnknownFieldsChangeNothing(x: seq<Byte>, u: seq<Byte>, y: seq<Byte>)
    requires Fields(x, true).Ok? && UnusedInWrapper(u)
    ensures Meaning(x + u + y) == Meaning(x + y)
  {
    hide Fields;
    FieldsInserted(x, u, y, true);
    if Fields(y, true).Ok? {
      var a, us, b := Fields(x, true).value, Fields(u, true).value, Fields(y, true).value;
      LastSkips(a, us, b, 1, 0, []);
      LastSkips(a, us, b, 3, 0, []);
      LastSkips(a, us, b, 5, 0, []);
      LastSkips(a, us, b, 6, 0, []);
      LastSkips(a, us, b, 308, 0, []);
    }
  }

  function PayloadMeaning(start: Kline, payload: seq<Byte>): Result<Kline> {
    match Fields(payload, false)
    case Err(e) => Err(e)
    case Ok(fs) => Ok(InPayload(start, fs))
  }

  lemma UnknownPayloadFieldsChangeNothing(start: Kline, x: seq<Byte>, u: seq<Byte>, y: seq<Byte>)
    requires Fields(x, false).Ok? && UnusedInPayload(u)
    ensures PayloadMeaning(start, x + u + y) == PayloadMeaning(start, x + y)
  {
    hide Fields;
    FieldsInserted(x, u, y, false);
    if Fields(y, false).Ok? {
      var a, us, b := Fields(x, false).value, Fields(u, false).value, Fields(y, false).value;
      LastSkips(a, us, b, 1, 0, start.interval);
      LastSkips(a, us, b, 2, start.windowStart, []);
      LastSkips(a, us, b, 8, 0, start.amount);
      LastSkips(a, us, b, 9, start.windowEnd, []);
    }
  }

  /** Every good field the reader does not use, as the encoder writes it, is such an insertion. */
  lemma EncodedFieldIsUnused(f: Field)
    requires GoodField(f, true)
    ensures UnusedInWrapper(FieldBytes(f)) <==> !KnownInWrapper(f)
    ensures GoodField(f, false) ==> (UnusedInPayload(FieldBytes(f)) <==> !KnownInPayload(f))
  {
    hide Fields;
    hide FieldBytes;
    EncodeOne(f);
    assert [f][0] == f;
    FieldsRoundTrip([f], true);
    if GoodField(f, false) {
      FieldsRoundTrip([f], false);
    }
  }

  lemma EncodeOne(f: Field)
    ensures Encode([f]) == FieldBytes(f)
  {
    assert [f][1..] == [];
    assert Encode([]) == [];
    assert FieldBytes(f) + [] == FieldBytes(f);
  }

  // ---- The whole message ----

  predicate GoodKline(k: Kline) {
    && |k.channel| < WORD && |k.symbol| < WORD && |k.interval| < WORD && |k.amount| < WORD
    && -HALF <= k.createTime < HALF && -HALF <= k.sendTime < HALF
    && -HALF <= k.windowStart < HALF && -HALF <= k.windowEnd < HALF
    && |Encode(PayloadFields(k))| < WORD
  }

  function PayloadFields(k: Kline): seq<Field>
    requires -HALF <= k.windowStart < HALF && -HALF <= k.windowEnd < HALF
  {
    [Text(1, k.interval), Number(2, Unsigned(k.windowStart)), Text(8, k.amount), Number(9, Unsigned(k.windowEnd))]
  }

  function WrapperFields(k: Kline): seq<Field>
    requires GoodKline(k)
  {
    [Text(1, k.channel), Text(3, k.symbol), Number(5, Unsigned(k.createTime)), Number(6, Unsigned(k.sendTime)),
     Text(308, Encode(PayloadFields(k)))]
  }

  /** A kline survives encoding and decoding. */
  lemma KlineRoundTrip(k: Kline)
    requires GoodKline(k)
    ensures Meaning(Encode(WrapperFields(k))) == Ok(k)
  {
    hide Fields;
    hide FieldBytes;
    hide Unsigned;
    SignedRoundTrip(k.createTime);
    SignedRoundTrip(k.sendTime);
    SignedRoundTrip(k.windowStart);
    SignedRoundTrip(k.windowEnd);
    FieldsRoundTrip(PayloadFields(k), false);
    FieldsRoundTrip(WrapperFields(k), true);
    assert Encode(PayloadFields(k)) != [] by {
      assert Encode(PayloadFields(k)) == FieldBytes(Text(1, k.interval)) + Encode(PayloadFields(k)[1..]);
      FieldIsSomething(Text(1, k.interval));
    }
    LastsOfWrapper(k);
    LastsOfPayload(k);
  }

  lemma FieldIsSomething(f: Field)
    ensures |FieldBytes(f)| >= 1
  {
  }

  lemma LastsOfPayload(k: Kline)
    requires GoodKline(k)
    ensures var ps := PayloadFields(k);
      && LastText(ps, 1, []) == k.interval && LastNumber(ps, 2, 0) == k.windowStart
      && LastText(ps, 8, []) == k.amount && LastNumber(ps, 9, 0) == k.windowEnd
  {
    hide Encode;
    hide Signed;
    hide Unsigned;
    SignedRoundTrip(k.windowStart);
    SignedRoundTrip(k.windowEnd);
    var ps := PayloadFields(k);
    var f0, f1, f2, f3 := ps[0], ps[1], ps[2], ps[3];
    assert ps == [f0] + [f1] + [f2] + [f3];
    LastOfFour(f0, f1, f2, f3, 1);
    LastOfFour(f0, f1, f2, f3, 2);
    LastOfFour(f0, f1, f2, f3, 8);
    LastOfFour(f0, f1, f2, f3, 9);
  }

  lemma LastOfFour(a: Field, b: Field, c: Field, d: Field, field: nat)
    ensures var fs := [a] + [b] + [c] + [d];
      && LastNumber(fs, field, 0)
         == (if d.Number? && d.field == field then Signed(d.value) else if c.Number? && c.field == field then Signed(c.value)
             else if b.Number? && b.field == field then Signed(b.value) else if a.Number? && a.field == field then Signed(a.value) else 0)
      && LastText(fs, field, [])
         == (if d.Text? && d.field == field then d.bytes else if c.Text? && c.field == field then c.bytes
             else if b.Text? && b.field == field then b.bytes else if a.Text? && a.field == field then a.bytes else [])
  {
    LastSnoc([a] + [b] + [c], d, field, 0, []);
    LastSnoc([a] + [b], c, field, 0, []);
    LastSnoc([a], b, field, 0, []);
    assert [a] == [] + [a];
    LastSnoc([], a, field, 0, []);
  }

  lemma LastsOfWrapper(k: Kline)
    requires GoodKline(k)
    ensures var fs := WrapperFields(k);
      && LastText(fs, 1, []) == k.channel && LastText(fs, 3, []) == k.symbol
      && LastNumber(fs, 5, 0) == k.createTime && LastNumber(fs, 6, 0) == k.sendTime
      && LastText(fs, 308, []) == Encode(PayloadFields(k))
  {
    hide Encode;
    hide Signed;
    hide Unsigned;
    SignedRoundTrip(k.createTime);
    SignedRoundTrip(k.sendTime);
    var fs := WrapperFields(k);
    var four := [fs[0]] + [fs[1]] + [fs[2]] + [fs[3]];
    assert fs == four + [fs[4]];
    LastSnoc(four, fs[4], 1, 0, []);
    LastSnoc(four, fs[4], 3, 0, []);
    LastSnoc(four, fs[4], 5, 0, []);
    LastSnoc(four, fs[4], 6, 0, []);
    LastSnoc(four, fs[4], 308, 0, []);
    LastOfFour(fs[0], fs[1], fs[2], fs[3], 1);
    LastOfFour(fs[0], fs[1], fs[2], fs[3], 3);
    LastOfFour(fs[0], fs[1], fs[2], fs[3], 5);
    LastOfFour(fs[0], fs[1], fs[2], fs[3], 6);
  }
}
