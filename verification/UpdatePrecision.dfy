/**
 When update thresholds are exact: figures of at most sixteen digits never meet the rounding of
 division, figures with more digits can.
 */
module UpdatePrecision {
  import opened Wrappers
  import opened Numbers
  import opened Domain
  import opened Config
  import opened Funding
  import opened Search
  import opened Notifications
  import opened Tracking
  import opened UpdatePolicy

  const DIGITS: int := 10_000_000_000_000_000

  /** The number has at most sixteen fractional digits. */
  predicate Sixteen(x: real) { (x * SCALE).Floor as real == x * SCALE }

  lemma SixteenIs(x: real, n: int)
    requires x * SCALE == n as real
    ensures Sixteen(x)
  {
  }

  lemma SixteenSum(x: real, y: real)
    requires Sixteen(x) && Sixteen(y)
    ensures Sixteen(x + y) && Sixteen(x - y)
  {
    var a, b := (x * SCALE).Floor, (y * SCALE).Floor;
    SixteenIs(x + y, a + b);
    SixteenIs(x - y, a - b);
  }

  lemma RoundedIsSixteen(x: real)
    ensures Sixteen(Round16(x))
  {
    SixteenIs(Round16(x), RoundHalfAway(x * SCALE));
  }

  // ---- Where the figures come from ----

  predicate SixteenFees(c: Settings) { forall k :: k in c.fees ==> Sixteen(c.fees[k]) }

  predicate SixteenRates(f: FundingState) { forall k :: k in f.rates ==> Sixteen(f.rates[k].rate) }

  predicate SixteenEnv(env: Env) { SixteenFees(env.settings) && (env.funding.Some? ==> SixteenRates(env.funding.value)) }

  lemma FeeIsSixteen(c: Settings, exchange: string)
    requires SixteenFees(c)
    ensures Sixteen(FeeFor(c, exchange))
  {
    SixteenIs(DEFAULT_FEE, 5_000_000_000_000);
  }

  lemma SpreadIsSixteen(c: Settings, buyAsk: real, sellBid: real, buyEx: string, sellEx: string)
    requires SixteenFees(c) && buyAsk > 0.0
    ensures Sixteen(FeeNetSpread(c, buyAsk, sellBid, buyEx, sellEx))
  {
    hide Sixteen;
    hide FeeFor;
    var ratio := Div(sellBid - buyAsk, buyAsk);
    RoundedIsSixteen((sellBid - buyAsk) / buyAsk);
    FeeIsSixteen(c, buyEx);
    FeeIsSixteen(c, sellEx);
    SixteenSum(ratio, FeeFor(c, buyEx));
    SixteenSum(ratio - FeeFor(c, buyEx), FeeFor(c, sellEx));
  }

  /** With such fees and funding rates every spread the search finds has at most sixteen digits. */
  lemma FoundSpreadIsSixteen(env: Env, book: Book, symbol: string, now: Time, ev: SpreadEvent)
    requires SixteenEnv(env) && InSearch(env, book, symbol, now, ev)
    ensures Sixteen(ev.spread)
  {
    hide Sixteen;
    hide FeeNetSpread;
    var buy, sell := Leg(book, ev.buyExchange, ev.buyMarket).value, Leg(book, ev.sellExchange, Futures).value;
    var spread := FeeNetSpread(env.settings, buy.ask, sell.bid, ev.buyExchange, ev.sellExchange);
    SpreadIsSixteen(env.settings, buy.ask, sell.bid, ev.buyExchange, ev.sellExchange);
    var f := env.funding.value;
    if ev.buyMarket == Futures {
      NetIsSixteen(spread, f.rates[NormalKey(ev.buyExchange, symbol)].rate, f.rates[NormalKey(ev.sellExchange, symbol)].rate);
    } else {
      NetIsSixteen(spread, 0.0, f.rates[NormalKey(ev.sellExchange, symbol)].rate);
    }
  }

  lemma NetIsSixteen(spread: real, buyRate: real, sellRate: real)
    requires Sixteen(spread) && (Sixteen(buyRate) || buyRate == 0.0) && Sixteen(sellRate)
    ensures Sixteen(NetSpread(spread, buyRate, sellRate))
  {
    SixteenIs(0.0, 0);
    SixteenSum(spread, sellRate);
    SixteenSum(spread + sellRate, buyRate);
  }

  /** The step the operator command sets for a number of percentage points. */
  function StepFor(points: real): real { Div(points, 100.0) }

  lemma StepIsSixteen(points: real)
    requires 0.0 <= points <= 100.0
    ensures Sixteen(StepFor(points)) && 0.0 <= StepFor(points) <= 1.0
  {
    RoundedIsSixteen(points / 100.0);
    assert 0.0 <= points / 100.0 <= 1.0;
    assert 0.0 <= points / 100.0 * SCALE <= SCALE;
    assert (points / 100.0 * SCALE + 0.5).Floor <= DIGITS;
  }

  const WORD_MAX: int := 0x7fff_ffff_ffff_ffff

  /** The count of steps fits a signed 64-bit word as long as the peak is within 92200 percentage points of the opening. */
  lemma StepsFitAWord(initial: real, peak: real, step: real)
    requires Sixteen(step) && step > 0.0 && initial <= peak <= initial + 922.0
    ensures 0 <= Steps(initial, peak, step) <= WORD_MAX
  {
    hide Steps;
    hide Whole;
    assert (step * SCALE).Floor >= 1;
    assert step * SCALE >= 1.0;
    StepsAreWhole(initial, peak, step);
    var q := (peak - initial) / step;
    Quotient(peak - initial, step);
    QuotientSign(peak - initial, step);
    AtMostScaled(q, step, peak - initial);
    WholeMonotone(0.0, q);
    WholeAtMost(q);
  }

  lemma AtMostScaled(q: real, step: real, gap: real)
    requires q >= 0.0 && step * q == gap && step * SCALE >= 1.0 && gap <= 922.0
    ensures q <= 922.0 * SCALE
  {
    if q > 0.0 {
      UpdatePolicy.Scaled(q, 1.0, step * SCALE);
      assert q * (step * SCALE) == step * q * SCALE;
    }
  }

  lemma WholeAtMost(q: real)
    requires 0.0 <= q <= 922.0 * SCALE
    ensures Whole(q) <= WORD_MAX
  {
    FloorBounds(q);
  }

  // ---- Sixteen digits are exact ----

  /** A quotient of whole numbers with a divisor of at most 10^16 is whole or at least 10^-16 below the next whole number. */
  lemma QuotientStaysClear(n: int, d: int, q: real)
    requires n >= 0 && 1 <= d <= DIGITS && q * d as real == n as real
    ensures q - q.Floor as real < 1.0 - 0.5 / SCALE
  {
    var rest := q - q.Floor as real;
    FloorBounds(q);
    var r := Remainder(n, d, q.Floor, q, rest);
    WholeRemainder(r, d, rest);
  }

  lemma WholeRemainder(r: int, d: int, rest: real)
    requires rest < 1.0 && 1 <= d <= DIGITS && r as real == rest * d as real
    ensures rest < 1.0 - 0.5 / SCALE
  {
    LessThan(rest, d as real, r as real);
    WholeGap(r, d);
    AtMostUnitBelow(rest, d as real, r as real);
  }

  lemma Remainder(n: int, d: int, k: int, q: real, rest: real) returns (r: int)
    requires q * d as real == n as real && rest == q - k as real
    ensures r as real == rest * d as real
  {
    r := n - k * d;
    assert (k * d) as real == k as real * d as real;
    assert rest * d as real == q * d as real - k as real * d as real;
  }

  lemma WholeGap(r: int, d: int)
    requires r as real < d as real
    ensures r as real <= d as real - 1.0
  {
    Below(r, d);
    assert (r + 1) as real <= d as real;
  }

  lemma Below(r: int, d: int)
    requires r as real < d as real
    ensures r < d
  {
  }

  lemma LessThan(rest: real, d: real, x: real)
    requires rest < 1.0 && d >= 1.0 && x == rest * d
    ensures x < d
  {
    UpdatePolicy.Scaled(d, 1.0, rest);
    assert d * 1.0 == d;
  }

  lemma AtMostUnitBelow(rest: real, d: real, x: real)
    requires 1.0 <= d <= SCALE && x == rest * d && x <= d - 1.0
    ensures rest < 1.0 - 0.5 / SCALE
  {
    if rest >= 1.0 - 0.5 / SCALE {
      var missing := 1.0 - rest;
      assert missing * d == d - x;
      Product(missing, d);
      assert false;
    }
  }

  lemma Product(a: real, b: real)
    requires a <= 0.5 / SCALE && 1.0 <= b <= SCALE
    ensures a * b <= 0.5
  {
    if a > 0.0 {
      UpdatePolicy.Scaled(a, b, SCALE);
      assert a * SCALE <= 0.5;
    } else {
      assert a * b <= 0.0;
    }
  }

  /** With figures of at most sixteen digits and a step of at most 100 percentage points rounding stays clear. */
  lemma SixteenStaysClear(initial: real, peak: real, step: real)
    requires Sixteen(initial) && Sixteen(peak) && Sixteen(step) && 0.0 < step <= 1.0 && initial <= peak
    ensures ClearOfRounding(initial, peak, step)
  {
    SixteenSum(peak, initial);
    var n, d, q := ((peak - initial) * SCALE).Floor, (step * SCALE).Floor, (peak - initial) / step;
    Quotient(peak - initial, step);
    assert q * (step * SCALE) == (peak - initial) * SCALE;
    assert d as real == step * SCALE;
    assert 0.0 < d as real <= SCALE;
    QuotientStaysClear(n, d, q);
  }

  /** For such figures a threshold lies above the opening spread and at most at the peak. */
  lemma ThresholdInRange(initial: real, peak: real, step: real)
    requires Sixteen(initial) && Sixteen(peak) && Sixteen(step) && 0.0 < step <= 1.0 && initial <= peak
    requires Steps(initial, peak, step) >= 1
    ensures initial < ThresholdOf(initial, peak, step) <= peak
  {
    SixteenStaysClear(initial, peak, step);
    ThresholdAtMostPeak(initial, peak, step);
  }

  // ---- Signals of such spreads ----

  predicate SixteenSignal(s: Signal) { Sixteen(s.initialSpread) && Sixteen(s.peakSpread) }

  predicate SixteenLog(log: seq<SpreadEvent>) { forall e :: e in log ==> Sixteen(e.spread) }

  ghost predicate AllSixteen(active: Active, newest: map<nat, Signal>) {
    (forall key :: key in active ==> SixteenSignal(active[key])) && forall id :: id in newest ==> SixteenSignal(newest[id])
  }

  lemma HandleKeepsSixteen(active: Active, newest: map<nat, Signal>, e: SpreadEvent, id: nat, chats: seq<int>, closeAt: real)
    requires AllSixteen(active, newest) && Sixteen(e.spread)
    ensures var (active', more) := Handle(active, e, id, chats, closeAt); AllSixteen(active', NewestAfter(newest, more))
  {
    hide RouteKey;
    hide Sixteen;
  }

  lemma {:induction false} ReplayIsSixteen(log: seq<SpreadEvent>, chats: nat -> seq<int>, closeAt: real)
    requires SixteenLog(log)
    ensures AllSixteen(Replay(log, chats, closeAt).0, Newest(Replay(log, chats, closeAt).1))
  {
    hide Handle;
    hide Accounted;
    hide SixteenSignal;
    if log != [] {
      var front, e := log[..|log| - 1], log[|log| - 1];
      ReplayIsSixteen(front, chats, closeAt);
      ReplayAccounts(front, chats, closeAt);
      var (active, calls) := Replay(front, chats, closeAt);
      HandleKeepsSixteen(active, Newest(calls), e, |log|, chats(|log|), closeAt);
      HandleAccounts(active, Newest(calls), |front|, e, chats(|log|), closeAt);
      NewestAppend(calls, Handle(active, e, |log|, chats(|log|), closeAt).1);
    }
  }

  /**
   A user who set the step by the command is told of a signal at most floor((peak - initial) / step)
   times, when the spreads of the log have at most sixteen digits.
   */
  lemma ToldWithinExactSteps(log: seq<SpreadEvent>, chats: nat -> seq<int>, closeAt: real, entries: seq<Entry>,
                             id: nat, chat: int, points: real)
    requires var calls := Replay(log, chats, closeAt).1; id in Newest(calls) && EntriesOf(entries, calls)
    requires 0.0 <= points <= 100.0 && StepFor(points) > 0.0 && Keyed(entries) && HasStep(entries, chat, StepFor(points))
    requires SixteenLog(log)
    ensures var s := Newest(Replay(log, chats, closeAt).1)[id];
      Told(entries, id, chat) <= ExactSteps(s.initialSpread, s.peakSpread, StepFor(points))
  {
    hide Replay;
    hide Newest;
    hide Told;
    hide Sixteen;
    hide StepFor;
    hide SixteenLog;
    StepIsSixteen(points);
    ReplayIsSixteen(log, chats, closeAt);
    ToldWithinSteps(log, chats, closeAt, entries, id, chat, StepFor(points));
    var s := Newest(Replay(log, chats, closeAt).1)[id];
    assert SixteenSignal(s);
    SixteenStaysClear(s.initialSpread, s.peakSpread, StepFor(points));
  }

  // ---- More digits ----

  lemma DivWhole(n: int)
    requires n >= 0
    ensures Div(n as real, 1.0) == n as real
  {
    assert n as real / 1.0 * SCALE == (n * DIGITS) as real;
    assert RoundHalfAway((n * DIGITS) as real) == n * DIGITS;
  }

  /** The lone route with one fee for every exchange and the futures bid at a whole price. */
  function FeeEnv(fee: Fee): Env { LoneEnv("X", None, None).(settings := Settings(HARD_MIN_SPREAD, map[DEFAULT_KEY := fee])) }

  function PricedBook(bid: int): Book
    requires bid >= 1
  {
    map["A" := map[Spot := Quote(1.0, 1.0, 1, 0.0), Futures := Quote(bid as real, bid as real, 1, 0.0)]]
  }

  lemma PricedRoute(fee: Fee, bid: int) returns (ev: SpreadEvent)
    requires bid >= 2
    ensures IntraEvent(FeeEnv(fee), PricedBook(bid), "A", "X", 1) == Some(ev)
    ensures ev.spread == (bid - 1) as real - fee - fee && ev.timestamp == 1
  {
    var env, book := FeeEnv(fee), PricedBook(bid);
    assert Leg(book, "A", Spot) == Some(Quote(1.0, 1.0, 1, 0.0));
    assert Leg(book, "A", Futures) == Some(Quote(bid as real, bid as real, 1, 0.0));
    DivWhole(bid - 1);
    assert FeeFor(env.settings, "A") == fee;
    assert FeeNetSpread(env.settings, 1.0, bid as real, "A", "A") == (bid - 1) as real - fee - fee;
    ev := IntraEvent(env, book, "A", "X", 1).value;
  }

  /**
   A fee with eighteen digits, which the settings accept, takes a peak within rounding distance of
   a step: the update announces a threshold above the peak.
   */
  lemma ThresholdCanExceedPeak() returns (opening: SpreadEvent, later: SpreadEvent)
    ensures GoodFee(Decimal(0, 0)) && GoodFee(Decimal(25, 18)) && Value(Decimal(25, 18)) == 0.000000000000000025
    ensures IntraEvent(FeeEnv(0.0), PricedBook(2), "A", "X", 1) == Some(opening)
    ensures IntraEvent(FeeEnv(0.000000000000000025), PricedBook(3), "A", "X", 1) == Some(later)
    ensures var s := UpdateSignal(NewSignal(opening, 1, 1), later);
      && StepFor(100.0) == 1.0 && Steps(s.initialSpread, s.peakSpread, 1.0) >= 1
      && ThresholdOf(s.initialSpread, s.peakSpread, 1.0) > s.peakSpread
  {
    EighteenDigits();
    opening := PricedRoute(0.0, 2);
    later := PricedRoute(0.000000000000000025, 3);
    var s := UpdateSignal(NewSignal(opening, 1, 1), later);
    assert s.initialSpread == 1.0 && s.peakSpread == 1.99999999999999995;
    assert 100.0 / 100.0 == 1.0;
    DivWhole(1);
    StepsAreExact(1.0, 1.99999999999999995, 1.0);
  }

  lemma EighteenDigits()
    ensures GoodFee(Decimal(0, 0)) && GoodFee(Decimal(25, 18)) && Value(Decimal(25, 18)) == 0.000000000000000025
  {
    assert Pow10(6) == 1_000_000;
    Pow10Add(6, 6);
    Pow10Add(12, 6);
    assert Pow10(18) == 1_000_000_000_000_000_000;
    assert Value(Decimal(25, 18)) == 25.0 / 1000000000000000000.0;
    assert Pow10(0) == 1;
  }
}
