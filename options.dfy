/** The options strategy lab: the expiration payoff of six option strategies,
    the sampled payoff curve, the support/resistance levels with the
    threshold recommendation, and the lab's strategy/quote state. */
module Options {
  import opened Common

  /** Every strategy kind the application names; the lab's payoff engine
      handles six of them. */
  datatype Strategy =
    | LongCall | ShortPut | IronCondor | VerticalSpread
    | Wheel | CoveredCall | Leaps | Strangle

  predicate Handled(k: Strategy) {
    k in {ShortPut, CoveredCall, VerticalSpread, IronCondor, Leaps, Strangle}
  }

  /** The inputs of one payoff evaluation: the chosen strategy, its primary
      strike, the premium per share, the number of contracts and the quote of
      the underlying that the derived legs are built from. */
  datatype Position = Position(
    strategy: Strategy,
    strike: real,
    premium: real,
    contracts: int,
    currentPrice: real)

  /** Shares controlled by the position: 100 per contract. */
  function Unit(pos: Position): real {
    (100 * pos.contracts) as real
  }

  /** Strike of the leaps strategy's long call: 80% of the quote. */
  function LongStrike(cp: real): real { cp * 0.8 }

  /** Price paid for the leaps strategy's long call: 25% of the quote. */
  function LongCost(cp: real): real { cp * 0.25 }

  /** Call strike of the strangle: 10% of the quote above the put strike. */
  function CallStrike(s: real, cp: real): real { s + cp * 0.1 }

  /** Per-share payoff of a short put at strike s. */
  function ShortPutValue(s: real, pr: real, p: real): real {
    pr - Intrinsic(s - p)
  }

  /** Per-share payoff of stock bought at cp with a call sold at strike s. */
  function CoveredCallValue(s: real, pr: real, cp: real, p: real): real {
    pr + (Min(p, s) - cp)
  }

  /** Per-share payoff of a put sold at s and a put bought at s - 10. */
  function VerticalSpreadValue(s: real, pr: real, p: real): real {
    pr - (Intrinsic(s - p) - Intrinsic((s - 10.0) - p))
  }

  /** Per-share payoff of a put spread [s - 5, s] and a call spread
      [s + 15, s + 20], both sold. */
  function IronCondorValue(s: real, pr: real, p: real): real {
    pr - (Intrinsic(s - p) - Intrinsic((s - 5.0) - p))
       - (Intrinsic(p - (s + 15.0)) - Intrinsic(p - (s + 20.0)))
  }

  /** Per-share payoff of a long call at 80% of cp bought for 25% of cp and a
      call sold at s. */
  function LeapsValue(s: real, pr: real, cp: real, p: real): real {
    Intrinsic(p - LongStrike(cp)) - LongCost(cp) + pr - Intrinsic(p - s)
  }

  /** Per-share payoff of a put sold at s and a call sold at s + 0.1 cp. */
  function StrangleValue(s: real, pr: real, cp: real, p: real): real {
    pr - Intrinsic(s - p) - Intrinsic(p - CallStrike(s, cp))
  }

  /** Profit per share, before scaling by the number of shares. */
  function PerShare(pos: Position, p: real): real {
    var s, pr, cp := pos.strike, pos.premium, pos.currentPrice;
    match pos.strategy
    case ShortPut => ShortPutValue(s, pr, p)
    case CoveredCall => CoveredCallValue(s, pr, cp, p)
    case VerticalSpread => VerticalSpreadValue(s, pr, p)
    case IronCondor => IronCondorValue(s, pr, p)
    case Leaps => LeapsValue(s, pr, cp, p)
    case Strangle => StrangleValue(s, pr, cp, p)
    case _ => 0.0
  }

  /** Profit or loss of the position if the underlying settles at p on
      expiration day; a strategy the engine does not handle yields 0. */
  function ProfitAt(pos: Position, p: real): (r: real)
    ensures !Handled(pos.strategy) ==> r == 0.0
  {
    if Handled(pos.strategy) then PerShare(pos, p) * Unit(pos) else 0.0
  }

  // ---------------------------------------------------------------------
  // Arithmetic helpers for the payoff lemmas

  lemma ScaleMonotone(a: real, b: real, u: real)
    requires a <= b && u >= 0.0
    ensures a * u <= b * u
  {
  }

  lemma ScaleStrict(a: real, b: real, u: real)
    requires a < b && u > 0.0
    ensures a * u < b * u
  {
  }

  /** A handled strategy's profit is its per-share profit times the shares
      held. */
  lemma ProfitScaled(pos: Position, p: real)
    requires Handled(pos.strategy)
    ensures ProfitAt(pos, p) == PerShare(pos, p) * Unit(pos)
  {
  }

  /** Per-share bounds carry over to the profit when no contract is sold
      short. */
  lemma ScaledBounds(pos: Position, p: real, lo: real, hi: real)
    requires Handled(pos.strategy) && pos.contracts >= 0
    requires lo <= PerShare(pos, p) <= hi
    ensures lo * Unit(pos) <= ProfitAt(pos, p) <= hi * Unit(pos)
  {
    ProfitScaled(pos, p);
    ScaleMonotone(lo, PerShare(pos, p), Unit(pos));
    ScaleMonotone(PerShare(pos, p), hi, Unit(pos));
  }

  /** A per-share order carries over to the profit. */
  lemma ScaledOrder(pos: Position, p: real, q: real)
    requires Handled(pos.strategy) && pos.contracts >= 0
    requires PerShare(pos, p) <= PerShare(pos, q)
    ensures ProfitAt(pos, p) <= ProfitAt(pos, q)
  {
    ScaledBounds(pos, p, PerShare(pos, p), PerShare(pos, q));
    ProfitScaled(pos, q);
  }

  /** A strict per-share order carries over when at least one contract is
      held. */
  lemma ScaledStrict(pos: Position, p: real, hi: real)
    requires Handled(pos.strategy) && pos.contracts >= 1
    requires PerShare(pos, p) < hi
    ensures ProfitAt(pos, p) < hi * Unit(pos)
  {
    ProfitScaled(pos, p);
    ScaleStrict(PerShare(pos, p), hi, Unit(pos));
  }

  // ---------------------------------------------------------------------
  // Short put

  /** A short put keeps the whole premium at or above the strike, never does
      better, and loses more the further the price falls below the strike,
      down to premium minus strike at a price of zero (for a positive
      strike). */
  lemma ShortPutPayoff(pos: Position, p: real, q: real)
    requires pos.strategy == ShortPut && pos.contracts >= 0
    ensures ProfitAt(pos, p) == (pos.premium - Intrinsic(pos.strike - p)) * Unit(pos)
    ensures p >= pos.strike ==> ProfitAt(pos, p) == pos.premium * Unit(pos)
    ensures ProfitAt(pos, p) <= pos.premium * Unit(pos)
    ensures p <= q ==> ProfitAt(pos, p) <= ProfitAt(pos, q)
    ensures p >= 0.0 && pos.strike >= 0.0 ==> ProfitAt(pos, p) >= (pos.premium - pos.strike) * Unit(pos)
  {
    var s, pr := pos.strike, pos.premium;
    ScaledBounds(pos, p, PerShare(pos, p), pr);
    if p <= q {
      ScaledOrder(pos, p, q);
    }
    if p >= 0.0 && s >= 0.0 {
      ScaledBounds(pos, p, pr - s, pr);
    }
  }

  // ---------------------------------------------------------------------
  // Covered call

  /** A covered call earns the premium plus the stock's move from the quote,
      with the stock's gain capped at the strike. */
  lemma CoveredCallPayoff(pos: Position, p: real, q: real)
    requires pos.strategy == CoveredCall && pos.contracts >= 0
    ensures ProfitAt(pos, p) == (pos.premium + Min(p, pos.strike) - pos.currentPrice) * Unit(pos)
    ensures p >= pos.strike ==> ProfitAt(pos, p) == (pos.premium + pos.strike - pos.currentPrice) * Unit(pos)
    ensures ProfitAt(pos, p) <= (pos.premium + pos.strike - pos.currentPrice) * Unit(pos)
    ensures p <= q ==> ProfitAt(pos, p) <= ProfitAt(pos, q)
  {
    ScaledBounds(pos, p, PerShare(pos, p), pos.premium + pos.strike - pos.currentPrice);
    if p <= q {
      ScaledOrder(pos, p, q);
    }
  }

  // ---------------------------------------------------------------------
  // Vertical (bull put) spread, width 10

  /** The spread's profit lies between premium minus the width 10 and the
      premium; the maximum is reached at or above the strike, the maximum
      loss at or below strike minus 10, and in between it rises with p. */
  lemma VerticalSpreadPayoff(pos: Position, p: real, q: real)
    requires pos.strategy == VerticalSpread && pos.contracts >= 0
    ensures (pos.premium - 10.0) * Unit(pos) <= ProfitAt(pos, p) <= pos.premium * Unit(pos)
    ensures p >= pos.strike ==> ProfitAt(pos, p) == pos.premium * Unit(pos)
    ensures p <= pos.strike - 10.0 ==> ProfitAt(pos, p) == (pos.premium - 10.0) * Unit(pos)
    ensures p <= q ==> ProfitAt(pos, p) <= ProfitAt(pos, q)
  {
    ScaledBounds(pos, p, pos.premium - 10.0, pos.premium);
    if p <= q {
      ScaledOrder(pos, p, q);
    }
  }

  // ---------------------------------------------------------------------
  // Iron condor: put spread [s-5, s], call spread [s+15, s+20]

  /** The condor's profit lies between premium minus the wing width 5 and the
      premium, and (with at least one contract) it keeps the whole premium
      exactly when the price settles between s and s + 15. */
  lemma IronCondorPayoff(pos: Position, p: real)
    requires pos.strategy == IronCondor && pos.contracts >= 0
    ensures (pos.premium - 5.0) * Unit(pos) <= ProfitAt(pos, p) <= pos.premium * Unit(pos)
    ensures pos.strike <= p <= pos.strike + 15.0 ==> ProfitAt(pos, p) == pos.premium * Unit(pos)
    ensures pos.contracts >= 1 ==>
      (ProfitAt(pos, p) == pos.premium * Unit(pos) <==> pos.strike <= p <= pos.strike + 15.0)
    ensures p <= pos.strike - 5.0 || p >= pos.strike + 20.0 ==>
      ProfitAt(pos, p) == (pos.premium - 5.0) * Unit(pos)
  {
    ScaledBounds(pos, p, pos.premium - 5.0, pos.premium);
    if pos.contracts >= 1 && !(pos.strike <= p <= pos.strike + 15.0) {
      ScaledStrict(pos, p, pos.premium);
    }
  }

  // ---------------------------------------------------------------------
  // Leaps (poor man's covered call)

  /** Below both strikes the long call and the short call are worthless, so
      the position loses the long call's cost net of the premium; above both
      strikes the profit is flat at the strikes' difference net of that cost. */
  lemma LeapsPayoff(pos: Position, p: real)
    requires pos.strategy == Leaps
    ensures p <= LongStrike(pos.currentPrice) && p <= pos.strike ==>
      ProfitAt(pos, p) == (pos.premium - LongCost(pos.currentPrice)) * Unit(pos)
    ensures p >= LongStrike(pos.currentPrice) && p >= pos.strike ==>
      ProfitAt(pos, p)
      == (pos.strike - LongStrike(pos.currentPrice) - LongCost(pos.currentPrice) + pos.premium) * Unit(pos)
  {
  }

  /** With the short strike above the long strike, the leaps position's
      profit rises with the price and is capped at its value at the short
      strike. */
  lemma LeapsBounded(pos: Position, p: real, q: real)
    requires pos.strategy == Leaps && pos.contracts >= 0
    requires pos.strike >= LongStrike(pos.currentPrice)
    ensures p <= q ==> ProfitAt(pos, p) <= ProfitAt(pos, q)
    ensures ProfitAt(pos, p) <= ProfitAt(pos, pos.strike)
  {
    if p <= q {
      ScaledOrder(pos, p, q);
    }
    ScaledOrder(pos, p, pos.strike);
  }

  // ---------------------------------------------------------------------
  // Short strangle: put at s, call at s + 0.1 cp

  /** The strangle keeps the whole premium exactly on [s, s + 0.1 cp]; with at
      least one contract every price outside that interval does strictly
      worse. */
  lemma StranglePayoff(pos: Position, p: real)
    requires pos.strategy == Strangle && pos.contracts >= 0
    ensures CallStrike(pos.strike, pos.currentPrice) == pos.strike + 0.1 * pos.currentPrice
    ensures ProfitAt(pos, p) <= pos.premium * Unit(pos)
    ensures pos.strike <= p <= CallStrike(pos.strike, pos.currentPrice) ==>
      ProfitAt(pos, p) == pos.premium * Unit(pos)
    ensures pos.contracts >= 1 && (p < pos.strike || p > CallStrike(pos.strike, pos.currentPrice)) ==>
      ProfitAt(pos, p) < pos.premium * Unit(pos)
  {
    ScaledBounds(pos, p, PerShare(pos, p), pos.premium);
    if pos.contracts >= 1 && (p < pos.strike || p > CallStrike(pos.strike, pos.currentPrice)) {
      ScaledStrict(pos, p, pos.premium);
    }
  }

  // ---------------------------------------------------------------------
  // Scaling

  /** The profit is linear in the number of contracts: n contracts earn n
      times what one contract earns. */
  lemma ProfitLinearInContracts(pos: Position, p: real)
    ensures ProfitAt(pos, p) == pos.contracts as real * ProfitAt(pos.(contracts := 1), p)
  {
    var one := pos.(contracts := 1);
    assert PerShare(pos, p) == PerShare(one, p);
    assert Unit(pos) == pos.contracts as real * Unit(one);
  }

  // ---------------------------------------------------------------------
  // Chart sampling

  /** One point of the payoff chart, price and profit both rounded. */
  datatype PricePoint = PricePoint(price: int, profit: int)

  /** The k-th sample price: from 60% of the quote in steps of one
      eightieth of the range up to 140% of the quote. */
  function SamplePrice(cp: real, k: nat): real {
    cp * 0.60 + k as real * ((cp * 1.40 - cp * 0.60) / 80.0)
  }

  function SamplePoint(pos: Position, k: nat): PricePoint {
    var p := SamplePrice(pos.currentPrice, k);
    PricePoint(Round(p), Round(ProfitAt(pos, p)))
  }

  /** Sample prices rise strictly from 60% of a positive quote to 140% of it
      at the eightieth step. */
  lemma SamplePricesAscending(cp: real, i: nat, j: nat)
    requires cp > 0.0 && i < j
    ensures SamplePrice(cp, i) < SamplePrice(cp, j)
    ensures SamplePrice(cp, 0) == cp * 0.60 && SamplePrice(cp, 80) == cp * 1.40
  {
    var step := (cp * 1.40 - cp * 0.60) / 80.0;
    assert step > 0.0;
    assert SamplePrice(cp, j) - SamplePrice(cp, i) == (j - i) as real * step;
    ScaleStrict(0.0, (j - i) as real, step);
  }

  /** For a positive step, k steps stay within eighty steps exactly when
      k is at most 80. */
  lemma WithinRange(k: nat, step: real)
    requires step > 0.0
    ensures k as real * step <= 80.0 * step <==> k <= 80
  {
    if k <= 80 {
      ScaleMonotone(k as real, 80.0, step);
    } else {
      ScaleStrict(80.0, k as real, step);
    }
  }

  /** The rounded sample prices are only non-decreasing: with a quote of 10
      the step is 0.1 and the first two samples both round to 6. */
  lemma RoundedPricesMayRepeat()
    ensures SamplePoint(Position(ShortPut, 10.0, 1.0, 1, 10.0), 0).price == 6
    ensures SamplePoint(Position(ShortPut, 10.0, 1.0, 1, 10.0), 1).price == 6
  {
    assert SamplePrice(10.0, 0) == 6.0;
    assert SamplePrice(10.0, 1) == 6.1;
  }

  /** The payoff chart: for a positive quote, 81 points sampled from 60% to
      140% of the quote, each the rounded price and the rounded profit at
      that price, with rounded prices that never decrease; for a negative
      quote the range is empty and so is the chart. (A zero quote gives a
      zero step, on which the sampling loop never ends.) */
  method ChartData(pos: Position) returns (points: seq<PricePoint>)
    requires pos.currentPrice != 0.0
    ensures pos.currentPrice < 0.0 ==> points == []
    ensures pos.currentPrice > 0.0 ==> |points| == 81
    ensures forall k :: 0 <= k < |points| ==> points[k] == SamplePoint(pos, k)
    ensures forall i, j :: 0 <= i < j < |points| ==> points[i].price <= points[j].price
  {
    var cp := pos.currentPrice;
    var min := cp * 0.60;
    var max := cp * 1.40;
    var step := (max - min) / 80.0;
    points := [];
    var p := min;
    ghost var k: nat := 0;
    while p <= max
      invariant k <= 81
      invariant cp < 0.0 ==> k == 0
      invariant p == SamplePrice(cp, k)
      invariant |points| == k
      invariant forall j :: 0 <= j < k ==> points[j] == SamplePoint(pos, j)
      decreases 81 - k
    {
      assert cp > 0.0;
      assert k as real * step <= 80.0 * step;
      WithinRange(k, step);
      points := points + [PricePoint(Round(p), Round(ProfitAt(pos, p)))];
      p := p + step;
      k := k + 1;
    }
    if cp > 0.0 {
      assert max == min + 80.0 * step;
      assert p == min + k as real * step;
      assert k as real * step > 80.0 * step;
      WithinRange(k, step);
      forall i, j | 0 <= i < j < |points|
        ensures points[i].price <= points[j].price
      {
        SamplePricesAscending(cp, i, j);
        RoundMonotone(SamplePrice(cp, i), SamplePrice(cp, j));
      }
    }
  }

  // ---------------------------------------------------------------------
  // Technical levels and the recommendation

  /** Support levels (EMA 20, EMA 50), resistance levels and the recommended
      strategy for a quote. */
  datatype Technicals = Technicals(s1: real, s2: real, r1: real, r2: real, rec: Strategy)

  /** The threshold recommendation: covered call above 800, leaps below 200,
      a short put otherwise (both thresholds included). */
  function Recommend(cp: real): (k: Strategy)
    ensures k == CoveredCall <==> cp > 800.0
    ensures k == Leaps <==> cp < 200.0
    ensures k == ShortPut <==> 200.0 <= cp <= 800.0
    ensures Handled(k)
  {
    if cp > 800.0 then CoveredCall
    else if cp < 200.0 then Leaps
    else ShortPut
  }

  /** The levels sit at fixed percentages of the quote: s2, s1, the quote and
      r1 are 3.5% of the quote apart, and r2 is a further 4.5% above r1. */
  function TechnicalsFor(cp: real): (t: Technicals)
    ensures cp > 0.0 ==> t.s2 < t.s1 < cp < t.r1 < t.r2
    ensures cp > 0.0 ==> t.s1 - t.s2 == t.r1 - cp && t.r1 - cp == cp - t.s1
    ensures cp - t.s1 == 0.035 * cp
    ensures t.r2 - t.r1 == 0.045 * cp
    ensures t.rec == Recommend(cp)
  {
    Technicals(cp * 0.965, cp * 0.930, cp * 1.035, cp * 1.080, Recommend(cp))
  }

  // ---------------------------------------------------------------------
  // Strike and premium defaults

  /** A strike/premium pair that the lab seeds its inputs with. */
  datatype Seed = Seed(strike: real, premium: real)

  predicate WholeNumber(x: real) { x.Floor as real == x }

  /** x is a whole number within half a unit of target. */
  predicate RoundedFrom(x: real, target: real) {
    WholeNumber(x) && target - 0.5 < x <= target + 0.5
  }

  /** x has one decimal place and lies within 0.05 of target. */
  predicate TenthFrom(x: real, target: real) {
    WholeNumber(x * 10.0) && target - 0.05 < x <= target + 0.05
  }

  /** Switching strategy resets the strike to a rounded percentage of the
      quote and the premium to a one-decimal percentage of it; the spread
      and condor get a fixed 5.0 premium. */
  function StrategyDefaults(k: Strategy, price: real): (d: Seed)
    ensures k == ShortPut ==> RoundedFrom(d.strike, price * 0.95) && TenthFrom(d.premium, price * 0.015)
    ensures k == CoveredCall ==> RoundedFrom(d.strike, price * 1.05) && TenthFrom(d.premium, price * 0.012)
    ensures k == Leaps ==> RoundedFrom(d.strike, price * 1.05) && TenthFrom(d.premium, price * 0.03)
    ensures k == Strangle ==> RoundedFrom(d.strike, price * 0.90) && TenthFrom(d.premium, price * 0.05)
    ensures k !in {ShortPut, CoveredCall, Leaps, Strangle} ==>
      RoundedFrom(d.strike, price * 0.98) && d.premium == 5.0
  {
    if k == ShortPut then Seed(Round(price * 0.95) as real, RoundTenth(price * 0.015))
    else if k == CoveredCall then Seed(Round(price * 1.05) as real, RoundTenth(price * 0.012))
    else if k == Leaps then Seed(Round(price * 1.05) as real, RoundTenth(price * 0.03))
    else if k == Strangle then Seed(Round(price * 0.90) as real, RoundTenth(price * 0.05))
    else Seed(Round(price * 0.98) as real, 5.0)
  }

  /** From a quote of 10 up, the default put strikes (short put, strangle)
      are at or below the quote and the default short call strikes (covered
      call, leaps) at or above it. */
  lemma DefaultStrikesOutOfTheMoney(price: real)
    requires price >= 10.0
    ensures StrategyDefaults(ShortPut, price).strike <= price
    ensures StrategyDefaults(Strangle, price).strike <= price
    ensures StrategyDefaults(CoveredCall, price).strike >= price
    ensures StrategyDefaults(Leaps, price).strike >= price
  {
  }

  /** The mock quotes used when the quote service returns nothing. */
  const MockTickers: map<string, real> := map[
    "AAPL" := 189.43, "TSLA" := 175.22, "NVDA" := 875.38, "MSFT" := 415.50,
    "AMD" := 160.79, "SPY" := 512.30, "QQQ" := 438.10]

  /** The quote used after a search: the service's price unless it is
      missing or zero, else the mock quote for the symbol unless that is
      missing or zero, else 150. */
  function FallbackPrice(apiPrice: Option<real>, symbol: string): (r: real)
    ensures r != 0.0
    ensures apiPrice.Some? && apiPrice.value != 0.0 ==> r == apiPrice.value
    ensures (apiPrice.None? || apiPrice.value == 0.0) && symbol in MockTickers ==> r == MockTickers[symbol]
    ensures (apiPrice.None? || apiPrice.value == 0.0) && symbol !in MockTickers ==> r == 150.0
  {
    if apiPrice.Some? && apiPrice.value != 0.0 then apiPrice.value
    else if symbol in MockTickers && MockTickers[symbol] != 0.0 then MockTickers[symbol]
    else 150.0
  }

  /** After a search the strike is seeded at 95% of the quote and the premium
      at 2% of it, whatever the current strategy. */
  function QuoteSeed(price: real): (d: Seed)
    ensures RoundedFrom(d.strike, price * 0.95)
    ensures TenthFrom(d.premium, price * 0.02)
  {
    Seed(Round(price * 0.95) as real, RoundTenth(price * 0.02))
  }

  // ---------------------------------------------------------------------
  // The lab's state

  /** The strategy lab's inputs, which its handlers update in place. */
  class Lab {
    var ticker: string
    var currentPrice: real
    var strategy: Strategy
    var strike: real
    var premium: real
    var contracts: int

    /** The quote is never zero: it starts at a mock quote and every search
        replaces it with a non-zero fallback. */
    predicate ValidQuote()
      reads this
    {
      currentPrice != 0.0
    }

    constructor ()
      ensures ValidQuote()
      ensures ticker == "NVDA" && currentPrice == MockTickers["NVDA"]
      ensures strategy == ShortPut && strike == 830.0 && premium == 15.5 && contracts == 1
    {
      ticker := "NVDA";
      currentPrice := MockTickers["NVDA"];
      strategy := ShortPut;
      strike := 830.0;
      premium := 15.5;
      contracts := 1;
    }

    /** The position the payoff engine evaluates. */
    function Current(): Position
      reads this
    {
      Position(strategy, strike, premium, contracts, currentPrice)
    }

    /** Selecting a strategy sets it and resets strike and premium to its
        defaults for the current quote. */
    method ChangeStrategy(k: Strategy)
      requires ValidQuote()
      modifies this
      ensures ValidQuote()
      ensures strategy == k
      ensures Seed(strike, premium) == StrategyDefaults(k, currentPrice)
      ensures ticker == old(ticker) && currentPrice == old(currentPrice) && contracts == old(contracts)
    {
      strategy := k;
      var d := StrategyDefaults(k, currentPrice);
      strike := d.strike;
      premium := d.premium;
    }

    /** Completing a search for an already trimmed, upper-cased symbol: an
        empty symbol changes nothing; otherwise the ticker and quote are
        replaced and strike and premium are reseeded from the new quote,
        keeping the strategy. */
    method ApplySearch(symbol: string, apiPrice: Option<real>)
      requires ValidQuote()
      modifies this
      ensures ValidQuote()
      ensures symbol == [] ==>
        ticker == old(ticker) && currentPrice == old(currentPrice)
        && strike == old(strike) && premium == old(premium)
      ensures symbol != [] ==>
        ticker == symbol && currentPrice == FallbackPrice(apiPrice, symbol)
        && Seed(strike, premium) == QuoteSeed(currentPrice)
      ensures strategy == old(strategy) && contracts == old(contracts)
    {
      if symbol == [] {
        return;
      }
      var finalPrice := FallbackPrice(apiPrice, symbol);
      ticker := symbol;
      currentPrice := finalPrice;
      var d := QuoteSeed(finalPrice);
      strike := d.strike;
      premium := d.premium;
    }

    /** The payoff chart of the lab's current position; the lab's quote is
        never zero, so the sampling loop ends. */
    method Chart() returns (points: seq<PricePoint>)
      requires ValidQuote()
      ensures currentPrice < 0.0 ==> points == []
      ensures currentPrice > 0.0 ==> |points| == 81
      ensures forall k :: 0 <= k < |points| ==> points[k] == SamplePoint(Current(), k)
      ensures forall i, j :: 0 <= i < j < |points| ==> points[i].price <= points[j].price
    {
      points := ChartData(Current());
    }
  }
}
