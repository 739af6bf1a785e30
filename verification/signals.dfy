/**
 The buy/sell heuristic for one coin. Indicator readings (RSI, EMA, volume
 means, price change) are computed elsewhere and arrive as inputs, as does the
 fear & greed index; the window lengths come from the coin itself. Each rule
 that fires contributes points and a reason; the total score then picks one
 of five labels.
 */
module Signals {
  import opened BoundedDeque
  import opened CoinBuffers
  import opened CoinHistory

  /** Fewer 1-minute prices than this: the coin is still warming up. */
  const WarmUpPoints: nat := 100
  /** The EMA trend rule needs this many 1-minute prices. */
  const TrendPoints: nat := 50
  /** The volume rule needs this many 1-minute volumes. */
  const VolumePoints: nat := 20
  /** Below this many hourly prices the 1-minute RSI stands in for the hourly one. */
  const SlowRsiPoints: nat := 20

  /** The indicator values the rules read. */
  datatype Readings = Readings(
    rsi1m: real,           // RSI(14) of the 1-minute prices
    rsi1h: real,           // RSI(14) of the hourly prices
    emaFastAbove: bool,    // newest EMA(12) above newest EMA(26) of the 1-minute prices
    recentVolume: real,    // mean of the newest 10 volumes
    previousVolume: real,  // mean of the 10 volumes before those
    priceChange: real)     // relative change of the price over the newest 10 samples

  datatype Reason =
    | ExtremeOversold1m | Oversold1m | Overbought1m | BullishStructure1h
    | EmaBullish | EmaBearish | VolumeSurgeUp | DistributionRisk
    | ExtremeFear(index: int) | ExtremeGreed(index: int)

  datatype Label = WarmingUp | StrongBuy | Buy | Neutral | Sell | StrongSell {
    function Text(): string {
      match this
      case WarmingUp => "Warming Up"
      case StrongBuy => "STRONG BUY"
      case Buy => "BUY"
      case Neutral => "NEUTRAL"
      case Sell => "SELL"
      case StrongSell => "STRONG SELL"
    }

    /** The CSS class the dashboard shows the label with. */
    function Color(): string {
      match this
      case WarmingUp => "text-secondary"
      case StrongBuy => "text-success fw-bold"
      case Buy => "text-info"
      case Neutral => "text-muted"
      case Sell => "text-warning"
      case StrongSell => "text-danger fw-bold"
    }

    /** How bullish the label is, from strong sell (0) to strong buy (4). */
    function Rank(): int {
      match this
      case StrongSell => 0
      case Sell => 1
      case Neutral | WarmingUp => 2
      case Buy => 3
      case StrongBuy => 4
    }

    /** The label for the negated score. */
    function Mirror(): Label {
      match this
      case StrongBuy => StrongSell
      case Buy => Sell
      case Sell => Buy
      case StrongSell => StrongBuy
      case Neutral => Neutral
      case WarmingUp => WarmingUp
    }
  }

  datatype Signal = Signal(verdict: Label, prob: int, color: string, reasons: seq<Reason>)

  function Abs(x: int): int {
    if x < 0 then -x else x
  }

  function Max(a: int, b: int): int {
    if a >= b then a else b
  }

  /** The points a reason adds to the score (negative: takes away). */
  function Points(r: Reason): int {
    match r
    case ExtremeOversold1m => 25
    case Oversold1m => 18
    case Overbought1m => -22
    case BullishStructure1h => 15
    case EmaBullish => 20
    case EmaBearish => -20
    case VolumeSurgeUp => 18
    case DistributionRisk => -20
    case ExtremeFear(_) => 30
    case ExtremeGreed(_) => -20
  }

  /** The score of a list of reasons: the sum of their points. */
  function Total(reasons: seq<Reason>): int {
    if |reasons| == 0 then 0 else Points(reasons[0]) + Total(reasons[1..])
  }

  /** Reasons given one group after another score the sum of the groups. */
  lemma {:induction false} TotalOfConcat(a: seq<Reason>, b: seq<Reason>)
    ensures Total(a + b) == Total(a) + Total(b)
    decreases |a|
  {
    if |a| == 0 {
      assert a + b == b;
    } else {
      assert (a + b)[0] == a[0];
      assert (a + b)[1..] == a[1..] + b;
      TotalOfConcat(a[1..], b);
    }
  }

  /** The RSI read for the hourly rule: the hourly RSI once the hourly window
      has 20 samples, the 1-minute RSI before that. */
  function SlowRsi(c: CoinData, rd: Readings): real {
    if |c.prices1h| >= SlowRsiPoints then rd.rsi1h else rd.rsi1m
  }

  /** Whether the newest ten volumes average more than 1.8 times the ten
      before them (only looked at once 20 volumes exist). */
  predicate Surge(c: CoinData, rd: Readings) {
    |c.volumes1m| >= VolumePoints && rd.recentVolume > rd.previousVolume * 1.8
  }

  // Each rule gives at most one reason.

  function OversoldRule(rsi1: real): seq<Reason> {
    if rsi1 < 25.0 then [ExtremeOversold1m] else if rsi1 < 30.0 then [Oversold1m] else []
  }

  function OverboughtRule(rsi1: real): seq<Reason> {
    if rsi1 > 75.0 then [Overbought1m] else []
  }

  function StructureRule(rsi60: real): seq<Reason> {
    if rsi60 < 40.0 then [BullishStructure1h] else []
  }

  function TrendRule(c: CoinData, rd: Readings): seq<Reason> {
    if |c.prices1m| >= TrendPoints then (if rd.emaFastAbove then [EmaBullish] else [EmaBearish]) else []
  }

  function VolumeRule(c: CoinData, rd: Readings): seq<Reason> {
    if Surge(c, rd) then
      (if rd.priceChange > 0.01 then [VolumeSurgeUp] else if rd.priceChange < -0.01 then [DistributionRisk] else [])
    else []
  }

  function SentimentRule(fearGreed: int): seq<Reason> {
    if fearGreed < 20 then [ExtremeFear(fearGreed)] else if fearGreed > 80 then [ExtremeGreed(fearGreed)] else []
  }

  /** Every reason given, in the order the rules are consulted. */
  function Reasons(c: CoinData, rd: Readings, fearGreed: int): seq<Reason> {
    OversoldRule(rd.rsi1m) + OverboughtRule(rd.rsi1m) + StructureRule(SlowRsi(c, rd))
    + TrendRule(c, rd) + VolumeRule(c, rd) + SentimentRule(fearGreed)
  }

  /** The score: every change to it comes with its reason. */
  function Score(c: CoinData, rd: Readings, fearGreed: int): int {
    Total(Reasons(c, rd, fearGreed))
  }

  /** The score is the sum of what each rule contributes. */
  lemma ScoreByRule(c: CoinData, rd: Readings, fearGreed: int)
    ensures Score(c, rd, fearGreed)
            == Total(OversoldRule(rd.rsi1m)) + Total(OverboughtRule(rd.rsi1m)) + Total(StructureRule(SlowRsi(c, rd)))
               + Total(TrendRule(c, rd)) + Total(VolumeRule(c, rd)) + Total(SentimentRule(fearGreed))
  {
    var a, b, h := OversoldRule(rd.rsi1m), OverboughtRule(rd.rsi1m), StructureRule(SlowRsi(c, rd));
    var t, v, s := TrendRule(c, rd), VolumeRule(c, rd), SentimentRule(fearGreed);
    TotalOfConcat(a, b);
    TotalOfConcat(a + b, h);
    TotalOfConcat(a + b + h, t);
    TotalOfConcat(a + b + h + t, v);
    TotalOfConcat(a + b + h + t + v, s);
  }

  /** The score is the running total the rules build up, increment by
      increment, in terms of the readings alone. */
  lemma ScoreIsRunningTotal(c: CoinData, rd: Readings, fearGreed: int)
    ensures Score(c, rd, fearGreed)
            == (if rd.rsi1m < 25.0 then 25 else if rd.rsi1m < 30.0 then 18 else 0)
               + (if rd.rsi1m > 75.0 then -22 else 0)
               + (if (if |c.prices1h| >= 20 then rd.rsi1h else rd.rsi1m) < 40.0 then 15 else 0)
               + (if |c.prices1m| >= 50 then (if rd.emaFastAbove then 20 else -20) else 0)
               + (if |c.volumes1m| >= 20 && rd.recentVolume > rd.previousVolume * 1.8 then
                    (if rd.priceChange > 0.01 then 18 else if rd.priceChange < -0.01 then -20 else 0)
                  else 0)
               + (if fearGreed < 20 then 30 else if fearGreed > 80 then -20 else 0)
  {
    ScoreByRule(c, rd, fearGreed);
    TotalOfRule(OversoldRule(rd.rsi1m));
    TotalOfRule(OverboughtRule(rd.rsi1m));
    TotalOfRule(StructureRule(SlowRsi(c, rd)));
    TotalOfRule(TrendRule(c, rd));
    TotalOfRule(VolumeRule(c, rd));
    TotalOfRule(SentimentRule(fearGreed));
  }

  /** A reason is given exactly when one of the rules gives it. */
  lemma InReasons(x: Reason, c: CoinData, rd: Readings, fearGreed: int)
    ensures x in Reasons(c, rd, fearGreed) <==>
              || x in OversoldRule(rd.rsi1m) || x in OverboughtRule(rd.rsi1m)
              || x in StructureRule(SlowRsi(c, rd)) || x in TrendRule(c, rd)
              || x in VolumeRule(c, rd) || x in SentimentRule(fearGreed)
  {
  }

  /** The 1-minute oversold reasons follow the RSI thresholds 25 and 30. */
  lemma OversoldReasonsExplained(c: CoinData, rd: Readings, fearGreed: int)
    ensures ExtremeOversold1m in Reasons(c, rd, fearGreed) <==> rd.rsi1m < 25.0
    ensures Oversold1m in Reasons(c, rd, fearGreed) <==> 25.0 <= rd.rsi1m < 30.0
  {
    InReasons(ExtremeOversold1m, c, rd, fearGreed);
    InReasons(Oversold1m, c, rd, fearGreed);
  }

  /** The overbought reason follows the 1-minute RSI above 75. */
  lemma OverboughtReasonExplained(c: CoinData, rd: Readings, fearGreed: int)
    ensures Overbought1m in Reasons(c, rd, fearGreed) <==> rd.rsi1m > 75.0
  {
    InReasons(Overbought1m, c, rd, fearGreed);
  }

  /** The hourly structure reason follows an RSI below 40: the hourly one
      once 20 hourly samples exist, the 1-minute one before that. */
  lemma StructureReasonExplained(c: CoinData, rd: Readings, fearGreed: int)
    ensures |c.prices1h| >= SlowRsiPoints ==> (BullishStructure1h in Reasons(c, rd, fearGreed) <==> rd.rsi1h < 40.0)
    ensures |c.prices1h| < SlowRsiPoints ==> (BullishStructure1h in Reasons(c, rd, fearGreed) <==> rd.rsi1m < 40.0)
  {
    InReasons(BullishStructure1h, c, rd, fearGreed);
  }

  /** The trend reasons follow the EMA comparison once 50 prices exist. */
  lemma TrendReasonsExplained(c: CoinData, rd: Readings, fearGreed: int)
    ensures EmaBullish in Reasons(c, rd, fearGreed) <==> |c.prices1m| >= TrendPoints && rd.emaFastAbove
    ensures EmaBearish in Reasons(c, rd, fearGreed) <==> |c.prices1m| >= TrendPoints && !rd.emaFastAbove
  {
    InReasons(EmaBullish, c, rd, fearGreed);
    InReasons(EmaBearish, c, rd, fearGreed);
  }

  /** The volume reasons follow a surge and the direction of the price. */
  lemma VolumeReasonsExplained(c: CoinData, rd: Readings, fearGreed: int)
    ensures VolumeSurgeUp in Reasons(c, rd, fearGreed) <==> Surge(c, rd) && rd.priceChange > 0.01
    ensures DistributionRisk in Reasons(c, rd, fearGreed) <==> Surge(c, rd) && rd.priceChange < -0.01
  {
    InReasons(VolumeSurgeUp, c, rd, fearGreed);
    InReasons(DistributionRisk, c, rd, fearGreed);
  }

  /** The sentiment reasons follow the extremes of the fear & greed index. */
  lemma SentimentReasonsExplained(c: CoinData, rd: Readings, fearGreed: int)
    ensures ExtremeFear(fearGreed) in Reasons(c, rd, fearGreed) <==> fearGreed < 20
    ensures ExtremeGreed(fearGreed) in Reasons(c, rd, fearGreed) <==> fearGreed > 80
  {
    InReasons(ExtremeFear(fearGreed), c, rd, fearGreed);
    InReasons(ExtremeGreed(fearGreed), c, rd, fearGreed);
  }

  /** Oversold and overbought exclude each other, so the score lies between
      -82 (every bearish rule) and 108 (every bullish rule), and at most five
      reasons are given. */
  lemma ScoreRange(c: CoinData, rd: Readings, fearGreed: int)
    ensures -82 <= Score(c, rd, fearGreed) <= 108
    ensures |Reasons(c, rd, fearGreed)| <= 5
  {
    ScoreByRule(c, rd, fearGreed);
    OneMinuteRsiRange(rd.rsi1m);
    PointsOfRule(StructureRule(SlowRsi(c, rd)), 0, 15);
    PointsOfRule(TrendRule(c, rd), -20, 20);
    PointsOfRule(VolumeRule(c, rd), -20, 18);
    PointsOfRule(SentimentRule(fearGreed), -20, 30);
  }

  /** At most one of the 1-minute RSI rules fires. */
  lemma OneMinuteRsiRange(rsi1: real)
    ensures -22 <= Total(OversoldRule(rsi1)) + Total(OverboughtRule(rsi1)) <= 25
    ensures |OversoldRule(rsi1) + OverboughtRule(rsi1)| <= 1
  {
    if rsi1 < 30.0 {
      PointsOfRule(OversoldRule(rsi1), 0, 25);
    } else {
      PointsOfRule(OverboughtRule(rsi1), -22, 0);
    }
  }

  /** The score of a rule's output, which is empty or a single reason. */
  lemma PointsOfRule(rs: seq<Reason>, lo: int, hi: int)
    requires |rs| <= 1 && lo <= 0 <= hi
    requires |rs| == 1 ==> lo <= Points(rs[0]) <= hi
    ensures lo <= Total(rs) <= hi
  {
    if |rs| == 1 {
      assert rs[1..] == [];
    }
  }

  /** A rule's output scores nothing or the points of its one reason. */
  lemma TotalOfRule(rs: seq<Reason>)
    requires |rs| <= 1
    ensures Total(rs) == if |rs| == 0 then 0 else Points(rs[0])
  {
    if |rs| == 1 {
      assert rs[1..] == [];
    }
  }

  /** What the dashboard shows for a coin past its warm-up with score
      `score` and reasons `reasons`: the label partitions the score at
      -60, -30, 30 and 60; a non-neutral label comes with the score's
      magnitude clamped to [10, 98] and the first three reasons, the neutral
      one with 30 and the first two. */
  ghost predicate Shows(sig: Signal, score: int, reasons: seq<Reason>) {
    && (sig.verdict == StrongBuy <==> score >= 60)
    && (sig.verdict == Buy <==> 30 <= score < 60)
    && (sig.verdict == Neutral <==> -30 < score < 30)
    && (sig.verdict == Sell <==> -60 < score <= -30)
    && (sig.verdict == StrongSell <==> score <= -60)
    && (sig.verdict != Neutral ==> sig.prob == Min(98, Max(10, Abs(score))))
    && (sig.verdict == Neutral ==> sig.prob == 30)
    && sig.reasons == reasons[..Min(|reasons|, if sig.verdict == Neutral then 2 else 3)]
    && sig.color == sig.verdict.Color()
  }

  /** The label, the probability and the reasons shown for a score. */
  function Classify(score: int, reasons: seq<Reason>): (sig: Signal)
    ensures Shows(sig, score, reasons)
    ensures sig.verdict != WarmingUp
    ensures 30 <= sig.prob <= 98
    ensures |sig.reasons| <= 3
  {
    var prob := Min(98, Max(10, Abs(score)));
    if score >= 60 then Signal(StrongBuy, prob, StrongBuy.Color(), reasons[..Min(|reasons|, 3)])
    else if score >= 30 then Signal(Buy, prob, Buy.Color(), reasons[..Min(|reasons|, 3)])
    else if score <= -60 then Signal(StrongSell, prob, StrongSell.Color(), reasons[..Min(|reasons|, 3)])
    else if score <= -30 then Signal(Sell, prob, Sell.Color(), reasons[..Min(|reasons|, 3)])
    else Signal(Neutral, 30, Neutral.Color(), reasons[..Min(|reasons|, 2)])
  }

  /** `Shows` leaves no freedom: one signal fits a score and its reasons. */
  lemma ShowsIsUnique(s1: Signal, s2: Signal, score: int, reasons: seq<Reason>)
    requires Shows(s1, score, reasons) && Shows(s2, score, reasons)
    ensures s1 == s2
  {
  }

  /** A higher score never gives a more bearish label. */
  lemma ClassifyIsMonotone(lo: int, hi: int, reasons: seq<Reason>)
    requires lo <= hi
    ensures Classify(lo, reasons).verdict.Rank() <= Classify(hi, reasons).verdict.Rank()
  {
  }

  /** The thresholds are symmetric: negating the score mirrors the label and
      keeps the probability. */
  lemma ClassifyIsSymmetric(score: int, reasons: seq<Reason>)
    ensures Classify(-score, reasons).verdict == Classify(score, reasons).verdict.Mirror()
    ensures Classify(-score, reasons).prob == Classify(score, reasons).prob
  {
  }

  /** The signal for one coin, given its indicator readings and the fear &
      greed index. */
  function GenerateSignal(c: CoinData, rd: Readings, fearGreed: int): (sig: Signal)
    ensures |c.prices1m| < WarmUpPoints ==> sig == Signal(WarmingUp, 0, "text-secondary", [])
    ensures |c.prices1m| >= WarmUpPoints ==> Shows(sig, Score(c, rd, fearGreed), Reasons(c, rd, fearGreed))
    ensures |c.prices1m| >= WarmUpPoints ==> 30 <= sig.prob <= 98 && |sig.reasons| <= 3
  {
    if |c.prices1m| < WarmUpPoints then Signal(WarmingUp, 0, WarmingUp.Color(), [])
    else Classify(Score(c, rd, fearGreed), Reasons(c, rd, fearGreed))
  }

  /** A fear & greed index between 20 and 80 (including 50, the value used
      when the index cannot be fetched) neither moves the score nor adds a
      reason: the signal is the one computed without the sentiment rule. */
  lemma MidrangeSentimentIsIgnored(c: CoinData, rd: Readings, fearGreed: int)
    requires 20 <= fearGreed <= 80
    ensures Reasons(c, rd, fearGreed) == Reasons(c, rd, 50)
    ensures GenerateSignal(c, rd, fearGreed) == GenerateSignal(c, rd, 50)
    ensures forall r :: r in Reasons(c, rd, fearGreed) ==> !r.ExtremeFear? && !r.ExtremeGreed?
  {
  }

  /** More fear never lowers the score: the sentiment points fall from +30
      through 0 to -20 as the index rises. */
  lemma ScoreFallsAsGreedRises(c: CoinData, rd: Readings, fear: int, greed: int)
    requires fear <= greed
    ensures Score(c, rd, fear) >= Score(c, rd, greed)
  {
    ScoreByRule(c, rd, fear);
    ScoreByRule(c, rd, greed);
  }

  /** Past the warm-up the EMA rule always votes, and the volume rule is
      armed whenever the windows have their usual shape. */
  lemma TrendAlwaysVotesAfterWarmUp(c: CoinData, rd: Readings, fearGreed: int)
    requires Shaped(c) && |c.prices1m| >= WarmUpPoints
    ensures EmaBullish in Reasons(c, rd, fearGreed) <==> rd.emaFastAbove
    ensures EmaBearish in Reasons(c, rd, fearGreed) <==> !rd.emaFastAbove
    ensures Surge(c, rd) <==> rd.recentVolume > rd.previousVolume * 1.8
  {
    TrendReasonsExplained(c, rd, fearGreed);
  }

  /** Until 20 hourly samples exist the hourly rule reads the 1-minute RSI,
      so the overbought warning and the bullish hourly structure never appear
      together. */
  lemma FallbackRsiIsConsistent(c: CoinData, rd: Readings, fearGreed: int)
    requires |c.prices1h| < SlowRsiPoints
    ensures !(Overbought1m in Reasons(c, rd, fearGreed) && BullishStructure1h in Reasons(c, rd, fearGreed))
  {
    OverboughtReasonExplained(c, rd, fearGreed);
    StructureReasonExplained(c, rd, fearGreed);
  }

  /** A freshly created coin shows "Warming Up" for exactly its first 99
      polls, whatever the readings and the index. */
  lemma WarmUpLastsNinetyNinePolls(symbol: string, ticks: seq<Tick>, rd: Readings, fearGreed: int)
    ensures GenerateSignal(Replay(NewCoin(symbol), ticks), rd, fearGreed).verdict == WarmingUp
            <==> |ticks| < WarmUpPoints
  {
    FreshCoinHoldsNewestPrices(symbol, ticks);
  }
}
