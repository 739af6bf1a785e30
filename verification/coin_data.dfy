/**
 Per-coin rolling price history. Every poll appends one sample to the 1-minute
 windows (price, time, volume); the same price is also sampled into the
 5-minute, 15-minute and hourly windows when the wall-clock minute and hour
 say that a new bucket has begun. The clock reading is an explicit argument.
 */
module CoinBuffers {
  import opened BoundedDeque

  const Max1m: nat := 600
  const Max5m: nat := 288
  const Max15m: nat := 200
  const Max1h: nat := 168

  type Hour = h: int | 0 <= h < 24
  type Minute = m: int | 0 <= m < 60

  /** The wall-clock reading taken at a poll; only its hour and minute are
      ever consulted. */
  datatype Stamp = Stamp(hour: Hour, minute: Minute)

  /** All windows of one coin, oldest sample first. */
  datatype CoinData = CoinData(
    symbol: string,
    prices1m: seq<real>, times1m: seq<Stamp>, volumes1m: seq<real>,
    prices5m: seq<real>, times5m: seq<Stamp>,
    prices15m: seq<real>, times15m: seq<Stamp>,
    prices1h: seq<real>, times1h: seq<Stamp>)

  /** Windows that belong together have equal length, and none exceeds its
      capacity. This is what the appending code relies on: the time of the
      last sample exists whenever the price window is non-empty. */
  predicate Shaped(c: CoinData) {
    && |c.prices1m| == |c.times1m| == |c.volumes1m| <= Max1m
    && |c.prices5m| == |c.times5m| <= Max5m
    && |c.prices15m| == |c.times15m| <= Max15m
    && |c.prices1h| == |c.times1h| <= Max1h
  }

  predicate MinutesDivisibleBy(ts: seq<Stamp>, k: int)
    requires k > 0
  {
    forall i :: 0 <= i < |ts| ==> ts[i].minute % k == 0
  }

  predicate MinutesBelow(ts: seq<Stamp>, bound: int) {
    forall i :: 0 <= i < |ts| ==> ts[i].minute < bound
  }

  predicate NoRepeatedMinute(ts: seq<Stamp>) {
    forall i :: 0 < i < |ts| ==> ts[i - 1].minute != ts[i].minute
  }

  predicate NoRepeatedHour(ts: seq<Stamp>) {
    forall i :: 0 < i < |ts| ==> ts[i - 1].hour != ts[i].hour
  }

  /** What the resampling maintains on top of the shape: 5-minute samples sit
      on multiples of 5 minutes, 15-minute samples on multiples of 15,
      hourly samples in the first five minutes of an hour, and neighbouring
      samples never share the minute (5m, 15m) or the hour (1h). */
  predicate Invariant(c: CoinData) {
    && Shaped(c)
    && MinutesDivisibleBy(c.times5m, 5) && NoRepeatedMinute(c.times5m)
    && MinutesDivisibleBy(c.times15m, 15) && NoRepeatedMinute(c.times15m)
    && MinutesBelow(c.times1h, 5) && NoRepeatedHour(c.times1h)
  }

  /** A freshly created coin: every window empty. */
  function NewCoin(symbol: string): (c: CoinData)
    ensures c.symbol == symbol
    ensures Invariant(c)
    ensures |c.prices1m| == |c.prices5m| == |c.prices15m| == |c.prices1h| == 0
  {
    CoinData(symbol, [], [], [], [], [], [], [], [], [])
  }

  /** A 5-minute sample is due when the 1-minute window, including the sample
      just appended (`n1m` entries), holds at least five entries, the minute
      is a multiple of 5, and no 5-minute sample was taken at this minute
      value last time. */
  predicate Due5m(c: CoinData, n1m: int, now: Stamp)
    requires Shaped(c)
  {
    && n1m >= 5
    && now.minute % 5 == 0
    && (|c.prices5m| == 0 || Last(c.times5m).minute != now.minute)
  }

  /** A 15-minute sample is due on a multiple of 15 minutes unless the last
      one was taken at this minute value; there is no warm-up. */
  predicate Due15m(c: CoinData, now: Stamp)
    requires Shaped(c)
  {
    && now.minute % 15 == 0
    && (|c.prices15m| == 0 || Last(c.times15m).minute != now.minute)
  }

  /** An hourly sample is due in the first five minutes of an hour unless the
      last one was taken in this hour value. The `hour % 1 == 0` conjunct
      holds for every hour. */
  predicate Due1h(c: CoinData, now: Stamp)
    requires Shaped(c)
  {
    && now.hour % 1 == 0
    && now.minute < 5
    && (|c.prices1h| == 0 || Last(c.times1h).hour != now.hour)
  }

  /** One coarser window (prices with their times): when `due`, the price
      and its time are appended; otherwise the window is left alone. */
  function Resample(ps: seq<real>, ts: seq<Stamp>, price: real, now: Stamp, cap: nat, due: bool)
    : (r: (seq<real>, seq<Stamp>))
    requires 0 < cap && |ps| == |ts| <= cap
    ensures |r.0| == |r.1| <= cap
    ensures due ==> Appended(ps, r.0, price, cap) && Appended(ts, r.1, now, cap)
    ensures !due ==> r.0 == ps && r.1 == ts
  {
    if due then (Push(ps, price, cap), Push(ts, now, cap)) else (ps, ts)
  }

  /** One poll: the price, its time and the volume go to the 1-minute
      windows, and the price (with its time) goes to each coarser window
      whose sample is due; every other window is left alone. */
  function Append1m(c: CoinData, price: real, volume: real, now: Stamp): (r: CoinData)
    requires Shaped(c)
    ensures Shaped(r)
    ensures r.symbol == c.symbol
    ensures Appended(c.prices1m, r.prices1m, price, Max1m)
    ensures Appended(c.times1m, r.times1m, now, Max1m)
    ensures Appended(c.volumes1m, r.volumes1m, volume, Max1m)
    ensures Due5m(c, |r.prices1m|, now) ==>
              Appended(c.prices5m, r.prices5m, price, Max5m) && Appended(c.times5m, r.times5m, now, Max5m)
    ensures !Due5m(c, |r.prices1m|, now) ==> r.prices5m == c.prices5m && r.times5m == c.times5m
    ensures Due15m(c, now) ==>
              Appended(c.prices15m, r.prices15m, price, Max15m) && Appended(c.times15m, r.times15m, now, Max15m)
    ensures !Due15m(c, now) ==> r.prices15m == c.prices15m && r.times15m == c.times15m
    ensures Due1h(c, now) ==>
              Appended(c.prices1h, r.prices1h, price, Max1h) && Appended(c.times1h, r.times1h, now, Max1h)
    ensures !Due1h(c, now) ==> r.prices1h == c.prices1h && r.times1h == c.times1h
  {
    var p1 := Push(c.prices1m, price, Max1m);
    var t1 := Push(c.times1m, now, Max1m);
    var v1 := Push(c.volumes1m, volume, Max1m);
    var (p5, t5) := Resample(c.prices5m, c.times5m, price, now, Max5m, Due5m(c, |p1|, now));
    var (p15, t15) := Resample(c.prices15m, c.times15m, price, now, Max15m, Due15m(c, now));
    var (p1h, t1h) := Resample(c.prices1h, c.times1h, price, now, Max1h, Due1h(c, now));
    CoinData(c.symbol, p1, t1, v1, p5, t5, p15, t15, p1h, t1h)
  }

  /** A minute condition that holds of every stamp in a window and of the
      appended stamp holds of every stamp in the new window. */
  lemma AppendedKeepsMinuteFacts(ts: seq<Stamp>, r: seq<Stamp>, now: Stamp, cap: nat)
    requires Appended(ts, r, now, cap)
    ensures MinutesDivisibleBy(ts, 5) && now.minute % 5 == 0 ==> MinutesDivisibleBy(r, 5)
    ensures MinutesDivisibleBy(ts, 15) && now.minute % 15 == 0 ==> MinutesDivisibleBy(r, 15)
    ensures MinutesBelow(ts, 5) && now.minute < 5 ==> MinutesBelow(r, 5)
  {
    AppendedElements(ts, r, now, cap);
  }

  /** Neighbours in the new window are neighbours in the old one, except the
      last pair, which is the old newest stamp and `now`. */
  lemma AppendedKeepsNoRepeats(ts: seq<Stamp>, r: seq<Stamp>, now: Stamp, cap: nat)
    requires Appended(ts, r, now, cap)
    ensures NoRepeatedMinute(ts) && (|ts| == 0 || Last(ts).minute != now.minute) ==> NoRepeatedMinute(r)
    ensures NoRepeatedHour(ts) && (|ts| == 0 || Last(ts).hour != now.hour) ==> NoRepeatedHour(r)
  {
    AppendedElements(ts, r, now, cap);
    if 1 < |r| {
      assert r[|r| - 2] == Last(ts);
    }
  }

  /** Every poll keeps the invariant. */
  lemma AppendKeepsInvariant(c: CoinData, price: real, volume: real, now: Stamp)
    requires Invariant(c)
    ensures Invariant(Append1m(c, price, volume, now))
  {
    AppendKeeps5m(c, price, volume, now);
    AppendKeeps15m(c, price, volume, now);
    AppendKeeps1h(c, price, volume, now);
  }

  lemma AppendKeeps5m(c: CoinData, price: real, volume: real, now: Stamp)
    requires Invariant(c)
    ensures var r := Append1m(c, price, volume, now);
            MinutesDivisibleBy(r.times5m, 5) && NoRepeatedMinute(r.times5m)
  {
    var r := Append1m(c, price, volume, now);
    if Due5m(c, |r.prices1m|, now) {
      AppendedKeepsMinuteFacts(c.times5m, r.times5m, now, Max5m);
      AppendedKeepsNoRepeats(c.times5m, r.times5m, now, Max5m);
    }
  }

  lemma AppendKeeps15m(c: CoinData, price: real, volume: real, now: Stamp)
    requires Invariant(c)
    ensures var r := Append1m(c, price, volume, now);
            MinutesDivisibleBy(r.times15m, 15) && NoRepeatedMinute(r.times15m)
  {
    var r := Append1m(c, price, volume, now);
    if Due15m(c, now) {
      AppendedKeepsMinuteFacts(c.times15m, r.times15m, now, Max15m);
      AppendedKeepsNoRepeats(c.times15m, r.times15m, now, Max15m);
    }
  }

  lemma AppendKeeps1h(c: CoinData, price: real, volume: real, now: Stamp)
    requires Invariant(c)
    ensures var r := Append1m(c, price, volume, now);
            MinutesBelow(r.times1h, 5) && NoRepeatedHour(r.times1h)
  {
    var r := Append1m(c, price, volume, now);
    if Due1h(c, now) {
      AppendedKeepsMinuteFacts(c.times1h, r.times1h, now, Max1h);
      AppendedKeepsNoRepeats(c.times1h, r.times1h, now, Max1h);
    }
  }

  /** Polls come every few seconds, so several polls share a clock minute.
      A second poll with the same stamp never adds a 15-minute sample. */
  lemma RepeatedStampAdds15mNothing(c: CoinData, p: real, v: real, p': real, v': real, now: Stamp)
    requires Shaped(c)
    ensures var r1 := Append1m(c, p, v, now);
            var r2 := Append1m(r1, p', v', now);
            r2.prices15m == r1.prices15m && r2.times15m == r1.times15m
  {
    var r1 := Append1m(c, p, v, now);
    if Due15m(c, now) {
      assert Last(r1.times15m) == now;
    }
    assert !Due15m(r1, now);
  }

  /** A second poll with the same stamp never adds an hourly sample. */
  lemma RepeatedStampAdds1hNothing(c: CoinData, p: real, v: real, p': real, v': real, now: Stamp)
    requires Shaped(c)
    ensures var r1 := Append1m(c, p, v, now);
            var r2 := Append1m(r1, p', v', now);
            r2.prices1h == r1.prices1h && r2.times1h == r1.times1h
  {
    var r1 := Append1m(c, p, v, now);
    if Due1h(c, now) {
      assert Last(r1.times1h) == now;
    }
    assert !Due1h(r1, now);
  }

  /** Once the 1-minute window was past its warm-up before the first of two
      polls with the same stamp, the second adds no 5-minute sample. */
  lemma RepeatedStampAdds5mNothing(c: CoinData, p: real, v: real, p': real, v': real, now: Stamp)
    requires Shaped(c) && |c.prices1m| >= 4
    ensures var r1 := Append1m(c, p, v, now);
            var r2 := Append1m(r1, p', v', now);
            r2.prices5m == r1.prices5m && r2.times5m == r1.times5m
  {
    var r1 := Append1m(c, p, v, now);
    var n2 := |Append1m(r1, p', v', now).prices1m|;
    if Due5m(c, |r1.prices1m|, now) {
      assert Last(r1.times5m) == now;
    } else {
      assert |r1.prices1m| >= 5;
    }
    assert !Due5m(r1, n2, now);
  }

  /** The 5-minute warm-up counts entries of the 1-minute window, so the
      first 5-minute sample can come from a poll that shares its stamp with
      the previous poll: the one that brings the window to five entries. */
  lemma WarmUpCanCompleteWithinAMinute(c: CoinData, p: real, v: real, p': real, v': real, now: Stamp)
    requires Shaped(c) && |c.prices1m| == 3 && |c.prices5m| == 0 && now.minute % 5 == 0
    ensures var r1 := Append1m(c, p, v, now);
            |r1.prices5m| == 0 && Append1m(r1, p', v', now).prices5m == [p']
  {
    var r1 := Append1m(c, p, v, now);
    assert |r1.prices1m| == 4;
    var r2 := Append1m(r1, p', v', now);
    assert |r2.prices1m| == 5;
    assert Due5m(r1, |r2.prices1m|, now);
  }

  /** The 5-minute deduplication compares only the minute: a poll at the
      minute of the last 5-minute sample adds none, whatever the two hours
      are, so a poll exactly an hour later is skipped. */
  lemma FiveMinuteDedupeIgnoresHour(c: CoinData, p: real, v: real, h: Hour, h': Hour, m: Minute)
    requires Shaped(c)
    requires |c.times5m| > 0 && Last(c.times5m) == Stamp(h, m)
    ensures Append1m(c, p, v, Stamp(h', m)).prices5m == c.prices5m
    ensures Append1m(c, p, v, Stamp(h', m)).times5m == c.times5m
  {
  }

  /** The 15-minute deduplication likewise compares only the minute. */
  lemma FifteenMinuteDedupeIgnoresHour(c: CoinData, p: real, v: real, h: Hour, h': Hour, m: Minute)
    requires Shaped(c)
    requires |c.times15m| > 0 && Last(c.times15m) == Stamp(h, m)
    ensures Append1m(c, p, v, Stamp(h', m)).prices15m == c.prices15m
    ensures Append1m(c, p, v, Stamp(h', m)).times15m == c.times15m
  {
  }

  /** The hourly deduplication compares only the hour: no poll in the hour
      of the last hourly sample adds another, whatever the minutes are. */
  lemma HourlyDedupeIgnoresMinute(c: CoinData, p: real, v: real, h: Hour, m: Minute, m': Minute)
    requires Shaped(c)
    requires |c.times1h| > 0 && Last(c.times1h) == Stamp(h, m)
    ensures Append1m(c, p, v, Stamp(h, m')).prices1h == c.prices1h
    ensures Append1m(c, p, v, Stamp(h, m')).times1h == c.times1h
  {
  }
}
