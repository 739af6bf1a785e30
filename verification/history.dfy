/**
 A coin's windows after a run of polls, starting from the freshly created
 coin: what the windows hold is determined by the run alone.
 */
module CoinHistory {
  import opened BoundedDeque
  import opened CoinBuffers

  /** One poll's observation of a coin. */
  datatype Tick = Tick(price: real, volume: real, now: Stamp)

  /** The column of prices, volumes or times of a run of polls. */
  function Prices(ticks: seq<Tick>): seq<real> {
    seq(|ticks|, i requires 0 <= i < |ticks| => ticks[i].price)
  }

  function Volumes(ticks: seq<Tick>): seq<real> {
    seq(|ticks|, i requires 0 <= i < |ticks| => ticks[i].volume)
  }

  function Times(ticks: seq<Tick>): seq<Stamp> {
    seq(|ticks|, i requires 0 <= i < |ticks| => ticks[i].now)
  }

  /** Dropping the first poll drops the first entry of each column. */
  lemma ColumnsOfTail(ticks: seq<Tick>)
    requires |ticks| > 0
    ensures Prices(ticks) == [ticks[0].price] + Prices(ticks[1..])
    ensures Times(ticks) == [ticks[0].now] + Times(ticks[1..])
    ensures Volumes(ticks) == [ticks[0].volume] + Volumes(ticks[1..])
  {
    assert Prices(ticks) == [ticks[0].price] + Prices(ticks[1..]);
    assert Times(ticks) == [ticks[0].now] + Times(ticks[1..]);
    assert Volumes(ticks) == [ticks[0].volume] + Volumes(ticks[1..]);
  }

  /** The windows after the polls `ticks`, oldest first, are applied to `c`. */
  function Replay(c: CoinData, ticks: seq<Tick>): (r: CoinData)
    requires Shaped(c)
    ensures Shaped(r)
    ensures r.symbol == c.symbol
    decreases |ticks|
  {
    if |ticks| == 0 then c
    else Replay(Append1m(c, ticks[0].price, ticks[0].volume, ticks[0].now), ticks[1..])
  }

  /** Every state a run of polls reaches satisfies the invariant. */
  lemma {:induction false} ReplayKeepsInvariant(c: CoinData, ticks: seq<Tick>)
    requires Invariant(c)
    ensures Invariant(Replay(c, ticks))
    decreases |ticks|
  {
    if |ticks| > 0 {
      AppendKeepsInvariant(c, ticks[0].price, ticks[0].volume, ticks[0].now);
      ReplayKeepsInvariant(Append1m(c, ticks[0].price, ticks[0].volume, ticks[0].now), ticks[1..]);
    }
  }

  /** One poll pushes its price, time and volume onto the 1-minute windows. */
  lemma PollPushes1m(c: CoinData, t: Tick)
    requires Shaped(c)
    ensures Append1m(c, t.price, t.volume, t.now).prices1m == Push(c.prices1m, t.price, Max1m)
    ensures Append1m(c, t.price, t.volume, t.now).times1m == Push(c.times1m, t.now, Max1m)
    ensures Append1m(c, t.price, t.volume, t.now).volumes1m == Push(c.volumes1m, t.volume, Max1m)
  {
    var c' := Append1m(c, t.price, t.volume, t.now);
    AppendedIsUnique(c.prices1m, c'.prices1m, Push(c.prices1m, t.price, Max1m), t.price, Max1m);
    AppendedIsUnique(c.times1m, c'.times1m, Push(c.times1m, t.now, Max1m), t.now, Max1m);
    AppendedIsUnique(c.volumes1m, c'.volumes1m, Push(c.volumes1m, t.volume, Max1m), t.volume, Max1m);
  }

  /** A run of polls feeds the 1-minute price window its prices, one bounded
      append at a time. */
  lemma {:induction false} ReplayFeedsPrices(c: CoinData, ticks: seq<Tick>)
    requires Shaped(c)
    ensures Replay(c, ticks).prices1m == PushAll(c.prices1m, Prices(ticks), Max1m)
    decreases |ticks|
  {
    if |ticks| > 0 {
      var t, rest := ticks[0], ticks[1..];
      var c' := Append1m(c, t.price, t.volume, t.now);
      var xs := Prices(ticks);
      ColumnsOfTail(ticks);
      assert xs[1..] == Prices(rest);
      calc {
        Replay(c, ticks).prices1m;
        Replay(c', rest).prices1m;
        { ReplayFeedsPrices(c', rest); }
        PushAll(c'.prices1m, Prices(rest), Max1m);
        { PollPushes1m(c, t); }
        PushAll(Push(c.prices1m, xs[0], Max1m), xs[1..], Max1m);
        PushAll(c.prices1m, xs, Max1m);
      }
    }
  }

  /** Likewise for the 1-minute time window. */
  lemma {:induction false} ReplayFeedsTimes(c: CoinData, ticks: seq<Tick>)
    requires Shaped(c)
    ensures Replay(c, ticks).times1m == PushAll(c.times1m, Times(ticks), Max1m)
    decreases |ticks|
  {
    if |ticks| > 0 {
      var t, rest := ticks[0], ticks[1..];
      var c' := Append1m(c, t.price, t.volume, t.now);
      var xs := Times(ticks);
      ColumnsOfTail(ticks);
      assert xs[1..] == Times(rest);
      calc {
        Replay(c, ticks).times1m;
        Replay(c', rest).times1m;
        { ReplayFeedsTimes(c', rest); }
        PushAll(c'.times1m, Times(rest), Max1m);
        { PollPushes1m(c, t); }
        PushAll(Push(c.times1m, xs[0], Max1m), xs[1..], Max1m);
        PushAll(c.times1m, xs, Max1m);
      }
    }
  }

  /** Likewise for the 1-minute volume window. */
  lemma {:induction false} ReplayFeedsVolumes(c: CoinData, ticks: seq<Tick>)
    requires Shaped(c)
    ensures Replay(c, ticks).volumes1m == PushAll(c.volumes1m, Volumes(ticks), Max1m)
    decreases |ticks|
  {
    if |ticks| > 0 {
      var t, rest := ticks[0], ticks[1..];
      var c' := Append1m(c, t.price, t.volume, t.now);
      var xs := Volumes(ticks);
      ColumnsOfTail(ticks);
      assert xs[1..] == Volumes(rest);
      calc {
        Replay(c, ticks).volumes1m;
        Replay(c', rest).volumes1m;
        { ReplayFeedsVolumes(c', rest); }
        PushAll(c'.volumes1m, Volumes(rest), Max1m);
        { PollPushes1m(c, t); }
        PushAll(Push(c.volumes1m, xs[0], Max1m), xs[1..], Max1m);
        PushAll(c.volumes1m, xs, Max1m);
      }
    }
  }

  /** The 1-minute windows hold exactly the newest 600 polls of the whole
      history (what they held before plus the run), in order. */
  lemma ReplayKeepsNewest1m(c: CoinData, ticks: seq<Tick>)
    requires Shaped(c)
    ensures Replay(c, ticks).prices1m == Newest(c.prices1m + Prices(ticks), Max1m)
    ensures Replay(c, ticks).times1m == Newest(c.times1m + Times(ticks), Max1m)
    ensures Replay(c, ticks).volumes1m == Newest(c.volumes1m + Volumes(ticks), Max1m)
  {
    ReplayFeedsPrices(c, ticks);
    ReplayFeedsTimes(c, ticks);
    ReplayFeedsVolumes(c, ticks);
    PushAllIsNewest(c.prices1m, Prices(ticks), Max1m);
    PushAllIsNewest(c.times1m, Times(ticks), Max1m);
    PushAllIsNewest(c.volumes1m, Volumes(ticks), Max1m);
  }

  /** From a fresh coin, the 1-minute window holds the newest 600 prices of
      the run, so its length is the number of polls, capped at 600. */
  lemma FreshCoinHoldsNewestPrices(symbol: string, ticks: seq<Tick>)
    ensures Replay(NewCoin(symbol), ticks).prices1m == Newest(Prices(ticks), Max1m)
    ensures |Replay(NewCoin(symbol), ticks).prices1m| == Min(|ticks|, Max1m)
  {
    ReplayKeepsNewest1m(NewCoin(symbol), ticks);
    assert NewCoin(symbol).prices1m + Prices(ticks) == Prices(ticks);
  }
}
