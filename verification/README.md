# CryptoBit live tracker: rolling windows and signal scoring

This project models two pieces of the CryptoBit tracker's `app.py` in Dafny.

1. **The per-coin rolling windows (`CoinData`).** Every poll appends a price, its time and a volume to three 1-minute windows. Each window is a `deque` with a maximum length of 600, so appending to a full window drops its oldest entry. The same price, with its time, also goes into 5-minute, 15-minute and hourly windows (caps 288, 200 and 168) when a guard on the wall-clock minute and hour says a new bucket has begun:
   - 5m: the 1-minute window has at least 5 entries after the append, the minute is a multiple of 5, and the last 5m sample has a different minute.
   - 15m: the minute is a multiple of 15 and the last 15m sample has a different minute. There is no warm-up.
   - 1h: the minute is below 5 and the last hourly sample has a different hour.
2. **The buy/sell heuristic (`generate_signal`).** Each rule that fires adds or takes away a fixed number of points and gives one reason. The rules look at the 1-minute RSI, the hourly RSI, the EMA(12)/EMA(26) crossover, a volume surge with the recent price direction, and the fear & greed index. The total score is then partitioned into STRONG BUY, BUY, NEUTRAL, SELL and STRONG SELL. A probability (the score's magnitude clamped to [10, 98], or 30 for NEUTRAL) and the first three reasons (two for NEUTRAL) come with the label. A coin with fewer than 100 1-minute prices is "Warming Up".

The windows are immutable sequences, oldest first. `BoundedDeque.Push` is the bounded append, and `Newest` (the last `n` elements of a history) is its reference definition. The wall-clock reading is an explicit `Stamp(hour, minute)` argument. The indicator values are an abstract `Readings` record, and the fear & greed index is an integer argument.

Modules:
- `BoundedDeque` (`deque.dfy`): the bounded append and its reference definition.
- `CoinBuffers` (`coin_data.dfy`): `CoinData`, the three guards, `Append1m` and the invariant it keeps.
- `CoinHistory` (`history.dfy`): a run of polls applied to one coin.
- `Signals` (`signals.dfy`): rules, score, classification and `GenerateSignal`.

Every 1-minute window holds one entry per poll; the 5-minute, 15-minute and hourly windows take one only when their guard holds. The polling interval is 15 seconds (`app.py:21`), so the "1-minute" windows hold 600 polls, not 600 minutes. Several polls share one clock minute, and that is why the minute and hour guards matter.

## Model

| member | source | states |
|---|---|---|
| BoundedDeque.Push | app.py:43-45 | appending to a window of capacity `cap` grows it by one unless full, puts the new element last, and keeps the newest older elements in order; when full exactly the oldest is dropped |
| BoundedDeque.AppendedIsUnique | app.py:57-59 | the description of an append used in every contract determines the resulting window completely |
| BoundedDeque.PushIsNewest | app.py:43-45 | one append leaves the newest `cap` elements of the history with the new element at its end |
| BoundedDeque.PushAll | app.py:57-59 | feeding a window any number of elements never takes it past its capacity |
| BoundedDeque.PushAllIsNewest | app.py:57-59 | a window fed a sequence of elements holds exactly the newest `cap` elements of everything it was ever given, in order |
| CoinBuffers.NewCoin | app.py:42-53 | a new coin has every window empty and already satisfies the window invariant |
| CoinBuffers.Due5m | app.py:63-64 | the 5m guard as written: at least five 1-minute entries after the append, a minute divisible by 5, and an empty 5m window or a last 5m sample at another minute; its consequences are stated by `Append1m`, `AppendKeeps5m`, `RepeatedStampAdds5mNothing`, `WarmUpCanCompleteWithinAMinute` and `FiveMinuteDedupeIgnoresHour` |
| CoinBuffers.Due15m | app.py:67 | the 15m guard as written: a minute divisible by 15 and an empty 15m window or a last 15m sample at another minute; its consequences are stated by `Append1m`, `AppendKeeps15m`, `RepeatedStampAdds15mNothing` and `FifteenMinuteDedupeIgnoresHour` |
| CoinBuffers.Due1h | app.py:70 | the hourly guard as written, including the always-true `hour % 1 == 0`: a minute below 5 and an empty hourly window or a last hourly sample in another hour; its consequences are stated by `Append1m`, `AppendKeeps1h`, `RepeatedStampAdds1hNothing` and `HourlyDedupeIgnoresMinute` |
| CoinBuffers.Resample | app.py:63-72 | a coarser window takes the price and its time together when its sample is due, and is untouched otherwise |
| CoinBuffers.Append1m | app.py:55-72 | a poll appends price, time and volume to the 1-minute windows; each coarser window receives this same price and time exactly when its guard holds, and is unchanged otherwise; paired windows keep equal lengths within their caps |
| CoinBuffers.AppendKeepsInvariant | app.py:55-72 | every poll preserves the whole invariant: paired lengths and caps, 5m stamps on multiples of 5, 15m stamps on multiples of 15, hourly stamps in minutes 0-4, no two neighbouring 5m/15m samples sharing a minute, no two neighbouring hourly samples sharing an hour |
| CoinBuffers.AppendKeeps5m | app.py:63-66 | after a poll every 5m stamp has a minute divisible by 5 and neighbouring 5m stamps never share a minute |
| CoinBuffers.AppendKeeps15m | app.py:67-69 | after a poll every 15m stamp has a minute divisible by 15 and neighbouring 15m stamps never share a minute |
| CoinBuffers.AppendKeeps1h | app.py:70-72 | after a poll every hourly stamp lies in the first five minutes of its hour and neighbouring hourly stamps never share an hour |
| CoinBuffers.RepeatedStampAdds15mNothing | app.py:67-69 | a second poll at the same clock minute never adds a second 15m sample |
| CoinBuffers.RepeatedStampAdds1hNothing | app.py:70-72 | a second poll at the same stamp never adds a second hourly sample |
| CoinBuffers.RepeatedStampAdds5mNothing | app.py:62-66 | once the 1-minute window had four entries before the first of two same-stamp polls, the second adds no 5m sample |
| CoinBuffers.WarmUpCanCompleteWithinAMinute | app.py:63-64 | the 5m warm-up counts 1-minute entries rather than minutes: the poll that brings the window to five entries takes the first 5m sample even when it shares its stamp with the previous poll |
| CoinBuffers.FiveMinuteDedupeIgnoresHour | app.py:63-64 | the 5m guard compares minutes only: for any hours h and h', a poll at h':m after a last 5m sample at h:m adds no 5m sample, so a poll exactly one hour later is skipped |
| CoinBuffers.FifteenMinuteDedupeIgnoresHour | app.py:67 | the 15m guard compares minutes only: for any hours h and h', a poll at h':m after a last 15m sample at h:m adds no 15m sample |
| CoinBuffers.HourlyDedupeIgnoresMinute | app.py:70 | the hourly guard compares hours only: for any minutes m and m', a poll at h:m' after a last hourly sample at h:m adds no hourly sample |
| CoinHistory.Replay | app.py:211-223 | applying any run of polls to a well-shaped coin yields a well-shaped coin with the same symbol |
| CoinHistory.ReplayKeepsInvariant | app.py:211-223 | every state reached by a run of polls satisfies the window invariant |
| CoinHistory.PollPushes1m | app.py:57-59 | a poll's 1-minute windows are exactly the bounded appends of its price, time and volume |
| CoinHistory.ReplayFeedsPrices | app.py:211-223 | over a run of polls the 1-minute price window is fed the run's prices one bounded append at a time |
| CoinHistory.ReplayFeedsTimes | app.py:211-223 | over a run of polls the 1-minute time window is fed the run's stamps one bounded append at a time |
| CoinHistory.ReplayFeedsVolumes | app.py:211-223 | over a run of polls the 1-minute volume window is fed the run's volumes one bounded append at a time |
| CoinHistory.ReplayKeepsNewest1m | app.py:55-59 | after a run of polls the 1-minute price, time and volume windows hold exactly the newest 600 entries of their whole history, in order |
| CoinHistory.FreshCoinHoldsNewestPrices | app.py:42-59 | from a new coin the 1-minute price window holds the newest 600 polled prices, so its length is the number of polls capped at 600 |
| Signals.Points | app.py:158-194 | the points of each reason as written: +25, +18, -22, +15, +20, -20, +18, -20, +30, -20; `ScoreIsRunningTotal` states what they add up to |
| Signals.OversoldRule | app.py:158-161 | the 1-minute oversold rule as written; its meaning is `OversoldReasonsExplained` |
| Signals.OverboughtRule | app.py:162 | the 1-minute overbought rule as written; its meaning is `OverboughtReasonExplained` |
| Signals.StructureRule | app.py:156-163 | the hourly structure rule as written, read on `SlowRsi` (the hourly RSI from 20 hourly samples, else the 1-minute one); its meaning is `StructureReasonExplained` |
| Signals.TrendRule | app.py:166-174 | the EMA rule as written; its meaning is `TrendReasonsExplained` |
| Signals.VolumeRule | app.py:177-187 | the volume-surge rule as written; its meaning is `VolumeReasonsExplained` |
| Signals.SentimentRule | app.py:190-194 | the fear & greed rule as written; its meaning is `SentimentReasonsExplained` |
| Signals.Reasons | app.py:149-194 | the reasons in the order the source appends them (oversold, overbought, structure, EMA, volume, sentiment), the order the `[:3]` and `[:2]` cuts depend on; `InReasons` states that a reason appears exactly when its rule gives it |
| Signals.Score | app.py:149-194 | the score as the points of the reasons given; `ScoreIsRunningTotal` equates it with the source's increments |
| Signals.TotalOfConcat | app.py:149-194 | the score of reasons given group after group is the sum of the groups' scores |
| Signals.ScoreByRule | app.py:149-194 | the score is the sum of the six rules' contributions |
| Signals.ScoreIsRunningTotal | app.py:149-194 | the score equals the source's running total written directly over the readings: +25 below RSI 25 else +18 below 30, -22 above 75, +15 when the slow RSI is below 40, ±20 by the EMA crossover from 50 prices, +18 or -20 on a surge with a price move beyond ±1%, +30 below index 20 or -20 above 80 |
| Signals.OversoldReasonsExplained | app.py:158-161 | "1m Extreme Oversold" is given exactly when RSI(1m) < 25, "1m Oversold" exactly when 25 <= RSI(1m) < 30 |
| Signals.OverboughtReasonExplained | app.py:162 | "1m Overbought" is given exactly when RSI(1m) > 75 |
| Signals.StructureReasonExplained | app.py:156-163 | "1h Bullish Structure" is given exactly when the hourly RSI is below 40 once 20 hourly samples exist, and exactly when the 1-minute RSI is below 40 before that |
| Signals.TrendReasonsExplained | app.py:166-174 | "EMA Bullish" is given exactly when at least 50 prices exist and EMA12 is above EMA26; "EMA Bearish" exactly when 50 exist and it is not |
| Signals.VolumeReasonsExplained | app.py:177-187 | "Volume Surge Up" is given exactly when 20 volumes exist, the recent mean is over 1.8 times the previous one, and the price rose over 1%; "Distribution Risk" the same with the price falling over 1% |
| Signals.SentimentReasonsExplained | app.py:190-194 | "Extreme Fear" is given exactly when the index is below 20, "Extreme Greed" exactly when it is above 80 |
| Signals.ScoreRange | app.py:149-194 | the score lies in [-82, 108] and at most five reasons are given |
| Signals.OneMinuteRsiRange | app.py:158-162 | the oversold and overbought rules never both fire, so together they contribute between -22 and 25 |
| Signals.Classify | app.py:196-207 | the five labels partition the score at 60, 30, -30 and -60 (each label if and only if its range); a non-neutral label carries min(98, max(10, abs(score))), which lies in [30, 98], and the first three reasons; NEUTRAL carries 30 and the first two |
| Signals.ShowsIsUnique | app.py:198-207 | the classification contract leaves exactly one possible signal for a score and its reasons |
| Signals.ClassifyIsMonotone | app.py:198-207 | a higher score never yields a more bearish label |
| Signals.ClassifyIsSymmetric | app.py:196-207 | negating the score mirrors the label (buy and sell swap) and keeps the probability |
| Signals.GenerateSignal | app.py:139-207 | fewer than 100 1-minute prices give ("Warming Up", 0, "text-secondary", []) whatever the other inputs; otherwise the signal is the classification of the rules' score with their reasons |
| Signals.MidrangeSentimentIsIgnored | app.py:189-194 | an index from 20 to 80 gives the same reasons and signal as 50, the value used when fetching the index fails, and no sentiment reason |
| Signals.ScoreFallsAsGreedRises | app.py:190-194 | a higher fear & greed index never raises the score |
| Signals.TrendAlwaysVotesAfterWarmUp | app.py:146-181 | once warmed up, exactly one EMA reason is given, matching the crossover, and the volume rule is armed for any well-shaped coin |
| Signals.FallbackRsiIsConsistent | app.py:156-163 | while fewer than 20 hourly samples exist, "1m Overbought" and "1h Bullish Structure" never appear together |
| Signals.WarmUpLastsNinetyNinePolls | app.py:146-147 | a new coin shows "Warming Up" for exactly its first 99 polls, whatever the readings and the index |

## Left out

- `get_prices_safe` and `get_fear_greed_safe` (app.py:81-108) are left out. Their HTTP calls, the rate-limit sleep and the swallowed exceptions are I/O. The fear & greed index is a parameter of `GenerateSignal`, and its failure default of 50 is covered by `Signals.MidrangeSentimentIsIgnored`.
- `calculate_rsi`, `ema_series` and the volume means (app.py:112-136, 178-181) are floating-point numerics done by numpy and pandas. Their results are the abstract `Readings` fields.
- The 1.8 and 0.01 thresholds are compared in exact real arithmetic. Float rounding is not modelled.
- `rsi5` and `rsi15` (app.py:154-155) are computed but never read, so they are left out.
- `background_updater`, the daemon thread, `data_lock`, the chart data, the dashboard's reason joining and the Flask routes (app.py:210-284) are left out. They are concurrency, timing, JSON rendering and web serving. `CoinHistory.Replay` models only the loop's per-coin `append_1m` calls.
- Signals.GenerateSignal: the relative price change (app.py:181) divides by the price ten polls back. A price of 0 there raises `ZeroDivisionError` when the volume surge holds, and `background_updater` (app.py:210-225) has no handler, so the updater thread stops. The model takes the price change as an abstract `Readings` field and always returns a signal; this error path is not modelled.
- `datetime.now()` becomes the `Stamp(hour, minute)` argument. The date and the seconds are dropped because the code reads only `.hour` and `.minute`.
- Signals.GenerateSignal: reasons are the `Reason` datatype, not the display strings. The index is carried in `ExtremeFear`/`ExtremeGreed` but not formatted into text. Labels and colour classes are the source's strings (`Label.Text`, `Label.Color`).
- CoinBuffers.Append1m requires equal lengths for paired windows (`Shaped`). With unequal lengths, the source's `times_5m[-1]` could fail while `prices_5m` is non-empty. The constructor establishes `Shaped` and every poll preserves it.
