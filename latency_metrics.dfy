/**
 * The integer part of the order-book tracker's instrumentation
 * (hummingbot/core/data_type/order_book_tracker.py): latency statistics with
 * sampling and a bounded window of recent samples, per-pair counters, and the
 * tracker-wide aggregate that owns the per-pair registry.
 *
 * Latencies are whole milliseconds and timestamps are reals handed in by the
 * caller; the floating-point running total and the averages are not modelled.
 */
module LatencyMetrics {
  import opened Wrappers
  import BoundedDeque
  import R = OrderBookRegistry

  /** `SAMPLE_RATE` default. */
  const DefaultSampleRate: nat := 10
  /** `maxlen` of the recent-samples deque. */
  const DefaultRecentCapacity: nat := 100

  /** Rates 0 and 1 both sample every message (`counter >= rate` holds after each increment). */
  function EffectiveRate(rate: nat): (r: nat)
    ensures r >= 1
    ensures rate >= 1 ==> r == rate
  {
    if rate <= 1 then 1 else rate
  }

  /** The sampling counter after `n` calls to `record`, starting from 0. */
  function Phase(n: nat, rate: nat): nat
    decreases n
  {
    if n == 0 then 0
    else if Phase(n - 1, rate) + 1 >= rate then 0
    else Phase(n - 1, rate) + 1
  }

  /** Whether the `n`-th call (counting from 1) lands in the recent window. */
  predicate IsSampledCall(n: nat, rate: nat)
    requires n >= 1
  {
    Phase(n - 1, rate) + 1 >= rate
  }

  /** The samples that reach the recent window, oldest first. */
  function Sampled(samples: seq<int>, rate: nat): seq<int>
    decreases |samples|
  {
    if samples == [] then []
    else
      var n := |samples|;
      Sampled(samples[..n - 1], rate) + (if IsSampledCall(n, rate) then [samples[n - 1]] else [])
  }

  lemma MulAtLeast(a: int, r: int)
    requires a >= 1 && r >= 1
    ensures a * r >= r
  {
  }

  lemma MulSub(a: int, b: int, r: int)
    ensures (a - b) * r == a * r - b * r
  {
  }

  lemma MulSucc(a: int, r: int)
    ensures (a + 1) * r == a * r + r
  {
  }

  /** Euclidean division is determined by `n == q * r + m` with `0 <= m < r`. */
  lemma DivModUnique(n: int, r: int, q: int, m: int)
    requires r >= 1 && 0 <= m < r && n == q * r + m
    ensures n / r == q && n % r == m
  {
    var q', m' := n / r, n % r;
    assert n == q' * r + m' && 0 <= m' < r;
    MulSub(q, q', r);
    MulSub(q', q, r);
    if q > q' {
      MulAtLeast(q - q', r);
    } else if q < q' {
      MulAtLeast(q' - q, r);
    }
  }

  /** Every call either is sampled or advances the counter: `|Sampled| * rate + counter == N`. */
  lemma {:induction false} SampledCount(samples: seq<int>, rate: nat)
    ensures Phase(|samples|, rate) < EffectiveRate(rate)
    ensures |Sampled(samples, rate)| * EffectiveRate(rate) + Phase(|samples|, rate) == |samples|
    decreases |samples|
  {
    if samples != [] {
      var n := |samples|;
      var before := samples[..n - 1];
      assert |before| == n - 1;
      SampledCount(before, rate);
      MulSucc(|Sampled(before, rate)|, EffectiveRate(rate));
    }
  }

  /** One sample in every `rate` is kept (`N div rate`), and the counter is `N mod rate`. */
  lemma SampledLength(samples: seq<int>, rate: nat)
    ensures |Sampled(samples, rate)| == |samples| / EffectiveRate(rate)
    ensures Phase(|samples|, rate) == |samples| % EffectiveRate(rate)
  {
    SampledCount(samples, rate);
    DivModUnique(|samples|, EffectiveRate(rate), |Sampled(samples, rate)|, Phase(|samples|, rate));
  }

  /** After N samples the window holds `min(N div rate, capacity)` of them. */
  lemma RecentWindowSize(samples: seq<int>, rate: nat, capacity: nat)
    ensures var n := |samples| / EffectiveRate(rate);
            |BoundedDeque.LastN(Sampled(samples, rate), capacity)| == if n <= capacity then n else capacity
  {
    SampledLength(samples, rate);
  }

  /** `min_ms` after recording `samples`: None stands for the initial infinity. */
  function MinOf(samples: seq<int>): Option<int>
    decreases |samples|
  {
    if samples == [] then None
    else
      var m := MinOf(samples[..|samples| - 1]);
      var x := samples[|samples| - 1];
      if m.None? || x < m.value then Some(x) else m
  }

  /** `max_ms` after recording `samples`: it starts at 0. */
  function MaxOrZero(samples: seq<int>): int
    decreases |samples|
  {
    if samples == [] then 0
    else
      var m := MaxOrZero(samples[..|samples| - 1]);
      var x := samples[|samples| - 1];
      if x > m then x else m
  }

  /** The running minimum is the least sample, and it is absent only before the first sample. */
  lemma {:induction false} MinOfIsLeast(samples: seq<int>)
    ensures MinOf(samples) == None <==> samples == []
    ensures MinOf(samples).Some? ==> MinOf(samples).value in samples
    ensures forall i | 0 <= i < |samples| :: MinOf(samples).Some? && MinOf(samples).value <= samples[i]
    decreases |samples|
  {
    if samples != [] {
      var before := samples[..|samples| - 1];
      MinOfIsLeast(before);
      assert forall i | 0 <= i < |before| :: samples[i] == before[i];
    }
  }

  /** The running maximum is the greatest of 0 and every sample. */
  lemma {:induction false} MaxOrZeroIsGreatest(samples: seq<int>)
    ensures MaxOrZero(samples) >= 0
    ensures MaxOrZero(samples) == 0 || MaxOrZero(samples) in samples
    ensures forall i | 0 <= i < |samples| :: samples[i] <= MaxOrZero(samples)
    decreases |samples|
  {
    if samples != [] {
      var before := samples[..|samples| - 1];
      MaxOrZeroIsGreatest(before);
      assert forall i | 0 <= i < |before| :: samples[i] == before[i];
    }
  }

  /** The values a `LatencyStats` keeps: count, sampling counter, recent window, min and max. */
  datatype StatsState = StatsState(count: nat, counter: nat, recent: seq<int>, minMs: Option<int>, maxMs: int)

  /** The state `__init__` leaves: `min_ms` is infinity (None) and `max_ms` is 0. */
  const InitialStats := StatsState(0, 0, [], None, 0)

  /** One call of `record` on the values. */
  function RecordStep(st: StatsState, x: int, rate: nat, capacity: nat): StatsState {
    var c := st.counter + 1;
    StatsState(st.count + 1,
               if c >= rate then 0 else c,
               if c >= rate then BoundedDeque.LastN(st.recent + [x], capacity) else st.recent,
               if st.minMs.None? || x < st.minMs.value then Some(x) else st.minMs,
               if x > st.maxMs then x else st.maxMs)
  }

  /** The values after recording `samples` in order, starting from the initial state. */
  function Replay(samples: seq<int>, rate: nat, capacity: nat): StatsState
    decreases |samples|, 1
  {
    if samples == [] then InitialStats else ReplayLast(samples, rate, capacity)
  }

  /** The last of `samples` recorded on the replay of the ones before it. */
  function ReplayLast(samples: seq<int>, rate: nat, capacity: nat): StatsState
    requires samples != []
    decreases |samples|, 0
  {
    RecordStep(Replay(samples[..|samples| - 1], rate, capacity), samples[|samples| - 1], rate, capacity)
  }

  /** Replaying one more latency is one more recording step. */
  lemma ReplayAppend(samples: seq<int>, x: int, rate: nat, capacity: nat)
    ensures Replay(samples + [x], rate, capacity) == RecordStep(Replay(samples, rate, capacity), x, rate, capacity)
  {
    var s' := samples + [x];
    assert s'[..|s'| - 1] == samples;
    assert Replay(s', rate, capacity) == ReplayLast(s', rate, capacity);
  }

  /**
   * Replaying a history gives its closed form: the count is its length, the
   * counter its phase, the window the last sampled latencies, and min and max
   * those of the history.
   */
  lemma {:induction false} ReplayClosedForm(samples: seq<int>, rate: nat, capacity: nat)
    ensures Replay(samples, rate, capacity)
            == StatsState(|samples|, Phase(|samples|, rate), BoundedDeque.LastN(Sampled(samples, rate), capacity),
                          MinOf(samples), MaxOrZero(samples))
    decreases |samples|
  {
    if samples != [] {
      var before := samples[..|samples| - 1];
      var x := samples[|samples| - 1];
      ReplayClosedForm(before, rate, capacity);
      assert before + [x] == samples;
      ReplayAppend(before, x, rate, capacity);
      WindowStep(before, x, rate, capacity);
    }
  }

  /** `LatencyStats`: a latency accumulator updated in place by `Record`. */
  class LatencyStats {
    const sampleRate: nat
    const recentCapacity: nat
    var count: nat
    var minMs: Option<int>
    var maxMs: int
    var recent: seq<int>
    var sampleCounter: nat
    /** Every latency recorded so far, oldest first. */
    ghost var samples: seq<int>

    /** The fields `record` reads and writes, as one value. */
    function State(): StatsState
      reads this
    {
      StatsState(count, sampleCounter, recent, minMs, maxMs)
    }

    /** The fields are what recording the history from the initial state gives. */
    ghost predicate Valid()
      reads this
    {
      State() == Replay(samples, sampleRate, recentCapacity)
    }

    /** Nothing recorded yet: the state `__init__` leaves. */
    ghost predicate IsEmpty()
      reads this
    {
      State() == InitialStats && samples == []
    }

    /** The empty statistics agree with the (empty) history. */
    lemma EmptyIsValid()
      requires IsEmpty()
      ensures Valid()
    {
    }

    constructor (sampleRate: nat, recentCapacity: nat)
      ensures Valid() && samples == []
      ensures this.sampleRate == sampleRate && this.recentCapacity == recentCapacity
      ensures count == 0 && minMs == None && maxMs == 0 && recent == [] && sampleCounter == 0
    {
      this.sampleRate := sampleRate;
      this.recentCapacity := recentCapacity;
      count := 0;
      minMs := None;
      maxMs := 0;
      recent := [];
      sampleCounter := 0;
      samples := [];
    }

    /**
     * What the statistics say about the latencies seen so far: how many, how
     * many were sampled into the window, and where the sampling counter is.
     */
    lemma Summary()
      requires Valid()
      ensures count == |samples|
      ensures sampleCounter == |samples| % EffectiveRate(sampleRate)
      ensures var n := |samples| / EffectiveRate(sampleRate);
              |recent| == if n <= recentCapacity then n else recentCapacity
      ensures forall i | 0 <= i < |samples| :: minMs.Some? && minMs.value <= samples[i] <= maxMs
    {
      ReplayClosedForm(samples, sampleRate, recentCapacity);
      SampledLength(samples, sampleRate);
      RecentWindowSize(samples, sampleRate, recentCapacity);
      MinOfIsLeast(samples);
      MaxOrZeroIsGreatest(samples);
    }

    /**
     * `record`: the count always grows by one and min/max always follow the
     * sample; only every `sampleRate`-th call resets the sampling counter and
     * pushes the sample into the bounded recent window.
     */
    method Record(latencyMs: int)
      modifies this
      ensures samples == old(samples) + [latencyMs]
      ensures count == old(count) + 1
      ensures minMs == if old(minMs).None? || latencyMs < old(minMs).value then Some(latencyMs) else old(minMs)
      ensures maxMs == if latencyMs > old(maxMs) then latencyMs else old(maxMs)
      ensures old(sampleCounter) + 1 >= sampleRate ==>
                sampleCounter == 0 && recent == BoundedDeque.LastN(old(recent) + [latencyMs], recentCapacity)
      ensures old(sampleCounter) + 1 < sampleRate ==>
                sampleCounter == old(sampleCounter) + 1 && recent == old(recent)
      ensures old(Valid()) ==> Valid()
    {
      ghost var before, prior := samples, State();
      var newMin := minMs;
      if minMs.None? || latencyMs < minMs.value {
        newMin := Some(latencyMs);
      }
      var newMax := maxMs;
      if latencyMs > maxMs {
        newMax := latencyMs;
      }
      var counter := sampleCounter + 1;
      var newRecent := recent;
      if counter >= sampleRate {
        counter := 0;
        newRecent := BoundedDeque.LastN(recent + [latencyMs], recentCapacity);
      }
      count, minMs, maxMs, sampleCounter, recent := count + 1, newMin, newMax, counter, newRecent;
      samples := before + [latencyMs];
      ghost var next := RecordStep(prior, latencyMs, sampleRate, recentCapacity);
      assert count == next.count && sampleCounter == next.counter && recent == next.recent;
      assert minMs == next.minMs && maxMs == next.maxMs;
      ReplayAppend(before, latencyMs, sampleRate, recentCapacity);
    }
  }

  /** One more call moves the counter and the window exactly as `record` does. */
  lemma WindowStep(samples: seq<int>, x: int, rate: nat, capacity: nat)
    ensures var c := Phase(|samples|, rate) + 1;
            var w := BoundedDeque.LastN(Sampled(samples, rate), capacity);
            && Phase(|samples + [x]|, rate) == (if c >= rate then 0 else c)
            && BoundedDeque.LastN(Sampled(samples + [x], rate), capacity)
               == (if c >= rate then BoundedDeque.LastN(w + [x], capacity) else w)
  {
    var s' := samples + [x];
    assert s'[..|s'| - 1] == samples;
    var sampled := Sampled(samples, rate);
    if Phase(|samples|, rate) + 1 >= rate {
      assert Sampled(s', rate) == sampled + [x];
      BoundedDeque.LastNOfLastN(sampled, [x], capacity);
    } else {
      assert Sampled(s', rate) == sampled + [];
      assert sampled + [] == sampled;
    }
  }

  /** Neither the entry nor any of its accumulators changed. */
  twostate predicate Unmoved(e: PairMetrics)
    reads e.Objects()
  {
    unchanged(e.Objects())
  }

  /** The three message streams the routers count. */
  datatype Stream = Diffs | Snapshots | Trades

  /** The tracker's global counters, as one value. */
  datatype Totals = Totals(diffsProcessed: nat, diffsRejected: nat, diffsQueued: nat,
                           snapshotsProcessed: nat, snapshotsRejected: nat,
                           tradesProcessed: nat, tradesRejected: nat)

  /** A pair entry's counters and last-message times, as one value. */
  datatype PairTallies = PairTallies(diffsProcessed: nat, diffsRejected: nat, snapshotsProcessed: nat,
                                     tradesProcessed: nat, tradesRejected: nat,
                                     lastDiff: real, lastSnapshot: real, lastTrade: real)

  /** What a new entry starts with. */
  const ZeroTallies := PairTallies(0, 0, 0, 0, 0, 0.0, 0.0, 0.0)

  /** An entry's tallies before a call; an entry created during the call had none. */
  twostate function TalliesBefore(new m: PairMetrics): PairTallies {
    if fresh(m) then ZeroTallies else old(m.Tallies())
  }

  /** `t` after one more message of `stream` processed at `now`: that stream's count and time. */
  function Processed(t: PairTallies, stream: Stream, now: real): PairTallies {
    match stream
    case Diffs => t.(diffsProcessed := t.diffsProcessed + 1, lastDiff := now)
    case Snapshots => t.(snapshotsProcessed := t.snapshotsProcessed + 1, lastSnapshot := now)
    case Trades => t.(tradesProcessed := t.tradesProcessed + 1, lastTrade := now)
  }

  /** An accumulator's history before a call; one created during the call had none. */
  twostate function SamplesBefore(new s: LatencyStats): seq<int> {
    if fresh(s) then [] else old(s.samples)
  }

  /** An accumulator a call did not record into: as it was, or empty if it is new. */
  twostate predicate Untouched(new s: LatencyStats)
    reads s
  {
    if fresh(s) then s.samples == [] else unchanged(s)
  }

  /**
   * An entry other than `m` (a registered one the cache shadows) is left as
   * it was, except for the accumulators in `written` it might share with `m`.
   */
  twostate predicate LeftAlone(other: PairMetrics, new m: PairMetrics, written: set<object>)
    reads other.Objects()
  {
    other != m ==> unchanged(other.Objects() - written)
  }

  /**
   * The entry `m` after a message of `stream` was processed at `now` taking
   * `latencyMs`: that stream's count +1, its time `now` and its latency
   * recorded; every other tally and accumulator as it was (a new entry's zero
   * and empty).
   */
  twostate predicate CountedProcessed(new m: PairMetrics, stream: Stream, now: real, latencyMs: int)
    reads m, m.Objects()
  {
    && m.Tallies() == Processed(TalliesBefore(m), stream, now)
    && m.Latency(stream).samples == SamplesBefore(m.Latency(stream)) + [latencyMs]
    && (stream != Diffs ==> Untouched(m.diffLatency))
    && (stream != Snapshots ==> Untouched(m.snapshotLatency))
    && (stream != Trades ==> Untouched(m.tradeLatency))
  }

  /** The entry `m` after a stale diff: its rejected-diff count +1, nothing else changed. */
  twostate predicate CountedRejectedDiff(new m: PairMetrics)
    reads m, m.Objects()
  {
    && m.Tallies() == TalliesBefore(m).(diffsRejected := TalliesBefore(m).diffsRejected + 1)
    && Untouched(m.diffLatency) && Untouched(m.snapshotLatency) && Untouched(m.tradeLatency)
  }

  /** `OrderBookPairMetrics`: counters for one trading pair. */
  class PairMetrics {
    const tradingPair: string
    const trackingStartTime: real
    var diffsProcessed: nat
    var diffsRejected: nat
    var snapshotsProcessed: nat
    var tradesProcessed: nat
    var tradesRejected: nat
    var lastDiffTimestamp: real
    var lastSnapshotTimestamp: real
    var lastTradeTimestamp: real
    const diffLatency: LatencyStats
    const snapshotLatency: LatencyStats
    const tradeLatency: LatencyStats

    constructor (tradingPair: string, trackingStartTime: real)
      ensures this.tradingPair == tradingPair && this.trackingStartTime == trackingStartTime
      ensures diffsProcessed == 0 && diffsRejected == 0 && snapshotsProcessed == 0
      ensures tradesProcessed == 0 && tradesRejected == 0
      ensures lastDiffTimestamp == 0.0 && lastSnapshotTimestamp == 0.0 && lastTradeTimestamp == 0.0
      ensures fresh(diffLatency) && fresh(snapshotLatency) && fresh(tradeLatency)
      ensures Separate()
      ensures diffLatency.IsEmpty() && snapshotLatency.IsEmpty() && tradeLatency.IsEmpty()
    {
      this.tradingPair := tradingPair;
      this.trackingStartTime := trackingStartTime;
      diffsProcessed, diffsRejected, snapshotsProcessed := 0, 0, 0;
      tradesProcessed, tradesRejected := 0, 0;
      lastDiffTimestamp, lastSnapshotTimestamp, lastTradeTimestamp := 0.0, 0.0, 0.0;
      diffLatency := new LatencyStats(DefaultSampleRate, DefaultRecentCapacity);
      snapshotLatency := new LatencyStats(DefaultSampleRate, DefaultRecentCapacity);
      tradeLatency := new LatencyStats(DefaultSampleRate, DefaultRecentCapacity);
    }

    /** The diff router's bookkeeping for an accepted diff. */
    method RecordDiff(now: real, latencyMs: int)
      modifies this`diffsProcessed, this`lastDiffTimestamp, diffLatency
      ensures diffsProcessed == old(diffsProcessed) + 1 && lastDiffTimestamp == now
      ensures diffLatency.samples == old(diffLatency.samples) + [latencyMs]
      ensures old(diffLatency.Valid()) ==> diffLatency.Valid()
      ensures Separate() && old(Sound()) ==> Sound()
    {
      diffsProcessed := diffsProcessed + 1;
      lastDiffTimestamp := now;
      diffLatency.Record(latencyMs);
    }

    /** The snapshot router's bookkeeping for a routed snapshot. */
    method RecordSnapshot(now: real, latencyMs: int)
      modifies this`snapshotsProcessed, this`lastSnapshotTimestamp, snapshotLatency
      ensures snapshotsProcessed == old(snapshotsProcessed) + 1 && lastSnapshotTimestamp == now
      ensures snapshotLatency.samples == old(snapshotLatency.samples) + [latencyMs]
      ensures old(snapshotLatency.Valid()) ==> snapshotLatency.Valid()
      ensures Separate() && old(Sound()) ==> Sound()
    {
      snapshotsProcessed := snapshotsProcessed + 1;
      lastSnapshotTimestamp := now;
      snapshotLatency.Record(latencyMs);
    }

    /** The trade loop's bookkeeping for an applied trade. */
    method RecordTrade(now: real, latencyMs: int)
      modifies this`tradesProcessed, this`lastTradeTimestamp, tradeLatency
      ensures tradesProcessed == old(tradesProcessed) + 1 && lastTradeTimestamp == now
      ensures tradeLatency.samples == old(tradeLatency.samples) + [latencyMs]
      ensures old(tradeLatency.Valid()) ==> tradeLatency.Valid()
      ensures Separate() && old(Sound()) ==> Sound()
    {
      tradesProcessed := tradesProcessed + 1;
      lastTradeTimestamp := now;
      tradeLatency.Record(latencyMs);
    }

    /** The accumulator of one stream. */
    function Latency(stream: Stream): LatencyStats {
      match stream
      case Diffs => diffLatency
      case Snapshots => snapshotLatency
      case Trades => tradeLatency
    }

    /** The counters and timestamps, as one value. */
    function Tallies(): PairTallies
      reads this
    {
      PairTallies(diffsProcessed, diffsRejected, snapshotsProcessed, tradesProcessed, tradesRejected,
                  lastDiffTimestamp, lastSnapshotTimestamp, lastTradeTimestamp)
    }

    /** The object and the accumulators it owns: what routing a message may update. */
    function Objects(): set<object> {
      {this, diffLatency, snapshotLatency, tradeLatency}
    }

    /** Each latency accumulator agrees with the latencies it has recorded. */
    ghost predicate Sound()
      reads diffLatency, snapshotLatency, tradeLatency
    {
      diffLatency.Valid() && snapshotLatency.Valid() && tradeLatency.Valid()
    }

    /** The three latency accumulators are distinct objects. */
    predicate Separate() {
      diffLatency != snapshotLatency && diffLatency != tradeLatency && snapshotLatency != tradeLatency
    }
  }

  /** `OrderBookTrackerMetrics`: global counters and the per-pair registry. */
  class TrackerMetrics {
    var totalDiffsProcessed: nat
    var totalDiffsRejected: nat
    var totalDiffsQueued: nat
    var totalSnapshotsProcessed: nat
    var totalSnapshotsRejected: nat
    var totalTradesProcessed: nat
    var totalTradesRejected: nat
    var trackerStartTime: real
    const diffLatency: LatencyStats
    const snapshotLatency: LatencyStats
    const tradeLatency: LatencyStats
    var perPair: map<string, PairMetrics>

    constructor ()
      ensures totalDiffsProcessed == 0 && totalDiffsRejected == 0 && totalDiffsQueued == 0
      ensures totalSnapshotsProcessed == 0 && totalSnapshotsRejected == 0
      ensures totalTradesProcessed == 0 && totalTradesRejected == 0
      ensures trackerStartTime == 0.0 && perPair == map[]
      ensures fresh(diffLatency) && fresh(snapshotLatency) && fresh(tradeLatency)
      ensures Valid()
      ensures diffLatency.IsEmpty() && snapshotLatency.IsEmpty() && tradeLatency.IsEmpty()
    {
      totalDiffsProcessed, totalDiffsRejected, totalDiffsQueued := 0, 0, 0;
      totalSnapshotsProcessed, totalSnapshotsRejected := 0, 0;
      totalTradesProcessed, totalTradesRejected := 0, 0;
      trackerStartTime := 0.0;
      diffLatency := new LatencyStats(DefaultSampleRate, DefaultRecentCapacity);
      snapshotLatency := new LatencyStats(DefaultSampleRate, DefaultRecentCapacity);
      tradeLatency := new LatencyStats(DefaultSampleRate, DefaultRecentCapacity);
      perPair := map[];
    }

    /** Each global latency accumulator agrees with the latencies it has recorded. */
    ghost predicate Sound()
      reads diffLatency, snapshotLatency, tradeLatency
    {
      diffLatency.Valid() && snapshotLatency.Valid() && tradeLatency.Valid()
    }

    /** The global counters, as one value. */
    function Counts(): Totals
      reads this
    {
      Totals(totalDiffsProcessed, totalDiffsRejected, totalDiffsQueued, totalSnapshotsProcessed,
             totalSnapshotsRejected, totalTradesProcessed, totalTradesRejected)
    }

    /** The global accumulator of one stream. */
    function GlobalLatency(stream: Stream): LatencyStats {
      match stream
      case Diffs => diffLatency
      case Snapshots => snapshotLatency
      case Trades => tradeLatency
    }

    predicate GlobalsSeparate() {
      diffLatency != snapshotLatency && diffLatency != tradeLatency && snapshotLatency != tradeLatency
    }

    /** A pair's accumulators are distinct from each other and from the global ones. */
    predicate Apart(m: PairMetrics) {
      && m.Separate()
      && m.diffLatency != diffLatency && m.diffLatency != snapshotLatency && m.diffLatency != tradeLatency
      && m.snapshotLatency != diffLatency && m.snapshotLatency != snapshotLatency && m.snapshotLatency != tradeLatency
      && m.tradeLatency != diffLatency && m.tradeLatency != snapshotLatency && m.tradeLatency != tradeLatency
    }

    /** Every accumulator that can receive a sample is a separate object. */
    ghost predicate Valid()
      reads this`perPair
    {
      GlobalsSeparate() && forall p | p in perPair :: Apart(perPair[p])
    }

    /**
     * `get_or_create_pair_metrics`: an existing entry is returned as it is
     * (same object, counters intact, registry unchanged); otherwise a fresh
     * zeroed entry is registered under the pair, the only key added.
     */
    method GetOrCreatePairMetrics(tradingPair: string, now: real) returns (m: PairMetrics)
      requires Valid()
      modifies this`perPair
      ensures Valid() && Apart(m)
      ensures tradingPair in perPair && perPair[tradingPair] == m
      ensures tradingPair in old(perPair) ==> m == old(perPair[tradingPair]) && perPair == old(perPair)
      ensures tradingPair !in old(perPair) ==>
                && fresh(m) && fresh(m.diffLatency) && fresh(m.snapshotLatency) && fresh(m.tradeLatency)
                && m.tradingPair == tradingPair && m.trackingStartTime == now
                && m.Tallies() == ZeroTallies
                && m.diffLatency.samples == [] && m.snapshotLatency.samples == [] && m.tradeLatency.samples == []
                && m.Sound()
                && perPair == old(perPair)[tradingPair := m]
    {
      if tradingPair in perPair {
        m := perPair[tradingPair];
      } else {
        m := new PairMetrics(tradingPair, now);
        m.diffLatency.EmptyIsValid();
        m.snapshotLatency.EmptyIsValid();
        m.tradeLatency.EmptyIsValid();
        perPair := perPair[tradingPair := m];
      }
    }

    /** Every entry of a router's `pair_metrics_cache` keeps its accumulators apart from the globals. */
    predicate CacheApart(cache: map<string, PairMetrics>) {
      forall p | p in cache :: Apart(cache[p])
    }

    /**
     * The entry a router's lookup lands on for `pair` when one exists: the
     * cached one, else the registered one.
     */
    ghost function Chosen(cache: map<string, PairMetrics>, pair: string): set<PairMetrics>
      reads this`perPair
    {
      if pair in cache then {cache[pair]} else if pair in perPair then {perPair[pair]} else {}
    }

    /** The accumulator of `stream` of the entry the lookup lands on. */
    ghost function ChosenLatency(cache: map<string, PairMetrics>, pair: string, stream: Stream): set<LatencyStats>
      reads this`perPair
    {
      if pair in cache then {cache[pair].Latency(stream)}
      else if pair in perPair then {perPair[pair].Latency(stream)}
      else {}
    }

    /**
     * `m` is the entry a router's lookup for `pair` lands on, and the cache
     * now remembers it: the cached entry, else the registered one, else a new
     * entry for `pair`, registered under it and nothing else added.
     */
    twostate predicate LandedOn(cache: map<string, PairMetrics>, pair: string, now: real,
                                new m: PairMetrics, new cache': map<string, PairMetrics>)
      reads this`perPair
    {
      && cache' == cache[pair := m]
      && (pair in cache ==> m == cache[pair] && perPair == old(perPair))
      && (pair !in cache && pair in old(perPair) ==> m == old(perPair[pair]) && perPair == old(perPair))
      && (pair !in cache && pair !in old(perPair) ==>
            fresh(m) && m.tradingPair == pair && m.trackingStartTime == now && perPair == old(perPair)[pair := m])
    }

    /**
     * The lookup every router does through its `pair_metrics_cache`: a cached
     * entry wins, otherwise `GetOrCreatePairMetrics` is consulted and cached.
     * Looking up changes no counter and no accumulator.
     */
    method CachedPairMetrics(cache: map<string, PairMetrics>, pair: string, now: real)
      returns (pm: PairMetrics, cache': map<string, PairMetrics>)
      requires Valid() && CacheApart(cache)
      modifies this`perPair
      ensures Valid() && Apart(pm) && CacheApart(cache')
      ensures LandedOn(cache, pair, now, pm, cache')
      ensures pm in old(Chosen(cache, pair)) || fresh(pm)
      ensures Counts() == old(Counts())
      ensures pm.Tallies() == TalliesBefore(pm)
      ensures Untouched(pm.diffLatency) && Untouched(pm.snapshotLatency) && Untouched(pm.tradeLatency)
      ensures fresh(pm) ==> fresh(pm.diffLatency) && fresh(pm.snapshotLatency) && fresh(pm.tradeLatency)
      ensures pair in old(perPair) ==> LeftAlone(old(perPair[pair]), pm, {})
      ensures old(Sound()) ==> Sound()
      ensures fresh(pm) || old(pm.Sound()) ==> pm.Sound()
    {
      if pair in cache {
        pm := cache[pair];
      } else {
        pm := GetOrCreatePairMetrics(pair, now);
      }
      cache' := cache[pair := pm];
    }

    /**
     * The diff router on a stale diff: the pair's entry is looked up (and
     * cached) before the staleness check, so the rejection creates it too;
     * the global and the pair's rejection counters grow and nothing else does.
     */
    method RejectDiff(cache: map<string, PairMetrics>, pair: string, now: real)
      returns (m: PairMetrics, cache': map<string, PairMetrics>)
      requires Valid() && CacheApart(cache)
      modifies this`totalDiffsRejected, this`perPair, Chosen(cache, pair)`diffsRejected
      ensures Valid() && CacheApart(cache')
      ensures LandedOn(cache, pair, now, m, cache')
      ensures Counts() == old(Counts()).(diffsRejected := old(totalDiffsRejected) + 1)
      ensures CountedRejectedDiff(m)
      ensures pair in old(perPair) ==> LeftAlone(old(perPair[pair]), m, {})
      ensures old(Sound()) ==> Sound()
      ensures fresh(m) || old(m.Sound()) ==> m.Sound()
    {
      m, cache' := CachedPairMetrics(cache, pair, now);
      ghost var other := if pair in old(perPair) then old(perPair[pair]) else m;
      CountDiffRejected(m, other);
    }

    /**
     * The diff router on an accepted diff: counted and timed globally, and for
     * the pair's entry through the cache; the entry's other tallies and
     * accumulators, and a registered entry the cache shadows, stay as they were.
     */
    method ProcessDiff(cache: map<string, PairMetrics>, pair: string, now: real, latencyMs: int)
      returns (m: PairMetrics, cache': map<string, PairMetrics>)
      requires Valid() && CacheApart(cache)
      modifies this`totalDiffsProcessed, diffLatency, this`perPair
      modifies Chosen(cache, pair)`diffsProcessed, Chosen(cache, pair)`lastDiffTimestamp, ChosenLatency(cache, pair, Diffs)
      ensures Valid() && CacheApart(cache')
      ensures LandedOn(cache, pair, now, m, cache')
      ensures Counts() == old(Counts()).(diffsProcessed := old(totalDiffsProcessed) + 1)
      ensures diffLatency.samples == old(diffLatency.samples) + [latencyMs]
      ensures CountedProcessed(m, Diffs, now, latencyMs)
      ensures pair in old(perPair) ==> LeftAlone(old(perPair[pair]), m, {m.diffLatency})
      ensures old(Sound()) ==> Sound()
      ensures fresh(m) || old(m.Sound()) ==> m.Sound()
    {
      m, cache' := CachedPairMetrics(cache, pair, now);
      ghost var other := if pair in old(perPair) then old(perPair[pair]) else m;
      RecordDiffProcessed(m, now, latencyMs, other);
    }

    /**
     * The snapshot router on a routed snapshot: counted and timed globally,
     * and for the pair's entry through the cache, the rest left as it was.
     */
    method ProcessSnapshot(cache: map<string, PairMetrics>, pair: string, now: real, latencyMs: int)
      returns (m: PairMetrics, cache': map<string, PairMetrics>)
      requires Valid() && CacheApart(cache)
      modifies this`totalSnapshotsProcessed, snapshotLatency, this`perPair
      modifies Chosen(cache, pair)`snapshotsProcessed, Chosen(cache, pair)`lastSnapshotTimestamp, ChosenLatency(cache, pair, Snapshots)
      ensures Valid() && CacheApart(cache')
      ensures LandedOn(cache, pair, now, m, cache')
      ensures Counts() == old(Counts()).(snapshotsProcessed := old(totalSnapshotsProcessed) + 1)
      ensures snapshotLatency.samples == old(snapshotLatency.samples) + [latencyMs]
      ensures CountedProcessed(m, Snapshots, now, latencyMs)
      ensures pair in old(perPair) ==> LeftAlone(old(perPair[pair]), m, {m.snapshotLatency})
      ensures old(Sound()) ==> Sound()
      ensures fresh(m) || old(m.Sound()) ==> m.Sound()
    {
      m, cache' := CachedPairMetrics(cache, pair, now);
      ghost var other := if pair in old(perPair) then old(perPair[pair]) else m;
      RecordSnapshotProcessed(m, now, latencyMs, other);
    }

    /**
     * The trade loop on an applied trade: counted and timed globally, and for
     * the pair's entry through the cache, the rest left as it was.
     */
    method ProcessTrade(cache: map<string, PairMetrics>, pair: string, now: real, latencyMs: int)
      returns (m: PairMetrics, cache': map<string, PairMetrics>)
      requires Valid() && CacheApart(cache)
      modifies this`totalTradesProcessed, tradeLatency, this`perPair
      modifies Chosen(cache, pair)`tradesProcessed, Chosen(cache, pair)`lastTradeTimestamp, ChosenLatency(cache, pair, Trades)
      ensures Valid() && CacheApart(cache')
      ensures LandedOn(cache, pair, now, m, cache')
      ensures Counts() == old(Counts()).(tradesProcessed := old(totalTradesProcessed) + 1)
      ensures tradeLatency.samples == old(tradeLatency.samples) + [latencyMs]
      ensures CountedProcessed(m, Trades, now, latencyMs)
      ensures pair in old(perPair) ==> LeftAlone(old(perPair[pair]), m, {m.tradeLatency})
      ensures old(Sound()) ==> Sound()
      ensures fresh(m) || old(m.Sound()) ==> m.Sound()
    {
      m, cache' := CachedPairMetrics(cache, pair, now);
      ghost var other := if pair in old(perPair) then old(perPair[pair]) else m;
      RecordTradeProcessed(m, now, latencyMs, other);
    }

    /**
     * The diff router's bookkeeping for one diff, by how it was routed: a
     * buffered diff counts as queued and touches no pair entry; a stale one
     * is counted as `RejectDiff` does, an accepted one as `ProcessDiff` does.
     * The diff router has no other outcome, so `Dropped` counts nothing.
     */
    method CountDiff(route: R.Route, cache: map<string, PairMetrics>, pair: string, now: real, latencyMs: int)
      returns (cache': map<string, PairMetrics>)
      requires Valid() && CacheApart(cache)
      modifies this`totalDiffsQueued, this`totalDiffsRejected, this`totalDiffsProcessed, diffLatency, this`perPair
      modifies Chosen(cache, pair)`diffsRejected, Chosen(cache, pair)`diffsProcessed, Chosen(cache, pair)`lastDiffTimestamp
      modifies ChosenLatency(cache, pair, Diffs)
      ensures Valid() && CacheApart(cache') && (old(Sound()) ==> Sound())
      ensures Counts() == match route
                          case Buffered => old(Counts()).(diffsQueued := old(totalDiffsQueued) + 1)
                          case Rejected => old(Counts()).(diffsRejected := old(totalDiffsRejected) + 1)
                          case Accepted => old(Counts()).(diffsProcessed := old(totalDiffsProcessed) + 1)
                          case Dropped => old(Counts())
      ensures route == R.Accepted ==> diffLatency.samples == old(diffLatency.samples) + [latencyMs]
      ensures route != R.Accepted ==> unchanged(diffLatency)
      ensures route == R.Rejected ==>
                && pair in cache'
                && var m := cache'[pair];
                && LandedOn(cache, pair, now, m, cache')
                && CountedRejectedDiff(m)
                && (pair in old(perPair) ==> LeftAlone(old(perPair[pair]), m, {}))
                && (fresh(m) || old(m.Sound()) ==> m.Sound())
      ensures route == R.Accepted ==>
                && pair in cache'
                && var m := cache'[pair];
                && LandedOn(cache, pair, now, m, cache')
                && CountedProcessed(m, Diffs, now, latencyMs)
                && (pair in old(perPair) ==> LeftAlone(old(perPair[pair]), m, {m.diffLatency}))
                && (fresh(m) || old(m.Sound()) ==> m.Sound())
      ensures (route == R.Buffered || route == R.Dropped) ==>
                && cache' == cache && perPair == old(perPair)
                && (pair in cache ==> Unmoved(cache[pair]))
                && (pair in old(perPair) ==> Unmoved(old(perPair[pair])))
    {
      match route
      case Buffered =>
        CountDiffQueued();
        cache' := cache;
      case Rejected =>
        var m;
        m, cache' := RejectDiff(cache, pair, now);
      case Accepted =>
        var m;
        m, cache' := ProcessDiff(cache, pair, now, latencyMs);
      case Dropped =>
        cache' := cache;
    }

    /**
     * The snapshot router's bookkeeping for one snapshot, by how it was routed: one whose pair
     * has no serial queue counts as rejected globally and touches no pair entry;
     * an accepted one is counted as `ProcessSnapshot` does. The snapshot
     * router has no other outcome, so any other route counts nothing.
     */
    method CountSnapshot(route: R.Route, cache: map<string, PairMetrics>, pair: string, now: real, latencyMs: int)
      returns (cache': map<string, PairMetrics>)
      requires Valid() && CacheApart(cache)
      modifies this`totalSnapshotsRejected, this`totalSnapshotsProcessed, snapshotLatency, this`perPair
      modifies Chosen(cache, pair)`snapshotsProcessed, Chosen(cache, pair)`lastSnapshotTimestamp, ChosenLatency(cache, pair, Snapshots)
      ensures Valid() && CacheApart(cache') && (old(Sound()) ==> Sound())
      ensures Counts() == match route
                          case Rejected => old(Counts()).(snapshotsRejected := old(totalSnapshotsRejected) + 1)
                          case Accepted => old(Counts()).(snapshotsProcessed := old(totalSnapshotsProcessed) + 1)
                          case _ => old(Counts())
      ensures route == R.Accepted ==> snapshotLatency.samples == old(snapshotLatency.samples) + [latencyMs]
      ensures route != R.Accepted ==> unchanged(snapshotLatency)
      ensures route == R.Accepted ==>
                && pair in cache'
                && var m := cache'[pair];
                && LandedOn(cache, pair, now, m, cache')
                && CountedProcessed(m, Snapshots, now, latencyMs)
                && (pair in old(perPair) ==> LeftAlone(old(perPair[pair]), m, {m.snapshotLatency}))
                && (fresh(m) || old(m.Sound()) ==> m.Sound())
      ensures route != R.Accepted ==>
                && cache' == cache && perPair == old(perPair)
                && (pair in cache ==> Unmoved(cache[pair]))
                && (pair in old(perPair) ==> Unmoved(old(perPair[pair])))
    {
      if route == R.Rejected {
        CountSnapshotRejected();
        cache' := cache;
      } else if route == R.Accepted {
        var m;
        m, cache' := ProcessSnapshot(cache, pair, now, latencyMs);
      } else {
        cache' := cache;
      }
    }

    /**
     * The trade loop's bookkeeping for one trade, by how it was routed: one whose pair has
     * no book counts as rejected globally and touches no pair entry;
     * an accepted one is counted as `ProcessTrade` does. A trade that
     * raised while being applied (`Dropped`) counts nowhere, and nothing routes one `Buffered`.
     */
    method CountTrade(route: R.Route, cache: map<string, PairMetrics>, pair: string, now: real, latencyMs: int)
      returns (cache': map<string, PairMetrics>)
      requires Valid() && CacheApart(cache)
      modifies this`totalTradesRejected, this`totalTradesProcessed, tradeLatency, this`perPair
      modifies Chosen(cache, pair)`tradesProcessed, Chosen(cache, pair)`lastTradeTimestamp, ChosenLatency(cache, pair, Trades)
      ensures Valid() && CacheApart(cache') && (old(Sound()) ==> Sound())
      ensures Counts() == match route
                          case Rejected => old(Counts()).(tradesRejected := old(totalTradesRejected) + 1)
                          case Accepted => old(Counts()).(tradesProcessed := old(totalTradesProcessed) + 1)
                          case _ => old(Counts())
      ensures route == R.Accepted ==> tradeLatency.samples == old(tradeLatency.samples) + [latencyMs]
      ensures route != R.Accepted ==> unchanged(tradeLatency)
      ensures route == R.Accepted ==>
                && pair in cache'
                && var m := cache'[pair];
                && LandedOn(cache, pair, now, m, cache')
                && CountedProcessed(m, Trades, now, latencyMs)
                && (pair in old(perPair) ==> LeftAlone(old(perPair[pair]), m, {m.tradeLatency}))
                && (fresh(m) || old(m.Sound()) ==> m.Sound())
      ensures route != R.Accepted ==>
                && cache' == cache && perPair == old(perPair)
                && (pair in cache ==> Unmoved(cache[pair]))
                && (pair in old(perPair) ==> Unmoved(old(perPair[pair])))
    {
      if route == R.Rejected {
        CountTradeRejected();
        cache' := cache;
      } else if route == R.Accepted {
        var m;
        m, cache' := ProcessTrade(cache, pair, now, latencyMs);
      } else {
        cache' := cache;
      }
    }

    /** The diff router's bookkeeping for a diff queued before its pair had a serial queue. */
    method CountDiffQueued()
      modifies this`totalDiffsQueued
      ensures Counts() == old(Counts()).(diffsQueued := old(totalDiffsQueued) + 1)
    {
      totalDiffsQueued := totalDiffsQueued + 1;
    }

    /** The diff router's bookkeeping for a stale diff: the global and the pair's rejection counters. */
    method CountDiffRejected(m: PairMetrics, ghost other: PairMetrics)
      requires Apart(other)
      modifies this`totalDiffsRejected, m`diffsRejected
      ensures Counts() == old(Counts()).(diffsRejected := old(totalDiffsRejected) + 1)
      ensures m.Tallies() == old(m.Tallies()).(diffsRejected := old(m.diffsRejected) + 1)
      ensures old(Sound()) ==> Sound()
      ensures old(m.Sound()) ==> m.Sound()
      ensures LeftAlone(other, m, {})
    {
      totalDiffsRejected := totalDiffsRejected + 1;
      m.diffsRejected := m.diffsRejected + 1;
    }

    /** The diff router's bookkeeping for an accepted diff, globally and for its pair. */
    method RecordDiffProcessed(m: PairMetrics, now: real, latencyMs: int, ghost other: PairMetrics)
      requires Apart(m) && Apart(other)
      modifies this`totalDiffsProcessed, diffLatency, m`diffsProcessed, m`lastDiffTimestamp, m.diffLatency
      ensures Counts() == old(Counts()).(diffsProcessed := old(totalDiffsProcessed) + 1)
      ensures diffLatency.samples == old(diffLatency.samples) + [latencyMs]
      ensures m.Tallies() == Processed(old(m.Tallies()), Diffs, now)
      ensures m.diffLatency.samples == old(m.diffLatency.samples) + [latencyMs]
      ensures old(diffLatency.Valid()) ==> diffLatency.Valid()
      ensures old(m.diffLatency.Valid()) ==> m.diffLatency.Valid()
      ensures old(Sound()) ==> Sound()
      ensures old(m.Sound()) ==> m.Sound()
      ensures LeftAlone(other, m, {m.diffLatency})
    {
      totalDiffsProcessed := totalDiffsProcessed + 1;
      diffLatency.Record(latencyMs);
      m.RecordDiff(now, latencyMs);
    }

    /** The snapshot router's bookkeeping for a snapshot whose pair has no serial queue. */
    method CountSnapshotRejected()
      modifies this`totalSnapshotsRejected
      ensures Counts() == old(Counts()).(snapshotsRejected := old(totalSnapshotsRejected) + 1)
    {
      totalSnapshotsRejected := totalSnapshotsRejected + 1;
    }

    /** The snapshot router's bookkeeping for a routed snapshot, globally and for its pair. */
    method RecordSnapshotProcessed(m: PairMetrics, now: real, latencyMs: int, ghost other: PairMetrics)
      requires Apart(m) && Apart(other)
      modifies this`totalSnapshotsProcessed, snapshotLatency, m`snapshotsProcessed, m`lastSnapshotTimestamp, m.snapshotLatency
      ensures Counts() == old(Counts()).(snapshotsProcessed := old(totalSnapshotsProcessed) + 1)
      ensures snapshotLatency.samples == old(snapshotLatency.samples) + [latencyMs]
      ensures m.Tallies() == Processed(old(m.Tallies()), Snapshots, now)
      ensures m.snapshotLatency.samples == old(m.snapshotLatency.samples) + [latencyMs]
      ensures old(snapshotLatency.Valid()) ==> snapshotLatency.Valid()
      ensures old(m.snapshotLatency.Valid()) ==> m.snapshotLatency.Valid()
      ensures old(Sound()) ==> Sound()
      ensures old(m.Sound()) ==> m.Sound()
      ensures LeftAlone(other, m, {m.snapshotLatency})
    {
      totalSnapshotsProcessed := totalSnapshotsProcessed + 1;
      snapshotLatency.Record(latencyMs);
      m.RecordSnapshot(now, latencyMs);
    }

    /** The trade loop's bookkeeping for a trade whose pair has no book: the global counter only. */
    method CountTradeRejected()
      modifies this`totalTradesRejected
      ensures Counts() == old(Counts()).(tradesRejected := old(totalTradesRejected) + 1)
    {
      totalTradesRejected := totalTradesRejected + 1;
    }

    /** The trade loop's bookkeeping for an applied trade, globally and for its pair. */
    method RecordTradeProcessed(m: PairMetrics, now: real, latencyMs: int, ghost other: PairMetrics)
      requires Apart(m) && Apart(other)
      modifies this`totalTradesProcessed, tradeLatency, m`tradesProcessed, m`lastTradeTimestamp, m.tradeLatency
      ensures Counts() == old(Counts()).(tradesProcessed := old(totalTradesProcessed) + 1)
      ensures tradeLatency.samples == old(tradeLatency.samples) + [latencyMs]
      ensures m.Tallies() == Processed(old(m.Tallies()), Trades, now)
      ensures m.tradeLatency.samples == old(m.tradeLatency.samples) + [latencyMs]
      ensures old(tradeLatency.Valid()) ==> tradeLatency.Valid()
      ensures old(m.tradeLatency.Valid()) ==> m.tradeLatency.Valid()
      ensures old(Sound()) ==> Sound()
      ensures old(m.Sound()) ==> m.Sound()
      ensures LeftAlone(other, m, {m.tradeLatency})
    {
      totalTradesProcessed := totalTradesProcessed + 1;
      tradeLatency.Record(latencyMs);
      m.RecordTrade(now, latencyMs);
    }

    /** `remove_pair_metrics`: deletes only that key; an absent key is a no-op. */
    method RemovePairMetrics(tradingPair: string)
      requires Valid()
      modifies this`perPair
      ensures Valid()
      ensures perPair == old(perPair) - {tradingPair}
    {
      perPair := perPair - {tradingPair};
    }
  }
}
