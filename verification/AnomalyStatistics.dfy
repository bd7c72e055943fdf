/**
 * Scoring one batch of inference results while keeping the anomaly-likelihood statistics fresh.
 * The likelihood algorithms themselves are parameters.
 */
module AnomalyStatistics {
  import opened Basics

  type Observation(!new,==)
  type Params(!new,==)

  /** A row with its raw anomaly score. */
  datatype Sample = Sample(rowId: int, data: Observation)

  datatype Anomaly = Anomaly(lastRowId: int, params: Params)

  /** estimate builds parameters from a window of samples; update scores one sample and advances them. */
  datatype Estimator = Estimator(estimate: seq<Sample> -> Params, update: (Observation, Params) -> (real, Params))

  datatype Config = Config(minSamples: nat, maxSamples: nat, minRefresh: int)

  /** history is what the database holds with raw scores, rows the batch that follows it. */
  datatype Batch = Batch(config: Config, estimator: Estimator, history: seq<Sample>, rows: seq<Sample>)

  const EXTREME: real := 0.99
  const GREEDY_DELAY: int := 3

  function Max(a: int, b: int): int { if a >= b then a else b }

  /** The last n elements, or all if there are fewer. */
  function Last(s: seq<Sample>, n: nat): (t: seq<Sample>)
    ensures |t| == Min(|s|, n)
  {
    if |s| <= n then s else s[|s| - n..]
  }

  function RefreshInterval(config: Config, batchSize: nat): int { Max(config.minRefresh, batchSize / 10) }

  ghost predicate ConfigOk(config: Config) { 1 <= config.minSamples <= config.maxSamples }

  // ----- the reference: one row at a time, every window taken afresh -----

  /** Everything known when the first k rows of the batch have been seen. */
  function Seen(b: Batch, k: nat): seq<Sample>
    requires k <= |b.rows|
  {
    b.history + b.rows[..k]
  }

  /** Statistics estimated from the most recent samples, or the old ones if there are too few. */
  function Refreshed(b: Batch, k: nat, old': Option<Anomaly>): Option<Anomaly>
    requires k <= |b.rows| && ConfigOk(b.config)
  {
    var seen := Seen(b, k);
    if |seen| < b.config.minSamples then old'
    else Some(Anomaly(seen[|seen| - 1].rowId, b.estimator.estimate(Last(seen, b.config.maxSamples))))
  }

  /** The statistics after rows start to k - 1, refreshed at the given positions. */
  ghost function Known(b: Batch, initial: Option<Anomaly>, start: nat, cuts: set<nat>, k: nat): Option<Anomaly>
    requires start <= k <= |b.rows| && ConfigOk(b.config)
    decreases k
  {
    var unrefreshed := if k == start then initial else Advanced(b, Known(b, initial, start, cuts, k - 1), k - 1);
    if k in cuts then Refreshed(b, k, unrefreshed) else unrefreshed
  }

  function Advanced(b: Batch, a: Option<Anomaly>, k: nat): Option<Anomaly>
    requires k < |b.rows|
  {
    match a
    case None => None
    case Some(anomaly) => Some(anomaly.(params := b.estimator.update(b.rows[k].data, anomaly.params).1))
  }

  /** The anomaly score of row k under these statistics. */
  function ScoreWith(b: Batch, a: Option<Anomaly>, k: nat): real
    requires k < |b.rows|
  {
    if a.None? then 0.0 else 1.0 - b.estimator.update(b.rows[k].data, a.value.params).0
  }

  /** A refresh position where there are too few samples. */
  predicate TooFew(b: Batch, k: nat) { |b.history| + k < b.config.minSamples }

  // ----- when statistics are refreshed -----

  /** Where the batch was cut into runs, and where statistics were refreshed. */
  datatype Plan = Plan(start: nat, bounds: seq<nat>, cuts: set<nat>)

  /** The row id up to which the run beginning at first may go. */
  ghost function Cutoff(b: Batch, a: Anomaly, cuts: set<nat>, first: nat): int
    requires first < |b.rows|
  {
    var regular := a.lastRowId + RefreshInterval(b.config, |b.rows|);
    if first !in cuts then regular
    else if TooFew(b, first) then b.rows[first].rowId + (b.config.minSamples - |b.history| - first - 1)
    else Max(regular, b.rows[first].rowId)
  }

  /** Row k - 1 of a run begun at first scored so high that statistics are refreshed early. */
  ghost predicate Extreme(b: Batch, initial: Option<Anomaly>, p: Plan, first: nat, k: nat)
    requires p.start <= first < k <= |b.rows| && ConfigOk(b.config)
  {
    var a := Known(b, initial, p.start, p.cuts, k - 1);
    && ScoreWith(b, a, k - 1) > EXTREME
    && a.Some? && a.value.lastRowId + GREEDY_DELAY < b.rows[k - 1].rowId
    && (first !in p.cuts || !TooFew(b, k))
  }

  /** The law of one run, from row first up to row limit; cut says whether a refresh follows it. */
  ghost predicate RunLaw(b: Batch, initial: Option<Anomaly>, p: Plan, first: nat, limit: nat, cut: bool)
    requires ConfigOk(b.config)
  {
    && p.start <= first < limit <= |b.rows|
    && var a := Known(b, initial, p.start, p.cuts, first);
       && a.Some?
       && var room := Cutoff(b, a.value, p.cuts, first) + 1 - b.rows[first].rowId;
          && limit - first <= room
          && (limit < |b.rows| ==> limit - first == room || Extreme(b, initial, p, first, limit))
          && (cut <==> limit < |b.rows| || b.rows[limit - 1].rowId >= Cutoff(b, a.value, p.cuts, first))
  }

  /** Nothing happens inside a run. */
  ghost predicate RunCalm(b: Batch, initial: Option<Anomaly>, p: Plan, first: nat, limit: nat)
    requires p.start <= first < limit <= |b.rows| && ConfigOk(b.config)
  {
    && (forall k | first < k < limit :: k !in p.cuts)
    && (forall k {:trigger Extreme(b, initial, p, first, k)} | first < k < limit :: !Extreme(b, initial, p, first, k))
  }

  ghost predicate RunOk(b: Batch, initial: Option<Anomaly>, p: Plan, first: nat, limit: nat)
    requires ConfigOk(b.config)
  {
    RunLaw(b, initial, p, first, limit, limit in p.cuts) && RunCalm(b, initial, p, first, limit)
  }

  /** Scoring starts at the first row, or once there are enough samples for first statistics. */
  ghost predicate StartOk(b: Batch, initial: Option<Anomaly>, p: Plan) {
    match initial
    case Some(a) =>
      p.start == 0 &&
      (0 in p.cuts <==> b.rows != [] && a.lastRowId + RefreshInterval(b.config, |b.rows|) < b.rows[0].rowId)
    case None =>
      if TooFew(b, |b.rows|) then p.start == |b.rows| && p.cuts == {}
      else p.start == Max(0, b.config.minSamples - |b.history|) && p.start in p.cuts
  }

  /** Run i of the plan is lawful. */
  ghost predicate RunAt(b: Batch, initial: Option<Anomaly>, p: Plan, i: nat)
    requires ConfigOk(b.config) && i < |p.bounds| - 1
  {
    RunOk(b, initial, p, p.bounds[i], p.bounds[i + 1])
  }

  /** The runs so far lead from the start row to row upTo. */
  ghost predicate RunsOk(b: Batch, initial: Option<Anomaly>, p: Plan, upTo: nat)
    requires ConfigOk(b.config)
  {
    && p.start <= upTo <= |b.rows|
    && p.bounds != [] && p.bounds[0] == p.start && p.bounds[|p.bounds| - 1] == upTo
    && (forall i {:trigger RunAt(b, initial, p, i)} | 0 <= i < |p.bounds| - 1 :: RunAt(b, initial, p, i))
    && (forall k | k in p.cuts :: p.start <= k <= upTo)
  }

  ghost predicate PlanOk(b: Batch, initial: Option<Anomaly>, p: Plan)
    requires ConfigOk(b.config)
  {
    StartOk(b, initial, p) && RunsOk(b, initial, p, |b.rows|)
  }

  // ----- later refreshes do not change the past -----

  lemma {:induction false} KnownFrame(b: Batch, initial: Option<Anomaly>, start: nat, cuts: set<nat>,
                                      cuts': set<nat>, k: nat)
    requires start <= k <= |b.rows| && ConfigOk(b.config)
    requires forall j | start <= j <= k :: j in cuts <==> j in cuts'
    ensures Known(b, initial, start, cuts, k) == Known(b, initial, start, cuts', k)
    decreases k
  {
    if k > start {
      KnownFrame(b, initial, start, cuts, cuts', k - 1);
    }
  }

  lemma ExtremeFrame(b: Batch, initial: Option<Anomaly>, p: Plan, p': Plan, first: nat, k: nat)
    requires ConfigOk(b.config) && p.start <= first < k <= |b.rows| && p'.start == p.start
    requires forall j | p.start <= j < k :: j in p.cuts <==> j in p'.cuts
    ensures Extreme(b, initial, p', first, k) <==> Extreme(b, initial, p, first, k)
  {
    KnownFrame(b, initial, p.start, p.cuts, p'.cuts, k - 1);
  }

  lemma LawFrame(b: Batch, initial: Option<Anomaly>, p: Plan, p': Plan, first: nat, limit: nat, cut: bool)
    requires ConfigOk(b.config) && RunLaw(b, initial, p, first, limit, cut) && p'.start == p.start
    requires forall j | p.start <= j < limit :: j in p.cuts <==> j in p'.cuts
    ensures RunLaw(b, initial, p', first, limit, cut)
  {
    KnownFrame(b, initial, p.start, p.cuts, p'.cuts, first);
    ExtremeFrame(b, initial, p, p', first, limit);
  }

  lemma CalmFrame(b: Batch, initial: Option<Anomaly>, p: Plan, p': Plan, first: nat, limit: nat)
    requires ConfigOk(b.config) && p.start <= first < limit <= |b.rows| && RunCalm(b, initial, p, first, limit)
    requires p'.start == p.start && forall j | p.start <= j < limit :: j in p.cuts <==> j in p'.cuts
    ensures RunCalm(b, initial, p', first, limit)
  {
    forall k {:trigger Extreme(b, initial, p', first, k)} | first < k < limit
      ensures !Extreme(b, initial, p', first, k)
    {
      ExtremeFrame(b, initial, p, p', first, k);
    }
  }

  lemma RunFrame(b: Batch, initial: Option<Anomaly>, p: Plan, p': Plan, first: nat, limit: nat)
    requires ConfigOk(b.config) && RunOk(b, initial, p, first, limit) && p'.start == p.start
    requires forall j | p.start <= j <= limit :: j in p.cuts <==> j in p'.cuts
    ensures RunOk(b, initial, p', first, limit)
  {
    LawFrame(b, initial, p, p', first, limit, limit in p.cuts);
    CalmFrame(b, initial, p, p', first, limit);
  }

  // ----- one cache for the whole batch -----

  /** The cache holds one tail of the history, fetched when fetchedAt rows were consumed, and the first k rows. */
  ghost predicate CacheOk(b: Batch, fetchedAt: nat, k: nat, cache: seq<Sample>) {
    && fetchedAt <= k <= |b.rows|
    && cache == Last(b.history, Max(0, b.config.maxSamples - fetchedAt)) + b.rows[..k]
  }

  lemma CacheGrows(b: Batch, fetchedAt: nat, j: nat, k: nat, cache: seq<Sample>)
    requires CacheOk(b, fetchedAt, j, cache) && j <= k <= |b.rows|
    ensures CacheOk(b, fetchedAt, k, cache + b.rows[j..k])
  {
    assert b.rows[..j] + b.rows[j..k] == b.rows[..k];
  }

  lemma LastOfSuffix(s: seq<Sample>, d: nat, n: nat)
    requires d + n <= |s| && n > 0
    ensures Last(s[d..], n) == Last(s, n) && s[d..][|s| - d - 1] == s[|s| - 1]
  {
  }

  /** A tail long enough to fill the window together with what follows it. */
  lemma LastOfJoin(history: seq<Sample>, rows: seq<Sample>, fetch: nat, n: nat)
    requires fetch < |history| && n <= fetch + |rows| && n > 0
    ensures
      var cache, seen := Last(history, fetch) + rows, history + rows;
      Last(cache, n) == Last(seen, n) && cache[|cache| - 1] == seen[|seen| - 1]
  {
    var d := |history| - fetch;
    assert (history + rows)[d..] == history[d..] + rows;
    LastOfSuffix(history + rows, d, n);
  }

  /** A window taken from the cache is the window over everything seen. */
  lemma CacheWindow(b: Batch, fetchedAt: nat, k: nat, cache: seq<Sample>)
    requires ConfigOk(b.config) && CacheOk(b, fetchedAt, k, cache)
    ensures |cache| < b.config.minSamples <==> TooFew(b, k)
    ensures TooFew(b, k) ==> |cache| == |b.history| + k
    ensures Last(cache, b.config.maxSamples) == Last(Seen(b, k), b.config.maxSamples)
    ensures !TooFew(b, k) ==> cache[|cache| - 1] == Seen(b, k)[|b.history| + k - 1]
  {
    var fetch := Max(0, b.config.maxSamples - fetchedAt);
    if |b.history| > fetch {
      LastOfJoin(b.history, b.rows[..k], fetch, b.config.maxSamples);
    }
  }

  // ----- the code -----

  /** An estimate from the last samples of a cache, if there are enough. */
  function FromCache(b: Batch, cache: seq<Sample>, defaultParams: Option<Anomaly>): Option<Anomaly>
    requires ConfigOk(b.config)
  {
    if |cache| < b.config.minSamples then defaultParams
    else Some(Anomaly(cache[|cache| - 1].rowId, b.estimator.estimate(Last(cache, b.config.maxSamples))))
  }

  function Tail(samples: seq<Sample>, n: nat): seq<Sample>
    requires n <= |samples|
  {
    samples[|samples| - n..]
  }

  /** Estimated from the latest samples there are, at least the minimum and at most the maximum in number. */
  ghost predicate EstimatedFrom(b: Batch, samples: seq<Sample>, a: Anomaly) {
    && samples != [] && a.lastRowId == samples[|samples| - 1].rowId
    && exists n: nat ::
         && b.config.minSamples <= n <= b.config.maxSamples && n <= |samples|
         && (n == b.config.maxSamples || n == |samples|)
         && a.params == b.estimator.estimate(Tail(samples, n))
  }

  method GenerateAnomalyParams(b: Batch, cache: seq<Sample>, defaultParams: Option<Anomaly>)
      returns (a: Option<Anomaly>)
    requires ConfigOk(b.config)
    ensures |cache| < b.config.minSamples ==> a == defaultParams
    ensures |cache| >= b.config.minSamples ==> a.Some? && EstimatedFrom(b, cache, a.value)
    ensures a == FromCache(b, cache, defaultParams)
  {
    if |cache| < b.config.minSamples {
      return defaultParams;
    }
    var numSamples := Min(|cache|, b.config.maxSamples);
    var scores := cache[|cache| - numSamples..];
    assert b.config.minSamples <= |scores| <= b.config.maxSamples;
    assert scores == Last(cache, b.config.maxSamples) == Tail(cache, numSamples);
    return Some(Anomaly(cache[|cache| - 1].rowId, b.estimator.estimate(scores)));
  }

  /** Estimating from the cache is estimating from everything seen. */
  lemma FromCacheRefreshes(b: Batch, fetchedAt: nat, k: nat, cache: seq<Sample>, defaultParams: Option<Anomaly>)
    requires ConfigOk(b.config) && CacheOk(b, fetchedAt, k, cache)
    ensures FromCache(b, cache, defaultParams) == Refreshed(b, k, defaultParams)
  {
    CacheWindow(b, fetchedAt, k, cache);
  }

  /** Brings the cache from row j up to row k; the first time, the history's tail is fetched. */
  method UpdateCache(b: Batch, cache: Option<seq<Sample>>, consumed: seq<Sample>, ghost fetchedAt: nat, ghost j: nat,
                     ghost k: nat)
      returns (cache': seq<Sample>)
    requires j <= k <= |b.rows| && consumed == b.rows[j..k]
    requires if cache.None? then j == 0 else CacheOk(b, fetchedAt, j, cache.value)
    ensures CacheOk(b, if cache.None? then k else fetchedAt, k, cache')
  {
    if cache.None? {
      var tail := Last(b.history, Max(0, b.config.maxSamples - |consumed|));
      cache' := tail + consumed;
    } else {
      CacheGrows(b, fetchedAt, j, k, cache.value);
      cache' := cache.value + consumed;
    }
  }

  /** Brings the cache up to date and estimates from it. */
  method RefreshAnomalyParams(b: Batch, cache: Option<seq<Sample>>, consumed: seq<Sample>,
                              defaultParams: Option<Anomaly>,
                              ghost fetchedAt: nat, ghost j: nat, ghost k: nat)
      returns (a: Option<Anomaly>, cache': seq<Sample>)
    requires ConfigOk(b.config) && j <= k <= |b.rows| && consumed == b.rows[j..k]
    requires if cache.None? then j == 0 else CacheOk(b, fetchedAt, j, cache.value)
    ensures a == Refreshed(b, k, defaultParams)
    ensures CacheOk(b, if cache.None? then k else fetchedAt, k, cache')
  {
    cache' := UpdateCache(b, cache, consumed, fetchedAt, j, k);
    FromCacheRefreshes(b, if cache.None? then k else fetchedAt, k, cache', defaultParams);
    a := GenerateAnomalyParams(b, cache', defaultParams);
  }

  /** First statistics, if there are enough samples by now. */
  method InitAnomalyLikelihoodModel(b: Batch)
      returns (a: Option<Anomaly>, cache: Option<seq<Sample>>, startRowIndex: nat)
    requires ConfigOk(b.config)
    ensures TooFew(b, |b.rows|) ==> a.None? && cache.None? && startRowIndex == |b.rows|
    ensures !TooFew(b, |b.rows|) ==>
      && startRowIndex == Max(0, b.config.minSamples - |b.history|) <= |b.rows|
      && a.Some? && a == Refreshed(b, startRowIndex, None)
      && cache.Some? && CacheOk(b, startRowIndex, startRowIndex, cache.value)
  {
    if |b.history| + |b.rows| >= b.config.minSamples {
      startRowIndex := Max(0, b.config.minSamples - |b.history|);
      var consumed := b.rows[..startRowIndex];
      var filled;
      a, filled := RefreshAnomalyParams(b, None, consumed, None, 0, 0, startRowIndex);
      cache := Some(filled);
      assert a.Some?;
    } else {
      a, cache, startRowIndex := None, None, |b.rows|;
    }
  }

  /** Scores one row and advances the statistics. */
  method ScoreRow(b: Batch, anomaly: Anomaly, i: nat, scores: array<real>, ghost initial: Option<Anomaly>,
                  ghost p: Plan)
      returns (anomaly': Anomaly)
    requires ConfigOk(b.config) && scores.Length == |b.rows| && p.start <= i < |b.rows| && i + 1 !in p.cuts
    requires Known(b, initial, p.start, p.cuts, i) == Some(anomaly)
    modifies scores
    ensures scores[..] == old(scores[..])[i := ScoreWith(b, Some(anomaly), i)]
    ensures Known(b, initial, p.start, p.cuts, i + 1) == Some(anomaly') && anomaly'.lastRowId == anomaly.lastRowId
  {
    var (likelihood, params) := b.estimator.update(b.rows[i].data, anomaly.params);
    anomaly' := anomaly.(params := params);
    scores[i] := 1.0 - likelihood;
  }

  /** A score that calls for early statistics, if there are enough samples for them. */
  method CallsForRefresh(b: Batch, score: real, lastRowId: int, cache: Option<seq<Sample>>, consumed: seq<Sample>,
                         first: nat, i: nat, ghost initial: Option<Anomaly>, ghost p: Plan, ghost fetchedAt: nat)
      returns (extreme: bool)
    requires ConfigOk(b.config) && p.start <= first <= i < |b.rows| && consumed == b.rows[first..i + 1]
    requires cache.Some? <==> first in p.cuts
    requires cache.Some? ==> CacheOk(b, fetchedAt, first, cache.value)
    requires
      var a := Known(b, initial, p.start, p.cuts, i);
      a.Some? && a.value.lastRowId == lastRowId && score == ScoreWith(b, a, i)
    ensures extreme <==> Extreme(b, initial, p, first, i + 1)
  {
    if cache.Some? {
      CacheGrows(b, fetchedAt, first, i + 1, cache.value);
      CacheWindow(b, fetchedAt, i + 1, cache.value + consumed);
    }
    return score > EXTREME && lastRowId + GREEDY_DELAY < b.rows[i].rowId
      && (cache.None? || |cache.value| + |consumed| >= b.config.minSamples);
  }

  /** The scores of rows first to i - 1, the others as they were. */
  ghost predicate ScoredUpTo(b: Batch, initial: Option<Anomaly>, p: Plan, first: nat, i: nat, before: seq<real>,
                             now: seq<real>)
    requires ConfigOk(b.config) && p.start <= first <= i <= |b.rows| == |before| == |now|
  {
    && (forall j: nat | first <= j < i :: now[j] == ScoreWith(b, Known(b, initial, p.start, p.cuts, j), j))
    && (forall j: nat | j < first || i <= j < |b.rows| :: now[j] == before[j])
  }

  /** Scores the rows of one run, stopping early at an extreme score. */
  method ScoreRun(b: Batch, anomaly: Anomaly, cache: Option<seq<Sample>>, first: nat, limit: nat, scores: array<real>,
                  ghost initial: Option<Anomaly>, ghost p: Plan, ghost fetchedAt: nat)
      returns (anomaly': Anomaly, consumed: seq<Sample>)
    requires ConfigOk(b.config) && scores.Length == |b.rows| && p.start <= first <= limit <= |b.rows|
    requires Known(b, initial, p.start, p.cuts, first) == Some(anomaly)
    requires forall k | k in p.cuts :: k <= first
    requires cache.Some? <==> first in p.cuts
    requires cache.Some? ==> CacheOk(b, fetchedAt, first, cache.value)
    modifies scores
    ensures first + |consumed| <= limit && consumed == b.rows[first..first + |consumed|]
    ensures Known(b, initial, p.start, p.cuts, first + |consumed|) == Some(anomaly')
    ensures ScoredUpTo(b, initial, p, first, first + |consumed|, old(scores[..]), scores[..])
    ensures |consumed| > 0 ==> RunCalm(b, initial, p, first, first + |consumed|)
    ensures first + |consumed| < limit ==> |consumed| > 0 && Extreme(b, initial, p, first, first + |consumed|)
  {
    anomaly', consumed := anomaly, [];
    var i, extreme := first, false;
    while i < limit && !extreme
      invariant first <= i <= limit && consumed == b.rows[first..i]
      invariant Known(b, initial, p.start, p.cuts, i) == Some(anomaly')
      invariant ScoredUpTo(b, initial, p, first, i, old(scores[..]), scores[..])
      invariant i > first ==> RunCalm(b, initial, p, first, i)
      invariant i > first ==> (extreme <==> Extreme(b, initial, p, first, i))
      invariant extreme ==> i > first
    {
      ghost var before := scores[..];
      var lastRowId := anomaly'.lastRowId;
      consumed := consumed + [b.rows[i]];
      anomaly' := ScoreRow(b, anomaly', i, scores, initial, p);
      ScoredOneMore(b, initial, p, first, i, old(scores[..]), before, scores[..]);
      extreme := CallsForRefresh(b, scores[i], lastRowId, cache, consumed, first, i, initial, p, fetchedAt);
      i := i + 1;
    }
  }

  lemma ScoredOneMore(b: Batch, initial: Option<Anomaly>, p: Plan, first: nat, i: nat, before: seq<real>,
                      now: seq<real>, next: seq<real>)
    requires ConfigOk(b.config) && p.start <= first <= i < |b.rows| == |before| == |now|
    requires ScoredUpTo(b, initial, p, first, i, before, now)
    requires next == now[i := ScoreWith(b, Known(b, initial, p.start, p.cuts, i), i)]
    ensures ScoredUpTo(b, initial, p, first, i + 1, before, next)
  {
  }

  /** Up to which row id, and so up to which row, the next run may go. */
  method ChooseLimit(b: Batch, anomaly: Anomaly, cache: Option<seq<Sample>>, first: nat, ghost cuts: set<nat>,
                     ghost fetchedAt: nat)
      returns (endRowId: int, limitIndex: nat)
    requires ConfigOk(b.config) && first < |b.rows| && (cache.Some? <==> first in cuts)
    requires cache.Some? ==> CacheOk(b, fetchedAt, first, cache.value)
    ensures endRowId == Cutoff(b, anomaly, cuts, first)
    ensures limitIndex == first + Max(0, Min(|b.rows| - first, endRowId + 1 - b.rows[first].rowId))
    ensures cache.Some? ==> limitIndex > first
  {
    var rowId := b.rows[first].rowId;
    if cache.Some? {
      CacheWindow(b, fetchedAt, first, cache.value);
    }
    if cache.None? || |cache.value| >= b.config.minSamples {
      endRowId := anomaly.lastRowId + RefreshInterval(b.config, |b.rows|);
      if endRowId < rowId && cache.Some? {
        endRowId := rowId;
      }
    } else {
      endRowId := rowId + (b.config.minSamples - |cache.value| - 1);
    }
    if endRowId < rowId {
      limitIndex := first;
    } else {
      limitIndex := first + Min(|b.rows| - first, endRowId + 1 - rowId);
    }
  }

  function WithRun(p: Plan, limit: nat, cut: bool): Plan {
    p.(bounds := p.bounds + [limit], cuts := if cut then p.cuts + {limit} else p.cuts)
  }

  lemma RunAdded(b: Batch, initial: Option<Anomaly>, p: Plan, first: nat, limit: nat, cut: bool)
    requires ConfigOk(b.config) && RunsOk(b, initial, p, first) && first < limit <= |b.rows|
    requires RunOk(b, initial, WithRun(p, limit, cut), first, limit)
    ensures RunsOk(b, initial, WithRun(p, limit, cut), limit)
  {
    var p' := WithRun(p, limit, cut);
    forall i | 0 <= i < |p'.bounds| - 1
      ensures RunAt(b, initial, p', i)
    {
      if i < |p.bounds| - 1 {
        assert RunAt(b, initial, p, i);
        BoundBefore(b, initial, p, first, i + 1);
        RunFrame(b, initial, p, p', p.bounds[i], p.bounds[i + 1]);
      }
    }
  }

  lemma {:induction false} BoundBefore(b: Batch, initial: Option<Anomaly>, p: Plan, upTo: nat, i: nat)
    requires ConfigOk(b.config) && RunsOk(b, initial, p, upTo) && i < |p.bounds|
    ensures p.start <= p.bounds[i] <= upTo
    decreases |p.bounds| - i
  {
    if i < |p.bounds| - 1 {
      assert RunAt(b, initial, p, i);
      BoundBefore(b, initial, p, upTo, i + 1);
    }
  }

  /** What ScoreRun establishes about its run makes it lawful. */
  lemma RunLawful(b: Batch, initial: Option<Anomaly>, p: Plan, first: nat, limit: nat, most: nat, cut: bool)
    requires ConfigOk(b.config) && p.start <= first < limit <= most <= |b.rows|
    requires forall k | k in p.cuts :: k <= first
    requires Known(b, initial, p.start, p.cuts, first).Some?
    requires RunCalm(b, initial, p, first, limit)
    requires limit < most ==> Extreme(b, initial, p, first, limit)
    requires
      var cutoff := Cutoff(b, Known(b, initial, p.start, p.cuts, first).value, p.cuts, first);
      && most == first + Max(0, Min(|b.rows| - first, cutoff + 1 - b.rows[first].rowId))
      && (cut <==> limit < |b.rows| || b.rows[limit - 1].rowId >= cutoff)
    ensures RunOk(b, initial, WithRun(p, limit, cut), first, limit)
  {
    assert RunLaw(b, initial, p, first, limit, cut);
    LawFrame(b, initial, p, WithRun(p, limit, cut), first, limit, cut);
    CalmFrame(b, initial, p, WithRun(p, limit, cut), first, limit);
  }

  lemma KnownAdded(b: Batch, initial: Option<Anomaly>, p: Plan, limit: nat, cut: bool)
    requires ConfigOk(b.config) && p.start < limit <= |b.rows| && limit !in p.cuts
    ensures
      var plain := Known(b, initial, p.start, p.cuts, limit);
      Known(b, initial, p.start, WithRun(p, limit, cut).cuts, limit)
          == if cut then Refreshed(b, limit, plain) else plain
  {
    KnownFrame(b, initial, p.start, p.cuts, WithRun(p, limit, cut).cuts, limit - 1);
  }

  lemma ScoresAdded(b: Batch, initial: Option<Anomaly>, p: Plan, first: nat, limit: nat, cut: bool,
                    before: seq<real>, now: seq<real>, next: seq<real>)
    requires ConfigOk(b.config) && p.start <= first <= limit <= |b.rows| == |before| == |now| == |next|
    requires ScoredUpTo(b, initial, p, p.start, first, before, now)
        && ScoredUpTo(b, initial, p, first, limit, now, next)
    ensures ScoredUpTo(b, initial, WithRun(p, limit, cut), p.start, limit, before, next)
  {
    forall j: nat | p.start <= j < limit
      ensures next[j] == ScoreWith(b, Known(b, initial, p.start, WithRun(p, limit, cut).cuts, j), j)
    {
      KnownFrame(b, initial, p.start, p.cuts, WithRun(p, limit, cut).cuts, j);
    }
  }

  /** The state at the head of the loop. */
  ghost predicate LoopOk(b: Batch, initial: Option<Anomaly>, p: Plan, pos: nat, a: Option<Anomaly>,
                         cache: Option<seq<Sample>>, fetchedAt: nat, before: seq<real>, now: seq<real>)
    requires ConfigOk(b.config)
  {
    && RunsOk(b, initial, p, pos)
    && (StartOk(b, initial, p) || (initial.Some? && pos == 0 && p.start == 0 && p.cuts == {} && cache.None?))
    && Known(b, initial, p.start, p.cuts, pos) == a
    && (pos < |b.rows| ==>
          && a.Some? && (cache.Some? <==> pos in p.cuts)
          && (cache.None? ==> pos == 0 && initial.Some?)
          && (cache.Some? ==> CacheOk(b, fetchedAt, pos, cache.value)))
    && |before| == |now| == |b.rows| && ScoredUpTo(b, initial, p, p.start, pos, before, now)
  }

  /** Refreshing at a new position leaves the rules of the start as they were. */
  lemma StartKept(b: Batch, initial: Option<Anomaly>, p: Plan, first: nat, limit: nat, cut: bool,
                  cache: Option<seq<Sample>>)
    requires ConfigOk(b.config) && RunsOk(b, initial, p, first) && first < limit <= |b.rows|
    requires StartOk(b, initial, p) || (initial.Some? && first == 0 && p.start == 0 && p.cuts == {})
    requires
      var a := Known(b, initial, p.start, p.cuts, first);
      a.Some? && Cutoff(b, a.value, p.cuts, first) >= b.rows[first].rowId
    ensures StartOk(b, initial, WithRun(p, limit, cut))
  {
  }

  /** A run that consumed rows leads to the next head of the loop. */
  lemma RunDone(b: Batch, initial: Option<Anomaly>, p: Plan, first: nat, next: nat, most: nat, anomaly: Anomaly,
                advanced: Anomaly, cut: bool, a: Option<Anomaly>, cache: Option<seq<Sample>>,
                cache': Option<seq<Sample>>,
                fetchedAt: nat, fetchedAt': nat, before: seq<real>, was: seq<real>, now: seq<real>)
    requires ConfigOk(b.config) && first < next
    requires RowsDone(b, initial, p, first, next, most, anomaly, advanced, was, now)
    requires LoopOk(b, initial, p, first, Some(anomaly), cache, fetchedAt, before, was)
    requires cut <==> next < |b.rows| || b.rows[next - 1].rowId >= Cutoff(b, anomaly, p.cuts, first)
    requires a == if cut then Refreshed(b, next, Some(advanced)) else Some(advanced)
    requires cut ==> cache'.Some? && CacheOk(b, fetchedAt', next, cache'.value)
    ensures LoopOk(b, initial, WithRun(p, next, cut), next, a, cache', fetchedAt', before, now)
  {
    RunLawful(b, initial, p, first, next, most, cut);
    RunAdded(b, initial, p, first, next, cut);
    KnownAdded(b, initial, p, next, cut);
    ScoresAdded(b, initial, p, first, next, cut, before, was, now);
    StartKept(b, initial, p, first, next, cut, cache);
  }

  /** A run that consumed nothing was the first, and only built the cache. */
  lemma BypassDone(b: Batch, initial: Option<Anomaly>, p: Plan, first: nat, anomaly: Anomaly, a: Option<Anomaly>,
                   cache: Option<seq<Sample>>, cache': seq<Sample>, fetchedAt: nat, before: seq<real>, now: seq<real>)
    requires ConfigOk(b.config) && first < |b.rows|
    requires LoopOk(b, initial, p, first, Some(anomaly), cache, fetchedAt, before, now)
    requires cache.None? && Cutoff(b, anomaly, p.cuts, first) < b.rows[first].rowId
    requires a == Refreshed(b, 0, Some(anomaly)) && CacheOk(b, 0, 0, cache')
    ensures first == 0 && LoopOk(b, initial, p.(cuts := {0}), 0, a, Some(cache'), 0, before, now)
  {
    assert |p.bounds| > 1 ==> RunAt(b, initial, p, |p.bounds| - 2);
  }

  /** A run of rows from first to next has been scored with the statistics known before each. */
  ghost predicate RowsDone(b: Batch, initial: Option<Anomaly>, p: Plan, first: nat, next: nat, most: nat,
                           anomaly: Anomaly,
                           advanced: Anomaly, was: seq<real>, now: seq<real>)
    requires ConfigOk(b.config)
  {
    && p.start <= first <= next <= most <= |b.rows| == |was| == |now| && first < |b.rows|
    && most == first + Max(0, Min(|b.rows| - first, Cutoff(b, anomaly, p.cuts, first) + 1 - b.rows[first].rowId))
    && Known(b, initial, p.start, p.cuts, next) == Some(advanced)
    && ScoredUpTo(b, initial, p, first, next, was, now)
    && (first < next ==> RunCalm(b, initial, p, first, next))
    && (next < most ==> first < next && Extreme(b, initial, p, first, next))
  }

  /** Chooses how far to go and scores the rows up to there. */
  method ConsumeRows(b: Batch, anomaly: Anomaly, cache: Option<seq<Sample>>, first: nat, scores: array<real>,
                     ghost initial: Option<Anomaly>, ghost p: Plan, ghost fetchedAt: nat)
      returns (endRowId: int, advanced: Anomaly, consumed: seq<Sample>, ghost most: nat)
    requires ConfigOk(b.config) && p.start <= first < |b.rows| == scores.Length
    requires Known(b, initial, p.start, p.cuts, first) == Some(anomaly)
    requires (forall k | k in p.cuts :: k <= first) && (cache.Some? <==> first in p.cuts)
    requires cache.Some? ==> CacheOk(b, fetchedAt, first, cache.value)
    modifies scores
    ensures endRowId == Cutoff(b, anomaly, p.cuts, first)
    ensures first + |consumed| <= |b.rows| && consumed == b.rows[first..first + |consumed|]
    ensures RowsDone(b, initial, p, first, first + |consumed|, most, anomaly, advanced, old(scores[..]), scores[..])
    ensures consumed == [] ==> cache.None? && endRowId < b.rows[first].rowId
  {
    var limitIndex;
    endRowId, limitIndex := ChooseLimit(b, anomaly, cache, first, p.cuts, fetchedAt);
    most := limitIndex;
    advanced, consumed := ScoreRun(b, anomaly, cache, first, limitIndex, scores, initial, p, fetchedAt);
  }

  /** Refreshes the statistics unless the batch ended first. */
  method RefreshIfStopped(b: Batch, advanced: Anomaly, cache: Option<seq<Sample>>, consumed: seq<Sample>, endRowId: int,
                          first: nat, ghost fetchedAt: nat)
      returns (a: Option<Anomaly>, cache': Option<seq<Sample>>, refreshed: bool, ghost fetchedAt': nat)
    requires ConfigOk(b.config) && first < |b.rows|
    requires first + |consumed| <= |b.rows| && consumed == b.rows[first..first + |consumed|]
    requires if cache.None? then first == 0 else CacheOk(b, fetchedAt, first, cache.value)
    ensures refreshed <==>
      first + |consumed| < |b.rows| || b.rows[first + |consumed| - 1].rowId >= endRowId
    ensures a == if refreshed then Refreshed(b, first + |consumed|, Some(advanced)) else Some(advanced)
    ensures refreshed ==> cache'.Some? && CacheOk(b, fetchedAt', first + |consumed|, cache'.value)
    ensures !refreshed ==> cache' == cache
    ensures fetchedAt' == if cache.None? && refreshed then first + |consumed| else fetchedAt
  {
    var next := first + |consumed|;
    refreshed := next < |b.rows| || consumed[|consumed| - 1].rowId >= endRowId;
    a, cache', fetchedAt' := Some(advanced), cache, fetchedAt;
    if refreshed {
      var filled;
      a, filled := RefreshAnomalyParams(b, cache, consumed, a, fetchedAt, first, next);
      cache' := Some(filled);
      fetchedAt' := if cache.None? then next else fetchedAt;
    }
  }

  /** One turn of the loop: a run of rows, then a refresh unless the batch ended first. */
  method ProcessRun(b: Batch, anomaly: Anomaly, cache: Option<seq<Sample>>, startRowIndex: nat, scores: array<real>,
                    ghost initial: Option<Anomaly>, ghost p: Plan, ghost fetchedAt: nat, ghost before: seq<real>)
      returns (a: Option<Anomaly>, cache': Option<seq<Sample>>, next: nat, ghost p': Plan, ghost fetchedAt': nat)
    requires ConfigOk(b.config) && startRowIndex < |b.rows| && scores.Length == |b.rows|
    requires LoopOk(b, initial, p, startRowIndex, Some(anomaly), cache, fetchedAt, before, scores[..])
    modifies scores
    ensures LoopOk(b, initial, p', next, a, cache', fetchedAt', before, scores[..])
    ensures startRowIndex < next <= |b.rows| || (next == startRowIndex && cache.None? && cache'.Some?)
    ensures cache.Some? ==> cache'.Some? && fetchedAt' == fetchedAt
  {
    ghost var was := scores[..];
    var endRowId, advanced, consumed, refreshed;
    ghost var most;
    endRowId, advanced, consumed, most := ConsumeRows(b, anomaly, cache, startRowIndex, scores, initial, p, fetchedAt);
    a, cache', refreshed, fetchedAt' :=
      RefreshIfStopped(b, advanced, cache, consumed, endRowId, startRowIndex, fetchedAt);
    next := startRowIndex + |consumed|;
    if consumed == [] {
      p' := p.(cuts := {0});
      UnscoredSame(b, initial, p, startRowIndex, was, scores[..]);
      BypassDone(b, initial, p, startRowIndex, anomaly, a, cache, cache'.value, fetchedAt, before, scores[..]);
    } else {
      p' := WithRun(p, next, refreshed);
      RunDone(b, initial, p, startRowIndex, next, most, anomaly, advanced, refreshed, a, cache, cache',
              fetchedAt, fetchedAt', before, was, scores[..]);
    }
  }

  lemma UnscoredSame(b: Batch, initial: Option<Anomaly>, p: Plan, first: nat, was: seq<real>, now: seq<real>)
    requires ConfigOk(b.config) && p.start <= first <= |b.rows| == |was| == |now|
    requires ScoredUpTo(b, initial, p, first, first, was, now)
    ensures was == now
  {
  }

  datatype Outcome = MetricNotActive | Updated(anomaly: Option<Anomaly>)

  /** Scores the batch; the rows before the start row keep the score they came with. */
  method UpdateModelAnomalyScores(b: Batch, active: bool, initial: Option<Anomaly>, scores: array<real>)
      returns (r: Outcome, ghost p: Plan)
    requires ConfigOk(b.config) && scores.Length == |b.rows|
    modifies scores
    ensures r.MetricNotActive? <==> !active
    ensures !active ==> scores[..] == old(scores[..])
    ensures active ==>
      && PlanOk(b, initial, p)
      && r.anomaly == Known(b, initial, p.start, p.cuts, |b.rows|)
      && ScoredUpTo(b, initial, p, p.start, |b.rows|, old(scores[..]), scores[..])
      && ScoresComplement(b, initial, p, old(scores[..]), scores[..])
  {
    p := Plan(0, [0], {});
    if !active {
      return MetricNotActive, p;
    }
    ghost var before, fetchedAt: nat := scores[..], 0;
    var a, cache: Option<seq<Sample>>, startRowIndex := initial, None, 0;
    if initial.None? {
      a, cache, startRowIndex := InitAnomalyLikelihoodModel(b);
      p := Plan(startRowIndex, [startRowIndex], if cache.Some? then {startRowIndex} else {});
      fetchedAt := startRowIndex;
    }
    while startRowIndex < |b.rows|
      invariant LoopOk(b, initial, p, startRowIndex, a, cache, fetchedAt, before, scores[..])
      decreases |b.rows| - startRowIndex, if cache.None? then 1 else 0
    {
      a, cache, startRowIndex, p, fetchedAt := ProcessRun(b, a.value, cache, startRowIndex, scores, initial, p,
          fetchedAt, before);
    }
    ScoredComplements(b, initial, p, before, scores[..]);
    return Updated(a), p;
  }

  // ----- what lawful plans promise -----

  ghost predicate Contiguous(rows: seq<Sample>) {
    forall i: nat, j: nat | i < j < |rows| :: rows[j].rowId == rows[i].rowId + (j - i)
  }

  /** Every position lies in a run. */
  lemma {:induction false} RunAround(b: Batch, initial: Option<Anomaly>, p: Plan, upTo: nat, k: nat) returns (i: nat)
    requires ConfigOk(b.config) && RunsOk(b, initial, p, upTo) && p.start <= k < upTo
    ensures i < |p.bounds| - 1 && p.bounds[i] <= k < p.bounds[i + 1] && RunAt(b, initial, p, i)
  {
    i := 0;
    while p.bounds[i + 1] <= k
      invariant i < |p.bounds| - 1 && p.bounds[i] <= k
      decreases |p.bounds| - i
    {
      i := i + 1;
    }
    assert RunAt(b, initial, p, i);
  }

  /** A refresh happens only where a run begins or ends. */
  lemma CutIsBound(b: Batch, initial: Option<Anomaly>, p: Plan, k: nat) returns (limit: nat)
    requires ConfigOk(b.config) && PlanOk(b, initial, p) && k in p.cuts && k < |b.rows|
    ensures k < limit && RunOk(b, initial, p, k, limit)
  {
    var i := RunAround(b, initial, p, |b.rows|, k);
    limit := p.bounds[i + 1];
  }

  /** A run begun without enough samples collects them, unless the batch ends first. */
  lemma CollectingRun(b: Batch, initial: Option<Anomaly>, p: Plan, first: nat, limit: nat)
    requires ConfigOk(b.config) && RunOk(b, initial, p, first, limit) && first in p.cuts && TooFew(b, first)
    ensures limit < |b.rows| ==> !TooFew(b, limit)
    ensures Contiguous(b.rows) && limit in p.cuts ==> !TooFew(b, limit)
  {
    if limit == |b.rows| && Contiguous(b.rows) && first < limit - 1 {
      assert b.rows[limit - 1].rowId == b.rows[first].rowId + (limit - 1 - first);
    }
  }

  /**
   * A refresh fails for lack of samples at most once in a batch with contiguous row ids; with gaps
   * it may fail once more, at the very end.
   */
  lemma FailedRefreshes(b: Batch, initial: Option<Anomaly>, p: Plan, k: nat, l: nat)
    requires ConfigOk(b.config) && PlanOk(b, initial, p)
    requires k in p.cuts && l in p.cuts && k < l && TooFew(b, k)
    ensures TooFew(b, l) ==> l == |b.rows| && !Contiguous(b.rows)
  {
    var limit := CutIsBound(b, initial, p, k);
    CollectingRun(b, initial, p, k, limit);
    assert limit <= l;
  }

  /** First statistics never fail, and all later refreshes of that batch succeed too. */
  lemma FirstStatisticsSucceed(b: Batch, p: Plan, k: nat)
    requires ConfigOk(b.config) && PlanOk(b, None, p) && k in p.cuts
    ensures !TooFew(b, k)
  {
  }

  /**
   * What a refresh of a lawful plan leaves: statistics estimated from the latest samples of everything
   * seen so far, no fewer than the minimum and no more than the maximum, or if there are too few the
   * statistics as they were.
   */
  lemma RefreshUses(b: Batch, initial: Option<Anomaly>, p: Plan, k: nat)
    requires ConfigOk(b.config) && PlanOk(b, initial, p) && k in p.cuts
    ensures
      var now := Known(b, initial, p.start, p.cuts, k);
      if TooFew(b, k) then
        now == if k == p.start then initial else Advanced(b, Known(b, initial, p.start, p.cuts, k - 1), k - 1)
      else now.Some? && EstimatedFrom(b, Seen(b, k), now.value)
  {
    var seen := Seen(b, k);
    if !TooFew(b, k) {
      assert Last(seen, b.config.maxSamples) == Tail(seen, Min(|seen|, b.config.maxSamples));
    }
  }

  lemma DueInRun(b: Batch, initial: Option<Anomaly>, p: Plan, first: nat, limit: nat, k: nat)
    requires ConfigOk(b.config) && RunOk(b, initial, p, first, limit) && first < k <= limit && Contiguous(b.rows)
    ensures
      var cutoff := Cutoff(b, Known(b, initial, p.start, p.cuts, first).value, p.cuts, first);
      k in p.cuts <==> b.rows[k - 1].rowId >= cutoff || (k < |b.rows| && Extreme(b, initial, p, first, k))
  {
    if first < k - 1 {
      assert b.rows[k - 1].rowId == b.rows[first].rowId + (k - 1 - first);
    }
  }

  /**
   * With contiguous row ids, each row is followed by a refresh exactly if it reaches the cutoff that held
   * since the last refresh, or since the start, or scores extremely before the batch's end.
   */
  lemma RefreshedWhenDue(b: Batch, initial: Option<Anomaly>, p: Plan, k: nat) returns (first: nat)
    requires ConfigOk(b.config) && PlanOk(b, initial, p) && Contiguous(b.rows) && p.start < k <= |b.rows|
    ensures p.start <= first < k && (forall j | first < j < k :: j !in p.cuts)
    ensures first in p.cuts || first in p.bounds
    ensures Known(b, initial, p.start, p.cuts, first).Some?
    ensures
      var cutoff := Cutoff(b, Known(b, initial, p.start, p.cuts, first).value, p.cuts, first);
      k in p.cuts <==> b.rows[k - 1].rowId >= cutoff || (k < |b.rows| && Extreme(b, initial, p, first, k))
  {
    var i := RunAround(b, initial, p, |b.rows|, k - 1);
    first := p.bounds[i];
    DueInRun(b, initial, p, first, p.bounds[i + 1], k);
  }

  lemma {:induction false} LastRowIdKept(b: Batch, initial: Option<Anomaly>, p: Plan, first: nat, k: nat)
    requires ConfigOk(b.config) && p.start <= first <= k <= |b.rows| && forall j | first < j <= k :: j !in p.cuts
    requires Known(b, initial, p.start, p.cuts, first).Some?
    ensures Known(b, initial, p.start, p.cuts, k).Some?
    ensures Known(b, initial, p.start, p.cuts, k).value.lastRowId
         == Known(b, initial, p.start, p.cuts, first).value.lastRowId
    decreases k
  {
    if first < k {
      LastRowIdKept(b, initial, p, first, k - 1);
    }
  }

  /** A refresh with enough samples dates the statistics at the row just before. */
  lemma RefreshDates(b: Batch, initial: Option<Anomaly>, p: Plan, first: nat)
    requires ConfigOk(b.config) && p.start <= first < |b.rows| && first in p.cuts && !TooFew(b, first)
    requires Contiguous(b.history + b.rows)
    ensures Known(b, initial, p.start, p.cuts, first).Some?
    ensures Known(b, initial, p.start, p.cuts, first).value.lastRowId == b.rows[first].rowId - 1
  {
    var all, n := b.history + b.rows, |b.history| + first;
    assert all[n] == b.rows[first];
    assert Seen(b, first) == all[..n] && Seen(b, first)[n - 1] == all[n - 1];
  }

  lemma RowsContiguous(b: Batch)
    requires Contiguous(b.history + b.rows)
    ensures Contiguous(b.rows)
  {
    var all, n := b.history + b.rows, |b.history|;
    forall i: nat, j: nat | i < j < |b.rows|
      ensures b.rows[j].rowId == b.rows[i].rowId + (j - i)
    {
      assert all[n + i] == b.rows[i] && all[n + j] == b.rows[j];
    }
  }

  /** How many rows on from the last one its statistics saw row k is. */
  ghost function Since(b: Batch, initial: Option<Anomaly>, p: Plan, k: nat): int
    requires ConfigOk(b.config) && p.start <= k < |b.rows| && Known(b, initial, p.start, p.cuts, k).Some?
  {
    b.rows[k].rowId - Known(b, initial, p.start, p.cuts, k).value.lastRowId
  }

  /** The samples lead up to the batch without gaps, and old statistics rest on enough of them, none of the batch. */
  ghost predicate Ordinary(b: Batch, initial: Option<Anomaly>) {
    && Contiguous(b.history + b.rows)
    && (initial.Some? ==> !TooFew(b, 0) && (b.rows != [] ==> initial.value.lastRowId < b.rows[0].rowId))
  }

  /** The run that row k is in, and the statistics it began with. */
  lemma OrdinaryRun(b: Batch, initial: Option<Anomaly>, p: Plan, k: nat) returns (first: nat, limit: nat)
    requires ConfigOk(b.config) && PlanOk(b, initial, p) && p.start <= k < |b.rows| && Ordinary(b, initial)
    ensures first <= k < limit && RunOk(b, initial, p, first, limit) && Contiguous(b.rows)
    ensures Known(b, initial, p.start, p.cuts, first).Some? && Known(b, initial, p.start, p.cuts, k).Some?
    ensures Known(b, initial, p.start, p.cuts, k).value.lastRowId
         == Known(b, initial, p.start, p.cuts, first).value.lastRowId
    ensures first in p.cuts ==> !TooFew(b, first) && Since(b, initial, p, first) == 1
    ensures first !in p.cuts ==> initial.Some? && first == 0 == p.start
    ensures Since(b, initial, p, k) == Since(b, initial, p, first) + (k - first)
  {
    var i := RunAround(b, initial, p, |b.rows|, k);
    first, limit := p.bounds[i], p.bounds[i + 1];
    RowsContiguous(b);
    if first in p.cuts {
      if initial.None? {
        FirstStatisticsSucceed(b, p, first);
      }
      RefreshDates(b, initial, p, first);
    } else if i > 0 {
      EveryLaterRunRefreshed(b, initial, p, i);
    }
    LastRowIdKept(b, initial, p, first, k);
    if first < k {
      assert b.rows[k].rowId == b.rows[first].rowId + (k - first);
    }
  }

  /** Every run but the first begins with a refresh. */
  lemma EveryLaterRunRefreshed(b: Batch, initial: Option<Anomaly>, p: Plan, i: nat)
    requires ConfigOk(b.config) && PlanOk(b, initial, p) && 0 < i < |p.bounds| && p.bounds[i] < |b.rows|
    ensures p.bounds[i] in p.cuts
  {
    assert RunAt(b, initial, p, i - 1);
  }

  /**
   * Statistics stay fresh: each row is scored with statistics no older than a tenth of the batch or the
   * configured interval, whichever is more.
   */
  lemma StatisticsStayFresh(b: Batch, initial: Option<Anomaly>, p: Plan, k: nat)
    requires ConfigOk(b.config) && PlanOk(b, initial, p) && p.start <= k < |b.rows|
    requires Contiguous(b.history + b.rows) && (initial.Some? ==> !TooFew(b, 0))
    ensures Known(b, initial, p.start, p.cuts, k).Some?
    ensures
      var since := Since(b, initial, p, k);
      since <= 1 || since <= b.config.minRefresh || since <= |b.rows| / 10
  {
    var i := RunAround(b, initial, p, |b.rows|, k);
    var first := p.bounds[i];
    RowsContiguous(b);
    if first in p.cuts {
      if initial.None? {
        FirstStatisticsSucceed(b, p, first);
      }
      RefreshDates(b, initial, p, first);
    }
    LastRowIdKept(b, initial, p, first, k);
    if first < k {
      assert b.rows[k].rowId == b.rows[first].rowId + (k - first);
    }
  }

  lemma ExtremeScore(b: Batch, initial: Option<Anomaly>, p: Plan, first: nat, k: nat)
    requires ConfigOk(b.config) && p.start <= first < k <= |b.rows| && !TooFew(b, k)
    requires Known(b, initial, p.start, p.cuts, k - 1).Some?
    ensures
      var likelihood := Likelihood(b, initial, p, k - 1);
      Extreme(b, initial, p, first, k) <==> 1.0 - likelihood > 0.99 && Since(b, initial, p, k - 1) > 3
  {
  }

  lemma EnoughSamples(b: Batch, initial: Option<Anomaly>, p: Plan, k: nat)
    requires ConfigOk(b.config) && PlanOk(b, initial, p) && p.start <= k <= |b.rows| && p.start < |b.rows|
    requires initial.Some? ==> !TooFew(b, 0)
    ensures !TooFew(b, k)
  {
  }

  /** A row reaches the cut-off of its run exactly if both intervals have passed. */
  lemma CutoffSince(b: Batch, initial: Option<Anomaly>, p: Plan, first: nat, k: nat)
    requires ConfigOk(b.config) && p.start <= first < k <= |b.rows|
    requires Known(b, initial, p.start, p.cuts, first).Some? && Known(b, initial, p.start, p.cuts, k - 1).Some?
    requires Known(b, initial, p.start, p.cuts, k - 1).value.lastRowId
          == Known(b, initial, p.start, p.cuts, first).value.lastRowId
    requires first in p.cuts ==> !TooFew(b, first) && Since(b, initial, p, first) == 1
    requires Since(b, initial, p, k - 1) == Since(b, initial, p, first) + (k - 1 - first)
    ensures
      var cutoff := Cutoff(b, Known(b, initial, p.start, p.cuts, first).value, p.cuts, first);
      var since := Since(b, initial, p, k - 1);
      b.rows[k - 1].rowId >= cutoff <==> since >= b.config.minRefresh && since >= |b.rows| / 10
  {
  }

  lemma RefreshedInRun(b: Batch, initial: Option<Anomaly>, p: Plan, first: nat, k: nat)
    requires ConfigOk(b.config) && p.start <= first < k <= |b.rows| && !TooFew(b, k)
    requires Known(b, initial, p.start, p.cuts, first).Some? && Known(b, initial, p.start, p.cuts, k - 1).Some?
    requires Known(b, initial, p.start, p.cuts, k - 1).value.lastRowId
          == Known(b, initial, p.start, p.cuts, first).value.lastRowId
    requires first in p.cuts ==> !TooFew(b, first) && Since(b, initial, p, first) == 1
    requires Since(b, initial, p, k - 1) == Since(b, initial, p, first) + (k - 1 - first)
    requires
      var cutoff := Cutoff(b, Known(b, initial, p.start, p.cuts, first).value, p.cuts, first);
      k in p.cuts <==> b.rows[k - 1].rowId >= cutoff || (k < |b.rows| && Extreme(b, initial, p, first, k))
    ensures
      var since, likelihood := Since(b, initial, p, k - 1), Likelihood(b, initial, p, k - 1);
      k in p.cuts <==>
        || (since >= b.config.minRefresh && since >= |b.rows| / 10)
        || (k < |b.rows| && 1.0 - likelihood > 0.99 && since > 3)
  {
    CutoffSince(b, initial, p, first, k);
    ExtremeScore(b, initial, p, first, k);
  }

  /** The run that row k - 1 is in decides on a refresh after it. */
  lemma DueAt(b: Batch, initial: Option<Anomaly>, p: Plan, k: nat) returns (first: nat)
    requires ConfigOk(b.config) && PlanOk(b, initial, p) && p.start < k <= |b.rows| && Ordinary(b, initial)
    ensures p.start <= first < k && !TooFew(b, k)
    ensures Known(b, initial, p.start, p.cuts, first).Some? && Known(b, initial, p.start, p.cuts, k - 1).Some?
    ensures Known(b, initial, p.start, p.cuts, k - 1).value.lastRowId
         == Known(b, initial, p.start, p.cuts, first).value.lastRowId
    ensures first in p.cuts ==> !TooFew(b, first) && Since(b, initial, p, first) == 1
    ensures Since(b, initial, p, k - 1) == Since(b, initial, p, first) + (k - 1 - first)
    ensures
      var cutoff := Cutoff(b, Known(b, initial, p.start, p.cuts, first).value, p.cuts, first);
      k in p.cuts <==> b.rows[k - 1].rowId >= cutoff || (k < |b.rows| && Extreme(b, initial, p, first, k))
  {
    var limit;
    first, limit := OrdinaryRun(b, initial, p, k - 1);
    DueInRun(b, initial, p, first, limit, k);
    EnoughSamples(b, initial, p, k);
  }

  /**
   * When statistics are refreshed, exactly: after a row that comes at least the configured interval and a
   * tenth of the batch after the last sample they saw, or before the batch's end after a row that scores
   * above 0.99 more than 3 rows after it; after no other.
   */
  lemma RefreshedExactlyWhen(b: Batch, initial: Option<Anomaly>, p: Plan, k: nat)
    requires ConfigOk(b.config) && PlanOk(b, initial, p) && p.start < k <= |b.rows| && Ordinary(b, initial)
    ensures Known(b, initial, p.start, p.cuts, k - 1).Some?
    ensures
      var since, likelihood := Since(b, initial, p, k - 1), Likelihood(b, initial, p, k - 1);
      k in p.cuts <==>
        || (since >= b.config.minRefresh && since >= |b.rows| / 10)
        || (k < |b.rows| && 1.0 - likelihood > 0.99 && since > 3)
  {
    var first := DueAt(b, initial, p, k);
    RefreshedInRun(b, initial, p, first, k);
  }

  /** At the start, exactly if the first row comes more than both intervals after the last sample they saw. */
  lemma RefreshedAtStart(b: Batch, a: Anomaly, p: Plan)
    requires ConfigOk(b.config) && PlanOk(b, Some(a), p) && b.rows != []
    ensures
      var since := b.rows[0].rowId - a.lastRowId;
      0 in p.cuts <==> since > b.config.minRefresh && since > |b.rows| / 10
  {
  }

  /** After a refresh that failed for lack of samples the next one comes as soon as there are enough. */
  lemma CatchesUp(b: Batch, initial: Option<Anomaly>, p: Plan, k: nat, l: nat)
    requires ConfigOk(b.config) && PlanOk(b, initial, p) && Contiguous(b.rows)
    requires k in p.cuts && TooFew(b, k) && k < l <= |b.rows| && |b.history| + l <= b.config.minSamples
    ensures l in p.cuts <==> |b.history| + l == b.config.minSamples
  {
    var limit := CutIsBound(b, initial, p, k);
    assert limit <= b.config.minSamples - |b.history|;
    if l == limit && k < limit - 1 {
      assert b.rows[limit - 1].rowId == b.rows[k].rowId + (limit - 1 - k);
    }
  }

  // ----- what a score is -----

  /** Between refreshes each row carries the statistics on by what the estimator makes of it. */
  lemma RowAdvances(b: Batch, initial: Option<Anomaly>, p: Plan, k: nat)
    requires ConfigOk(b.config) && p.start <= k < |b.rows| && k + 1 !in p.cuts
    requires Known(b, initial, p.start, p.cuts, k).Some?
    ensures
      var now, next := Known(b, initial, p.start, p.cuts, k).value, Known(b, initial, p.start, p.cuts, k + 1);
      next == Some(Anomaly(now.lastRowId, b.estimator.update(b.rows[k].data, now.params).1))
  {
  }

  lemma AlwaysKnown(b: Batch, initial: Option<Anomaly>, p: Plan, k: nat)
    requires ConfigOk(b.config) && PlanOk(b, initial, p) && p.start <= k < |b.rows|
    ensures Known(b, initial, p.start, p.cuts, k).Some?
  {
    var i := RunAround(b, initial, p, |b.rows|, k);
    LastRowIdKept(b, initial, p, p.bounds[i], k);
  }

  /** The likelihood the estimator gives row k under the statistics known then. */
  ghost function Likelihood(b: Batch, initial: Option<Anomaly>, p: Plan, k: nat): real
    requires ConfigOk(b.config) && p.start <= k < |b.rows| && Known(b, initial, p.start, p.cuts, k).Some?
  {
    b.estimator.update(b.rows[k].data, Known(b, initial, p.start, p.cuts, k).value.params).0
  }

  /** Each row from the start row on scores what is missing of its likelihood to 1; the others keep their score. */
  ghost predicate ScoresComplement(b: Batch, initial: Option<Anomaly>, p: Plan, before: seq<real>, now: seq<real>)
    requires ConfigOk(b.config) && p.start <= |b.rows| == |before| == |now|
  {
    && (forall k: nat | p.start <= k < |b.rows| ::
          Known(b, initial, p.start, p.cuts, k).Some? && now[k] + Likelihood(b, initial, p, k) == 1.0)
    && (forall k: nat | k < p.start :: now[k] == before[k])
  }

  lemma ScoredComplements(b: Batch, initial: Option<Anomaly>, p: Plan, before: seq<real>, now: seq<real>)
    requires ConfigOk(b.config) && PlanOk(b, initial, p) && |b.rows| == |before| == |now|
    requires ScoredUpTo(b, initial, p, p.start, |b.rows|, before, now)
    ensures ScoresComplement(b, initial, p, before, now)
  {
    forall k: nat | p.start <= k < |b.rows|
      ensures Known(b, initial, p.start, p.cuts, k).Some? && now[k] + Likelihood(b, initial, p, k) == 1.0
    {
      AlwaysKnown(b, initial, p, k);
    }
  }

  /** A less likely row never scores lower. */
  lemma LessLikelyScoresHigher(b: Batch, initial: Option<Anomaly>, p: Plan, before: seq<real>, now: seq<real>,
                               k: nat, l: nat)
    requires ConfigOk(b.config) && PlanOk(b, initial, p) && |b.rows| == |before| == |now|
    requires ScoredUpTo(b, initial, p, p.start, |b.rows|, before, now)
    requires p.start <= k < |b.rows| && p.start <= l < |b.rows|
    ensures Known(b, initial, p.start, p.cuts, k).Some? && Known(b, initial, p.start, p.cuts, l).Some?
    ensures Likelihood(b, initial, p, k) <= Likelihood(b, initial, p, l) <==> now[k] >= now[l]
  {
    ScoredComplements(b, initial, p, before, now);
  }

  /** Scoring starts with the first row at which there are enough samples, or at once with statistics at hand. */
  lemma StartsAsSoonAsPossible(b: Batch, initial: Option<Anomaly>, p: Plan)
    requires ConfigOk(b.config) && PlanOk(b, initial, p)
    ensures initial.Some? ==> p.start == 0
    ensures initial.None? ==>
      && (p.start > 0 ==> |b.history| + p.start - 1 < b.config.minSamples)
      && (p.start < |b.rows| ==> |b.history| + p.start >= b.config.minSamples)
  {
  }
}
