/** The rows of one metric, how samples become rows, and what every change to the table keeps. */
module MetricTable {
  import opened Basics

  type Value(!new,==)

  datatype Status = Unmonitored | Active | CreatePending | Errored | StaticNow | PendingData

  datatype Sample = Sample(timestamp: int, value: Value)

  datatype Row = Row(rowId: int, timestamp: int, value: Value)

  /** rows in row-id order; older ones may have been purged. */
  datatype Metric = Metric(status: Status, lastRowId: nat, rows: seq<Row>)

  /** Row ids run without gaps up to the last one handed out, and later rows are younger. */
  ghost predicate TableOk(m: Metric) {
    && |m.rows| <= m.lastRowId
    && (forall i | 0 <= i < |m.rows| :: m.rows[i].rowId == m.lastRowId - |m.rows| + i + 1)
    && (forall i, j | 0 <= i < j < |m.rows| :: m.rows[i].timestamp < m.rows[j].timestamp)
  }

  ghost predicate NothingPurged(m: Metric) { |m.rows| == m.lastRowId }

  function LastTimestamp(m: Metric): Option<int> {
    if m.rows == [] then None else Some(m.rows[|m.rows| - 1].timestamp)
  }

  // ----- which samples are kept -----

  predicate Later(timestamp: int, tail: Option<int>) { tail.None? || timestamp > tail.value }

  /** Sample i is younger than the tail and than every sample before it. */
  ghost predicate Fresh(tail: Option<int>, data: seq<Sample>, i: nat)
    requires i < |data|
  {
    Later(data[i].timestamp, tail) && forall j | 0 <= j < i :: data[j].timestamp < data[i].timestamp
  }

  ghost function Kept(tail: Option<int>, data: seq<Sample>): seq<Sample> {
    if data == [] then []
    else
      var n := |data| - 1;
      Kept(tail, data[..n]) + (if Fresh(tail, data, n) then [data[n]] else [])
  }

  /** The youngest timestamp seen. */
  ghost predicate Youngest(tail: Option<int>, data: seq<Sample>, youngest: Option<int>) {
    && (youngest.None? <==> tail.None? && data == [])
    && (youngest.Some? ==>
          && (tail.Some? ==> tail.value <= youngest.value)
          && (forall i | 0 <= i < |data| :: data[i].timestamp <= youngest.value)
          && (youngest == tail || exists i :: 0 <= i < |data| && data[i].timestamp == youngest.value))
  }

  ghost function TailAfter(tail: Option<int>, data: seq<Sample>): Option<int> {
    var kept := Kept(tail, data);
    if kept == [] then tail else Some(kept[|kept| - 1].timestamp)
  }

  lemma {:induction false} TailIsYoungest(tail: Option<int>, data: seq<Sample>)
    ensures Youngest(tail, data, TailAfter(tail, data))
    decreases |data|
  {
    if data != [] {
      var n := |data| - 1;
      TailIsYoungest(tail, data[..n]);
      if Fresh(tail, data, n) {
        assert data[n].timestamp == TailAfter(tail, data).value;
      }
    }
  }

  /** Kept samples are in strictly increasing order and all younger than the tail. */
  lemma {:induction false} KeptIncreases(tail: Option<int>, data: seq<Sample>)
    ensures forall i, j | 0 <= i < j < |Kept(tail, data)| ::
        Kept(tail, data)[i].timestamp < Kept(tail, data)[j].timestamp
    ensures forall i | 0 <= i < |Kept(tail, data)| :: Later(Kept(tail, data)[i].timestamp, tail)
    decreases |data|
  {
    if data != [] {
      var init := data[..|data| - 1];
      KeptIncreases(tail, init);
      KeptComesFrom(tail, init);
      forall i | 0 <= i < |Kept(tail, init)| && Fresh(tail, data, |data| - 1)
        ensures Kept(tail, init)[i].timestamp < data[|data| - 1].timestamp
      {
        assert Kept(tail, init)[i] in init;
        var j :| 0 <= j < |init| && init[j] == Kept(tail, init)[i];
        assert data[j].timestamp < data[|data| - 1].timestamp;
      }
    }
  }

  lemma {:induction false} KeptComesFrom(tail: Option<int>, data: seq<Sample>)
    ensures forall s | s in Kept(tail, data) :: s in data
    decreases |data|
  {
    if data != [] {
      KeptComesFrom(tail, data[..|data| - 1]);
    }
  }

  /** A sample is kept exactly if it, or one just like it, is younger than the tail and all samples before. */
  lemma {:induction false} KeptIffFresh(tail: Option<int>, data: seq<Sample>, sample: Sample)
    ensures sample in Kept(tail, data) <==> exists i :: 0 <= i < |data| && data[i] == sample && Fresh(tail, data, i)
    decreases |data|
  {
    if data != [] {
      var n := |data| - 1;
      var init := data[..n];
      KeptIffFresh(tail, init, sample);
      assert forall i | 0 <= i < n :: init[i] == data[i];
      assert forall i | 0 <= i < n :: Fresh(tail, init, i) <==> Fresh(tail, data, i);
    }
  }

  /** What was stored once is never stored again: any samples no younger than the tail are all dropped. */
  lemma {:induction false} NothingOldKept(tail: Option<int>, data: seq<Sample>)
    requires tail.Some? && forall i | 0 <= i < |data| :: data[i].timestamp <= tail.value
    ensures Kept(tail, data) == []
    decreases |data|
  {
    if data != [] {
      NothingOldKept(tail, data[..|data| - 1]);
    }
  }

  /** Redelivering a batch, or any part of it in any order, stores nothing. */
  lemma RedeliveryKeepsNothing(tail: Option<int>, data: seq<Sample>, again: seq<Sample>)
    requires forall s | s in again :: s in data
    ensures Kept(TailAfter(tail, data), again) == []
  {
    TailIsYoungest(tail, data);
    forall i | 0 <= i < |again|
      ensures exists j :: 0 <= j < |data| && data[j].timestamp == again[i].timestamp
    {
      assert again[i] in data;
    }
    if again != [] {
      assert again[0] in data;
      NothingOldKept(TailAfter(tail, data), again);
    }
  }

  // ----- storing -----

  function NumberedFrom(first: int, samples: seq<Sample>): (rows: seq<Row>)
    ensures |rows| == |samples|
    ensures forall i | 0 <= i < |rows| :: rows[i] == Row(first + i, samples[i].timestamp, samples[i].value)
  {
    seq(|samples|, i requires 0 <= i < |samples| => Row(first + i, samples[i].timestamp, samples[i].value))
  }

  function Stored(m: Metric, samples: seq<Sample>): Metric {
    m.(lastRowId := m.lastRowId + |samples|, rows := m.rows + NumberedFrom(m.lastRowId + 1, samples))
  }

  lemma StoredNothing(m: Metric)
    ensures Stored(m, []) == m
  {
    assert m.rows + NumberedFrom(m.lastRowId + 1, []) == m.rows;
  }

  /** The tail timestamp that scrubbing starts from: the cached one, else that of row lastRowId. */
  function TailFor(m: Metric, cached: Option<int>): Option<int> { if cached.Some? then cached else LastTimestamp(m) }

  /** A cached timestamp is that of the last row, if that row is still there. */
  ghost predicate CacheAgrees(m: Metric, cached: Option<int>) {
    cached.Some? && m.rows != [] ==> LastTimestamp(m) == cached
  }

  lemma AppendingKeepsTable(m: Metric, samples: seq<Sample>)
    requires TableOk(m)
    requires forall i, j | 0 <= i < j < |samples| :: samples[i].timestamp < samples[j].timestamp
    requires m.rows != [] ==> forall i | 0 <= i < |samples| :: samples[i].timestamp > m.rows[|m.rows| - 1].timestamp
    ensures TableOk(Stored(m, samples)) && (NothingPurged(m) ==> NothingPurged(Stored(m, samples)))
  {
  }

  /** Storing what scrubbing kept preserves the order of the table and the cache's agreement with it. */
  lemma StoringKeepsTable(m: Metric, cached: Option<int>, data: seq<Sample>)
    requires TableOk(m) && CacheAgrees(m, cached)
    ensures
      var tail := TailFor(m, cached);
      var m' := Stored(m, Kept(tail, data));
      && TableOk(m') && (NothingPurged(m) ==> NothingPurged(m'))
      && CacheAgrees(m', TailAfter(tail, data))
  {
    var tail := TailFor(m, cached);
    KeptIncreases(tail, data);
    AppendingKeepsTable(m, Kept(tail, data));
  }

  /** A batch that comes again is dropped, from the cache or, unless everything was purged, from the table. */
  lemma RedeliveryStoresNothing(m: Metric, cached: Option<int>, data: seq<Sample>)
    requires TableOk(m) && CacheAgrees(m, cached)
    ensures
      var tail := TailFor(m, cached);
      var m' := Stored(m, Kept(tail, data));
      && Kept(TailFor(m', TailAfter(tail, data)), data) == []
      && (m'.rows != [] ==> Kept(TailFor(m', None), data) == [])
  {
    var tail := TailFor(m, cached);
    var kept := Kept(tail, data);
    var m' := Stored(m, kept);
    RedeliveryKeepsNothing(tail, data, data);
    TailIsYoungest(tail, data);
    if kept != [] {
      assert m'.rows[|m'.rows| - 1].timestamp == kept[|kept| - 1].timestamp;
    }
    assert m'.rows != [] ==> LastTimestamp(m') == TailAfter(tail, data);
  }
}

/** The metric streamer: scrubbing, storing and forwarding samples, with its cache of tail timestamps. */
module MetricStreaming {
  import opened Basics
  import opened MetricTable

  type MetricId = string

  const MODEL_CREATION_RECORD_THRESHOLD: nat := 288

  /** The metric and metric_data tables, for one metric an entry. */
  class Repository {
    var metrics: map<MetricId, Metric>

    constructor ()
      ensures metrics == map[]
    {
      metrics := map[];
    }

    /** Hands out the next row ids and returns the last of them. */
    method IncrementMetricRowId(id: MetricId, amount: nat) returns (lastRowId: nat)
      requires id in metrics && amount >= 1
      modifies this
      ensures lastRowId == old(metrics)[id].lastRowId + amount
      ensures metrics == old(metrics)[id := old(metrics)[id].(lastRowId := lastRowId)]
    {
      lastRowId := metrics[id].lastRowId + amount;
      metrics := metrics[id := metrics[id].(lastRowId := lastRowId)];
    }

    /** Adds a row for each sample, numbered on from the last row id. */
    method AddMetricData(id: MetricId, data: seq<Sample>) returns (rows: seq<Row>)
      requires id in metrics
      modifies this
      ensures rows == NumberedFrom(old(metrics)[id].lastRowId + 1, data)
      ensures metrics == old(metrics)[id := Stored(old(metrics)[id], data)]
    {
      if |data| == 0 {
        StoredNothing(metrics[id]);
        return [];
      }
      var lastRowId := IncrementMetricRowId(id, |data|);
      rows := [];
      for i := 0 to |data|
        invariant |rows| == i
        invariant forall j | 0 <= j < i ::
          rows[j] == Row(lastRowId - |data| + 1 + j, data[j].timestamp, data[j].value)
      {
        rows := rows + [Row(lastRowId - |data| + 1 + i, data[i].timestamp, data[i].value)];
      }
      metrics := metrics[id := metrics[id].(rows := metrics[id].rows + rows)];
    }

    /** The timestamp of the row with this id, if there is one. */
    method TimestampByRowId(id: MetricId, rowId: int) returns (timestamp: Option<int>)
      requires id in metrics && TableOk(metrics[id])
      ensures rowId == metrics[id].lastRowId ==> timestamp == LastTimestamp(metrics[id])
    {
      var rows := metrics[id].rows;
      for i := 0 to |rows|
        invariant forall j | 0 <= j < i :: rows[j].rowId != rowId
      {
        if rows[i].rowId == rowId {
          return Some(rows[i].timestamp);
        }
      }
      return None;
    }
  }

  /** What the streamer does with the rows it stored. */
  datatype Action = Nothing | Activate | Forward(rows: seq<Row>)

  function ActionFor(status: Status, lastRowId: nat, rows: seq<Row>): Action {
    if rows == [] then Nothing
    else if status.PendingData? then (if lastRowId >= MODEL_CREATION_RECORD_THRESHOLD then Activate else Nothing)
    else if status.CreatePending? || status.Active? then Forward(rows)
    else Nothing
  }

  /** What becomes of new rows, by the metric's status; a model needs a day of 5-minute samples to start. */
  lemma ActionByStatus(status: Status, lastRowId: nat, rows: seq<Row>)
    ensures ActionFor(status, lastRowId, rows).Activate? <==> rows != [] && status.PendingData? && lastRowId >= 288
    ensures ActionFor(status, lastRowId, rows) == Forward(rows) <==>
      rows != [] && (status.CreatePending? || status.Active?)
    ensures rows == [] || status.Unmonitored? ==> ActionFor(status, lastRowId, rows).Nothing?
  {
  }

  predicate Streamable(status: Status) {
    status.Unmonitored? || status.Active? || status.PendingData? || status.CreatePending?
  }

  function Batches(rows: seq<Row>, size: nat): (batches: seq<seq<Row>>)
    requires size >= 1
    decreases |rows|
  {
    if rows == [] then []
    else if |rows| <= size then [rows]
    else [rows[..size]] + Batches(rows[size..], size)
  }

  function Concat(batches: seq<seq<Row>>): seq<Row> {
    if batches == [] then [] else batches[0] + Concat(batches[1..])
  }

  /** Slicing loses nothing and reorders nothing; every batch but the last has exactly the size. */
  lemma {:induction false} BatchesConcat(rows: seq<Row>, size: nat)
    requires size >= 1
    ensures Concat(Batches(rows, size)) == rows
    ensures forall b | b in Batches(rows, size) :: 1 <= |b| <= size
    ensures forall i | 0 <= i < |Batches(rows, size)| - 1 :: |Batches(rows, size)[i]| == size
    decreases |rows|
  {
    if |rows| > size {
      BatchesConcat(rows[size..], size);
      assert Batches(rows, size)[1..] == Batches(rows[size..], size);
      assert rows[..size] + rows[size..] == rows;
    } else if rows != [] {
      assert Batches(rows, size)[1..] == [];
    }
  }

  lemma BatchesStep(rows: seq<Row>, size: nat)
    requires size >= 1 && rows != []
    ensures Batches(rows, size) == [rows[..Min(size, |rows|)]] + Batches(rows[Min(size, |rows|)..], size)
  {
    if |rows| <= size {
      assert rows[..|rows|] == rows && rows[|rows|..] == [];
    }
  }

  /** The input queues of the models, as batches submitted so far. */
  class ModelSwapper {
    var inputs: map<MetricId, seq<seq<Row>>>

    constructor ()
      ensures inputs == map[]
    {
      inputs := map[];
    }

    function Submitted(id: MetricId): seq<seq<Row>>
      reads this
    {
      if id in inputs then inputs[id] else []
    }

    /** False when the model has no input queue. */
    method SubmitRequests(id: MetricId, batch: seq<Row>) returns (found: bool)
      modifies this
      ensures found <==> id in old(inputs)
      ensures inputs == if found then old(inputs)[id := old(inputs)[id] + [batch]] else old(inputs)
    {
      found := id in inputs;
      if found {
        inputs := inputs[id := inputs[id] + [batch]];
      }
    }
  }

  function CachedIn(tails: map<MetricId, int>, id: MetricId): Option<int> {
    if id in tails then Some(tails[id]) else None
  }

  /** Every table is in order and no cached timestamp contradicts its table. */
  ghost predicate TablesOk(metrics: map<MetricId, Metric>, tails: map<MetricId, int>) {
    forall id | id in metrics :: TableOk(metrics[id]) && CacheAgrees(metrics[id], CachedIn(tails, id))
  }

  lemma TablesStayOk(metrics: map<MetricId, Metric>, tails: map<MetricId, int>, id: MetricId, m: Metric, timestamp: int)
    requires TablesOk(metrics, tails) && TableOk(m) && CacheAgrees(m, Some(timestamp))
    ensures TablesOk(metrics[id := m], tails[id := timestamp])
  {
  }

  class MetricStreamer {
    const chunkSize: nat
    const repository: Repository
    const swapper: ModelSwapper
    var tailTimestamps: map<MetricId, int>

    constructor (chunkSize: nat, repository: Repository, swapper: ModelSwapper)
      requires chunkSize >= 1
      ensures tailTimestamps == map[] && this.chunkSize == chunkSize
      ensures this.repository == repository && this.swapper == swapper
    {
      this.chunkSize, this.repository, this.swapper := chunkSize, repository, swapper;
      tailTimestamps := map[];
    }

    function Cached(id: MetricId): Option<int>
      reads this
    {
      CachedIn(tailTimestamps, id)
    }

    ghost predicate Valid()
      reads this, repository
    {
      chunkSize >= 1 && TablesOk(repository.metrics, tailTimestamps)
    }

    /** expired: it is time to drop the cache. */
    method GetTailMetricRowTimestamp(id: MetricId, expired: bool) returns (timestamp: Option<int>)
      requires Valid() && id in repository.metrics
      modifies this
      ensures Valid()
      ensures timestamp == TailFor(repository.metrics[id], if expired then None else old(Cached(id))) == Cached(id)
      ensures tailTimestamps - {id} == if expired then map[] else old(tailTimestamps) - {id}
    {
      if expired {
        tailTimestamps := map[];
      }
      if id in tailTimestamps {
        timestamp := Some(tailTimestamps[id]);
      } else {
        timestamp := repository.TimestampByRowId(id, repository.metrics[id].lastRowId);
        if timestamp.Some? {
          TablesStayOk(repository.metrics, tailTimestamps, id, repository.metrics[id], timestamp.value);
          assert repository.metrics[id := repository.metrics[id]] == repository.metrics;
          tailTimestamps := tailTimestamps[id := timestamp.value];
        }
      }
    }

    /** Drops samples that are not younger than the tail and than all samples before them. */
    method ScrubDataSamples(data: seq<Sample>, tail: Option<int>) returns (passing: seq<Sample>)
      ensures passing == Kept(tail, data)
    {
      passing := [];
      var prev := tail;
      for i := 0 to |data|
        invariant passing == Kept(tail, data[..i]) && prev == TailAfter(tail, data[..i])
      {
        TailIsYoungest(tail, data[..i]);
        assert data[..i + 1][..i] == data[..i];
        ScrubOne(tail, data, i, prev);
        if prev.Some? && data[i].timestamp < prev.value {
        } else if prev == Some(data[i].timestamp) {
        } else {
          passing := passing + [data[i]];
          prev := Some(data[i].timestamp);
        }
      }
      assert data[..|data|] == data;
    }

    lemma ScrubOne(tail: Option<int>, data: seq<Sample>, i: nat, prev: Option<int>)
      requires i < |data| && Youngest(tail, data[..i], prev)
      ensures Fresh(tail, data[..i + 1], i) <==> prev.None? || data[i].timestamp > prev.value
    {
      assert forall j | 0 <= j <= i :: data[..i + 1][j] == data[j];
      assert forall j | 0 <= j < i :: data[..i][j] == data[j];
    }

    /** Stores samples that passed scrubbing and remembers their last timestamp. */
    method StoreDataSamples(data: seq<Sample>, id: MetricId) returns (rows: seq<Row>)
      requires id in repository.metrics && data != []
      modifies this, repository
      ensures rows == NumberedFrom(old(repository.metrics)[id].lastRowId + 1, data)
      ensures repository.metrics == old(repository.metrics)[id := Stored(old(repository.metrics)[id], data)]
      ensures tailTimestamps == old(tailTimestamps)[id := data[|data| - 1].timestamp]
    {
      rows := repository.AddMetricData(id, data);
      tailTimestamps := tailTimestamps[id := rows[|rows| - 1].timestamp];
    }

    /** Stores the samples that pass scrubbing. */
    method StorePassing(data: seq<Sample>, id: MetricId, expired: bool) returns (rows: seq<Row>)
      requires Valid() && id in repository.metrics
      modifies this, repository
      ensures Valid()
      ensures
        var m := old(repository.metrics)[id];
        var tail := TailFor(m, if expired then None else old(Cached(id)));
        && rows == NumberedFrom(m.lastRowId + 1, Kept(tail, data))
        && repository.metrics == old(repository.metrics)[id := Stored(m, Kept(tail, data))]
        && Cached(id) == TailAfter(tail, data)
    {
      ghost var m := repository.metrics[id];
      StoringKeepsTable(m, if expired then None else Cached(id), data);
      var tail := GetTailMetricRowTimestamp(id, expired);
      var passing := ScrubDataSamples(data, tail);
      rows := [];
      if passing == [] {
        StoredNothing(m);
      } else {
        TablesStayOk(repository.metrics, tailTimestamps, id, Stored(m, passing), passing[|passing| - 1].timestamp);
        rows := StoreDataSamples(passing, id);
      }
    }

    /** The storing transaction; None when the metric's status does not allow streaming. */
    method StoreData(data: seq<Sample>, id: MetricId, expired: bool) returns (rows: Option<seq<Row>>)
      requires Valid() && id in repository.metrics
      modifies this, repository
      ensures Valid()
      ensures
        var m := old(repository.metrics)[id];
        var tail := TailFor(m, if expired then None else old(Cached(id)));
        if Streamable(m.status)
        then rows == Some(NumberedFrom(m.lastRowId + 1, Kept(tail, data)))
             && repository.metrics == old(repository.metrics)[id := Stored(m, Kept(tail, data))]
             && Cached(id) == TailAfter(tail, data)
        else rows == None && repository.metrics == old(repository.metrics) && tailTimestamps == old(tailTimestamps)
    {
      if !Streamable(repository.metrics[id].status) {
        return None;
      }
      var stored := StorePassing(data, id, expired);
      return Some(stored);
    }

    /** Submits rows in slices, in order, until done or the model is gone. */
    method SendInputRowsToModel(rows: seq<Row>, id: MetricId)
      requires chunkSize >= 1
      modifies swapper
      ensures id in old(swapper.inputs) ==>
        swapper.inputs == old(swapper.inputs)[id := old(swapper.inputs)[id] + Batches(rows, chunkSize)]
      ensures id !in old(swapper.inputs) ==> swapper.inputs == old(swapper.inputs)
    {
      ghost var before := swapper.inputs;
      var i := 0;
      while i < |rows|
        invariant 0 <= i
        invariant id !in before ==> i == 0 && swapper.inputs == before
        invariant id in before ==> SentSoFar(before, swapper.inputs, id, rows, i)
      {
        BatchesStep(rows[i..], chunkSize);
        SliceOfRest(rows, i, chunkSize);
        var batch := rows[i..Min(i + chunkSize, |rows|)];
        var found := swapper.SubmitRequests(id, batch);
        if !found {
          return;
        }
        i := i + chunkSize;
      }
      if id in before {
        assert rows[Min(i, |rows|)..] == [];
        assert swapper.inputs[id] + [] == swapper.inputs[id];
      }
    }

    /** With what is still to be sent, the queue is what it was plus all batches. */
    ghost predicate SentSoFar(before: map<MetricId, seq<seq<Row>>>, now: map<MetricId, seq<seq<Row>>>, id: MetricId,
                              rows: seq<Row>, i: nat)
      requires id in before && chunkSize >= 1
    {
      && id in now && now == before[id := now[id]]
      && now[id] + Batches(rows[Min(i, |rows|)..], chunkSize) == before[id] + Batches(rows, chunkSize)
    }

    lemma SliceOfRest(rows: seq<Row>, i: nat, size: nat)
      requires i < |rows|
      ensures rows[i..][..Min(size, |rows[i..]|)] == rows[i..Min(i + size, |rows|)]
      ensures rows[i..][Min(size, |rows[i..]|)..] == rows[Min(i + size, |rows|)..]
    {
    }

    /** Stores the samples and forwards them if the metric's model is running or being created. */
    method StreamMetricData(data: seq<Sample>, id: MetricId, expired: bool) returns (action: Action)
      requires Valid() && id in repository.metrics
      modifies this, repository, swapper
      ensures Valid()
      ensures
        var m := old(repository.metrics)[id];
        var kept := Kept(TailFor(m, if expired then None else old(Cached(id))), data);
        && repository.metrics ==
             (if data != [] && Streamable(m.status) then old(repository.metrics)[id := Stored(m, kept)]
              else old(repository.metrics))
        && action ==
             (if data == [] || !Streamable(m.status) then Nothing
              else ActionFor(m.status, m.lastRowId + |kept|, NumberedFrom(m.lastRowId + 1, kept)))
        && (id in old(swapper.inputs) && action.Forward? ==>
              swapper.inputs == old(swapper.inputs)[id := old(swapper.inputs)[id] + Batches(action.rows, chunkSize)])
        && (id !in old(swapper.inputs) || !action.Forward? ==> swapper.inputs == old(swapper.inputs))
    {
      if data == [] {
        return Nothing;
      }
      var status := repository.metrics[id].status;
      var stored := StoreData(data, id, expired);
      if stored.None? || stored.value == [] || status.Unmonitored? {
        return Nothing;
      }
      var rows := stored.value;
      if status.PendingData? {
        return if rows[|rows| - 1].rowId >= MODEL_CREATION_RECORD_THRESHOLD then Activate else Nothing;
      }
      SendInputRowsToModel(rows, id);
      return Forward(rows);
    }
  }
}
