/**
 * A metric's model coming to life while its data keeps arriving: the streamer stores and forwards,
 * the adapter or the streamer itself starts the model and sends it the backlog, in any interleaving.
 */
module ModelActivation {
  import opened Basics
  import opened MetricTable
  import Streaming = MetricStreaming

  datatype Message = DefineModel | InputRows(rows: seq<Row>)

  datatype Owner = Adapter | Streamer

  /** The start-model transaction, holding the metric's row lock, with the backlog still to be sent. */
  datatype Transaction = Transaction(owner: Owner, left: seq<Row>)

  /** The streamer, between transactions. */
  datatype Pc = Idle | Activating | Sending(left: seq<Row>)

  /** queue is everything ever published to the model's input queue. */
  datatype State = State(metric: Metric, cached: Option<int>, lock: Option<Transaction>, queue: seq<Message>, pc: Pc)

  datatype Step =
    | Store(data: seq<Sample>, expired: bool)
    | Send
    | StartMonitoring
    | DeferMonitoring
    | BeginActivation
    | SkipActivation
    | SendBacklog
    | Commit
    | ModelCreated
    | ModelFailed

  predicate CanStep(s: State, step: Step) {
    match step
    case Store(_, _) => s.pc.Idle? && s.lock.None?
    case Send => s.pc.Sending?
    case StartMonitoring => s.lock.None? && s.metric.status.Unmonitored?
    case DeferMonitoring => s.lock.None? && s.metric.status.Unmonitored?
    case BeginActivation => s.pc.Activating? && s.lock.None?
    case SkipActivation => s.pc.Activating? && s.lock.None?
    case SendBacklog => s.lock.Some? && s.lock.value.left != []
    case Commit => s.lock.Some? && s.lock.value.left == []
    case ModelCreated => s.lock.None? && s.metric.status.CreatePending?
    case ModelFailed => s.lock.None?
  }

  function FirstBatch(rows: seq<Row>, size: nat): seq<Row> { rows[..Min(size, |rows|)] }

  function AfterBatch(rows: seq<Row>, size: nat): seq<Row> { rows[Min(size, |rows|)..] }

  /** The streamer's storing transaction, and what it then sets out to do. */
  ghost function AfterStore(s: State, data: seq<Sample>, expired: bool): State {
    var m := s.metric;
    if data == [] || !Streaming.Streamable(m.status) then s
    else
      var tail := TailFor(m, if expired then None else s.cached);
      var kept := Kept(tail, data);
      var m' := Stored(m, kept);
      s.(metric := m', cached := TailAfter(tail, data), pc := PcFor(m, kept))
  }

  function PcFor(m: Metric, kept: seq<Sample>): Pc {
    match Streaming.ActionFor(m.status, m.lastRowId + |kept|, NumberedFrom(m.lastRowId + 1, kept))
    case Nothing => Idle
    case Activate => Activating
    case Forward(rows) => Sending(rows)
  }

  /** The start of the start-model transaction: the model is defined, its backlog read. */
  function Begun(s: State, owner: Owner): State {
    s.(lock := Some(Transaction(owner, s.metric.rows)), queue := s.queue + [DefineModel])
  }

  ghost function Next(s: State, step: Step, size: nat): State
    requires CanStep(s, step)
  {
    match step
    case Store(data, expired) => AfterStore(s, data, expired)
    case Send =>
      var left := AfterBatch(s.pc.left, size);
      s.(queue := s.queue + [InputRows(FirstBatch(s.pc.left, size))], pc := if left == [] then Idle else Sending(left))
    case StartMonitoring => Begun(s, Adapter)
    case DeferMonitoring => s.(metric := s.metric.(status := PendingData))
    case BeginActivation =>
      if s.metric.status.Unmonitored? || s.metric.status.PendingData? then Begun(s, Streamer) else s.(pc := Idle)
    case SkipActivation => s.(pc := Idle)
    case SendBacklog =>
      var tx := s.lock.value;
      s.(queue := s.queue + [InputRows(FirstBatch(tx.left, size))],
          lock := Some(tx.(left := AfterBatch(tx.left, size))))
    case Commit =>
      s.(metric := s.metric.(status := CreatePending), lock := None,
         pc := if s.lock.value.owner.Streamer? then Idle else s.pc)
    case ModelCreated => s.(metric := s.metric.(status := Active))
    case ModelFailed => s.(metric := s.metric.(status := Errored))
  }

  // ----- what the model is sent -----

  /** All rows of a queue, in order. */
  function RowsOf(queue: seq<Message>): seq<Row> {
    if queue == [] then []
    else
      var n := |queue| - 1;
      RowsOf(queue[..n]) + (if queue[n].InputRows? then queue[n].rows else [])
  }

  predicate Defined(s: State) { s.queue != [] }

  /** Rows on their way to the queue. */
  function InFlight(s: State): seq<Row> {
    if s.lock.Some? then s.lock.value.left else if s.pc.Sending? then s.pc.left else []
  }

  /** The definition comes first, once, then every stored row that is not in flight, in order. */
  ghost predicate Conserved(s: State) {
    if !Defined(s) then InFlight(s) == []
    else
      && s.queue[0].DefineModel?
      && (forall i | 1 <= i < |s.queue| :: s.queue[i].InputRows?)
      && RowsOf(s.queue) + InFlight(s) == s.metric.rows
  }

  ghost predicate StateOk(s: State) {
    && TableOk(s.metric) && NothingPurged(s.metric) && CacheAgrees(s.metric, s.cached)
    && Conserved(s) && PhasesOk(s)
  }

  lemma RowsOfMore(queue: seq<Message>, message: Message)
    ensures RowsOf(queue + [message]) == RowsOf(queue) + (if message.InputRows? then message.rows else [])
  {
    assert (queue + [message])[..|queue|] == queue;
  }

  /** The bookkeeping of transaction, streamer and status. */
  predicate PhasesOk(s: State) {
    && (s.pc.Sending? ==> s.lock.None? && Defined(s))
    && (s.lock.Some? ==> Defined(s) && (s.lock.value.owner.Streamer? ==> s.pc.Activating?)
                         && (s.metric.status.Unmonitored? || s.metric.status.PendingData?))
    && (Defined(s) && s.lock.None? ==>
          s.metric.status.CreatePending? || s.metric.status.Active? || s.metric.status.Errored?)
    && (!Defined(s) ==> s.metric.status.Unmonitored? || s.metric.status.PendingData? || s.metric.status.Errored?)
  }

  /** New rows of a model that is defined go in flight; those of another stay where they are. */
  lemma StoreConserves(s: State, s': State, kept: seq<Sample>)
    requires Conserved(s) && PhasesOk(s) && CanStep(s, Store([], false)) && Streaming.Streamable(s.metric.status)
    requires s'.metric == Stored(s.metric, kept) && s'.queue == s.queue && s'.lock == s.lock
    requires s'.pc == PcFor(s.metric, kept)
    ensures Conserved(s') && PhasesOk(s')
  {
    assert RowsOf(s.queue) + [] == RowsOf(s.queue);
    assert s.metric.rows + [] == s.metric.rows;
    assert kept == [] ==> s'.metric.rows == s.metric.rows + [];
  }

  lemma StoreKeeps(s: State, data: seq<Sample>, expired: bool)
    requires StateOk(s) && CanStep(s, Store(data, expired))
    ensures StateOk(AfterStore(s, data, expired))
  {
    var cached := if expired then None else s.cached;
    if data != [] && Streaming.Streamable(s.metric.status) {
      var kept := Kept(TailFor(s.metric, cached), data);
      StoringKeepsTable(s.metric, cached, data);
      StoreConserves(s, AfterStore(s, data, expired), kept);
    }
  }

  /** What is appended to the queue leaves what is in flight. */
  lemma SentRows(queue: seq<Message>, left: seq<Row>, size: nat)
    ensures RowsOf(queue + [InputRows(FirstBatch(left, size))]) + AfterBatch(left, size) == RowsOf(queue) + left
  {
    RowsOfMore(queue, InputRows(FirstBatch(left, size)));
    assert FirstBatch(left, size) + AfterBatch(left, size) == left;
  }

  lemma SendKeeps(s: State, size: nat)
    requires StateOk(s) && size >= 1 && (CanStep(s, Send) || CanStep(s, SendBacklog))
    ensures StateOk(Next(s, if s.pc.Sending? then Send else SendBacklog, size))
  {
    SentRows(s.queue, InFlight(s), size);
  }

  lemma BeginKeeps(s: State, owner: Owner)
    requires StateOk(s) && s.lock.None? && (s.metric.status.Unmonitored? || s.metric.status.PendingData?)
    requires owner.Streamer? ==> s.pc.Activating?
    ensures StateOk(Begun(s, owner))
  {
    RowsOfMore(s.queue, DefineModel);
    assert RowsOf([]) == [];
  }

  lemma StepKeeps(s: State, step: Step, size: nat)
    requires StateOk(s) && CanStep(s, step) && size >= 1
    ensures StateOk(Next(s, step, size))
  {
    match step
    case Store(data, expired) => StoreKeeps(s, data, expired);
    case Send => SendKeeps(s, size);
    case StartMonitoring => BeginKeeps(s, Adapter);
    case BeginActivation =>
      if s.metric.status.Unmonitored? || s.metric.status.PendingData? {
        BeginKeeps(s, Streamer);
      }
    case SendBacklog => SendKeeps(s, size);
    case DeferMonitoring =>
    case SkipActivation =>
    case Commit =>
    case ModelCreated =>
    case ModelFailed =>
  }

  ghost predicate Possible(s: State, steps: seq<Step>, size: nat)
    decreases |steps|
  {
    steps == [] || (CanStep(s, steps[0]) && Possible(Next(s, steps[0], size), steps[1..], size))
  }

  ghost function After(s: State, steps: seq<Step>, size: nat): State
    requires Possible(s, steps, size)
    decreases |steps|
  {
    if steps == [] then s else After(Next(s, steps[0], size), steps[1..], size)
  }

  lemma {:induction false} RunKeeps(s: State, steps: seq<Step>, size: nat)
    requires StateOk(s) && Possible(s, steps, size) && size >= 1
    ensures StateOk(After(s, steps, size))
    decreases |steps|
  {
    if steps != [] {
      StepKeeps(s, steps[0], size);
      RunKeeps(Next(s, steps[0], size), steps[1..], size);
    }
  }

  // ----- no sample is dropped, and none too few -----

  /** row holds sample. */
  predicate Holds(row: Row, sample: Sample) { row.timestamp == sample.timestamp && row.value == sample.value }

  ghost predicate HeldFrom(rows: seq<Row>, first: nat, sample: Sample) {
    exists j :: first <= j < |rows| && Holds(rows[j], sample)
  }

  ghost predicate HoldsFresh(row: Row, tail: Option<int>, data: seq<Sample>) {
    exists i :: 0 <= i < |data| && Fresh(tail, data, i) && Holds(row, data[i])
  }

  /**
   * As long as the model has not failed, storing appends a row for each sample younger than the last stored
   * and than all before it in the batch, and for no other, and touches no row that is there.
   */
  lemma FreshSamplesStored(s: State, data: seq<Sample>, expired: bool)
    requires StateOk(s) && CanStep(s, Store(data, expired)) && !s.metric.status.Errored?
    ensures
      var before, after := s.metric.rows, AfterStore(s, data, expired).metric.rows;
      var tail := TailFor(s.metric, if expired then None else s.cached);
      && before <= after
      && (forall i | 0 <= i < |data| && Fresh(tail, data, i) :: HeldFrom(after, |before|, data[i]))
      && (forall j | |before| <= j < |after| :: HoldsFresh(after[j], tail, data))
  {
    var tail := TailFor(s.metric, if expired then None else s.cached);
    if data != [] {
      var kept := Kept(tail, data);
      var rows := NumberedFrom(s.metric.lastRowId + 1, kept);
      assert AfterStore(s, data, expired).metric.rows == s.metric.rows + rows;
      KeptAreFresh(s.metric.rows, tail, data, rows, s.metric.lastRowId + 1);
    } else {
      assert AfterStore(s, data, expired) == s;
    }
  }

  lemma KeptAreFresh(before: seq<Row>, tail: Option<int>, data: seq<Sample>, rows: seq<Row>, first: nat)
    requires rows == NumberedFrom(first, Kept(tail, data))
    ensures forall i | 0 <= i < |data| && Fresh(tail, data, i) :: HeldFrom(before + rows, |before|, data[i])
    ensures forall j | |before| <= j < |before + rows| :: HoldsFresh((before + rows)[j], tail, data)
  {
    var kept := Kept(tail, data);
    forall i | 0 <= i < |data| && Fresh(tail, data, i)
      ensures HeldFrom(before + rows, |before|, data[i])
    {
      KeptIffFresh(tail, data, data[i]);
      var k :| 0 <= k < |kept| && kept[k] == data[i];
      assert Holds((before + rows)[|before| + k], data[i]);
    }
    forall j | |before| <= j < |before + rows|
      ensures HoldsFresh((before + rows)[j], tail, data)
    {
      var sample := kept[j - |before|];
      KeptIffFresh(tail, data, sample);
      assert Holds((before + rows)[j], sample);
    }
  }

  /** The streamer sets out to start a deferred model exactly when new rows bring it to 288 or more. */
  lemma ActivatesWhenEnough(s: State, data: seq<Sample>, expired: bool)
    requires StateOk(s) && CanStep(s, Store(data, expired)) && s.metric.status.PendingData?
    ensures
      var s' := AfterStore(s, data, expired);
      s'.pc.Activating? <==> |s'.metric.rows| > |s.metric.rows| && |s'.metric.rows| >= 288
  {
    if data != [] {
      var tail := TailFor(s.metric, if expired then None else s.cached);
      var kept := Kept(tail, data);
      Streaming.ActionByStatus(PendingData, s.metric.lastRowId + |kept|, NumberedFrom(s.metric.lastRowId + 1, kept));
    }
  }

  /** Sending cuts rows up as slicing them does. */
  lemma SendsBatches(rows: seq<Row>, size: nat)
    requires size >= 1 && rows != []
    ensures Streaming.Batches(rows, size)
         == [FirstBatch(rows, size)] + Streaming.Batches(AfterBatch(rows, size), size)
  {
    Streaming.BatchesStep(rows, size);
  }

  ghost predicate Earned(s: State) { s.pc.Activating? ==> |s.metric.rows| >= 288 }

  lemma StepKeepsEarned(s: State, step: Step, size: nat)
    requires StateOk(s) && Earned(s) && CanStep(s, step) && size >= 1
    ensures Earned(Next(s, step, size))
  {
    if step.Store? && step.data != [] && Streaming.Streamable(s.metric.status) {
      StoreKeeps(s, step.data, step.expired);
      var tail := TailFor(s.metric, if step.expired then None else s.cached);
      var kept := Kept(tail, step.data);
      Streaming.ActionByStatus(s.metric.status, s.metric.lastRowId + |kept|,
                               NumberedFrom(s.metric.lastRowId + 1, kept));
    }
  }

  lemma {:induction false} RunKeepsEarned(s: State, steps: seq<Step>, size: nat)
    requires StateOk(s) && Earned(s) && Possible(s, steps, size) && size >= 1
    ensures Earned(After(s, steps, size))
    decreases |steps|
  {
    if steps != [] {
      StepKeeps(s, steps[0], size);
      StepKeepsEarned(s, steps[0], size);
      RunKeepsEarned(Next(s, steps[0], size), steps[1..], size);
    }
  }

  /** A metric that exists and has no data yet. */
  const NEW_METRIC := State(Metric(Unmonitored, 0, []), None, None, [], Idle)

  /**
   * Over every run, the model's queue holds its definition and then rows 1, 2, 3 and so on without
   * gap or duplicate, and together with the rows in flight these are all the rows ever stored.
   */
  lemma RowsReachModel(steps: seq<Step>, size: nat)
    requires size >= 1 && Possible(NEW_METRIC, steps, size)
    ensures Conserved(After(NEW_METRIC, steps, size))
    ensures
      var s := After(NEW_METRIC, steps, size);
      Defined(s) ==>
        && (forall i | 0 <= i < |RowsOf(s.queue)| :: RowsOf(s.queue)[i].rowId == i + 1)
        && (InFlight(s) == [] ==> RowsOf(s.queue) == s.metric.rows)
  {
    RunKeeps(NEW_METRIC, steps, size);
    var s := After(NEW_METRIC, steps, size);
    assert forall i | Defined(s) && 0 <= i < |RowsOf(s.queue)| :: RowsOf(s.queue)[i] == s.metric.rows[i];
    assert RowsOf(s.queue) + [] == RowsOf(s.queue);
  }

  /** Over every run, the streamer starts no model before 288 rows are stored. */
  lemma NoEarlyActivation(steps: seq<Step>, size: nat)
    requires size >= 1 && Possible(NEW_METRIC, steps, size)
    ensures After(NEW_METRIC, steps, size).pc.Activating? ==> |After(NEW_METRIC, steps, size).metric.rows| >= 288
  {
    RunKeepsEarned(NEW_METRIC, steps, size);
  }
}
