/** What a stream of request batches means for one model, crashes aside. */
module RunnerSemantics {
  import opened Opf
  import opened CheckpointDisk
  import opened ModelArchiving

  datatype Request =
    | InputRow(rowId: nat, data: Row)
    | DefineModel(commandId: nat, definition: Definition)
    | UnknownCommand(commandId: nat)

  datatype Reply =
    | RowScored(rowId: nat, score: Score)
    | RowFailed(rowId: nat)
    | CommandDone(commandId: nat)
    | CommandFailed(commandId: nat)

  datatype Batch = Batch(id: BatchId, objects: seq<Request>)

  function Ids(batches: seq<Batch>): set<BatchId> { set b | b in batches :: b.id }

  function IdsBetween(batches: seq<Batch>, lo: nat, hi: nat): set<BatchId>
    requires lo <= hi <= |batches|
  {
    set j | lo <= j < hi :: batches[j].id
  }

  datatype Logical = NoModel | Trained(definition: Definition, model: Model)

  function Perform(engine: Engine, l: Logical, request: Request): (Logical, Reply) {
    match request
    case InputRow(rowId, data) => (
      match l
      case NoModel => (l, RowFailed(rowId))
      case Trained(definition, model) =>
        match engine.run(model, data)
        case Inferred(next, score) => (Trained(definition, next), RowScored(rowId, score))
        case RunFailed => (l, RowFailed(rowId)))
    case DefineModel(commandId, definition) => (
      match l
      case NoModel => (Trained(definition, engine.create(definition)), CommandDone(commandId))
      case Trained(existing, _) =>
        (l, if existing == definition then CommandDone(commandId) else CommandFailed(commandId)))
    case UnknownCommand(commandId) => (l, CommandFailed(commandId))
  }

  /** What an answer says: whose it is, whether the request was met by the model at hand, and the score. */
  ghost predicate Owed(engine: Engine, l: Logical, request: Request, reply: Reply) {
    match request
    case InputRow(rowId, data) =>
      && (reply.RowScored? || reply.RowFailed?) && reply.rowId == rowId
      && (reply.RowScored? <==> l.Trained? && engine.run(l.model, data).Inferred?)
      && (reply.RowScored? ==> reply.score == engine.run(l.model, data).score)
    case DefineModel(commandId, definition) =>
      && (reply.CommandDone? || reply.CommandFailed?) && reply.commandId == commandId
      && (reply.CommandDone? <==> l.Trained? ==> l.definition == definition)
    case UnknownCommand(commandId) => reply == CommandFailed(commandId)
  }

  /** How many requests batches lo to hi - 1 hold. */
  function Requests(batches: seq<Batch>, lo: nat, hi: nat): nat
    requires lo <= hi <= |batches|
  {
    if lo == hi then 0 else Requests(batches, lo, hi - 1) + |batches[hi - 1].objects|
  }

  lemma PerformOwed(engine: Engine, l: Logical, request: Request)
    ensures Owed(engine, l, request, Perform(engine, l, request).1)
  {
  }

  function PerformAll(engine: Engine, l: Logical, objects: seq<Request>): (r: (Logical, seq<Reply>))
    ensures |r.1| == |objects|
  {
    if objects == [] then (l, [])
    else
      var before := PerformAll(engine, l, objects[..|objects| - 1]);
      var last := Perform(engine, before.0, objects[|objects| - 1]);
      (last.0, before.1 + [last.1])
  }

  /** The model after a stream of batches, every row applied once and in order. */
  function Fold(engine: Engine, batches: seq<Batch>): Logical {
    if batches == [] then NoModel
    else PerformAll(engine, Fold(engine, batches[..|batches| - 1]), batches[|batches| - 1].objects).0
  }

  /** The answers batch j of the stream is owed. */
  function Replies(engine: Engine, batches: seq<Batch>, j: nat): seq<Reply>
    requires j < |batches|
  {
    PerformAll(engine, Fold(engine, batches[..j]), batches[j].objects).1
  }

  function LogicalOf(engine: Engine, found: Recovered): Logical {
    if found.Defined? || found.Checkpointed? then Trained(found.definition, Restored(engine, found)) else NoModel
  }

  lemma FoldStep(engine: Engine, batches: seq<Batch>, j: nat)
    requires j < |batches|
    ensures Fold(engine, batches[..j + 1]) == PerformAll(engine, Fold(engine, batches[..j]), batches[j].objects).0
  {
    assert batches[..j + 1][..j] == batches[..j];
  }

  lemma {:induction false} PerformAllKeepsDefinition(engine: Engine, l: Logical, objects: seq<Request>)
    requires l.Trained?
    ensures PerformAll(engine, l, objects).0.Trained? && PerformAll(engine, l, objects).0.definition == l.definition
    decreases |objects|
  {
    if objects != [] {
      PerformAllKeepsDefinition(engine, l, objects[..|objects| - 1]);
    }
  }

  /** The producer's side of the contract: batch ids are unique and a model is defined first, on its own. */
  ghost predicate WellFormedStream(batches: seq<Batch>) {
    && (forall i, j | 0 <= i < j < |batches| :: batches[i].id != batches[j].id)
    && (batches != [] ==> |batches[0].objects| == 1 && batches[0].objects[0].DefineModel?)
  }

  lemma {:induction false} FoldTrained(engine: Engine, batches: seq<Batch>, j: nat)
    requires WellFormedStream(batches) && 1 <= j <= |batches|
    ensures Fold(engine, batches[..j]).Trained?
    ensures Fold(engine, batches[..j]).definition == batches[0].objects[0].definition
    decreases j
  {
    FoldStep(engine, batches, j - 1);
    if j == 1 {
      assert batches[..0] == [];
      assert batches[0].objects[..0] == [];
    } else {
      FoldTrained(engine, batches, j - 1);
      PerformAllKeepsDefinition(engine, Fold(engine, batches[..j - 1]), batches[j - 1].objects);
    }
  }
}

/**
 * The model runner with its broker and its disk, one atomic step at a time: batches are delivered,
 * handled object by object, answered, checkpointed file-system step by file-system step and acked.
 * Between any two steps the process may die, which leaves the file system as it is, or the machine
 * may crash, which undoes unsynced steps.
 */
module RunnerProtocol {
  import opened Basics
  import opened Opf
  import opened CheckpointDisk
  import opened CheckpointScripts
  import opened ModelArchiving
  import opened RunnerSemantics

  datatype Config = Config(engine: Engine, id: ModelId, target: nat)

  /** One queue: delivered and not yet acked, then not yet delivered. */
  datatype Broker = Broker(outstanding: seq<Batch>, ready: seq<Batch>)

  /** The batch to ack at the end of the run; current while its channel is still open. */
  datatype LastBatch = LastBatch(id: BatchId, current: bool)

  datatype Memory = Memory(archive: Archive, checkpointIds: set<BatchId>, runIds: set<BatchId>,
                           runSamples: seq<Row>, runRequests: nat, last: Option<LastBatch>, done: bool)

  /** Where the runner is. start remembers the file system when a list of disk steps began. */
  datatype Pc =
    | Consuming
    | Handling(batch: Batch, replies: seq<Reply>)
    | Creating(batch: Batch, replies: seq<Reply>, start: Fs, script: seq<Op>, i: nat)
    | Closing
    | Saving(start: Fs, script: seq<Op>, i: nat)
    | Acking

  datatype Process = Dead | Alive(mem: Memory, pc: Pc)

  datatype State = State(submitted: seq<Batch>, broker: Broker, fs: Fs, process: Process,
                         published: seq<(BatchId, seq<Reply>)>)

  datatype Step =
    | Submit(batch: Batch)
    | Start
    | Deliver
    | Handle(temp: string)
    | DiskStep
    | Publish
    | Drained
    | Checkpoint(temp: string, store: string)
    | Ack(preempt: bool)
    | Reconnect
    | Die
    | Crash(k: nat)

  function Found(c: Config, s: State): Recovered { Recover(View(s.fs), c.id) }

  predicate IsDuplicate(mem: Memory, batch: Batch) { batch.id in mem.runIds || batch.id in mem.checkpointIds }

  ghost predicate CanStep(c: Config, s: State, step: Step) {
    match step
    case Submit(batch) => WellFormedStream(s.submitted + [batch])
    case Start => s.process.Dead?
    case Deliver => s.process.Alive? && s.process.pc.Consuming? && s.broker.ready != []
    case Handle(t) =>
      s.process.Alive? && s.process.pc.Handling? && |s.process.pc.replies| < |s.process.pc.batch.objects|
      && t !in View(s.fs).scratch
    case DiskStep => s.process.Alive? && (s.process.pc.Creating? || s.process.pc.Saving?)
                     && s.process.pc.i < |s.process.pc.script|
    case Publish =>
      s.process.Alive? && s.process.pc.Handling? && |s.process.pc.replies| == |s.process.pc.batch.objects|
    case Drained => s.process.Alive? && s.process.pc.Consuming? && s.broker.ready == []
    case Checkpoint(t, store) =>
      s.process.Alive? && s.process.pc.Closing?
      && (c.id in View(s.fs).entries ==> CanSave(View(s.fs), c.id, t, store))
    case Ack(_) => s.process.Alive? && s.process.pc.Acking? && s.process.mem.last.Some?
    case Reconnect => s.process.Alive? && s.process.pc.Consuming?
    case Die => s.process.Alive?
    case Crash(k) => k <= |s.fs.pending|
  }

  /** All unacked batches go back to the queue in their order. */
  function Requeued(b: Broker): Broker { Broker([], b.outstanding + b.ready) }

  /** Acks the batch with this id and everything delivered before it. */
  function AckThrough(outstanding: seq<Batch>, id: BatchId): seq<Batch> {
    if outstanding == [] then []
    else if outstanding[0].id == id then outstanding[1..]
    else AckThrough(outstanding[1..], id)
  }

  function NewRun(mem: Memory): Memory {
    mem.(runIds := {}, runSamples := [], runRequests := 0, last := None)
  }

  function DeliverNext(s: State): State
    requires s.process.Alive? && s.broker.ready != []
  {
    var batch, mem := s.broker.ready[0], s.process.mem;
    if IsDuplicate(mem, batch) then
      s.(broker := s.broker.(ready := s.broker.ready[1..]))
    else
      var mem' := mem.(runIds := mem.runIds + {batch.id}, runRequests := mem.runRequests + |batch.objects|,
                       last := Some(LastBatch(batch.id, true)));
      s.(broker := Broker(s.broker.outstanding + [batch], s.broker.ready[1..]),
         process := Alive(mem', Handling(batch, [])))
  }

  /** One row: load the model if need be, run it, remember the row if that worked. */
  function HandleRow(engine: Engine, mem: Memory, found: Recovered, rowId: nat, data: Row): (Memory, Reply) {
    match WithModel(mem.archive, engine, found)
    case None => (mem, RowFailed(rowId))
    case Some(loaded) =>
      if loaded.model.None? then (mem, RowFailed(rowId))
      else
        match engine.run(loaded.model.value, data)
        case RunFailed => (mem.(archive := loaded), RowFailed(rowId))
        case Inferred(next, score) =>
          var mem' := mem.(archive := loaded.(model := Some(next)), runSamples := mem.runSamples + [data]);
          (mem', RowScored(rowId, score))
  }

  /** The definition on disk, as loadModelDefinition reads it. */
  function DefinitionOf(found: Recovered): Option<Definition> {
    if found.Defined? || found.Checkpointed? then Some(found.definition) else None
  }

  function HandleNext(c: Config, s: State, t: string): State
    requires s.process.Alive? && s.process.pc.Handling? && |s.process.pc.replies| < |s.process.pc.batch.objects|
  {
    var Handling(batch, replies) := s.process.pc;
    var mem := s.process.mem;
    match batch.objects[|replies|]
    case InputRow(rowId, data) =>
      var (mem', reply) := HandleRow(c.engine, mem, Found(c, s), rowId, data);
      s.(process := Alive(mem', Handling(batch, replies + [reply])))
    case DefineModel(commandId, definition) =>
      if Found(c, s).NoEntry? then
        s.(process := Alive(mem, Creating(batch, replies, s.fs, DefineScript(c.id, t, definition), 0)))
      else
        var same := DefinitionOf(Found(c, s)) == Some(definition);
        var reply := if same then CommandDone(commandId) else CommandFailed(commandId);
        s.(process := Alive(mem, Handling(batch, replies + [reply])))
    case UnknownCommand(commandId) =>
      s.(process := Alive(mem, Handling(batch, replies + [CommandFailed(commandId)])))
  }

  function NextDiskStep(s: State): State
    requires s.process.Alive? && (s.process.pc.Creating? || s.process.pc.Saving?)
    requires s.process.pc.i < |s.process.pc.script|
    requires s.process.pc.Creating? ==> |s.process.pc.replies| < |s.process.pc.batch.objects|
  {
    var mem, pc := s.process.mem, s.process.pc;
    var fs := Exec(s.fs, pc.script[pc.i]);
    var pc' :=
      if pc.i + 1 < |pc.script| then pc.(i := pc.i + 1)
      else if pc.Saving? then Acking
      else
        var request := pc.batch.objects[|pc.replies|];
        var reply := if request.DefineModel? then CommandDone(request.commandId) else RowFailed(0);
        Handling(pc.batch, pc.replies + [reply]);
    s.(fs := fs, process := Alive(mem, pc'))
  }

  function PublishReplies(c: Config, s: State): State
    requires s.process.Alive? && s.process.pc.Handling?
  {
    var Handling(batch, replies) := s.process.pc;
    s.(published := s.published + [(batch.id, replies)],
       process := Alive(s.process.mem, if s.process.mem.runRequests >= c.target then Closing else Consuming))
  }

  /** The end of a run: nothing to do, an ack without checkpoint, or a checkpoint first. */
  function CloseRun(c: Config, s: State, t: string, store: string): State
    requires s.process.Alive?
  {
    var mem := s.process.mem;
    if mem.last.None? then EndRun(s, mem, false)
    else
      var mem' := mem.(checkpointIds := mem.runIds);
      if mem.archive.model.None? || mem.archive.samples.None? then s.(process := Alive(mem', Acking))
      else if !FullNeeded(mem.archive, mem.runSamples) && OldStore(View(s.fs), c.id).None? then s.(process := Dead)
      else
        var script := SaveModelScript(mem.archive, View(s.fs), c.id, t, store, mem.runIds, mem.runSamples);
        var archive := AfterSave(mem.archive, mem.runIds, mem.runSamples);
        s.(process := Alive(mem'.(archive := archive), Saving(s.fs, script, 0)))
  }

  /** The consumer is closed; the process exits or opens the next one. */
  function EndRun(s: State, mem: Memory, preempt: bool): State {
    s.(broker := Requeued(s.broker),
       process := if mem.done || preempt then Dead else Alive(NewRun(mem), Consuming))
  }

  /** Acking on a channel that is gone fails, and the process with it. */
  function AckRun(s: State, preempt: bool): State
    requires s.process.Alive? && s.process.mem.last.Some?
  {
    var mem := s.process.mem;
    if !mem.last.value.current then s.(broker := Requeued(s.broker), process := Dead)
    else
      var acked := s.(broker := s.broker.(outstanding := AckThrough(s.broker.outstanding, mem.last.value.id)));
      EndRun(acked, mem, preempt)
  }

  /** The system after one step; a step that is not enabled changes nothing. */
  ghost function Next(c: Config, s: State, step: Step): State {
    if !CanStep(c, s, step) then s
    else
      match step
      case Submit(batch) =>
        s.(submitted := s.submitted + [batch], broker := s.broker.(ready := s.broker.ready + [batch]))
      case Start =>
        var archive := WithAttributes(NEW_ARCHIVE, Found(c, s));
        s.(process := Alive(Memory(archive, BatchIdsOf(Found(c, s)), {}, [], 0, None, false), Consuming))
      case Deliver => DeliverNext(s)
      case Handle(t) => HandleNext(c, s, t)
      case DiskStep =>
        if s.process.pc.Creating? && |s.process.pc.replies| >= |s.process.pc.batch.objects| then s
        else NextDiskStep(s)
      case Publish => PublishReplies(c, s)
      case Drained => s.(process := Alive(s.process.mem.(done := true), Closing))
      case Checkpoint(t, store) => CloseRun(c, s, t, store)
      case Ack(preempt) => AckRun(s, preempt)
      case Reconnect =>
        var mem := s.process.mem;
        var last := if mem.last.None? then None else Some(mem.last.value.(current := false));
        s.(broker := Requeued(s.broker), process := Alive(mem.(last := last), Consuming))
      case Die => s.(broker := Requeued(s.broker), process := Dead)
      case Crash(k) => s.(fs := Fs(CrashView(s.fs, k), []), broker := Requeued(s.broker), process := Dead)
  }

  ghost function Run(c: Config, s: State, steps: seq<Step>): State {
    if steps == [] then s else Next(c, Run(c, s, steps[..|steps| - 1]), steps[|steps| - 1])
  }

  /** A model nobody has heard of, on any disk. */
  ghost predicate Initial(c: Config, s: State) {
    && s.submitted == [] && s.broker == Broker([], []) && s.process.Dead? && s.published == []
    && s.fs.pending == [] && c.id !in s.fs.base.entries
  }
}
