/** The model runner as an object: one process's run over the batches that wait for its model. */
module ModelRunning {
  import opened Basics
  import opened Opf
  import opened CheckpointDisk
  import opened CheckpointScripts
  import opened CheckpointManager
  import opened ModelArchiving
  import opened RunnerSemantics

  /** A name no directory entry has yet. */
  method FreshName(used: set<string>) returns (name: string)
    ensures name !in used
  {
    name := "";
    ghost var shorter: set<string> := {};
    while name in used
      invariant shorter <= used && forall u | u in shorter :: |u| < |name|
      decreases |used - shorter|
    {
      assert used - (shorter + {name}) == (used - shorter) - {name};
      shorter := shorter + {name};
      name := name + "x";
    }
  }

  /**
   * What the process tells the outside, in order: answers, and acks with the number of file-system
   * steps that came before them.
   */
  datatype Mark = Answered(id: BatchId) | Acked(ids: set<BatchId>, at: nat)

  /** The model's input queue and the results queue, with this process as the only consumer. */
  class Channels {
    var outstanding: seq<Batch>
    var ready: seq<Batch>
    var results: seq<(BatchId, seq<Reply>)>
    ghost const fs: FileSystem
    ghost var trace: seq<Mark>

    /** Opens the channels of a process that works on fs, over the batches that wait. */
    constructor (ready: seq<Batch>, ghost fs: FileSystem)
      ensures this.fs == fs && this.ready == ready && outstanding == [] && results == [] && trace == []
    {
      this.ready, this.fs, outstanding, results, trace := ready, fs, [], [], [];
    }

    /** The next batch, or None when there is none. */
    method Next() returns (batch: Option<Batch>)
      modifies this
      ensures results == old(results) && trace == old(trace)
      ensures batch.None? <==> old(ready) == []
      ensures batch.None? ==> ready == old(ready) && outstanding == old(outstanding)
      ensures batch.Some? ==> batch.value == old(ready)[0] && ready == old(ready)[1..]
                              && outstanding == old(outstanding) + [batch.value]
    {
      if ready == [] {
        return None;
      }
      batch := Some(ready[0]);
      outstanding := outstanding + [ready[0]];
      ready := ready[1..];
    }

    /** Acks the batch delivered last, alone. */
    method AckLast()
      requires outstanding != []
      modifies `outstanding, `trace
      ensures outstanding == old(outstanding)[..|old(outstanding)| - 1]
      ensures trace == old(trace) + [Acked({old(outstanding)[|old(outstanding)| - 1].id}, |fs.log|)]
    {
      trace := trace + [Acked({outstanding[|outstanding| - 1].id}, |fs.log|)];
      outstanding := outstanding[..|outstanding| - 1];
    }

    /** Acks the batch delivered last and all before it. */
    method AckMultiple()
      modifies `outstanding, `trace
      ensures outstanding == [] && trace == old(trace) + [Acked(Ids(old(outstanding)), |fs.log|)]
    {
      trace := trace + [Acked(Ids(outstanding), |fs.log|)];
      outstanding := [];
    }

    method SubmitResults(id: BatchId, replies: seq<Reply>)
      modifies `results, `trace
      ensures results == old(results) + [(id, replies)] && trace == old(trace) + [Answered(id)]
    {
      trace := trace + [Answered(id)];
      results := results + [(id, replies)];
    }
  }

  /** The answers owed for batches from to upTo - 1 of a stream. */
  ghost function Answers(engine: Engine, batches: seq<Batch>, from: nat, upTo: nat): seq<(BatchId, seq<Reply>)>
    requires from <= upTo <= |batches|
  {
    seq(upTo - from, i requires 0 <= i < upTo - from =>
      (batches[from + i].id, Replies(engine, batches, from + i)))
  }

  ghost function AnswerMarks(batches: seq<Batch>, from: nat, upTo: nat): seq<Mark>
    requires from <= upTo <= |batches|
  {
    seq(upTo - from, i requires 0 <= i < upTo - from => Answered(batches[from + i].id))
  }

  lemma OneMoreAnswer(engine: Engine, batches: seq<Batch>, from: nat, upTo: nat)
    requires from <= upTo < |batches|
    ensures Answers(engine, batches, from, upTo + 1)
         == Answers(engine, batches, from, upTo) + [(batches[upTo].id, Replies(engine, batches, upTo))]
  {
  }

  lemma AnswersAppend(engine: Engine, batches: seq<Batch>, from: nat, middle: nat, upTo: nat)
    requires from <= middle <= upTo <= |batches|
    ensures Answers(engine, batches, from, upTo) == Answers(engine, batches, from, middle)
        + Answers(engine, batches, middle, upTo)
  {
  }

  lemma IdsOfRun(batches: seq<Batch>, from: nat, upTo: nat)
    requires from <= upTo <= |batches|
    ensures Ids(batches[from..upTo]) == IdsBetween(batches, from, upTo)
  {
    assert forall j | from <= j < upTo :: batches[j] == batches[from..upTo][j - from];
  }

  // ----- acks in order -----

  /** What a process starts from: the disk, the stream, the batches its checkpoint names, the marks so far. */
  datatype Life = Life(engine: Engine, id: ModelId, origin: Fs, full: seq<Batch>, known: set<BatchId>, from: nat)

  /** Whatever a crash undoes now, the model recovers as the fold of the first q batches, with ids among what it has. */
  ghost predicate Keeps(life: Life, fs: Fs, ids: set<BatchId>, q: nat) {
    && q <= |life.full|
    && forall k {:trigger CrashView(fs, k)} | 0 <= k <= |fs.pending| ::
         var found := Recover(CrashView(fs, k), life.id);
         && Healthy(CrashView(fs, k), life.id)
         && LogicalOf(life.engine, found) == Fold(life.engine, life.full[..q])
         && ids <= IdsBetween(life.full, 0, q) + BatchIdsOf(found)
  }

  ghost predicate AnsweredBefore(life: Life, trace: seq<Mark>, i: nat, id: BatchId)
    requires i <= |trace|
  {
    exists j :: life.from <= j < i && trace[j] == Answered(id)
  }

  /**
   * When the batches of mark i were acked, the disk kept them whatever a crash would undo, and each
   * had been answered before, or was in the checkpoint this process started from.
   */
  ghost predicate AckInOrder(life: Life, log: seq<Op>, trace: seq<Mark>, i: nat)
    requires i < |trace| && trace[i].Acked?
  {
    && trace[i].at <= |log|
    && (exists q: nat :: Keeps(life, ExecAll(life.origin, log[..trace[i].at]), trace[i].ids, q))
    && forall id | id in trace[i].ids :: id in life.known || AnsweredBefore(life, trace, i, id)
  }

  ghost predicate AcksInOrder(life: Life, log: seq<Op>, trace: seq<Mark>) {
    forall i | life.from <= i < |trace| && trace[i].Acked? :: AckInOrder(life, log, trace, i)
  }

  lemma AckStays(life: Life, log: seq<Op>, log': seq<Op>, trace: seq<Mark>, trace': seq<Mark>, i: nat)
    requires i < |trace| && trace[i].Acked? && AckInOrder(life, log, trace, i)
    requires log <= log' && trace <= trace'
    ensures AckInOrder(life, log', trace', i)
  {
    assert log'[..trace[i].at] == log[..trace[i].at];
    forall id | id in trace[i].ids && id !in life.known
      ensures AnsweredBefore(life, trace', i, id)
    {
      var j :| life.from <= j < i && trace[j] == Answered(id);
      assert trace'[j] == Answered(id);
    }
  }

  lemma AcksStay(life: Life, log: seq<Op>, log': seq<Op>, trace: seq<Mark>, more: seq<Mark>)
    requires AcksInOrder(life, log, trace) && log <= log' && forall j | 0 <= j < |more| :: more[j].Answered?
    ensures AcksInOrder(life, log', trace + more)
  {
    var trace' := trace + more;
    assert forall i | |trace| <= i < |trace'| :: trace'[i] == more[i - |trace|];
    forall i | life.from <= i < |trace'| && trace'[i].Acked?
      ensures AckInOrder(life, log', trace', i)
    {
      AckStays(life, log, log', trace, trace', i);
    }
  }

  lemma OneMoreAck(life: Life, log: seq<Op>, trace: seq<Mark>, ids: set<BatchId>, q: nat)
    requires AcksInOrder(life, log, trace) && Keeps(life, ExecAll(life.origin, log), ids, q)
    requires forall id | id in ids :: id in life.known || AnsweredBefore(life, trace, |trace|, id)
    ensures AcksInOrder(life, log, trace + [Acked(ids, |log|)])
  {
    var trace' := trace + [Acked(ids, |log|)];
    assert log[..|log|] == log;
    forall i | life.from <= i < |trace'| && trace'[i].Acked?
      ensures AckInOrder(life, log, trace', i)
    {
      if i < |trace| {
        AckStays(life, log, log, trace, trace', i);
      } else {
        forall id | id in ids && id !in life.known
          ensures AnsweredBefore(life, trace', i, id)
        {
          var j :| life.from <= j < |trace| && trace[j] == Answered(id);
          assert trace'[j] == Answered(id);
        }
      }
    }
  }

  /** Acks of batches the checkpoint names, all before the n-th file-system step. */
  ghost predicate KnownAcks(base: seq<Mark>, before: seq<Mark>, ids: set<BatchId>, n: nat) {
    && before <= base
    && forall i | |before| <= i < |base| :: base[i].Acked? && base[i].ids <= ids && base[i].at == n
  }

  lemma OneMoreKnown(base: seq<Mark>, before: seq<Mark>, ids: set<BatchId>, n: nat, id: BatchId)
    requires KnownAcks(base, before, ids, n) && id in ids
    ensures KnownAcks(base + [Acked({id}, n)], before, ids, n)
  {
  }

  lemma KnownAcksInOrder(life: Life, log: seq<Op>, before: seq<Mark>, base: seq<Mark>, ids: set<BatchId>, q: nat)
    requires AcksInOrder(life, log, before) && KnownAcks(base, before, ids, |log|) && ids <= life.known
    requires Keeps(life, ExecAll(life.origin, log), ids, q)
    ensures AcksInOrder(life, log, base)
  {
    assert log[..|log|] == log;
    forall i | life.from <= i < |base| && base[i].Acked?
      ensures AckInOrder(life, log, base, i)
    {
      if i < |before| {
        AckStays(life, log, log, before, base, i);
      } else {
        assert Keeps(life, ExecAll(life.origin, log), base[i].ids, q);
      }
    }
  }

  /** What one run tells: acks of known batches, one answer per batch, and the ack of them all at its end. */
  ghost function RunMarks(base: seq<Mark>, full: seq<Batch>, q: nat, q': nat, n: nat): seq<Mark>
    requires q <= q' <= |full|
  {
    base + AnswerMarks(full, q, q') + if q < q' then [Acked(IdsBetween(full, q, q'), n)] else []
  }

  lemma RunInOrder(life: Life, log: seq<Op>, log': seq<Op>, base: seq<Mark>, q: nat, q': nat)
    requires AcksInOrder(life, log, base) && log <= log' && q <= q' <= |life.full| && life.from <= |base|
    requires q < q' ==> Keeps(life, ExecAll(life.origin, log'), IdsBetween(life.full, q, q'), q')
    ensures AcksInOrder(life, log', RunMarks(base, life.full, q, q', |log'|))
  {
    var answers, ids := AnswerMarks(life.full, q, q'), IdsBetween(life.full, q, q');
    AcksStay(life, log, log', base, answers);
    if q < q' {
      var trace := base + answers;
      forall id | id in ids
        ensures AnsweredBefore(life, trace, |trace|, id)
      {
        var j :| q <= j < q' && life.full[j].id == id;
        assert trace[|base| + (j - q)] == Answered(id);
      }
      OneMoreAck(life, log', trace, ids, q');
    } else {
      assert base + answers + [] == base + answers;
    }
  }

  /** A run whose answers come before its ack, and whose ack comes after the disk keeps it, is in order. */
  lemma RunKeepsOrder(life: Life, log: seq<Op>, log': seq<Op>, before: seq<Mark>, base: seq<Mark>,
                      ids: set<BatchId>, q: nat, q': nat)
    requires AcksInOrder(life, log, before) && KnownAcks(base, before, ids, |log|) && life.from <= |before|
    requires base == before || (ids <= life.known && Keeps(life, ExecAll(life.origin, log), ids, q))
    requires log <= log' && q <= q' <= |life.full|
    requires q < q' ==> Keeps(life, ExecAll(life.origin, log'), IdsBetween(life.full, q, q'), q')
    ensures AcksInOrder(life, log', RunMarks(base, life.full, q, q', |log'|))
  {
    if base != before {
      KnownAcksInOrder(life, log, before, base, ids, q);
    }
    RunInOrder(life, log, log', base, q, q');
  }

  // ----- how long a run is -----

  /** A run over batches p to q - 1 ends with the first batch that brings it to the target, or with the queue. */
  ghost predicate UpToTarget(full: seq<Batch>, p: nat, q: nat, target: nat, drained: bool)
    requires p <= q <= |full|
  {
    && (!drained ==> Requests(full, p, q) >= target)
    && forall j | p < j < q :: Requests(full, p, j) < target
  }

  /** In the middle of a run, or leaving it. */
  ghost predicate Pacing(full: seq<Batch>, p: nat, q: nat, target: nat, requests: nat, leaving: bool, drained: bool)
    requires p <= q <= |full|
  {
    && requests == Requests(full, p, q)
    && UpToTarget(full, p, q, target, drained || !leaving)
    && (!leaving ==> !drained && (p < q ==> requests < target))
  }

  lemma OneMoreBatchPaces(full: seq<Batch>, p: nat, q: nat, q': nat, target: nat, requests: nat, next: Option<Batch>,
                          isFresh: bool)
    requires p <= q <= q' <= |full| && Pacing(full, p, q, target, requests, false, false)
    requires if isFresh then q' == q + 1 && next == Some(full[q]) else q' == q
    ensures
      var now := requests + if isFresh then |next.value.objects| else 0;
      Pacing(full, p, q', target, now, next.None? || (isFresh && now >= target), next.None?)
  {
  }

  ghost predicate UniqueIds(batches: seq<Batch>) {
    forall i, j | 0 <= i < j < |batches| :: batches[i].id != batches[j].id
  }

  class ModelRunner {
    const id: ModelId
    const engine: Engine
    const targetMaxRequestsPerCheckpoint: nat
    const archiver: ModelArchiver
    const channels: Channels
    var done: bool

    ghost predicate Wired() {
      archiver.id == id && archiver.engine == engine && channels.fs == archiver.checkpointMgr.fs
    }

    /** No crash undoes what the disk now shows. */
    ghost predicate Settled()
      requires archiver.Valid()
      reads archiver, archiver.checkpointMgr.fs
    {
      AlwaysRecovers(archiver.checkpointMgr.fs.State(), archiver.id, archiver.Found())
    }

    /** The disk went on from where it was, and is settled if it was. */
    twostate predicate DiskWentOn()
      requires old(archiver.Valid()) && archiver.Valid()
      reads archiver, archiver.checkpointMgr.fs
    {
      && old(archiver.checkpointMgr.fs.log) <= archiver.checkpointMgr.fs.log
      && (old(Settled()) ==> Settled())
    }

    /** The model as the outside must see it: in memory if loaded, else on disk. */
    ghost function Now(): Logical
      requires archiver.Valid()
      reads archiver, archiver.checkpointMgr.fs
    {
      match archiver.model
      case None => LogicalOf(engine, archiver.Found())
      case Some(m) => Trained(archiver.Found().definition, m)
    }

    /** In a run that processed these rows since the last checkpoint. */
    ghost predicate InRun(runSamples: seq<Row>)
      reads archiver, archiver.checkpointMgr.fs
    {
      && Wired() && archiver.Valid()
      && |SamplesOf(archiver.Found())| <= MAX_INCREMENTAL_ROWS
      && match archiver.model
         case None => runSamples == []
         case Some(m) => m == Replay(engine, Restored(engine, archiver.Found()), runSamples)
    }

    constructor (id: ModelId, engine: Engine, target: nat, archiver: ModelArchiver, channels: Channels)
      requires archiver.id == id && archiver.engine == engine && archiver.Valid() && archiver.model == None
      requires channels.fs == archiver.checkpointMgr.fs
      requires |SamplesOf(archiver.Found())| <= MAX_INCREMENTAL_ROWS
      ensures this.id == id && this.engine == engine && this.archiver == archiver && this.channels == channels
      ensures targetMaxRequestsPerCheckpoint == target && !done && InRun([])
    {
      this.id, this.engine, this.archiver, this.channels := id, engine, archiver, channels;
      targetMaxRequestsPerCheckpoint, done := target, false;
    }

    /** Loads the model if need be and runs one row through it. */
    method ProcessInputRow(rowId: nat, data: Row, runSamples: seq<Row>) returns (reply: Reply, samples: seq<Row>)
      requires InRun(runSamples)
      modifies archiver
      ensures InRun(samples) && (Now(), reply) == Perform(engine, old(Now()), InputRow(rowId, data))
      ensures Owed(engine, old(Now()), InputRow(rowId, data), reply)
    {
      samples := runSamples;
      PerformOwed(engine, Now(), InputRow(rowId, data));
      if archiver.model.None? {
        if archiver.Found().Defined? || archiver.Found().Checkpointed? {
          assert Replay(engine, Restored(engine, archiver.Found()), []) == Restored(engine, archiver.Found());
        }
        var loaded := archiver.LoadModel();
        if !loaded {
          return RowFailed(rowId), samples;
        }
      }
      match engine.run(archiver.model.value, data)
      case RunFailed =>
        return RowFailed(rowId), samples;
      case Inferred(next, score) =>
        samples := runSamples + [data];
        assert samples[..|samples| - 1] == runSamples;
        archiver.model := Some(next);
        return RowScored(rowId, score), samples;
    }

    /** Defines the model, or checks that the definition at hand is the one it was defined with. */
    method DefineModel(commandId: nat, definition: Definition, runSamples: seq<Row>) returns (reply: Reply)
      requires InRun(runSamples)
      modifies archiver.checkpointMgr.fs
      ensures InRun(runSamples) && (Now(), reply) == Perform(engine, old(Now()),
          RunnerSemantics.DefineModel(commandId, definition))
      ensures Owed(engine, old(Now()), RunnerSemantics.DefineModel(commandId, definition), reply)
      ensures DiskWentOn()
    {
      PerformOwed(engine, Now(), RunnerSemantics.DefineModel(commandId, definition));
      var mgr := archiver.checkpointMgr;
      var t := FreshName(mgr.fs.disk.scratch.Keys);
      ghost var before, start := mgr.fs.disk, mgr.fs.State();
      mgr.fs.StateOf();
      var status := mgr.Define(id, definition, t);
      match status
      case Done =>
        mgr.Outcome(DefineScript(id, t, definition));
        DefineOutcome(before, id, t, definition);
        DefineSettles(start, id, t, definition);
        assert archiver.model.None?;
        return CommandDone(commandId);
      case ModelAlreadyExists =>
        mgr.Outcome([]);
        var existing := mgr.LoadModelDefinition(id);
        return if existing == Some(definition) then CommandDone(commandId) else CommandFailed(commandId);
      case ModelNotFound =>
        assert false;
    }

    method ProcessModelCommand(command: Request, runSamples: seq<Row>) returns (reply: Reply)
      requires InRun(runSamples) && !command.InputRow?
      modifies archiver.checkpointMgr.fs
      ensures InRun(runSamples) && (Now(), reply) == Perform(engine, old(Now()), command)
      ensures DiskWentOn()
    {
      match command
      case DefineModel(commandId, definition) => reply := this.DefineModel(commandId, definition, runSamples);
      case UnknownCommand(commandId) => reply := CommandFailed(commandId);
    }

    /** Answers every object of a batch, in order. */
    method ProcessInputBatch(objects: seq<Request>, runSamples: seq<Row>)
        returns (results: seq<Reply>, samples: seq<Row>)
      requires InRun(runSamples)
      modifies archiver, archiver.checkpointMgr.fs
      ensures InRun(samples) && (Now(), results) == PerformAll(engine, old(Now()), objects)
      ensures DiskWentOn()
    {
      results, samples := [], runSamples;
      for i := 0 to |objects|
        invariant InRun(samples) && (Now(), results) == PerformAll(engine, old(Now()), objects[..i])
        invariant DiskWentOn()
      {
        assert objects[..i + 1][..i] == objects[..i];
        var reply;
        if objects[i].InputRow? {
          reply, samples := ProcessInputRow(objects[i].rowId, objects[i].data, samples);
        } else {
          reply := ProcessModelCommand(objects[i], samples);
        }
        results := results + [reply];
      }
      assert objects[..|objects|] == objects;
    }

    /** What waits in the queue: batches the checkpoint has already, then the stream from batch p on. */
    ghost predicate Waiting(full: seq<Batch>, p: nat, known: seq<Batch>, checkpointIds: set<BatchId>)
      reads channels
    {
      && UniqueIds(full) && p <= |full|
      && channels.ready == known + full[p..]
      && (forall b | b in known :: b.id in checkpointIds)
      && (forall j | p <= j < |full| :: full[j].id !in checkpointIds)
    }

    /** The run has processed batches p to q - 1. */
    ghost predicate Consumed(full: seq<Batch>, p: nat, q: nat, known: seq<Batch>, checkpointIds: set<BatchId>,
                             runIds: set<BatchId>, runSamples: seq<Row>, last: Option<BatchId>,
                             results: seq<(BatchId, seq<Reply>)>, base: seq<Mark>)
      reads channels, archiver, archiver.checkpointMgr.fs
    {
      && p <= q && Waiting(full, q, known, checkpointIds) && (known != [] ==> q == p)
      && InRun(runSamples) && Now() == Fold(engine, full[..q])
      && runIds == IdsBetween(full, p, q)
      && (last.Some? <==> p < q) && (last.None? ==> runSamples == [])
      && channels.outstanding == full[p..q]
      && channels.results == results + Answers(engine, full, p, q)
      && channels.trace == base + AnswerMarks(full, p, q)
    }

    /** What one more batch adds to a run. */
    lemma OneMoreBatch(full: seq<Batch>, p: nat, q: nat)
      requires p <= q < |full|
      ensures IdsBetween(full, p, q + 1) == IdsBetween(full, p, q) + {full[q].id}
      ensures Fold(engine, full[..q + 1]) == PerformAll(engine, Fold(engine, full[..q]), full[q].objects).0
      ensures Answers(engine, full, p, q + 1)
           == Answers(engine, full, p, q)
              + [(full[q].id, PerformAll(engine, Fold(engine, full[..q]), full[q].objects).1)]
      ensures AnswerMarks(full, p, q + 1) == AnswerMarks(full, p, q) + [Answered(full[q].id)]
    {
      FoldStep(engine, full, q);
      OneMoreAnswer(engine, full, p, q);
    }

    /** Handles a batch and publishes its results. */
    method AnswerBatch(batch: Batch, runSamples: seq<Row>) returns (runSamples': seq<Row>)
      requires InRun(runSamples)
      modifies archiver, archiver.checkpointMgr.fs, channels`results, channels`trace
      ensures InRun(runSamples') && Now() == PerformAll(engine, old(Now()), batch.objects).0 && DiskWentOn()
      ensures channels.results == old(channels.results)
          + [(batch.id, PerformAll(engine, old(Now()), batch.objects).1)]
      ensures channels.trace == old(channels.trace) + [Answered(batch.id)]
    {
      var replies;
      replies, runSamples' := ProcessInputBatch(batch.objects, runSamples);
      channels.SubmitResults(batch.id, replies);
    }

    /** Takes in one batch that is new. */
    method ProcessBatch(batch: Batch, runIds: set<BatchId>, runSamples: seq<Row>, ghost full: seq<Batch>,
                        ghost p: nat, ghost q: nat,
                        ghost checkpointIds: set<BatchId>, ghost last: Option<BatchId>,
                        ghost results: seq<(BatchId, seq<Reply>)>, ghost base: seq<Mark>)
        returns (runIds': set<BatchId>, runSamples': seq<Row>)
      requires p <= q < |full| && batch == full[q] && Waiting(full, q + 1, [], checkpointIds)
      requires InRun(runSamples) && Now() == Fold(engine, full[..q]) && runIds == IdsBetween(full, p, q)
      requires channels.outstanding == full[p..q + 1] && channels.results == results + Answers(engine, full, p, q)
      requires channels.trace == base + AnswerMarks(full, p, q)
      modifies archiver, archiver.checkpointMgr.fs, channels`results, channels`trace
      ensures Consumed(full, p, q + 1, [], checkpointIds, runIds', runSamples', Some(batch.id), results, base)
      ensures DiskWentOn()
    {
      runIds' := runIds + {batch.id};
      OneMoreBatch(full, p, q);
      runSamples' := AnswerBatch(batch, runSamples);
    }

    /** A delivered batch is one the checkpoint knows exactly while such batches are left. */
    lemma NextIsKnown(full: seq<Batch>, p: nat, q: nat, known: seq<Batch>, checkpointIds: set<BatchId>,
                      runIds: set<BatchId>, batch: Batch)
      requires p <= q <= |full| && UniqueIds(full) && known + full[q..] != [] && batch == (known + full[q..])[0]
      requires runIds == IdsBetween(full, p, q)
      requires forall b | b in known :: b.id in checkpointIds
      requires forall j | q <= j < |full| :: full[j].id !in checkpointIds
      ensures known != [] ==>
        batch == known[0] && batch.id in checkpointIds && (known + full[q..])[1..] == known[1..] + full[q..]
      ensures known == [] ==> q < |full| && batch == full[q] && batch.id !in runIds && batch.id !in checkpointIds
                              && (known + full[q..])[1..] == [] + full[q + 1..]
                              && full[p..q] + [batch] == full[p..q + 1]
    {
      if known == [] {
        assert known + full[q..] == full[q..] && full[q..][1..] == full[q + 1..] == [] + full[q + 1..];
      } else {
        assert known == [known[0]] + known[1..];
      }
    }

    /** Acks a batch the checkpoint names. */
    method SkipBatch(batch: Batch, checkpointIds: set<BatchId>,
                     ghost full: seq<Batch>, ghost p: nat, ghost known: seq<Batch>, ghost last: Option<BatchId>,
                     ghost results: seq<(BatchId, seq<Reply>)>, ghost before: seq<Mark>, ghost base: seq<Mark>)
        returns (ghost base': seq<Mark>)
      requires p <= |full| && UniqueIds(full) && known != [] && batch == known[0]
      requires channels.ready == known[1..] + full[p..] && channels.outstanding == full[p..p] + [batch]
      requires (forall b | b in known :: b.id in checkpointIds)
          && (forall j | p <= j < |full| :: full[j].id !in checkpointIds)
      requires InRun([]) && Now() == Fold(engine, full[..p]) && last.None?
      requires channels.results == results + Answers(engine, full, p, p)
      requires channels.trace == base + AnswerMarks(full, p, p)
      requires KnownAcks(base, before, checkpointIds, |archiver.checkpointMgr.fs.log|)
      modifies channels`outstanding, channels`trace
      ensures Consumed(full, p, p, known[1..], checkpointIds, {}, [], last, results, base')
      ensures KnownAcks(base', before, checkpointIds, |archiver.checkpointMgr.fs.log|)
    {
      base' := base + [Acked({batch.id}, |archiver.checkpointMgr.fs.log|)];
      OneMoreKnown(base, before, checkpointIds, |archiver.checkpointMgr.fs.log|, batch.id);
      channels.AckLast();
      assert channels.outstanding == full[p..p];
    }

    /** Takes one delivered batch: acks it at once if it is known, else processes it. */
    method TakeBatch(batch: Batch, checkpointIds: set<BatchId>, runIds: set<BatchId>, runSamples: seq<Row>,
                     last: Option<BatchId>,
                     ghost full: seq<Batch>, ghost p: nat, ghost q: nat, ghost known: seq<Batch>,
                     ghost results: seq<(BatchId, seq<Reply>)>, ghost before: seq<Mark>, ghost base: seq<Mark>)
        returns (fresh': bool, runIds': set<BatchId>, runSamples': seq<Row>, last': Option<BatchId>,
                 ghost q': nat, ghost known': seq<Batch>, ghost base': seq<Mark>)
      requires p <= q <= |full| && UniqueIds(full) && known + full[q..] != [] && batch == (known + full[q..])[0]
      requires channels.ready == (known + full[q..])[1..] && channels.outstanding == full[p..q] + [batch]
      requires (forall b | b in known :: b.id in checkpointIds)
          && (forall j | q <= j < |full| :: full[j].id !in checkpointIds)
      requires (known != [] ==> q == p) && InRun(runSamples) && Now() == Fold(engine, full[..q])
      requires runIds == IdsBetween(full, p, q) && (last.Some? <==> p < q) && (last.None? ==> runSamples == [])
      requires channels.results == results + Answers(engine, full, p, q)
      requires channels.trace == base + AnswerMarks(full, p, q)
      requires known != [] ==> KnownAcks(base, before, checkpointIds, |archiver.checkpointMgr.fs.log|)
      modifies archiver, archiver.checkpointMgr.fs, channels
      ensures Consumed(full, p, q', known', checkpointIds, runIds', runSamples', last', results, base')
      ensures if fresh' then q' == q + 1 && known' == [] else q' == q && known != [] && known' == known[1..]
      ensures channels.ready == old(channels.ready) && DiskWentOn()
      ensures fresh' ==> base' == base && q < |full| && batch == full[q]
      ensures !fresh' ==>
        && archiver.checkpointMgr.fs.log == old(archiver.checkpointMgr.fs.log)
        && KnownAcks(base', before, checkpointIds, |archiver.checkpointMgr.fs.log|)
    {
      fresh', runIds', runSamples', last', q', known', base' := false, runIds, runSamples, last, q, known, base;
      NextIsKnown(full, p, q, known, checkpointIds, runIds, batch);
      if batch.id in runIds || batch.id in checkpointIds {
        base' := SkipBatch(batch, checkpointIds, full, p, known, last, results, before, base);
        known' := known[1..];
      } else {
        fresh', last' := true, Some(batch.id);
        runIds', runSamples' :=
          ProcessBatch(batch, runIds, runSamples, full, p, q, checkpointIds, last', results, base);
        q' := q + 1;
      }
    }

    /** What is taken from the queue next. */
    lemma NextOrEnd(full: seq<Batch>, p: nat, q: nat, known: seq<Batch>, checkpointIds: set<BatchId>)
      requires Waiting(full, q, known, checkpointIds)
      ensures if channels.ready == [] then known == [] && q == |full| else known + full[q..] == channels.ready
    {
    }

    /** In the middle of a run that began with known0 left and n file-system steps taken. */
    ghost predicate MidRun(full: seq<Batch>, p: nat, q: nat, known0: seq<Batch>, known: seq<Batch>,
                           checkpointIds: set<BatchId>, runIds: set<BatchId>, runSamples: seq<Row>,
                           last: Option<BatchId>, results: seq<(BatchId, seq<Reply>)>, n: nat,
                           before: seq<Mark>, base: seq<Mark>)
      reads channels, archiver, archiver.checkpointMgr.fs
    {
      && Consumed(full, p, q, known, checkpointIds, runIds, runSamples, last, results, base)
      && KnownAcks(base, before, checkpointIds, n)
      && (known != [] ==> |archiver.checkpointMgr.fs.log| == n)
      && (known0 == [] ==> base == before && known == [])
    }

    lemma NothingConsumed(full: seq<Batch>, p: nat, known: seq<Batch>, checkpointIds: set<BatchId>)
      requires p <= |full| && Waiting(full, p, known, checkpointIds) && channels.outstanding == []
      requires InRun([]) && Now() == Fold(engine, full[..p])
      ensures MidRun(full, p, p, known, known, checkpointIds, {}, [], None, channels.results,
                     |archiver.checkpointMgr.fs.log|, channels.trace, channels.trace)
    {
      assert full[p..p] == [] && channels.results + Answers(engine, full, p, p) == channels.results;
      assert channels.trace + AnswerMarks(full, p, p) == channels.trace;
    }

    /** One turn of the consumer loop: the next batch, if there is one, is skipped or taken in. */
    method ConsumeNext(checkpointIds: set<BatchId>, runIds: set<BatchId>, runSamples: seq<Row>, last: Option<BatchId>,
                       ghost full: seq<Batch>, ghost p: nat, ghost q: nat, ghost known0: seq<Batch>,
                       ghost known: seq<Batch>, ghost results: seq<(BatchId, seq<Reply>)>, ghost n: nat,
                       ghost before: seq<Mark>, ghost base: seq<Mark>)
        returns (next: Option<Batch>, fresh': bool, runIds': set<BatchId>, runSamples': seq<Row>,
                 last': Option<BatchId>, ghost q': nat, ghost known': seq<Batch>, ghost base': seq<Mark>)
      requires MidRun(full, p, q, known0, known, checkpointIds, runIds, runSamples, last, results, n, before, base)
      modifies archiver, archiver.checkpointMgr.fs, channels
      ensures MidRun(full, p, q', known0, known', checkpointIds, runIds', runSamples', last', results, n, before, base')
      ensures next.None? ==> known' == [] && q' == |full| && !fresh'
      ensures next.Some? ==> |channels.ready| < |old(channels.ready)|
      ensures p <= q <= q' <= |full|
      ensures if fresh' then q' == q + 1 && known' == [] && next == Some(full[q]) else q' == q
      ensures DiskWentOn()
    {
      fresh', runIds', runSamples', last', q', known', base' := false, runIds, runSamples, last, q, known, base;
      NextOrEnd(full, p, q, known, checkpointIds);
      next := channels.Next();
      if next.Some? {
        fresh', runIds', runSamples', last', q', known', base' :=
          TakeBatch(next.value, checkpointIds, runIds, runSamples, last, full, p, q, known, results, before, base);
      }
    }

    /** The consumer loop: skips known batches, processes new ones up to the target or the end of the queue. */
    method ConsumeUpToTarget(checkpointIds: set<BatchId>, ghost full: seq<Batch>, ghost p: nat,
                             ghost known0: seq<Batch>, ghost results: seq<(BatchId, seq<Reply>)>, ghost n: nat,
                             ghost before: seq<Mark>)
        returns (drained: bool, runIds: set<BatchId>, runSamples: seq<Row>, last: Option<BatchId>, ghost q: nat,
                 ghost base: seq<Mark>)
      requires MidRun(full, p, p, known0, known0, checkpointIds, {}, [], None, results, n, before, before)
      modifies archiver, archiver.checkpointMgr.fs, channels
      ensures MidRun(full, p, q, known0, [], checkpointIds, runIds, runSamples, last, results, n, before, base)
      ensures if drained then q == |full| else p < q
      ensures p <= q <= |full| && UpToTarget(full, p, q, targetMaxRequestsPerCheckpoint, drained)
      ensures DiskWentOn()
    {
      drained, runIds, runSamples, last, q, base := false, {}, [], None, p, before;
      var requests: nat, leaving := 0, false;
      ghost var known := known0;
      while !leaving
        invariant MidRun(full, p, q, known0, known, checkpointIds, runIds, runSamples, last, results, n, before, base)
        invariant DiskWentOn()
        invariant leaving ==> known == [] && (if drained then q == |full| else p < q)
        invariant p <= q <= |full|
        invariant Pacing(full, p, q, targetMaxRequestsPerCheckpoint, requests, leaving, drained)
        decreases !leaving, |channels.ready|
      {
        var next, isFresh;
        ghost var was := q;
        next, isFresh, runIds, runSamples, last, q, known, base :=
          ConsumeNext(checkpointIds, runIds, runSamples, last, full, p, q, known0, known, results, n, before, base);
        OneMoreBatchPaces(full, p, was, q, targetMaxRequestsPerCheckpoint, requests, next, isFresh);
        requests := requests + (if isFresh then |next.value.objects| else 0);
        drained := next.None?;
        leaving := drained || (isFresh && requests >= targetMaxRequestsPerCheckpoint);
      }
    }

    /** The batches of one run; an empty queue ends the process's work. */
    method ConsumeRun(checkpointIds: set<BatchId>, ghost full: seq<Batch>, ghost p: nat, ghost known0: seq<Batch>)
        returns (runIds: set<BatchId>, runSamples: seq<Row>, last: Option<BatchId>, ghost q: nat,
                 ghost base: seq<Mark>)
      requires !done && p <= |full| && Waiting(full, p, known0, checkpointIds) && channels.outstanding == []
      requires InRun([]) && Now() == Fold(engine, full[..p])
      modifies `done, archiver, archiver.checkpointMgr.fs, channels
      ensures Consumed(full, p, q, [], checkpointIds, runIds, runSamples, last, old(channels.results), base)
      ensures if done then q == |full| else p < q
      ensures p <= q <= |full| && UpToTarget(full, p, q, targetMaxRequestsPerCheckpoint, done)
      ensures DiskWentOn() && (known0 == [] ==> base == old(channels.trace))
      ensures KnownAcks(base, old(channels.trace), checkpointIds, |old(archiver.checkpointMgr.fs.log)|)
    {
      var drained;
      NothingConsumed(full, p, known0, checkpointIds);
      drained, runIds, runSamples, last, q, base :=
        ConsumeUpToTarget(checkpointIds, full, p, known0, channels.results, |archiver.checkpointMgr.fs.log|,
                          channels.trace);
      if drained {
        done := true;
      }
    }

    /** Between runs the disk alone stands for the live model. */
    lemma SettledNow()
      requires InRun([])
      ensures Now() == LogicalOf(engine, archiver.Found())
    {
    }

    /** Makes the run durable. */
    method SaveRun(runIds: set<BatchId>, runSamples: seq<Row>)
      requires InRun(runSamples)
      modifies archiver, archiver.checkpointMgr.fs
      ensures InRun([]) && Now() == old(Now())
      ensures DiskWentOn() && (old(archiver.model).Some? ==> Settled())
    {
      if archiver.model.Some? {
        var disk := archiver.checkpointMgr.fs.disk;
        var t := FreshName(disk.scratch.Keys);
        var s := FreshName(disk.entries[id].stores.Keys);
        archiver.SaveModel(runIds, runSamples, t, s);
        assert Replay(engine, Restored(engine, archiver.Found()), []) == Restored(engine, archiver.Found());
      }
    }

    /** Between two runs: batches p to q - 1 are processed, answered, durable and acked. */
    ghost predicate Resting(full: seq<Batch>, p: nat, q: nat, known: seq<Batch>, checkpointIds: set<BatchId>,
                            results: seq<(BatchId, seq<Reply>)>)
      reads channels, archiver, archiver.checkpointMgr.fs
    {
      && p <= q && Waiting(full, q, known, checkpointIds) && channels.outstanding == []
      && InRun([]) && Now() == Fold(engine, full[..q])
      && channels.results == results + Answers(engine, full, p, q)
    }

    /** The answers of a run join those of the runs before. */
    lemma RestingOn(full: seq<Batch>, p: nat, q: nat, q': nat, checkpointIds: set<BatchId>,
                    before: seq<(BatchId, seq<Reply>)>, results: seq<(BatchId, seq<Reply>)>)
      requires p <= q && Resting(full, q, q', [], checkpointIds, results)
      requires results == before + Answers(engine, full, p, q)
      ensures Resting(full, p, q', [], checkpointIds, before)
    {
      AnswersAppend(engine, full, p, q, q');
      assert before + (Answers(engine, full, p, q) + Answers(engine, full, q, q'))
          == before + Answers(engine, full, p, q) + Answers(engine, full, q, q');
    }

    /** A settled disk keeps what the process at rest stands for. */
    lemma SettledKeeps(life: Life, q: nat, ids: set<BatchId>)
      requires InRun([]) && Settled() && life.engine == engine && life.id == id
      requires q <= |life.full| && Now() == Fold(engine, life.full[..q])
      requires ids <= IdsBetween(life.full, 0, q) + BatchIdsOf(archiver.Found())
      ensures Keeps(life, archiver.checkpointMgr.fs.State(), ids, q)
    {
      SettledNow();
    }

    ghost predicate Mine(life: Life) {
      life.engine == engine && life.id == id && life.origin == archiver.checkpointMgr.fs.origin
    }

    /**
     * The end of a run: checkpoint, and only then ack. The ack comes after the last of the file-system
     * steps, and the state they lead to keeps the batches acked whatever a crash undoes.
     */
    method CloseRun(checkpointIds: set<BatchId>, runIds: set<BatchId>, runSamples: seq<Row>, last: Option<BatchId>,
                    ghost life: Life, ghost q: nat, ghost q': nat, ghost results: seq<(BatchId, seq<Reply>)>,
                    ghost base: seq<Mark>)
        returns (checkpointIds': set<BatchId>)
      requires Mine(life)
      requires Consumed(life.full, q, q', [], checkpointIds, runIds, runSamples, last, results, base)
      modifies archiver, archiver.checkpointMgr.fs, channels`outstanding, channels`trace
      ensures Resting(life.full, q, q', [], checkpointIds', results) && DiskWentOn()
      ensures channels.trace == RunMarks(base, life.full, q, q', |archiver.checkpointMgr.fs.log|)
      ensures q < q' && (old(archiver.model).Some? || old(Settled())) ==>
        Keeps(life, archiver.checkpointMgr.fs.State(), IdsBetween(life.full, q, q'), q')
    {
      checkpointIds' := checkpointIds;
      if last.Some? {
        checkpointIds' := runIds;
        LaterIds(life.full, q, q');
        SaveRun(runIds, runSamples);
        IdsOfRun(life.full, q, q');
        channels.AckMultiple();
        assert IdsBetween(life.full, q, q') <= IdsBetween(life.full, 0, q');
        if Settled() {
          SettledKeeps(life, q', IdsBetween(life.full, q, q'));
        }
      }
    }

    /** Known batches are waiting only before the first run, and the checkpoint then names them. */
    ghost predicate KnownAtFirst(life: Life, known: seq<Batch>, checkpointIds: set<BatchId>)
      requires archiver.Valid()
      reads archiver, archiver.checkpointMgr.fs
    {
      known != [] ==> checkpointIds == BatchIdsOf(archiver.Found()) == life.known
    }

    /** One run from its first batch to its ack, and what it told the outside. */
    method ProcessRun(checkpointIds: set<BatchId>, ghost life: Life, ghost q: nat, ghost known: seq<Batch>)
        returns (checkpointIds': set<BatchId>, ghost q': nat, ghost base: seq<Mark>)
      requires !done && Mine(life) && q <= |life.full| && Waiting(life.full, q, known, checkpointIds)
      requires channels.outstanding == [] && InRun([]) && Now() == Fold(engine, life.full[..q])
      modifies `done, archiver, archiver.checkpointMgr.fs, channels
      ensures Resting(life.full, q, q', [], checkpointIds', old(channels.results)) && DiskWentOn()
      ensures if done then q' == |life.full| else q < q'
      ensures q <= q' <= |life.full| && UpToTarget(life.full, q, q', targetMaxRequestsPerCheckpoint, done)
      ensures KnownAcks(base, old(channels.trace), checkpointIds, |old(archiver.checkpointMgr.fs.log)|)
      ensures known == [] ==> base == old(channels.trace)
      ensures channels.trace == RunMarks(base, life.full, q, q', |archiver.checkpointMgr.fs.log|)
      ensures q < q' && old(Settled()) ==>
        Keeps(life, archiver.checkpointMgr.fs.State(), IdsBetween(life.full, q, q'), q')
    {
      ghost var before := channels.results;
      var runIds, runSamples, last;
      runIds, runSamples, last, q', base := ConsumeRun(checkpointIds, life.full, q, known);
      checkpointIds' := CloseRun(checkpointIds, runIds, runSamples, last, life, q, q', before, base);
    }

    /** One run that keeps acks in order; preempted is asked when it is over. */
    method OneRun(checkpointIds: set<BatchId>, ghost life: Life, ghost p: nat, ghost q: nat,
                  ghost known: seq<Batch>, ghost results: seq<(BatchId, seq<Reply>)>, preempted: bool)
        returns (checkpointIds': set<BatchId>, ghost q': nat)
      requires !done && Mine(life) && Resting(life.full, p, q, known, checkpointIds, results)
      requires KnownAtFirst(life, known, checkpointIds) && life.from <= |channels.trace|
      modifies `done, archiver, archiver.checkpointMgr.fs, channels
      ensures Resting(life.full, p, q', [], checkpointIds', results)
      ensures q <= q' <= |life.full| && (!done ==> q < q') && (done && !preempted ==> q' == |life.full|)
      ensures UpToTarget(life.full, q, q', targetMaxRequestsPerCheckpoint, q' == |life.full|)
      ensures DiskWentOn() && |old(channels.trace)| <= |channels.trace|
      ensures old(Settled()) && old(AcksInOrder(life, archiver.checkpointMgr.fs.log, channels.trace)) ==>
        AcksInOrder(life, archiver.checkpointMgr.fs.log, channels.trace)
    {
      ghost var fs, settled := archiver.checkpointMgr.fs, Settled();
      ghost var log, trace := fs.log, channels.trace;
      StartKeeps(life, q);
      ghost var base, before := [], channels.results;
      checkpointIds', q', base := ProcessRun(checkpointIds, life, q, known);
      assert settled && AcksInOrder(life, log, trace) ==> AcksInOrder(life, fs.log, channels.trace) by {
        fs.StateOf();
        if settled && AcksInOrder(life, log, trace) {
          RunKeepsOrder(life, log, fs.log, trace, base, checkpointIds, q, q');
        }
      }
      RestingOn(life.full, p, q, q', checkpointIds', results, before);
      if !done {
        done := preempted;
      }
    }

    lemma StartKeeps(life: Life, q: nat)
      requires InRun([]) && Mine(life) && q <= |life.full| && Now() == Fold(engine, life.full[..q])
      ensures Settled() ==>
        Keeps(life, ExecAll(life.origin, archiver.checkpointMgr.fs.log), BatchIdsOf(archiver.Found()), q)
    {
      archiver.checkpointMgr.fs.StateOf();
      if Settled() {
        SettledKeeps(life, q, BatchIdsOf(archiver.Found()));
      }
    }

    /** The batch ids that the checkpoint has. */
    method KnownBatches(ghost full: seq<Batch>, ghost p: nat, ghost known: seq<Batch>)
        returns (checkpointIds: set<BatchId>)
      requires p <= |full| && Waiting(full, p, known, BatchIdsOf(archiver.Found())) && channels.outstanding == []
      requires InRun([]) && Now() == Fold(engine, full[..p])
      modifies archiver
      ensures Resting(full, p, p, known, checkpointIds, channels.results)
      ensures checkpointIds == BatchIdsOf(archiver.Found())
    {
      checkpointIds := archiver.ModelCheckpointBatchIdSet();
      assert channels.results + Answers(engine, full, p, p) == channels.results;
    }

    /** At rest the disk alone stands for the first q batches, and the others wait. */
    lemma AtRest(full: seq<Batch>, p: nat, q: nat, checkpointIds: set<BatchId>, results: seq<(BatchId, seq<Reply>)>)
      requires Resting(full, p, q, [], checkpointIds, results)
      ensures LogicalOf(engine, archiver.Found()) == Fold(engine, full[..q]) && channels.ready == full[q..]
    {
      SettledNow();
      assert [] + full[q..] == full[q..];
    }

    /**
     * The whole run of the process. preempted tells after each run whether the process is asked to
     * make room. Every batch it takes in is answered once and in order; and if the disk was settled at
     * its start, every ack comes after the answers and after the disk keeps the batches acked.
     */
    method Run(preempted: nat -> bool, ghost life: Life, ghost p: nat, ghost known: seq<Batch>)
        returns (ghost q: nat)
      requires !done && p <= |life.full| && Waiting(life.full, p, known, BatchIdsOf(archiver.Found()))
          && channels.outstanding == []
      requires InRun([]) && Now() == Fold(engine, life.full[..p])
      requires Mine(life) && life.known == BatchIdsOf(archiver.Found()) && life.from == |channels.trace|
      modifies `done, archiver, archiver.checkpointMgr.fs, channels
      ensures p <= q <= |life.full| && InRun([]) && LogicalOf(engine, archiver.Found()) == Fold(engine, life.full[..q])
      ensures channels.outstanding == [] && channels.ready == life.full[q..]
      ensures channels.results == old(channels.results) + Answers(engine, life.full, p, q)
      ensures (forall i :: !preempted(i)) ==> q == |life.full|
      ensures old(Settled()) ==> Settled() && AcksInOrder(life, archiver.checkpointMgr.fs.log, channels.trace)
    {
      var checkpointIds := KnownBatches(life.full, p, known);
      var run := 0;
      ghost var left, results := known, channels.results;
      q := p;
      while !done
        invariant Resting(life.full, p, q, left, checkpointIds, results)
        invariant KnownAtFirst(life, left, checkpointIds) && life.from <= |channels.trace|
        invariant done ==> left == [] && ((forall i :: !preempted(i)) ==> q == |life.full|)
        invariant old(Settled()) ==> Settled() && AcksInOrder(life, archiver.checkpointMgr.fs.log, channels.trace)
        decreases |life.full| - q, !done
      {
        ghost var q';
        checkpointIds, q' := OneRun(checkpointIds, life, p, q, left, results, preempted(run));
        left, q := [], q';
        run := run + 1;
      }
      AtRest(life.full, p, q, checkpointIds, results);
    }
  }

  lemma LaterIds(full: seq<Batch>, p: nat, q: nat)
    requires UniqueIds(full) && p <= q <= |full|
    ensures forall j | q <= j < |full| :: full[j].id !in IdsBetween(full, p, q)
  {
  }

  lemma DefineOutcome(d: Disk, id: ModelId, t: string, definition: Definition)
    requires id !in d.entries && t !in d.scratch
    ensures
      var now := ApplyAll(DefineScript(id, t, definition), d);
      Healthy(now, id) && Recover(now, id) == Defined(definition)
  {
    DefineSwitches(d, id, t, definition);
    var script := DefineScript(id, t, definition);
    assert script[..|script|] == script;
  }

  lemma DefineSettles(fs: Fs, id: ModelId, t: string, definition: Definition)
    requires id !in View(fs).entries && t !in View(fs).scratch
    ensures AlwaysRecovers(ExecAll(fs, DefineScript(id, t, definition)), id, Defined(definition))
  {
    DefineSwitches(View(fs), id, t, definition);
    ScriptSettles(fs, id, DefineScript(id, t, definition), 4, Defined(definition));
  }
}
