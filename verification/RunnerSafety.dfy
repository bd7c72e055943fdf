/** Every step of the runner protocol keeps the invariant, and what follows from it. */
module RunnerSafety {
  import opened Basics
  import opened Opf
  import opened CheckpointDisk
  import opened CheckpointScripts
  import opened ModelArchiving
  import opened RunnerSemantics
  import opened RunnerProtocol
  import opened RunnerInvariant

  lemma ViewIsCrashView(fs: Fs)
    ensures CrashView(fs, |fs.pending|) == View(fs) && CrashView(fs, 0) == fs.base
  {
    assert fs.pending[..|fs.pending|] == fs.pending;
  }

  lemma ViewHealthy(c: Config, fs: Fs)
    requires OneChange(c, fs)
    ensures Healthy(View(fs), c.id) && Healthy(fs.base, c.id)
  {
    ViewIsCrashView(fs);
  }

  /** Only what is known of the stream and the acks has grown: the disk stands as before, perhaps for more. */
  lemma DiskKept(c: Config, s: State, s': State, q: nat, q': nat)
    requires 0 <= Acked(s) <= Acked(s') && DiskCovers(c, s, q)
    requires s'.submitted == s.submitted && s'.fs == s.fs && q <= q'
    requires Covers(c, s.submitted, Found(c, s), q') && Known(s.submitted, Acked(s'), q', BatchIdsOf(Found(c, s)))
    ensures DiskCovers(c, s', q')
  {
    var found, earlier := Found(c, s), Recover(s.fs.base, c.id);
    if earlier != found {
      var p: nat :| Undone(c, s.submitted, Acked(s), found, earlier, q, p);
      assert IdsBetween(s.submitted, p, q) <= IdsBetween(s.submitted, p, q');
      assert Undone(c, s'.submitted, Acked(s'), found, earlier, q', p);
    }
  }

  lemma DiskSame(c: Config, s: State, s': State, q: nat)
    requires 0 <= Acked(s) <= Acked(s') && DiskCovers(c, s, q)
    requires s'.submitted == s.submitted && s'.fs == s.fs
    ensures DiskCovers(c, s', q)
  {
    DiskKept(c, s, s', q, q);
  }

  // ----- batches arriving -----

  lemma Prefixes(batches: seq<Batch>, batch: Batch, j: nat)
    requires j <= |batches|
    ensures (batches + [batch])[..j] == batches[..j]
  {
  }

  lemma ExtendLogical(c: Config, batches: seq<Batch>, batch: Batch, found: Recovered, j: nat)
    requires j <= |batches| && LogicalAt(c, batches, found, j)
    ensures LogicalAt(c, batches + [batch], found, j)
  {
    Prefixes(batches, batch, j);
    if batches != [] {
      Prefixes(batches, batch, 1);
    }
  }

  lemma ExtendIds(batches: seq<Batch>, batch: Batch, lo: nat, hi: nat)
    requires lo <= hi <= |batches|
    ensures IdsBetween(batches + [batch], lo, hi) == IdsBetween(batches, lo, hi)
  {
    assert forall j | 0 <= j < |batches| :: (batches + [batch])[j] == batches[j];
  }

  lemma {:induction false} ExtendRequests(batches: seq<Batch>, batch: Batch, lo: nat, hi: nat)
    requires lo <= hi <= |batches|
    ensures Requests(batches + [batch], lo, hi) == Requests(batches, lo, hi)
    decreases hi
  {
    if lo < hi {
      ExtendRequests(batches, batch, lo, hi - 1);
    }
  }

  lemma ExtendCovers(c: Config, batches: seq<Batch>, batch: Batch, found: Recovered, j: nat)
    requires Covers(c, batches, found, j)
    ensures Covers(c, batches + [batch], found, j)
  {
    ExtendLogical(c, batches, batch, found, j);
    ExtendIds(batches, batch, 0, j);
  }

  lemma ExtendMemory(c: Config, batches: seq<Batch>, batch: Batch, mem: Memory, found: Recovered, l: Logical, r: nat,
                     h: nat)
    requires r <= h <= |batches| && MemoryOk(c, batches, mem, found, l, r, h)
    ensures MemoryOk(c, batches + [batch], mem, found, l, r, h)
  {
    if mem.archive.model.None? {
      forall j: nat | r <= j <= h
        ensures LogicalAt(c, batches + [batch], found, j)
      {
        ExtendLogical(c, batches, batch, found, j);
      }
      if batches != [] {
        Prefixes(batches, batch, 1);
      }
    }
  }

  lemma ExtendKnown(batches: seq<Batch>, batch: Batch, lo: int, hi: nat, ids: set<BatchId>)
    requires 0 <= lo && hi <= |batches| && Known(batches, lo, hi, ids)
    ensures Known(batches + [batch], lo, hi, ids)
  {
  }

  function Submitted(s: State, batch: Batch): State {
    s.(submitted := s.submitted + [batch], broker := s.broker.(ready := s.broker.ready + [batch]))
  }

  lemma ExtendDisk(c: Config, s: State, batch: Batch, q: nat)
    requires 0 <= Acked(s) && DiskCovers(c, s, q)
    ensures DiskCovers(c, Submitted(s, batch), q)
  {
    var found, earlier := Found(c, s), Recover(s.fs.base, c.id);
    ExtendCovers(c, s.submitted, batch, found, q);
    ExtendKnown(s.submitted, batch, Acked(s), q, BatchIdsOf(found));
    if earlier != found {
      var p: nat :| Undone(c, s.submitted, Acked(s), found, earlier, q, p);
      ExtendCovers(c, s.submitted, batch, earlier, p);
      ExtendIds(s.submitted, batch, p, q);
      assert Undone(c, s.submitted + [batch], Acked(s), found, earlier, q, p);
    }
  }

  lemma ExtendRun(s: State, batch: Batch, mem: Memory, r: nat, taken: nat)
    requires 0 <= Acked(s) && r <= taken <= |s.submitted| && RunOk(s, mem, r, taken)
    ensures RunOk(Submitted(s, batch), mem, r, taken)
  {
    ExtendIds(s.submitted, batch, r, taken);
    ExtendIds(s.submitted, batch, 0, taken);
    ExtendRequests(s.submitted, batch, r, taken);
    ExtendKnown(s.submitted, batch, Acked(s), r, mem.checkpointIds);
  }

  lemma ExtendIdle(c: Config, s: State, batch: Batch, mem: Memory, r: nat, h: nat)
    requires 0 <= Acked(s) && r <= h <= |s.submitted| && IdleOk(c, s, mem, r, h)
    ensures IdleOk(c, Submitted(s, batch), mem, r, h)
  {
    Prefixes(s.submitted, batch, h);
    ExtendDisk(c, s, batch, r);
    ExtendRun(s, batch, mem, r, h);
    ExtendMemory(c, s.submitted, batch, mem, Found(c, s), Fold(c.engine, s.submitted[..h]), r, h);
  }

  lemma SubmitHandling(c: Config, s: State, mem: Memory, b: Batch, replies: seq<Reply>, r: nat, h: nat, batch: Batch)
    requires 0 <= Acked(s) && r <= h <= |s.submitted| && HandlingOk(c, s, mem, b, replies, r, h)
    ensures HandlingOk(c, Submitted(s, batch), mem, b, replies, r, h)
  {
    Prefixes(s.submitted, batch, h);
    ExtendDisk(c, s, batch, r);
    ExtendRun(s, batch, mem, r, h + 1);
    var done := PerformAll(c.engine, Fold(c.engine, s.submitted[..h]), b.objects[..|replies|]);
    ExtendMemory(c, s.submitted, batch, mem, Found(c, s), done.0, r, h);
  }

  lemma SubmitCreating(c: Config, s: State, mem: Memory, pc: Pc, r: nat, h: nat, batch: Batch)
    requires 0 <= Acked(s) && r <= h <= |s.submitted| && pc.Creating? && CreatingOk(c, s, mem, pc, r, h)
    ensures CreatingOk(c, Submitted(s, batch), mem, pc, r, h)
  {
    ExtendRun(s, batch, mem, 0, 1);
  }

  lemma SubmitSaving(c: Config, s: State, mem: Memory, pc: Pc, r: nat, h: nat, switch: nat, after: Recovered,
                     batch: Batch)
    requires 0 <= Acked(s) && r <= h <= |s.submitted| && pc.Saving? && SavingOk(c, s, mem, pc, r, h, switch, after)
    ensures SavingOk(c, Submitted(s, batch), mem, pc, r, h, switch, after)
  {
    var start := s.(fs := pc.start);
    Prefixes(s.submitted, batch, h);
    ExtendRun(s, batch, mem, r, h);
    ExtendDisk(c, start, batch, r);
    assert Submitted(start, batch) == Submitted(s, batch).(fs := pc.start);
    ExtendCovers(c, s.submitted, batch, after, h);
    ExtendKnown(s.submitted, batch, Acked(s), h, BatchIdsOf(after));
    ExtendMemory(c, s.submitted, batch, NewRun(mem), after, Fold(c.engine, s.submitted[..h]), h, h);
  }

  lemma SubmitAcking(c: Config, s: State, mem: Memory, r: nat, h: nat, q: nat, batch: Batch)
    requires 0 <= Acked(s) && r <= h <= |s.submitted| && AckingOk(c, s, mem, r, h, q)
    ensures AckingOk(c, Submitted(s, batch), mem, r, h, q)
  {
    Prefixes(s.submitted, batch, h);
    ExtendDisk(c, s, batch, q);
    ExtendRun(s, batch, mem, r, h);
    ExtendCovers(c, s.submitted, batch, Found(c, s), h);
    ExtendMemory(c, s.submitted, batch, NewRun(mem), Found(c, s), Fold(c.engine, s.submitted[..h]), h, h);
  }

  lemma SubmitPublished(c: Config, s: State, h: nat, batch: Batch)
    requires h <= |s.submitted| && PublishedOk(c, s, h)
    ensures PublishedOk(c, s.(submitted := s.submitted + [batch]), h)
  {
    var new' := s.submitted + [batch];
    assert forall j | 0 <= j < |s.submitted| :: new'[..j] == s.submitted[..j];
    forall p | p in s.published
      ensures exists j: nat :: j < |new'| && p == (new'[j].id, Replies(c.engine, new', j))
    {
      var j: nat :| j < |s.submitted| && p == (s.submitted[j].id, Replies(c.engine, s.submitted, j));
      assert p == (new'[j].id, Replies(c.engine, new', j));
    }
  }

  lemma SubmitQueue(s: State, r: nat, h: nat, batch: Batch)
    requires QueueOk(s, r, h) && WellFormedStream(s.submitted + [batch])
    ensures QueueOk(Submitted(s, batch), r, h)
  {
    var s' := Submitted(s, batch);
    assert s'.broker.outstanding + s'.broker.ready == (s.broker.outstanding + s.broker.ready) + [batch];
  }

  lemma SubmitProcess(c: Config, s: State, r: nat, h: nat, batch: Batch)
    requires 0 <= Acked(s) && r <= h <= |s.submitted| && ProcessOk(c, s, r, h)
    ensures ProcessOk(c, Submitted(s, batch), r, h)
  {
    match s.process
    case Dead => ExtendDisk(c, s, batch, r);
    case Alive(mem, pc) =>
      match pc {
        case Saving(_, _, _) =>
          var switch: nat, after :| SavingOk(c, s, mem, pc, r, h, switch, after);
          SubmitSaving(c, s, mem, pc, r, h, switch, after, batch);
        case Acking =>
          var q: nat :| AckingOk(c, s, mem, r, h, q);
          SubmitAcking(c, s, mem, r, h, q, batch);
        case Consuming => ExtendIdle(c, s, batch, mem, r, h);
        case Closing => ExtendIdle(c, s, batch, mem, r, h);
        case Handling(b, replies) => SubmitHandling(c, s, mem, b, replies, r, h, batch);
        case Creating(_, _, _, _, _) => SubmitCreating(c, s, mem, pc, r, h, batch);
      }
  }

  lemma SubmitStep(c: Config, s: State, r: nat, h: nat, batch: Batch)
    requires InvAt(c, s, r, h) && WellFormedStream(s.submitted + [batch])
    ensures InvAt(c, Submitted(s, batch), r, h)
  {
    SubmitQueue(s, r, h, batch);
    SubmitPublished(c, s, h, batch);
    SubmitProcess(c, s, r, h, batch);
  }

  // ----- starting, delivering, reconnecting -----

  function Started(c: Config, s: State): State {
    var archive := WithAttributes(NEW_ARCHIVE, Found(c, s));
    s.(process := Alive(Memory(archive, BatchIdsOf(Found(c, s)), {}, [], 0, None, false), Consuming))
  }

  lemma StartProcess(c: Config, s: State, r: nat)
    requires QueueOk(s, r, r) && s.broker.outstanding == [] && DiskCovers(c, s, r)
    ensures IdleOk(c, Started(c, s), Started(c, s).process.mem, r, r)
  {
    var mem := Started(c, s).process.mem;
    if r == 0 {
      assert s.submitted[..0] == [];
    }
    DiskSame(c, s, Started(c, s), r);
    assert RunOk(Started(c, s), mem, r, r);
    assert MemoryOk(c, s.submitted, mem, Found(c, s), Fold(c.engine, s.submitted[..r]), r, r);
  }

  lemma StartStep(c: Config, s: State, r: nat, h: nat)
    requires InvAt(c, s, r, h) && s.process.Dead?
    ensures InvAt(c, Started(c, s), r, h)
  {
    StartProcess(c, s, r);
  }

  /** The next delivered batch is a duplicate exactly if the live model already contains it. */
  lemma DuplicateIff(s: State, mem: Memory, r: nat, h: nat)
    requires QueueOk(s, r, h) && RunOk(s, mem, r, h) && s.broker.ready != []
    ensures s.broker.ready[0] == s.submitted[Position(s)]
    ensures IsDuplicate(mem, s.broker.ready[0]) <==> Position(s) < h
    ensures Position(s) < h ==> Position(s) == Acked(s) && s.broker.outstanding == []
  {
    var i := Position(s);
    assert s.broker.ready[0] == (s.broker.outstanding + s.broker.ready)[|s.broker.outstanding|];
    assert s.submitted[Acked(s)..][|s.broker.outstanding|] == s.submitted[i];
    if IsDuplicate(mem, s.broker.ready[0]) {
      assert s.submitted[i].id in IdsBetween(s.submitted, 0, h);
      var j :| 0 <= j < h && s.submitted[j].id == s.submitted[i].id;
      assert i == j;
    }
    if r <= i < h {
      assert s.submitted[i].id in mem.runIds;
    } else if i < r {
      assert s.submitted[i].id in mem.checkpointIds;
    }
  }

  lemma DuplicateRun(s: State, mem: Memory, r: nat, h: nat)
    requires QueueOk(s, r, h) && s.process.Alive? && s.process.mem == mem && s.broker.ready != []
    requires RunOk(s, mem, r, h) && IsDuplicate(mem, s.broker.ready[0])
    ensures QueueOk(DeliverNext(s), r, h) && RunOk(DeliverNext(s), mem, r, h)
    ensures Acked(DeliverNext(s)) == Acked(s) + 1
  {
    DuplicateIff(s, mem, r, h);
    assert BrokerOk(DeliverNext(s));
  }

  lemma DuplicateProcess(c: Config, s: State, mem: Memory, r: nat, h: nat)
    requires QueueOk(s, r, h) && s.process.Alive? && s.process.mem == mem && s.broker.ready != []
    requires IdleOk(c, s, mem, r, h) && IsDuplicate(mem, s.broker.ready[0])
    ensures QueueOk(DeliverNext(s), r, h) && IdleOk(c, DeliverNext(s), mem, r, h)
  {
    DuplicateRun(s, mem, r, h);
    DiskSame(c, s, DeliverNext(s), r);
  }

  lemma FreshRun(s: State, mem: Memory, r: nat, h: nat)
    requires QueueOk(s, r, h) && s.process.Alive? && s.process.mem == mem && s.broker.ready != []
    requires RunOk(s, mem, r, h) && !IsDuplicate(mem, s.broker.ready[0])
    ensures QueueOk(DeliverNext(s), r, h) && h < |s.submitted| && s.broker.ready[0] == s.submitted[h]
    ensures RunOk(DeliverNext(s), DeliverNext(s).process.mem, r, h + 1)
    ensures Position(DeliverNext(s)) == h + 1 && Acked(DeliverNext(s)) == Acked(s)
  {
    var s', batch := DeliverNext(s), s.broker.ready[0];
    DuplicateIff(s, mem, r, h);
    assert s'.broker.outstanding + s'.broker.ready == s.broker.outstanding + s.broker.ready by {
      assert s.broker.ready == [batch] + s.broker.ready[1..];
    }
    assert IdsBetween(s.submitted, r, h + 1) == IdsBetween(s.submitted, r, h) + {batch.id};
    assert IdsBetween(s.submitted, 0, h) <= IdsBetween(s.submitted, 0, h + 1);
  }

  lemma FreshProcess(c: Config, s: State, mem: Memory, r: nat, h: nat)
    requires QueueOk(s, r, h) && s.process.Alive? && s.process.mem == mem && s.broker.ready != []
    requires IdleOk(c, s, mem, r, h) && !IsDuplicate(mem, s.broker.ready[0])
    ensures QueueOk(DeliverNext(s), r, h)
    ensures HandlingOk(c, DeliverNext(s), DeliverNext(s).process.mem, s.broker.ready[0], [], r, h)
  {
    FreshRun(s, mem, r, h);
    DiskSame(c, s, DeliverNext(s), r);
    assert s.broker.ready[0].objects[..0] == [];
  }

  lemma DeliverStep(c: Config, s: State, r: nat, h: nat)
    requires InvAt(c, s, r, h) && s.process.Alive? && s.process.pc.Consuming? && s.broker.ready != []
    ensures InvAt(c, DeliverNext(s), r, h)
  {
    if IsDuplicate(s.process.mem, s.broker.ready[0]) {
      DuplicateProcess(c, s, s.process.mem, r, h);
    } else {
      FreshProcess(c, s, s.process.mem, r, h);
    }
  }

  function Reconnected(s: State): State
    requires s.process.Alive?
  {
    var mem := s.process.mem;
    var last := if mem.last.None? then None else Some(mem.last.value.(current := false));
    s.(broker := Requeued(s.broker), process := Alive(mem.(last := last), Consuming))
  }

  lemma ReconnectQueue(s: State, r: nat, h: nat)
    requires QueueOk(s, r, h) && s.process.Alive?
    ensures QueueOk(Reconnected(s), r, h) && Acked(Reconnected(s)) == Acked(s)
  {
    var s' := Reconnected(s);
    assert s'.broker.outstanding + s'.broker.ready == s.broker.outstanding + s.broker.ready;
  }

  lemma ReconnectRun(s: State, mem: Memory, r: nat, h: nat)
    requires 0 <= Acked(s) && r <= h <= |s.submitted| && s.process.Alive? && s.process.mem == mem && RunOk(s, mem, r, h)
    requires Acked(Reconnected(s)) == Acked(s)
    ensures RunOk(Reconnected(s), Reconnected(s).process.mem, r, h)
  {
    assert Position(Reconnected(s)) == Acked(s);
  }

  lemma ReconnectProcess(c: Config, s: State, mem: Memory, r: nat, h: nat)
    requires QueueOk(s, r, h) && s.process.Alive? && s.process.mem == mem && IdleOk(c, s, mem, r, h)
    ensures QueueOk(Reconnected(s), r, h) && IdleOk(c, Reconnected(s), Reconnected(s).process.mem, r, h)
  {
    ReconnectQueue(s, r, h);
    ReconnectRun(s, mem, r, h);
    DiskSame(c, s, Reconnected(s), r);
    var mem' := Reconnected(s).process.mem;
    SameMemory(c, s.submitted, mem, mem', Found(c, s), Fold(c.engine, s.submitted[..h]), r, h);
  }

  lemma SameMemory(c: Config, batches: seq<Batch>, mem: Memory, mem': Memory, found: Recovered, l: Logical, r: nat,
                   h: nat)
    requires r <= h <= |batches| && mem'.archive == mem.archive && mem'.runSamples == mem.runSamples
    requires MemoryOk(c, batches, mem, found, l, r, h)
    ensures MemoryOk(c, batches, mem', found, l, r, h)
  {
  }

  lemma ReconnectStep(c: Config, s: State, r: nat, h: nat)
    requires InvAt(c, s, r, h) && s.process.Alive? && s.process.pc.Consuming?
    ensures InvAt(c, Reconnected(s), r, h)
  {
    ReconnectProcess(c, s, s.process.mem, r, h);
  }

  // ----- handling one object -----

  lemma PerformNext(engine: Engine, l: Logical, objects: seq<Request>, n: nat)
    requires n < |objects|
    ensures
      var (done, replies) := PerformAll(engine, l, objects[..n]);
      var (next, reply) := Perform(engine, done, objects[n]);
      PerformAll(engine, l, objects[..n + 1]) == (next, replies + [reply])
  {
    assert objects[..n + 1][..n] == objects[..n];
  }

  /** Only the very first object of the stream meets a stream model that does not exist yet. */
  lemma NoModelOnlyFirst(c: Config, batches: seq<Batch>, h: nat, n: nat)
    requires WellFormedStream(batches) && h < |batches| && n < |batches[h].objects|
    requires PerformAll(c.engine, Fold(c.engine, batches[..h]), batches[h].objects[..n]).0.NoModel?
    ensures h == 0 && n == 0
  {
    if h > 0 {
      FoldTrained(c.engine, batches, h);
      PerformAllKeepsDefinition(c.engine, Fold(c.engine, batches[..h]), batches[h].objects[..n]);
    }
  }

  lemma FirstBatch(c: Config, batches: seq<Batch>)
    requires WellFormedStream(batches) && batches != []
    ensures
      var definition := batches[0].objects[0].definition;
      && Fold(c.engine, batches[..0]) == NoModel
      && Fold(c.engine, batches[..1]) == Trained(definition, c.engine.create(definition))
  {
    assert batches[..0] == [] && batches[0].objects[..0] == [];
    FoldStep(c.engine, batches, 0);
    PerformNext(c.engine, NoModel, batches[0].objects, 0);
    assert batches[0].objects[..1] == batches[0].objects;
  }

  /** Loading the model changes nothing the outside sees. */
  lemma LoadedMemory(c: Config, batches: seq<Batch>, mem: Memory, found: Recovered, l: Logical, r: nat, h: nat)
    requires r <= h <= |batches| && MemoryOk(c, batches, mem, found, l, r, h) && l.Trained?
    ensures
      var loaded := WithModel(mem.archive, c.engine, found);
      && loaded.Some? && loaded.value.model.Some? && WithModel(loaded.value, c.engine, found) == loaded
      && MemoryOk(c, batches, mem.(archive := loaded.value), found, l, r, h)
  {
    if mem.archive.model.None? {
      WithModelRestores(mem.archive, c.engine, found);
      assert Replay(c.engine, Restored(c.engine, found), []) == Restored(c.engine, found);
    }
  }

  lemma LoadedRow(c: Config, batches: seq<Batch>, mem: Memory, found: Recovered, l: Logical, r: nat, h: nat,
                  rowId: nat, data: Row)
    requires r <= h <= |batches| && MemoryOk(c, batches, mem, found, l, r, h) && mem.archive.model.Some?
    ensures
      var (mem', reply) := HandleRow(c.engine, mem, found, rowId, data);
      && Perform(c.engine, l, InputRow(rowId, data)).1 == reply
      && MemoryOk(c, batches, mem', found, Perform(c.engine, l, InputRow(rowId, data)).0, r, h)
      && mem' == mem.(archive := mem'.archive, runSamples := mem'.runSamples)
  {
    var samples := mem.runSamples + [data];
    assert samples[..|samples| - 1] == mem.runSamples;
  }

  /** Handling a row follows the logical model and keeps memory in step with it. */
  lemma RowMemory(c: Config, batches: seq<Batch>, mem: Memory, found: Recovered, l: Logical, r: nat, h: nat,
                  rowId: nat, data: Row)
    requires r <= h <= |batches| && MemoryOk(c, batches, mem, found, l, r, h) && l.Trained?
    ensures
      var (mem', reply) := HandleRow(c.engine, mem, found, rowId, data);
      && Perform(c.engine, l, InputRow(rowId, data)).1 == reply
      && MemoryOk(c, batches, mem', found, Perform(c.engine, l, InputRow(rowId, data)).0, r, h)
      && mem' == mem.(archive := mem'.archive, runSamples := mem'.runSamples)
  {
    LoadedMemory(c, batches, mem, found, l, r, h);
    var loaded := mem.(archive := WithModel(mem.archive, c.engine, found).value);
    LoadedRow(c, batches, loaded, found, l, r, h, rowId, data);
    assert HandleRow(c.engine, loaded, found, rowId, data) == HandleRow(c.engine, mem, found, rowId, data);
  }

  /** A definition that is already there is confirmed or refused as the logical model says. */
  lemma DefineMemory(c: Config, batches: seq<Batch>, mem: Memory, found: Recovered, l: Logical, r: nat, h: nat,
                     request: Request)
    requires WellFormedStream(batches) && r <= h < |batches| && MemoryOk(c, batches, mem, found, l, r, h)
    requires request.DefineModel? && !found.NoEntry? && !found.Dangling? && !found.Unreadable?
    requires l.NoModel? ==> h == 0 && request == batches[0].objects[0]
    ensures
      var (next, reply) := Perform(c.engine, l, request);
      && reply == (if DefinitionOf(found) == Some(request.definition) then CommandDone(request.commandId)
                   else CommandFailed(request.commandId))
      && MemoryOk(c, batches, mem, found, next, r, h)
  {
    FirstBatch(c, batches);
  }

  lemma RunKept(s: State, s': State, mem: Memory, mem': Memory, r: nat, taken: nat)
    requires 0 <= Acked(s) && r <= taken <= |s.submitted| && RunOk(s, mem, r, taken)
    requires s'.submitted == s.submitted && s'.broker == s.broker
    requires mem'.runIds == mem.runIds && mem'.checkpointIds == mem.checkpointIds && mem'.last == mem.last
    requires mem'.runRequests == mem.runRequests
    ensures RunOk(s', mem', r, taken)
  {
  }

  lemma HandledOk(c: Config, s: State, mem: Memory, mem': Memory, batch: Batch, replies: seq<Reply>, reply: Reply,
                  r: nat, h: nat)
    requires QueueOk(s, r, h) && HandlingOk(c, s, mem, batch, replies, r, h) && |replies| < |batch.objects|
    requires mem' == mem.(archive := mem'.archive, runSamples := mem'.runSamples)
    requires
      var now := PerformAll(c.engine, Fold(c.engine, s.submitted[..h]), batch.objects[..|replies|]).0;
      var (next, owed) := Perform(c.engine, now, batch.objects[|replies|]);
      reply == owed && MemoryOk(c, s.submitted, mem', Found(c, s), next, r, h)
    ensures
      var s' := s.(process := Alive(mem', Handling(batch, replies + [reply])));
      HandlingOk(c, s', mem', batch, replies + [reply], r, h)
  {
    var s' := s.(process := Alive(mem', Handling(batch, replies + [reply])));
    PerformNext(c.engine, Fold(c.engine, s.submitted[..h]), batch.objects, |replies|);
    DiskSame(c, s, s', r);
    RunKept(s, s', mem, mem', r, h + 1);
  }

  /** A model without an entry never had one. */
  lemma NothingUndone(c: Config, s: State, q: nat)
    requires 0 <= Acked(s) && DiskCovers(c, s, q) && Found(c, s).NoEntry?
    ensures AlwaysRecovers(s.fs, c.id, NoEntry) && Healthy(View(s.fs), c.id)
  {
    ViewHealthy(c, s.fs);
    assert Recover(s.fs.base, c.id) == NoEntry;
  }

  lemma HandleCreate(c: Config, s: State, mem: Memory, batch: Batch, replies: seq<Reply>, r: nat, h: nat, t: string)
    requires QueueOk(s, r, h) && s.process == Alive(mem, Handling(batch, replies))
    requires HandlingOk(c, s, mem, batch, replies, r, h) && |replies| < |batch.objects|
    requires t !in View(s.fs).scratch && batch.objects[|replies|].DefineModel? && Found(c, s).NoEntry?
    ensures
      var s' := HandleNext(c, s, t);
      s'.process.Alive? && s'.process.pc.Creating? && CreatingOk(c, s', mem, s'.process.pc, r, h)
  {
    NothingUndone(c, s, r);
    NoModelOnlyFirst(c, s.submitted, h, |replies|);
    var definition := batch.objects[0].definition;
    DefineSwitches(View(s.fs), c.id, t, definition);
    assert DefineScript(c.id, t, definition)[..0] == [];
  }

  /** Handling one object, a definition that must first be written aside. */
  lemma HandleObject(c: Config, s: State, mem: Memory, batch: Batch, replies: seq<Reply>, r: nat, h: nat, t: string)
    requires QueueOk(s, r, h) && s.process == Alive(mem, Handling(batch, replies))
    requires HandlingOk(c, s, mem, batch, replies, r, h) && |replies| < |batch.objects|
    requires !(batch.objects[|replies|].DefineModel? && Found(c, s).NoEntry?)
    ensures
      var s' := HandleNext(c, s, t);
      && s'.process.Alive? && s'.process.pc.Handling?
      && HandlingOk(c, s', s'.process.mem, s'.process.pc.batch, s'.process.pc.replies, r, h)
  {
    var l := Fold(c.engine, s.submitted[..h]);
    var now, found := PerformAll(c.engine, l, batch.objects[..|replies|]).0, Found(c, s);
    ViewHealthy(c, s.fs);
    if now.NoModel? {
      NoModelOnlyFirst(c, s.submitted, h, |replies|);
    }
    match batch.objects[|replies|]
    case InputRow(rowId, data) =>
      RowMemory(c, s.submitted, mem, found, now, r, h, rowId, data);
      var (mem', reply) := HandleRow(c.engine, mem, found, rowId, data);
      HandledOk(c, s, mem, mem', batch, replies, reply, r, h);
    case UnknownCommand(commandId) =>
      HandledOk(c, s, mem, mem, batch, replies, CommandFailed(commandId), r, h);
    case DefineModel(commandId, definition) =>
      DefineMemory(c, s.submitted, mem, found, now, r, h, batch.objects[|replies|]);
      var reply := if DefinitionOf(found) == Some(definition) then CommandDone(commandId) else CommandFailed(commandId);
      HandledOk(c, s, mem, mem, batch, replies, reply, r, h);
  }

  lemma HandleFrame(c: Config, s: State, t: string)
    requires s.process.Alive? && s.process.pc.Handling? && |s.process.pc.replies| < |s.process.pc.batch.objects|
    ensures HandleNext(c, s, t) == s.(process := HandleNext(c, s, t).process)
  {
  }

  lemma HandleStep(c: Config, s: State, r: nat, h: nat, t: string)
    requires InvAt(c, s, r, h) && s.process.Alive? && s.process.pc.Handling?
    requires |s.process.pc.replies| < |s.process.pc.batch.objects| && t !in View(s.fs).scratch
    ensures InvAt(c, HandleNext(c, s, t), r, h)
  {
    var Alive(mem, Handling(batch, replies)) := s.process;
    HandleFrame(c, s, t);
    if batch.objects[|replies|].DefineModel? && Found(c, s).NoEntry? {
      HandleCreate(c, s, mem, batch, replies, r, h, t);
    } else {
      HandleObject(c, s, mem, batch, replies, r, h, t);
    }
  }
}
