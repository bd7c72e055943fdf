/** The invariant of the runner protocol: what disk, broker and memory know of the stream. */
module RunnerInvariant {
  import opened Opf
  import opened CheckpointDisk
  import opened CheckpointScripts
  import opened ModelArchiving
  import opened RunnerSemantics
  import opened RunnerProtocol

  /** Whatever a crash undoes now, the model recovers as processes see it or as it was at the last flush. */
  ghost predicate OneChange(c: Config, fs: Fs) {
    forall k {:trigger CrashView(fs, k)} | 0 <= k <= |fs.pending| ::
      && Healthy(CrashView(fs, k), c.id)
      && (|| Recover(CrashView(fs, k), c.id) == Recover(View(fs), c.id)
          || Recover(CrashView(fs, k), c.id) == Recover(fs.base, c.id))
  }

  /** Batches acked so far. */
  function Acked(s: State): int { |s.submitted| - |s.broker.outstanding| - |s.broker.ready| }

  function Position(s: State): int { |s.submitted| - |s.broker.ready| }

  /** The broker holds exactly the batches from the acked ones on, in order. */
  ghost predicate BrokerOk(s: State) {
    0 <= Acked(s) && s.broker.outstanding + s.broker.ready == s.submitted[Acked(s)..]
  }

  /** found stands for the first j batches; a definition may reach the disk before its batch counts. */
  ghost predicate LogicalAt(c: Config, batches: seq<Batch>, found: Recovered, j: nat)
    requires j <= |batches|
  {
    || LogicalOf(c.engine, found) == Fold(c.engine, batches[..j])
    || (j == 0 && batches != [] && LogicalOf(c.engine, found) == Fold(c.engine, batches[..1]))
  }

  /** A checkpoint that covers the first j batches: it stands for them and names none beyond. */
  ghost predicate Covers(c: Config, batches: seq<Batch>, found: Recovered, j: nat) {
    && j <= |batches|
    && LogicalAt(c, batches, found, j)
    && BatchIdsOf(found) <= IdsBetween(batches, 0, j)
    && |SamplesOf(found)| <= MAX_INCREMENTAL_ROWS
  }

  ghost predicate Known(batches: seq<Batch>, lo: int, hi: nat, ids: set<BatchId>)
    requires 0 <= lo && hi <= |batches|
  {
    forall j | lo <= j < hi :: batches[j].id in ids
  }

  /** Answers are only ever those owed, and the first n batches have been answered. */
  ghost predicate PublishedOk(c: Config, s: State, n: nat)
    requires n <= |s.submitted|
  {
    && (forall p | p in s.published ::
          exists j: nat :: j < |s.submitted| && p == (s.submitted[j].id, Replies(c.engine, s.submitted, j)))
    && (forall j: nat | j < n :: (s.submitted[j].id, Replies(c.engine, s.submitted, j)) in s.published)
  }

  /**
   * found, which covers the first q batches, may still be undone: earlier, which covers the first p,
   * all of them acked, comes back. A checkpoint names only batches from p on, the one at p among them.
   */
  ghost predicate Undone(c: Config, batches: seq<Batch>, acked: int, found: Recovered, earlier: Recovered, q: nat,
                         p: nat)
  {
    && p <= q <= |batches| && p <= acked && Covers(c, batches, earlier, p)
    && BatchIdsOf(found) <= IdsBetween(batches, p, q)
    && (|| (found.Defined? && earlier.NoEntry?)
        || (found.Checkpointed? && p < q && batches[p].id in BatchIdsOf(found)))
  }

  /**
   * The disk shows a checkpoint of the first q batches that knows every batch up to q still to come
   * again; its last change, and no other, may still be undone.
   */
  ghost predicate DiskCovers(c: Config, s: State, q: nat)
    requires 0 <= Acked(s)
  {
    var found, earlier := Found(c, s), Recover(s.fs.base, c.id);
    && OneChange(c, s.fs)
    && Covers(c, s.submitted, found, q)
    && Known(s.submitted, Acked(s), q, BatchIdsOf(found))
    && (earlier == found || exists p: nat :: Undone(c, s.submitted, Acked(s), found, earlier, q, p))
  }

  /** The run took in batches r to taken. */
  ghost predicate RunOk(s: State, mem: Memory, r: nat, taken: nat)
    requires 0 <= Acked(s) && r <= taken <= |s.submitted|
  {
    && mem.runIds == IdsBetween(s.submitted, r, taken) && mem.runRequests == Requests(s.submitted, r, taken)
    && mem.checkpointIds <= IdsBetween(s.submitted, 0, taken)
    && Known(s.submitted, Acked(s), r, mem.checkpointIds)
    && (r < taken ==> r <= Acked(s))
    && (mem.last.Some? <==> r < taken)
    && (mem.last.Some? ==> mem.last.value.id == s.submitted[taken - 1].id)
    && (mem.last.Some? && mem.last.value.current ==> Position(s) == taken && Acked(s) < taken)
    && (s.broker.outstanding != [] ==> Position(s) == taken && mem.last.Some? && mem.last.value.current)
    && Position(s) <= taken
  }

  /** The live model is l: loaded and advanced by the run's rows, or not loaded and equal to the one on disk. */
  ghost predicate MemoryOk(c: Config, batches: seq<Batch>, mem: Memory, found: Recovered, l: Logical, r: nat, h: nat)
    requires r <= h <= |batches|
  {
    && Coherent(mem.archive, found) && mem.archive.samples.Some?
    && match mem.archive.model
       case None =>
         && mem.runSamples == []
         && (forall j: nat | r <= j <= h :: LogicalAt(c, batches, found, j))
         && (|| l == LogicalOf(c.engine, found)
             || (h == 0 && batches != [] && l == NoModel && LogicalOf(c.engine, found) == Fold(c.engine, batches[..1])))
       case Some(m) =>
         && l == Trained(found.definition, m)
         && m == Replay(c.engine, Restored(c.engine, found), mem.runSamples)
  }

  ghost predicate IdleOk(c: Config, s: State, mem: Memory, r: nat, h: nat)
    requires 0 <= Acked(s) && r <= h <= |s.submitted|
  {
    && DiskCovers(c, s, r)
    && RunOk(s, mem, r, h)
    && MemoryOk(c, s.submitted, mem, Found(c, s), Fold(c.engine, s.submitted[..h]), r, h)
  }

  ghost predicate HandlingOk(c: Config, s: State, mem: Memory, batch: Batch, replies: seq<Reply>, r: nat, h: nat)
    requires 0 <= Acked(s) && r <= h <= |s.submitted|
  {
    && h < |s.submitted| && batch == s.submitted[h] && |replies| <= |batch.objects|
    && DiskCovers(c, s, r)
    && RunOk(s, mem, r, h + 1) && Position(s) == h + 1 && mem.last.value.current
    && var done := PerformAll(c.engine, Fold(c.engine, s.submitted[..h]), batch.objects[..|replies|]);
       replies == done.1 && MemoryOk(c, s.submitted, mem, Found(c, s), done.0, r, h)
  }

  ghost predicate CreatingOk(c: Config, s: State, mem: Memory, pc: Pc, r: nat, h: nat)
    requires 0 <= Acked(s) && r <= h <= |s.submitted| && pc.Creating?
  {
    && r == h == 0 && s.submitted != [] && pc.batch == s.submitted[0] && pc.replies == []
    && RunOk(s, mem, 0, 1) && Position(s) == 1 && mem.last.value.current
    && AlwaysRecovers(pc.start, c.id, NoEntry)
    && |pc.batch.objects| == 1 && pc.batch.objects[0].DefineModel?
    && Switches(View(pc.start), c.id, pc.script, 4, Defined(pc.batch.objects[0].definition)) && Prepared(pc.script, 4)
    && pc.i < |pc.script| && s.fs == ExecAll(pc.start, pc.script[..pc.i])
    && Coherent(mem.archive, NoEntry) && mem.archive.samples.Some? && mem.archive.model.None? && mem.runSamples == []
  }

  ghost predicate SavingOk(c: Config, s: State, mem: Memory, pc: Pc, r: nat, h: nat, switch: nat, after: Recovered)
    requires 0 <= Acked(s) && r <= h <= |s.submitted| && pc.Saving?
  {
    && r < h && RunOk(s, mem, r, h) && Position(s) <= h
    && mem.checkpointIds == mem.runIds
    && DiskCovers(c, s.(fs := pc.start), r)
    && Switches(View(pc.start), c.id, pc.script, switch, after) && Prepared(pc.script, switch)
    && after.Checkpointed? && BatchIdsOf(after) == mem.runIds
    && pc.i < |pc.script| && s.fs == ExecAll(pc.start, pc.script[..pc.i])
    && Covers(c, s.submitted, after, h) && Known(s.submitted, Acked(s), h, BatchIdsOf(after))
    && MemoryOk(c, s.submitted, NewRun(mem), after, Fold(c.engine, s.submitted[..h]), h, h)
  }

  ghost predicate AckingOk(c: Config, s: State, mem: Memory, r: nat, h: nat, q: nat)
    requires 0 <= Acked(s) && r <= h <= |s.submitted|
  {
    && r < h && RunOk(s, mem, r, h) && Position(s) <= h
    && mem.checkpointIds == mem.runIds
    && Acked(s) <= q <= h && DiskCovers(c, s, q)
    && Covers(c, s.submitted, Found(c, s), h)
    && MemoryOk(c, s.submitted, NewRun(mem), Found(c, s), Fold(c.engine, s.submitted[..h]), h, h)
  }

  /** The stream and the broker, with h batches processed by the live model in a run begun at r. */
  ghost predicate QueueOk(s: State, r: nat, h: nat) {
    && WellFormedStream(s.submitted) && BrokerOk(s)
    && Acked(s) <= h <= |s.submitted| && r <= h
  }

  /** The disk and the process. */
  ghost predicate ProcessOk(c: Config, s: State, r: nat, h: nat)
    requires 0 <= Acked(s) && r <= h <= |s.submitted|
  {
    match s.process
    case Dead => s.broker.outstanding == [] && r == h && DiskCovers(c, s, r)
    case Alive(mem, pc) =>
      match pc
      case Consuming => IdleOk(c, s, mem, r, h)
      case Handling(batch, replies) => HandlingOk(c, s, mem, batch, replies, r, h)
      case Creating(_, _, _, _, _) => CreatingOk(c, s, mem, pc, r, h)
      case Closing => IdleOk(c, s, mem, r, h) && Position(s) == h
      case Saving(_, _, _) => exists switch: nat, after :: SavingOk(c, s, mem, pc, r, h, switch, after)
      case Acking => exists q: nat :: AckingOk(c, s, mem, r, h, q)
  }

  /** r is where the run began, h how far the live model has got. */
  ghost predicate InvAt(c: Config, s: State, r: nat, h: nat) {
    QueueOk(s, r, h) && PublishedOk(c, s, h) && ProcessOk(c, s, r, h)
  }

  ghost predicate Inv(c: Config, s: State) { exists r: nat, h: nat :: InvAt(c, s, r, h) }

  // ----- what a crash may lose -----

  function Queued(s: State): set<BatchId> { Ids(s.broker.outstanding + s.broker.ready) }

  /** Batches in the model as the runner sees it: named by the checkpoint, or of the run not yet closed. */
  function Counted(c: Config, s: State): set<BatchId> {
    BatchIdsOf(Found(c, s)) + if s.process.Alive? && !s.process.pc.Acking? then s.process.mem.runIds else {}
  }

  /**
   * An acked batch is not in what is recovered: a counted batch that neither the recovered checkpoint
   * names nor the broker has. The definition, alone in the first batch, is lost only with the entry.
   */
  ghost predicate Loses(c: Config, s: State, found: Recovered) {
    if found.NoEntry? then Acked(s) > 0
    else Acked(s) > 1 && exists id :: id in Counted(c, s) && id !in BatchIdsOf(found) && id !in Queued(s)
  }

  /** A crash or the death of the process could now lose an acked batch. */
  ghost predicate Exposed(c: Config, s: State) {
    exists k {:trigger CrashView(s.fs, k)} :: 0 <= k <= |s.fs.pending| && Loses(c, s, Recover(CrashView(s.fs, k), c.id))
  }
}
