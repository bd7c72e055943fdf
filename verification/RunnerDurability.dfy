/** The steps that touch the disk, the answers and the acks. */
module RunnerDurability {
  import opened CheckpointDisk
  import opened CheckpointScripts
  import opened ModelArchiving
  import opened RunnerSemantics
  import opened RunnerProtocol
  import opened RunnerInvariant
  import opened RunnerSafety

  lemma PublishedKept(c: Config, s: State, s': State, h: nat)
    requires h <= |s.submitted| && PublishedOk(c, s, h)
    requires s'.submitted == s.submitted && s'.published == s.published
    ensures PublishedOk(c, s', h)
  {
  }

  lemma QueueKept(s: State, s': State, r: nat, h: nat)
    requires QueueOk(s, r, h) && s'.submitted == s.submitted && s'.broker == s.broker
    ensures QueueOk(s', r, h) && Acked(s') == Acked(s) && Position(s') == Position(s)
  {
  }

  // ----- disk steps -----

  lemma ScriptStep(fs: Fs, start: Fs, script: seq<Op>, i: nat)
    requires i < |script| && fs == ExecAll(start, script[..i])
    ensures Exec(fs, script[i]) == ExecAll(start, script[..i + 1])
  {
    assert script[..i + 1][..i] == script[..i];
  }

  lemma FlushBefore(script: seq<Op>, switch: nat, i: nat)
    requires Prepared(script, switch) && switch <= i <= |script|
    ensures FlushedUpTo(script[..i]) > 0
  {
    var j :| 0 <= j < |script| && j + 1 < switch && Flushes(script[j]);
    FlushAmong(script[..i], j);
  }

  /** What one crash view shows while a script runs. */
  lemma ScriptView(c: Config, start: Fs, script: seq<Op>, i: nat, switch: nat, after: Recovered, k: nat)
    requires OneChange(c, start) && Switches(View(start), c.id, script, switch, after) && Prepared(script, switch)
    requires i <= |script| && k <= |ExecAll(start, script[..i]).pending|
    ensures
      var now, before := ExecAll(start, script[..i]), Recover(View(start), c.id);
      var found := CrashView(now, k);
      && Healthy(found, c.id)
      && if i < switch then Recover(found, c.id) == before
                            || (now.base == start.base && Recover(found, c.id) == Recover(start.base, c.id))
         else if FlushedUpTo(script[..i]) >= switch then Recover(found, c.id) == after
         else Recover(found, c.id) == before || Recover(found, c.id) == after
  {
    var j := CrashViews(start, script[..i], k);
    assert script[..i][..j] == script[..j];
    ExecBase(start, script[..i]);
    if i >= switch {
      FlushBefore(script, switch, i);
    }
  }

  /** What the last flush holds while a script runs, and what processes see. */
  lemma ScriptBase(c: Config, start: Fs, script: seq<Op>, i: nat, switch: nat, after: Recovered)
    requires Switches(View(start), c.id, script, switch, after) && Prepared(script, switch) && i <= |script|
    ensures
      var now, before := ExecAll(start, script[..i]), Recover(View(start), c.id);
      && Recover(View(now), c.id) == (if i < switch then before else after)
      && if i < switch then now.base == start.base || Recover(now.base, c.id) == before
         else Recover(now.base, c.id) == if FlushedUpTo(script[..i]) >= switch then after else before
  {
    ExecView(start, script[..i]);
    ExecBase(start, script[..i]);
    var n := FlushedUpTo(script[..i]);
    assert script[..i][..n] == script[..n];
    if i >= switch {
      FlushBefore(script, switch, i);
    }
  }

  /** While a script runs, at most one change can still be undone: the one before it, or its own. */
  lemma ScriptChange(c: Config, start: Fs, script: seq<Op>, i: nat, switch: nat, after: Recovered)
    requires OneChange(c, start) && Switches(View(start), c.id, script, switch, after) && Prepared(script, switch)
    requires i <= |script|
    ensures OneChange(c, ExecAll(start, script[..i]))
  {
    var now := ExecAll(start, script[..i]);
    ScriptBase(c, start, script, i, switch, after);
    forall k {:trigger CrashView(now, k)} | 0 <= k <= |now.pending|
      ensures Healthy(CrashView(now, k), c.id)
      ensures Recover(CrashView(now, k), c.id) == Recover(View(now), c.id)
           || Recover(CrashView(now, k), c.id) == Recover(now.base, c.id)
    {
      ScriptView(c, start, script, i, switch, after, k);
    }
  }

  lemma LastStep(c: Config, fs: Fs, start: Fs, script: seq<Op>, i: nat, switch: nat, after: Recovered)
    requires i + 1 == |script| && fs == ExecAll(start, script[..i])
    requires Switches(View(start), c.id, script, switch, after)
    ensures Exec(fs, script[i]) == ExecAll(start, script)
    ensures AlwaysRecovers(Exec(fs, script[i]), c.id, after) && Recover(View(Exec(fs, script[i])), c.id) == after
  {
    ScriptStep(fs, start, script, i);
    assert script[..i + 1] == script;
    ScriptSettles(start, c.id, script, switch, after);
  }

  lemma SettledCovers(c: Config, s: State, q: nat)
    requires 0 <= Acked(s) && AlwaysRecovers(s.fs, c.id, Found(c, s)) && Covers(c, s.submitted, Found(c, s), q)
    requires Known(s.submitted, Acked(s), q, BatchIdsOf(Found(c, s)))
    ensures DiskCovers(c, s, q)
  {
    ViewIsCrashView(s.fs);
  }

  lemma CreateFrame(s: State, pc: Pc)
    requires s.process.Alive? && s.process.pc == pc && pc.Creating? && pc.i < |pc.script|
    requires |pc.replies| < |pc.batch.objects|
    ensures NextDiskStep(s) == s.(fs := NextDiskStep(s).fs, process := NextDiskStep(s).process)
  {
  }

  lemma CreateMore(c: Config, s: State, mem: Memory, pc: Pc, r: nat, h: nat)
    requires QueueOk(s, r, h) && s.process == Alive(mem, pc) && pc.Creating? && CreatingOk(c, s, mem, pc, r, h)
    requires pc.i + 1 < |pc.script|
    ensures CreatingOk(c, NextDiskStep(s), mem, Creating(pc.batch, pc.replies, pc.start, pc.script, pc.i + 1), r, h)
  {
    ScriptStep(s.fs, pc.start, pc.script, pc.i);
    RunKept(s, NextDiskStep(s), mem, mem, 0, 1);
  }

  lemma CreateProgress(c: Config, s: State, mem: Memory, pc: Pc, r: nat, h: nat)
    requires QueueOk(s, r, h) && s.process == Alive(mem, pc) && pc.Creating? && CreatingOk(c, s, mem, pc, r, h)
    ensures NextDiskStep(s) == s.(fs := NextDiskStep(s).fs, process := NextDiskStep(s).process)
    ensures ProcessOk(c, NextDiskStep(s), r, h)
  {
    CreateFrame(s, pc);
    if pc.i + 1 == |pc.script| {
      CreateSettled(c, s, mem, pc, r, h);
      CreateDone(c, s, mem, pc, r, h);
    } else {
      CreateMore(c, s, mem, pc, r, h);
    }
  }

  lemma CreateSettled(c: Config, s: State, mem: Memory, pc: Pc, r: nat, h: nat)
    requires QueueOk(s, r, h) && s.process == Alive(mem, pc) && pc.Creating? && CreatingOk(c, s, mem, pc, r, h)
    requires pc.i + 1 == |pc.script|
    ensures AlwaysRecovers(NextDiskStep(s).fs, c.id, Defined(pc.batch.objects[0].definition))
    ensures Found(c, NextDiskStep(s)) == Defined(pc.batch.objects[0].definition)
  {
    LastStep(c, s.fs, pc.start, pc.script, pc.i, 4, Defined(pc.batch.objects[0].definition));
  }

  /** What the definition's batch comes to. */
  lemma DefinitionAnswered(c: Config, batches: seq<Batch>)
    requires WellFormedStream(batches) && batches != []
    ensures
      var objects := batches[0].objects;
      var after := Defined(objects[0].definition);
      && PerformAll(c.engine, Fold(c.engine, batches[..0]), objects[..1])
           == (LogicalOf(c.engine, after), [CommandDone(objects[0].commandId)])
      && LogicalAt(c, batches, after, 0)
  {
    var objects := batches[0].objects;
    FirstBatch(c, batches);
    assert objects[..0] == [] && objects[..1] == objects;
    PerformNext(c.engine, NoModel, objects, 0);
    assert [] + [CommandDone(objects[0].commandId)] == [CommandDone(objects[0].commandId)];
  }

  lemma CreateDone(c: Config, s: State, mem: Memory, pc: Pc, r: nat, h: nat)
    requires QueueOk(s, r, h) && s.process == Alive(mem, pc) && pc.Creating? && CreatingOk(c, s, mem, pc, r, h)
    requires pc.i + 1 == |pc.script|
    requires AlwaysRecovers(NextDiskStep(s).fs, c.id, Defined(pc.batch.objects[0].definition))
    requires Found(c, NextDiskStep(s)) == Defined(pc.batch.objects[0].definition)
    ensures HandlingOk(c, NextDiskStep(s), mem, pc.batch, [CommandDone(pc.batch.objects[0].commandId)], r, h)
  {
    DefinitionAnswered(c, s.submitted);
    SettledCovers(c, NextDiskStep(s), 0);
    RunKept(s, NextDiskStep(s), mem, mem, 0, 1);
  }

  lemma SaveProgressed(c: Config, s: State, mem: Memory, pc: Pc, r: nat, h: nat, switch: nat, after: Recovered)
    requires QueueOk(s, r, h) && s.process == Alive(mem, pc) && pc.Saving?
        && SavingOk(c, s, mem, pc, r, h, switch, after)
    requires pc.i + 1 < |pc.script|
    ensures SavingOk(c, NextDiskStep(s), mem, Saving(pc.start, pc.script, pc.i + 1), r, h, switch, after)
  {
    ScriptStep(s.fs, pc.start, pc.script, pc.i);
    RunKept(s, NextDiskStep(s), mem, mem, r, h);
    DiskSame(c, s.(fs := pc.start), NextDiskStep(s).(fs := pc.start), r);
  }

  lemma SaveDone(c: Config, s: State, mem: Memory, pc: Pc, r: nat, h: nat, switch: nat, after: Recovered)
    requires QueueOk(s, r, h) && s.process == Alive(mem, pc) && pc.Saving?
        && SavingOk(c, s, mem, pc, r, h, switch, after)
    requires pc.i + 1 == |pc.script|
    ensures AckingOk(c, NextDiskStep(s), mem, r, h, h)
  {
    var s' := NextDiskStep(s);
    LastStep(c, s.fs, pc.start, pc.script, pc.i, switch, after);
    RunKept(s, s', mem, mem, r, h);
    assert Found(c, s') == after;
    SettledCovers(c, s', h);
  }

  lemma SaveProcess(c: Config, s: State, mem: Memory, pc: Pc, r: nat, h: nat)
    requires QueueOk(s, r, h) && s.process == Alive(mem, pc) && pc.Saving? && ProcessOk(c, s, r, h)
    requires pc.i < |pc.script|
    ensures ProcessOk(c, NextDiskStep(s), r, h)
  {
    var switch: nat, after :| SavingOk(c, s, mem, pc, r, h, switch, after);
    if pc.i + 1 < |pc.script| {
      SaveProgressed(c, s, mem, pc, r, h, switch, after);
    } else {
      SaveDone(c, s, mem, pc, r, h, switch, after);
    }
  }

  lemma DiskStepStep(c: Config, s: State, r: nat, h: nat)
    requires InvAt(c, s, r, h) && s.process.Alive? && (s.process.pc.Creating? || s.process.pc.Saving?)
    requires s.process.pc.i < |s.process.pc.script|
    requires s.process.pc.Creating? ==> |s.process.pc.replies| < |s.process.pc.batch.objects|
    ensures InvAt(c, NextDiskStep(s), r, h)
  {
    var Alive(mem, pc) := s.process;
    QueueKept(s, NextDiskStep(s), r, h);
    PublishedKept(c, s, NextDiskStep(s), h);
    if pc.Creating? {
      CreateProgress(c, s, mem, pc, r, h);
    } else {
      SaveProcess(c, s, mem, pc, r, h);
    }
  }

  // ----- publishing -----

  lemma PublishAnswers(c: Config, s: State, h: nat, batch: Batch, replies: seq<Reply>)
    requires h < |s.submitted| && PublishedOk(c, s, h)
    requires batch == s.submitted[h] && replies == Replies(c.engine, s.submitted, h)
    ensures PublishedOk(c, s.(published := s.published + [(batch.id, replies)]), h + 1)
  {
    var s' := s.(published := s.published + [(batch.id, replies)]);
    forall p | p in s'.published
      ensures exists j: nat :: j < |s.submitted| && p == (s.submitted[j].id, Replies(c.engine, s.submitted, j))
    {
      if p !in s.published {
        assert p == (s.submitted[h].id, Replies(c.engine, s.submitted, h));
      }
    }
  }

  lemma PublishMemory(c: Config, s: State, mem: Memory, batch: Batch, replies: seq<Reply>, r: nat, h: nat)
    requires QueueOk(s, r, h) && HandlingOk(c, s, mem, batch, replies, r, h) && |replies| == |batch.objects|
    ensures replies == Replies(c.engine, s.submitted, h)
    ensures MemoryOk(c, s.submitted, mem, Found(c, s), Fold(c.engine, s.submitted[..h + 1]), r, h + 1)
  {
    assert batch.objects[..|replies|] == batch.objects;
    FoldStep(c.engine, s.submitted, h);
    if mem.archive.model.None? {
      FoldTrained(c.engine, s.submitted, h + 1);
      assert LogicalAt(c, s.submitted, Found(c, s), h + 1);
    }
  }

  lemma PublishStep(c: Config, s: State, r: nat, h: nat)
    requires InvAt(c, s, r, h) && s.process.Alive? && s.process.pc.Handling?
    requires |s.process.pc.replies| == |s.process.pc.batch.objects|
    ensures InvAt(c, PublishReplies(c, s), r, h + 1)
  {
    var Alive(mem, Handling(batch, replies)) := s.process;
    PublishMemory(c, s, mem, batch, replies, r, h);
    PublishAnswers(c, s, h, batch, replies);
    PublishProcess(c, s, mem, batch, replies, r, h);
  }

  lemma PublishProcess(c: Config, s: State, mem: Memory, batch: Batch, replies: seq<Reply>, r: nat, h: nat)
    requires QueueOk(s, r, h) && s.process == Alive(mem, Handling(batch, replies))
    requires HandlingOk(c, s, mem, batch, replies, r, h) && |replies| == |batch.objects|
    requires MemoryOk(c, s.submitted, mem, Found(c, s), Fold(c.engine, s.submitted[..h + 1]), r, h + 1)
    ensures QueueOk(PublishReplies(c, s), r, h + 1) && ProcessOk(c, PublishReplies(c, s), r, h + 1)
  {
    DiskSame(c, s, PublishReplies(c, s), r);
    assert IdleOk(c, PublishReplies(c, s), mem, r, h + 1);
  }

  // ----- the end of a run -----

  function DrainedNow(s: State): State
    requires s.process.Alive?
  {
    s.(process := Alive(s.process.mem.(done := true), Closing))
  }

  lemma DrainedProcess(c: Config, s: State, mem: Memory, r: nat, h: nat)
    requires QueueOk(s, r, h) && IdleOk(c, s, mem, r, h) && s.broker.ready == []
    requires s.process.Alive? && s.process.mem == mem
    ensures ProcessOk(c, DrainedNow(s), r, h)
  {
    var mem' := mem.(done := true);
    RunKept(s, DrainedNow(s), mem, mem', r, h);
    DiskSame(c, s, DrainedNow(s), r);
    SameMemory(c, s.submitted, mem, mem', Found(c, s), Fold(c.engine, s.submitted[..h]), r, h);
  }

  lemma DrainedStep(c: Config, s: State, r: nat, h: nat)
    requires InvAt(c, s, r, h) && s.process.Alive? && s.process.pc.Consuming? && s.broker.ready == []
    ensures InvAt(c, DrainedNow(s), r, h)
  {
    QueueKept(s, DrainedNow(s), r, h);
    PublishedKept(c, s, DrainedNow(s), h);
    DrainedProcess(c, s, s.process.mem, r, h);
  }

  lemma RequeuedQueue(s: State, s': State, r: nat, h: nat)
    requires QueueOk(s, r, h) && s'.submitted == s.submitted && s'.broker == Requeued(s.broker)
    ensures QueueOk(s', r, h) && Acked(s') == Acked(s)
  {
    assert s'.broker.outstanding + s'.broker.ready == s.broker.outstanding + s.broker.ready;
  }

  /** Ending a run with nothing unacked behind it. */
  lemma EndRunProcess(c: Config, s: State, mem: Memory, h: nat, preempt: bool)
    requires QueueOk(s, h, h) && s.broker.outstanding == [] && Acked(s) == h && DiskCovers(c, s, h)
    requires mem.checkpointIds <= IdsBetween(s.submitted, 0, h)
    requires MemoryOk(c, s.submitted, NewRun(mem), Found(c, s), Fold(c.engine, s.submitted[..h]), h, h)
    ensures QueueOk(EndRun(s, mem, preempt), h, h) && ProcessOk(c, EndRun(s, mem, preempt), h, h)
  {
    var s' := EndRun(s, mem, preempt);
    RequeuedQueue(s, s', h, h);
    DiskSame(c, s, s', h);
    if s'.process.Alive? {
      assert RunOk(s', NewRun(mem), h, h);
    }
  }

  lemma EmptyRunProcess(c: Config, s: State, mem: Memory, r: nat, h: nat)
    requires QueueOk(s, r, h) && IdleOk(c, s, mem, r, h) && Position(s) == h && mem.last.None?
    ensures r == h && QueueOk(EndRun(s, mem, false), h, h) && ProcessOk(c, EndRun(s, mem, false), h, h)
  {
    EmptyRunMemory(c, s.submitted, mem, Found(c, s), Fold(c.engine, s.submitted[..h]), r, h);
    EndRunProcess(c, s, mem, h, false);
  }

  lemma EmptyRunMemory(c: Config, batches: seq<Batch>, mem: Memory, found: Recovered, l: Logical, r: nat, h: nat)
    requires r <= h <= |batches| && MemoryOk(c, batches, mem, found, l, r, h)
    requires mem.archive.model.None? || (l.Trained? && l.model == Restored(c.engine, found))
    ensures MemoryOk(c, batches, NewRun(mem), found, l, h, h)
  {
  }

  /** A run without rows needs no checkpoint: the one on disk stands for it already. */
  lemma UnsavedAcking(c: Config, s: State, mem: Memory, r: nat, h: nat)
    requires QueueOk(s, r, h) && IdleOk(c, s, mem, r, h) && Position(s) == h && r < h
    requires mem.archive.model.None?
    ensures
      var mem' := mem.(checkpointIds := mem.runIds);
      AckingOk(c, s.(process := Alive(mem', Acking)), mem', r, h, Acked(s))
  {
    var mem' := mem.(checkpointIds := mem.runIds);
    var s' := s.(process := Alive(mem', Acking));
    assert IdsBetween(s.submitted, 0, r) <= IdsBetween(s.submitted, 0, Acked(s)) <= IdsBetween(s.submitted, 0, h);
    assert IdsBetween(s.submitted, r, h) <= IdsBetween(s.submitted, 0, h);
    assert RunOk(s', mem', r, h);
    DiskKept(c, s, s', r, Acked(s));
    EmptyRunMemory(c, s.submitted, mem, Found(c, s), Fold(c.engine, s.submitted[..h]), r, h);
  }

  /** A run with rows starts a checkpoint that covers it. */
  lemma SavingStarts(c: Config, s: State, mem: Memory, r: nat, h: nat, t: string, store: string)
    requires QueueOk(s, r, h) && IdleOk(c, s, mem, r, h) && Position(s) == h && r < h
    requires mem.archive.model.Some? && CanSave(View(s.fs), c.id, t, store)
    requires !FullNeeded(mem.archive, mem.runSamples) ==> OldStore(View(s.fs), c.id).Some?
    ensures
      var script := SaveModelScript(mem.archive, View(s.fs), c.id, t, store, mem.runIds, mem.runSamples);
      var mem' := mem.(checkpointIds := mem.runIds, archive := AfterSave(mem.archive, mem.runIds, mem.runSamples));
      var s' := s.(process := Alive(mem', Saving(s.fs, script, 0)));
      exists switch: nat, after :: SavingOk(c, s', mem', Saving(s.fs, script, 0), r, h, switch, after)
  {
    var found := Found(c, s);
    var script := SaveModelScript(mem.archive, View(s.fs), c.id, t, store, mem.runIds, mem.runSamples);
    var mem' := mem.(checkpointIds := mem.runIds, archive := AfterSave(mem.archive, mem.runIds, mem.runSamples));
    var s' := s.(process := Alive(mem', Saving(s.fs, script, 0)));
    var switch := SaveModelSwitches(mem.archive, View(s.fs), c.id, t, store, mem.runIds, mem.runSamples);
    SaveModelRestores(mem.archive, c.engine, found, mem.runIds, mem.runSamples);
    var after := SavedModel(mem.archive, found, mem.runIds, mem.runSamples);
    assert IdsBetween(s.submitted, r, h) <= IdsBetween(s.submitted, 0, h);
    assert script[..0] == [];
    assert RunOk(s', mem', r, h);
    assert Covers(c, s.submitted, after, h);
    SavedMemory(c, s.submitted, mem', after, Fold(c.engine, s.submitted[..h]), h);
    DiskSame(c, s, s', r);
    assert SavingOk(c, s', mem', Saving(s.fs, script, 0), r, h, switch, after);
  }

  lemma SavedMemory(c: Config, batches: seq<Batch>, mem: Memory, after: Recovered, l: Logical, h: nat)
    requires h <= |batches| && after.Checkpointed? && Coherent(mem.archive, after) && mem.archive.model.Some?
    requires mem.archive.model.value == Restored(c.engine, after)
        && l == Trained(after.definition, mem.archive.model.value)
    ensures MemoryOk(c, batches, NewRun(mem), after, l, h, h)
  {
  }

  lemma CloseProcess(c: Config, s: State, mem: Memory, r: nat, h: nat, t: string, store: string)
    requires QueueOk(s, r, h) && s.process == Alive(mem, Closing) && IdleOk(c, s, mem, r, h) && Position(s) == h
    requires c.id in View(s.fs).entries ==> CanSave(View(s.fs), c.id, t, store)
    requires mem.last.Some?
    ensures
      var s' := CloseRun(c, s, t, store);
      s'.broker == s.broker && s'.submitted == s.submitted && s'.published == s.published && ProcessOk(c, s', r, h)
  {
    ViewHealthy(c, s.fs);
    if mem.archive.model.None? {
      UnsavedAcking(c, s, mem, r, h);
    } else {
      SavingStarts(c, s, mem, r, h, t, store);
    }
  }

  lemma CloseEmptyRun(c: Config, s: State, mem: Memory, r: nat, h: nat, t: string, store: string)
    requires QueueOk(s, r, h) && PublishedOk(c, s, h)
    requires s.process == Alive(mem, Closing) && IdleOk(c, s, mem, r, h) && Position(s) == h && mem.last.None?
    ensures Inv(c, CloseRun(c, s, t, store))
  {
    var s' := CloseRun(c, s, t, store);
    EmptyRunProcess(c, s, mem, r, h);
    PublishedKept(c, s, s', h);
    assert InvAt(c, s', h, h);
  }

  lemma CloseStep(c: Config, s: State, r: nat, h: nat, t: string, store: string)
    requires InvAt(c, s, r, h) && s.process.Alive? && s.process.pc.Closing?
    requires c.id in View(s.fs).entries ==> CanSave(View(s.fs), c.id, t, store)
    ensures Inv(c, CloseRun(c, s, t, store))
  {
    var mem, s' := s.process.mem, CloseRun(c, s, t, store);
    if mem.last.None? {
      CloseEmptyRun(c, s, mem, r, h, t, store);
    } else {
      CloseProcess(c, s, mem, r, h, t, store);
      PublishedKept(c, s, s', h);
      QueueKept(s, s', r, h);
      assert InvAt(c, s', r, h);
    }
  }

  // ----- acking -----

  lemma {:induction false} AckThroughLast(outstanding: seq<Batch>, id: BatchId)
    requires outstanding != [] && outstanding[|outstanding| - 1].id == id
    requires forall i, j | 0 <= i < j < |outstanding| :: outstanding[i].id != outstanding[j].id
    ensures AckThrough(outstanding, id) == []
  {
    if |outstanding| > 1 {
      AckThroughLast(outstanding[1..], id);
    }
  }

  lemma AckAll(s: State, mem: Memory, r: nat, h: nat)
    requires QueueOk(s, r, h) && RunOk(s, mem, r, h) && mem.last.Some? && mem.last.value.current
    ensures AckThrough(s.broker.outstanding, mem.last.value.id) == []
    ensures Position(s) == h
  {
    var out, a := s.broker.outstanding, Acked(s);
    assert forall i | 0 <= i < |out| :: out[i] == (out + s.broker.ready)[i] == s.submitted[a + i];
    AckThroughLast(out, mem.last.value.id);
  }

  lemma AckProcess(c: Config, s: State, mem: Memory, r: nat, h: nat, q: nat, preempt: bool)
    requires QueueOk(s, r, h) && s.process == Alive(mem, Acking) && AckingOk(c, s, mem, r, h, q)
        && mem.last.value.current
    ensures QueueOk(AckRun(s, preempt), h, h) && ProcessOk(c, AckRun(s, preempt), h, h)
  {
    AckAll(s, mem, r, h);
    var acked := s.(broker := s.broker.(outstanding := []));
    assert acked.broker.outstanding + acked.broker.ready == s.submitted[h..] by {
      assert s.broker.ready == (s.broker.outstanding + s.broker.ready)[|s.broker.outstanding|..];
    }
    DiskKept(c, s, acked, q, h);
    EndRunProcess(c, acked, mem, h, preempt);
  }

  lemma StaleAckProcess(c: Config, s: State, mem: Memory, r: nat, h: nat, q: nat, preempt: bool)
    requires QueueOk(s, r, h) && s.process == Alive(mem, Acking) && AckingOk(c, s, mem, r, h, q)
        && !mem.last.value.current
    ensures QueueOk(AckRun(s, preempt), q, q) && ProcessOk(c, AckRun(s, preempt), q, q)
  {
    RequeuedQueue(s, AckRun(s, preempt), r, h);
    DiskSame(c, s, AckRun(s, preempt), q);
  }

  lemma AckStep(c: Config, s: State, r: nat, h: nat, preempt: bool)
    requires InvAt(c, s, r, h) && s.process.Alive? && s.process.pc.Acking? && s.process.mem.last.Some?
    ensures Inv(c, AckRun(s, preempt))
  {
    var mem, s' := s.process.mem, AckRun(s, preempt);
    var q: nat :| AckingOk(c, s, mem, r, h, q);
    if mem.last.value.current {
      AckProcess(c, s, mem, r, h, q, preempt);
      PublishedKept(c, s, s', h);
      assert InvAt(c, s', h, h);
    } else {
      StaleAckProcess(c, s, mem, r, h, q, preempt);
      PublishedKept(c, s, s', q);
      assert InvAt(c, s', q, q);
    }
  }
}
