/**
 * Three runs from a model nobody has heard of, each of which ends with an acked batch that a crash
 * now loses: by a channel lost within a run, and by a process that dies between a rename and its sync,
 * in a checkpoint or in a definition. And the five steps by which any runner loses a row with its channel.
 */
module RunnerWitness {
  import opened Basics
  import opened Opf
  import opened CheckpointDisk
  import opened CheckpointScripts
  import opened CheckpointOutcomes
  import opened ModelArchiving
  import opened RunnerSemantics
  import opened RunnerProtocol
  import opened RunnerInvariant
  import opened RunnerSafety
  import opened RunnerDurability
  import opened RunnerTheorems
  import opened RunnerExposure

  // ----- running step lists -----

  lemma {:induction false} RunConcat(c: Config, s: State, a: seq<Step>, b: seq<Step>)
    ensures Run(c, s, a + b) == Run(c, Run(c, s, a), b)
    decreases |b|
  {
    if b == [] {
      assert a + b == a;
    } else {
      assert (a + b)[..|a + b| - 1] == a + b[..|b| - 1];
      RunConcat(c, s, a, b[..|b| - 1]);
    }
  }

  lemma RunOne(c: Config, s: State, a: Step)
    ensures Run(c, s, [a]) == Next(c, s, a)
  {
    assert [a][..0] == [];
  }

  lemma RunTwo(c: Config, s: State, a: Step, b: Step)
    ensures Run(c, s, [a] + [b]) == Next(c, Next(c, s, a), b)
  {
    RunConcat(c, s, [a], [b]);
    RunOne(c, s, a);
    RunOne(c, Next(c, s, a), b);
  }

  function DiskSteps(n: nat): seq<Step> { if n == 0 then [] else DiskSteps(n - 1) + [DiskStep] }

  function At(pc: Pc, i: nat): Pc
    requires pc.Creating? || pc.Saving?
  {
    match pc
    case Creating(batch, replies, start, script, _) => Creating(batch, replies, start, script, i)
    case Saving(start, script, _) => Saving(start, script, i)
  }

  /** A script not yet begun. */
  predicate Beginning(s: State) {
    && s.process.Alive? && (s.process.pc.Creating? || s.process.pc.Saving?) && s.process.pc.i == 0
    && (s.process.pc.Creating? ==> |s.process.pc.replies| < |s.process.pc.batch.objects|)
  }

  /** The first n steps of the script taken. */
  function Advanced(s: State, n: nat): State
    requires Beginning(s) && n < |s.process.pc.script|
  {
    s.(fs := ExecAll(s.fs, s.process.pc.script[..n]), process := Alive(s.process.mem, At(s.process.pc, n)))
  }

  lemma {:induction false} ScriptSteps(c: Config, s: State, n: nat)
    requires Beginning(s) && n < |s.process.pc.script|
    ensures Run(c, s, DiskSteps(n)) == Advanced(s, n)
    decreases n
  {
    if n == 0 {
      NothingAdvanced(s);
    } else {
      var mid, next := Advanced(s, n - 1), Advanced(s, n);
      ScriptSteps(c, s, n - 1);
      NextScriptStep(c, s, mid, n - 1);
      OneMoreDiskStep(c, s, n - 1, mid, next);
    }
  }

  lemma OneMoreDiskStep(c: Config, s: State, n: nat, mid: State, next: State)
    requires Run(c, s, DiskSteps(n)) == mid && Run(c, mid, [DiskStep]) == next
    ensures Run(c, s, DiskSteps(n + 1)) == next
  {
    RunConcat(c, s, DiskSteps(n), [DiskStep]);
  }

  lemma NothingAdvanced(s: State)
    requires Beginning(s) && 0 < |s.process.pc.script|
    ensures Advanced(s, 0) == s
  {
    assert s.process.pc.script[..0] == [];
  }

  lemma NextScriptStep(c: Config, s: State, mid: State, i: nat)
    requires Beginning(s) && i + 1 < |s.process.pc.script|
    requires mid == Advanced(s, i)
    ensures Run(c, mid, [DiskStep]) == Advanced(s, i + 1)
  {
    RunOne(c, mid, DiskStep);
    ScriptStep(mid.fs, s.fs, s.process.pc.script, i);
  }

  // ----- taking a batch in, and closing a run without a model -----

  function TakeIn(batch: Batch): seq<Step> { [Submit(batch)] + [Start] + [Deliver] }

  function Taken(c: Config, s: State, batch: Batch): State {
    var archive := WithAttributes(NEW_ARCHIVE, Found(c, s));
    var mem := Memory(archive, BatchIdsOf(Found(c, s)), {batch.id}, [], |batch.objects|,
                      Some(LastBatch(batch.id, true)), false);
    s.(submitted := s.submitted + [batch], broker := Broker([batch], []), process := Alive(mem, Handling(batch, [])))
  }

  predicate Idle(s: State) { s.process.Dead? && s.broker == Broker([], []) }

  lemma Takes(c: Config, s: State, batch: Batch)
    requires Idle(s) && WellFormedStream(s.submitted + [batch]) && batch.id !in BatchIdsOf(Found(c, s))
    ensures Run(c, s, TakeIn(batch)) == Taken(c, s, batch)
  {
    RunConcat(c, s, [Submit(batch)] + [Start], [Deliver]);
    RunTwo(c, s, Submit(batch), Start);
    var started := Next(c, Next(c, s, Submit(batch)), Start);
    assert [] + [batch] == [batch];
    assert started.broker == Broker([], [batch]) && Found(c, started) == Found(c, s);
    RunOne(c, started, Deliver);
    assert [batch][1..] == [] && {} + {batch.id} == {batch.id};
  }

  function FinishUnsaved(t: string, store: string): seq<Step> {
    [Publish] + [Drained] + ([Checkpoint(t, store)] + [Ack(false)])
  }

  /** A run of one batch that leaves the model unloaded is answered and acked. */
  lemma FinishesUnsaved(c: Config, s: State, batch: Batch, t: string, store: string)
    requires s.process.Alive? && s.process.pc.Handling? && s.process.pc.batch == batch
    requires |s.process.pc.replies| == |batch.objects| && s.broker == Broker([batch], [])
    requires s.process.mem.last == Some(LastBatch(batch.id, true)) && s.process.mem.archive.model.None?
    requires s.process.mem.runRequests < c.target && CanSave(View(s.fs), c.id, t, store)
    ensures
      var s' := Run(c, s, FinishUnsaved(t, store));
      s' == s.(broker := Broker([], []), process := Dead, published := s'.published)
  {
    RunConcat(c, s, [Publish] + [Drained], [Checkpoint(t, store)] + [Ack(false)]);
    RunTwo(c, s, Publish, Drained);
    var closing := Next(c, Next(c, s, Publish), Drained);
    RunTwo(c, closing, Checkpoint(t, store), Ack(false));
    assert AckThrough([batch], batch.id) == [];
  }

  // ----- the scene -----

  /** A definition, then a row that changes the model it defines; runs take more than one request. */
  ghost predicate Scene(c: Config, s: State, b0: Batch, b1: Batch, t: string, u: string) {
    && Initial(c, s) && c.target > 1 && b0.id != b1.id && t != u
    && t !in s.fs.base.scratch && u !in s.fs.base.scratch
    && |b0.objects| == 1 && b0.objects[0].DefineModel? && |b1.objects| == 1 && b1.objects[0].InputRow?
    && var bare := c.engine.create(b0.objects[0].definition);
       c.engine.run(bare, b1.objects[0].data).Inferred? && c.engine.run(bare, b1.objects[0].data).model != bare
  }

  function BeginDefinition(b0: Batch, t: string): seq<Step> { TakeIn(b0) + [Handle(t)] }

  function Begun(c: Config, s: State, b0: Batch, t: string): State
    requires |b0.objects| == 1 && b0.objects[0].DefineModel?
  {
    var taken := Taken(c, s, b0);
    taken.(process := Alive(taken.process.mem,
                            Creating(b0, [], s.fs, DefineScript(c.id, t, b0.objects[0].definition), 0)))
  }

  lemma Begins(c: Config, s: State, b0: Batch, b1: Batch, t: string, u: string)
    requires Scene(c, s, b0, b1, t, u)
    ensures View(s.fs) == s.fs.base && Found(c, s).NoEntry?
    ensures Run(c, s, BeginDefinition(b0, t)) == Begun(c, s, b0, t) && Beginning(Begun(c, s, b0, t))
  {
    assert [] + [b0] == [b0];
    Takes(c, s, b0);
    RunConcat(c, s, TakeIn(b0), [Handle(t)]);
    RunOne(c, Taken(c, s, b0), Handle(t));
  }

  // ----- the definition, in good order -----

  function Define(b0: Batch, t: string): seq<Step> { BeginDefinition(b0, t) + DiskSteps(6) }

  lemma LastDiskStep(c: Config, s: State, mid: State, b0: Batch, script: seq<Op>)
    requires |b0.objects| == 1 && b0.objects[0].DefineModel? && |script| == 6 && s.process.Alive?
    requires mid == s.(fs := ExecAll(s.fs, script[..5]),
                       process := Alive(s.process.mem, Creating(b0, [], s.fs, script, 5)))
    ensures Next(c, mid, DiskStep) == s.(fs := ExecAll(s.fs, script),
              process := Alive(s.process.mem, Handling(b0, [CommandDone(b0.objects[0].commandId)])))
  {
    ScriptStep(mid.fs, s.fs, script, 5);
    assert script[..6] == script;
    assert [] + [CommandDone(b0.objects[0].commandId)] == [CommandDone(b0.objects[0].commandId)];
  }

  lemma WholeScript(c: Config, s: State, b0: Batch, script: seq<Op>)
    requires Beginning(s) && s.process.pc == Creating(b0, [], s.fs, script, 0) && |script| == 6
    requires |b0.objects| == 1 && b0.objects[0].DefineModel?
    ensures Run(c, s, DiskSteps(6)) == s.(fs := ExecAll(s.fs, script),
              process := Alive(s.process.mem, Handling(b0, [CommandDone(b0.objects[0].commandId)])))
  {
    ScriptSteps(c, s, 5);
    RunConcat(c, s, DiskSteps(5), [DiskStep]);
    RunOne(c, Run(c, s, DiskSteps(5)), DiskStep);
    LastDiskStep(c, s, Run(c, s, DiskSteps(5)), b0, script);
  }

  lemma Defines(c: Config, s: State, b0: Batch, b1: Batch, t: string, u: string)
    requires Scene(c, s, b0, b1, t, u)
    ensures
      var s' := Run(c, s, Define(b0, t));
      && s' == Taken(c, s, b0).(fs := s'.fs, process := Alive(Taken(c, s, b0).process.mem,
                                       Handling(b0, [CommandDone(b0.objects[0].commandId)])))
      && s'.fs == ExecAll(s.fs, DefineScript(c.id, t, b0.objects[0].definition))
  {
    var begun, script := Begun(c, s, b0, t), DefineScript(c.id, t, b0.objects[0].definition);
    Begins(c, s, b0, b1, t, u);
    RunConcat(c, s, BeginDefinition(b0, t), DiskSteps(6));
    WholeScript(c, begun, b0, script);
  }

  function DefineAndAck(b0: Batch, t: string): seq<Step> { Define(b0, t) + FinishUnsaved(t, t) }

  /** The model is defined, its batch acked, the process gone and the disk settled. */
  ghost predicate DefinedAndIdle(c: Config, s: State, b0: Batch, t: string)
    requires |b0.objects| == 1 && b0.objects[0].DefineModel?
  {
    && Idle(s) && s.submitted == [b0] && AlwaysRecovers(s.fs, c.id, Defined(b0.objects[0].definition))
    && Found(c, s) == Defined(b0.objects[0].definition)
    && CanSave(View(s.fs), c.id, t, t) && View(s.fs).entries[c.id].link.None?
  }

  lemma DefinedDisk(c: Config, fs: Fs, t: string, definition: Definition)
    requires fs.pending == [] && c.id !in fs.base.entries && t !in fs.base.scratch
    ensures
      var now := View(ExecAll(fs, DefineScript(c.id, t, definition)));
      now == Disk(Entered(fs.base, c.id, definition), fs.base.scratch)
  {
    assert View(fs) == fs.base;
    ExecView(fs, DefineScript(c.id, t, definition));
    DefineLeaves(fs.base, c.id, t, definition);
  }

  lemma DefinedSettled(c: Config, fs: Fs, t: string, definition: Definition)
    requires fs.pending == [] && c.id !in fs.base.entries && t !in fs.base.scratch
    ensures AlwaysRecovers(ExecAll(fs, DefineScript(c.id, t, definition)), c.id, Defined(definition))
  {
    assert View(fs) == fs.base;
    DefineSwitches(fs.base, c.id, t, definition);
    ScriptSettles(fs, c.id, DefineScript(c.id, t, definition), 4, Defined(definition));
  }

  lemma DefineDisk(c: Config, fs: Fs, t: string, definition: Definition)
    requires fs.pending == [] && c.id !in fs.base.entries && t !in fs.base.scratch
    ensures
      var now := ExecAll(fs, DefineScript(c.id, t, definition));
      && AlwaysRecovers(now, c.id, Defined(definition)) && Recover(View(now), c.id) == Defined(definition)
      && CanSave(View(now), c.id, t, t) && View(now).entries[c.id].link.None?
  {
    DefinedDisk(c, fs, t, definition);
    DefinedSettled(c, fs, t, definition);
  }

  lemma DefinedRun(c: Config, s: State, b0: Batch, b1: Batch, t: string, u: string)
    requires Scene(c, s, b0, b1, t, u)
    ensures DefinedAndIdle(c, Run(c, s, DefineAndAck(b0, t)), b0, t)
  {
    var defined := Run(c, s, Define(b0, t));
    Begins(c, s, b0, b1, t, u);
    Defines(c, s, b0, b1, t, u);
    DefineDisk(c, s.fs, t, b0.objects[0].definition);
    FinishesUnsaved(c, defined, b0, t, t);
    RunConcat(c, s, Define(b0, t), FinishUnsaved(t, t));
    assert [] + [b0] == [b0];
  }

  // ----- a row, up to its answer -----

  function TakeRow(b1: Batch, t: string): seq<Step> { TakeIn(b1) + ([Handle(t)] + [Publish]) }

  /** The row is in the live model and answered, and nowhere else. */
  ghost predicate RowAnswered(c: Config, s: State, s': State, b0: Batch, b1: Batch)
    requires |b0.objects| == 1 && b0.objects[0].DefineModel? && |b1.objects| == 1 && b1.objects[0].InputRow?
  {
    var run := c.engine.run(c.engine.create(b0.objects[0].definition), b1.objects[0].data);
    && s'.fs == s.fs && s'.submitted == [b0] + [b1] && s'.broker == Broker([b1], []) && run.Inferred?
    && s'.process == Alive(Memory(Archive(Some(run.model), false, Some({}), Some([])), {}, {b1.id},
                                  [b1.objects[0].data], 1, Some(LastBatch(b1.id, true)), false), Consuming)
  }

  lemma RowTaken(c: Config, s: State, b0: Batch, b1: Batch, t: string)
    requires |b0.objects| == 1 && b0.objects[0].DefineModel? && |b1.objects| == 1 && b1.objects[0].InputRow?
    requires DefinedAndIdle(c, s, b0, t) && b0.id != b1.id && c.target > 1
    requires c.engine.run(c.engine.create(b0.objects[0].definition), b1.objects[0].data).Inferred?
    ensures RowAnswered(c, s, Run(c, s, TakeRow(b1, t)), b0, b1)
  {
    Takes(c, s, b1);
    var taken := Taken(c, s, b1);
    RunConcat(c, s, TakeIn(b1), [Handle(t)] + [Publish]);
    RunTwo(c, taken, Handle(t), Publish);
    assert [] + [b1.objects[0].data] == [b1.objects[0].data];
  }

  // ----- what is lost -----

  lemma StreamFolds(c: Config, b0: Batch, b1: Batch)
    requires |b0.objects| == 1 && b0.objects[0].DefineModel? && |b1.objects| == 1 && b1.objects[0].InputRow?
    requires b0.id != b1.id
    requires c.engine.run(c.engine.create(b0.objects[0].definition), b1.objects[0].data).Inferred?
    ensures
      var definition := b0.objects[0].definition;
      var next := c.engine.run(c.engine.create(definition), b1.objects[0].data).model;
      Fold(c.engine, [b0] + [b1]) == Trained(definition, next)
  {
    var batches := [b0] + [b1];
    FirstBatch(c, batches);
    FoldStep(c.engine, batches, 1);
    assert batches[..2] == batches && b1.objects[..0] == [] && b1.objects[..1] == b1.objects;
    PerformNext(c.engine, Fold(c.engine, batches[..1]), b1.objects, 0);
  }

  /** With both batches acked, a disk that goes back to the bare definition has lost the row. */
  lemma RowLost(c: Config, s: State, b0: Batch, b1: Batch)
    requires |b0.objects| == 1 && b0.objects[0].DefineModel? && |b1.objects| == 1 && b1.objects[0].InputRow?
    requires b0.id != b1.id && s.submitted == [b0] + [b1] && Acked(s) == 2
    requires
      var bare := c.engine.create(b0.objects[0].definition);
      c.engine.run(bare, b1.objects[0].data).Inferred? && c.engine.run(bare, b1.objects[0].data).model != bare
    ensures !RecoversPrefix(c, s, Defined(b0.objects[0].definition))
  {
    StreamFolds(c, b0, b1);
    assert s.submitted[..2] == s.submitted;
  }

  // ----- a channel lost within a run -----

  function LoseChannel(b0: Batch, b1: Batch, t: string): seq<Step> {
    DefineAndAck(b0, t) + TakeRow(b1, t) + ([Reconnect] + [Deliver])
  }

  lemma Redelivered(c: Config, s: State, s': State, b0: Batch, b1: Batch)
    requires |b0.objects| == 1 && b0.objects[0].DefineModel? && |b1.objects| == 1 && b1.objects[0].InputRow?
    requires RowAnswered(c, s, s', b0, b1)
    ensures
      var lost := Run(c, s', [Reconnect] + [Deliver]);
      lost.fs == s.fs && lost.submitted == [b0] + [b1] && Acked(lost) == 2
  {
    RunTwo(c, s', Reconnect, Deliver);
    assert [b1] + [] == [b1];
  }

  /**
   * The channel is lost while the answered row waits for its checkpoint; the row comes again, is
   * acked as a duplicate, and from then on every crash loses it.
   */
  lemma LostChannelLosesRow(c: Config, s: State, b0: Batch, b1: Batch, t: string, u: string, k: nat)
    requires Scene(c, s, b0, b1, t, u) && k <= |Run(c, s, LoseChannel(b0, b1, t)).fs.pending|
    ensures
      var s' := Run(c, s, LoseChannel(b0, b1, t));
      Acked(s') == 2 && !RecoversPrefix(c, s', Recover(CrashView(s'.fs, k), c.id))
  {
    var defined := Run(c, s, DefineAndAck(b0, t));
    DefinedRun(c, s, b0, b1, t, u);
    RunConcat(c, s, DefineAndAck(b0, t), TakeRow(b1, t));
    RowTaken(c, defined, b0, b1, t);
    var answered := Run(c, defined, TakeRow(b1, t));
    RunConcat(c, s, DefineAndAck(b0, t) + TakeRow(b1, t), [Reconnect] + [Deliver]);
    Redelivered(c, defined, answered, b0, b1);
    RowLost(c, Run(c, s, LoseChannel(b0, b1, t)), b0, b1);
  }

  // ----- a process that dies between the rename of a checkpoint and its sync -----

  function BeginSave(t: string): seq<Step> { [Drained] + [Checkpoint(t, t)] }

  function DieAndResume(): seq<Step> { [Die] + [Start] + [Deliver] }

  function DieInSave(b0: Batch, b1: Batch, t: string): seq<Step> {
    DefineAndAck(b0, t) + TakeRow(b1, t) + BeginSave(t) + DiskSteps(SAVE_SWITCH) + DieAndResume()
  }

  lemma SaveBegins(c: Config, s: State, s': State, b0: Batch, b1: Batch, t: string)
    requires |b0.objects| == 1 && b0.objects[0].DefineModel? && |b1.objects| == 1 && b1.objects[0].InputRow?
    requires DefinedAndIdle(c, s, b0, t) && RowAnswered(c, s, s', b0, b1)
    ensures
      var saving := Run(c, s', BeginSave(t));
      var run := c.engine.run(c.engine.create(b0.objects[0].definition), b1.objects[0].data);
      && Beginning(saving) && saving.fs == s.fs && saving.submitted == [b0] + [b1] && saving.broker == Broker([b1], [])
      && saving.process.pc == Saving(s.fs, SaveScript(View(s.fs), c.id, t, t, run.model, Attributes({b1.id}, None)), 0)
  {
    RunTwo(c, s', Drained, Checkpoint(t, t));
  }

  lemma UnsyncedFrom(fs: Fs, script: seq<Op>)
    requires |script| >= SAVE_SWITCH && Flushes(script[3])
    requires !Flushes(script[4]) && !Flushes(script[5]) && !Flushes(script[6])
    ensures View(ExecAll(fs, script[..SAVE_SWITCH])) == ApplyAll(script[..SAVE_SWITCH], View(fs))
    ensures CrashView(ExecAll(fs, script[..SAVE_SWITCH]), 0) == ApplyAll(script[..4], View(fs))
  {
    ExecView(fs, script[..SAVE_SWITCH]);
    ExecBase(fs, script[..SAVE_SWITCH]);
    FourthFlushes(script);
    assert script[..SAVE_SWITCH][..4] == script[..4];
    ViewIsCrashView(ExecAll(fs, script[..SAVE_SWITCH]));
  }

  /** What the save has on disk when the process dies: the new link is seen, but not yet synced. */
  lemma UnsyncedSave(c: Config, fs: Fs, t: string, m: Model, ids: set<BatchId>)
    requires CanSave(View(fs), c.id, t, t) && View(fs).entries[c.id].link.None?
    ensures
      var now := ExecAll(fs, SaveScript(View(fs), c.id, t, t, m, Attributes(ids, None))[..SAVE_SWITCH]);
      && BatchIdsOf(Recover(View(now), c.id)) == ids
      && Recover(CrashView(now, 0), c.id) == Recover(View(fs), c.id)
  {
    var script := SaveScript(View(fs), c.id, t, t, m, Attributes(ids, None));
    SaveSwitches(View(fs), c.id, t, t, m, Attributes(ids, None));
    UnsyncedFrom(fs, script);
  }

  lemma FourthFlushes(script: seq<Op>)
    requires |script| >= SAVE_SWITCH && Flushes(script[3])
    requires !Flushes(script[4]) && !Flushes(script[5]) && !Flushes(script[6])
    ensures FlushedUpTo(script[..SAVE_SWITCH]) == 4
  {
    assert script[..7][..6] == script[..6] && FlushedUpTo(script[..7]) == FlushedUpTo(script[..6]);
    assert script[..6][..5] == script[..5] && FlushedUpTo(script[..6]) == FlushedUpTo(script[..5]);
    assert script[..5][..4] == script[..4] && FlushedUpTo(script[..5]) == FlushedUpTo(script[..4]);
  }

  lemma ResumesOnIt(c: Config, s: State, b1: Batch)
    requires s.process.Alive? && s.broker == Broker([b1], []) && b1.id in BatchIdsOf(Found(c, s))
    ensures
      var s' := Run(c, s, DieAndResume());
      s'.fs == s.fs && s'.submitted == s.submitted && Acked(s') == |s.submitted|
  {
    RunConcat(c, s, [Die] + [Start], [Deliver]);
    RunTwo(c, s, Die, Start);
    RunOne(c, Next(c, Next(c, s, Die), Start), Deliver);
    assert [b1] + [] == [b1];
  }

  lemma DiesSaving(c: Config, s: State, s': State, b0: Batch, b1: Batch, t: string)
    requires |b0.objects| == 1 && b0.objects[0].DefineModel? && |b1.objects| == 1 && b1.objects[0].InputRow?
    requires DefinedAndIdle(c, s, b0, t) && RowAnswered(c, s, s', b0, b1)
    ensures
      var lost := Run(c, s', BeginSave(t) + DiskSteps(SAVE_SWITCH) + DieAndResume());
      && lost.submitted == [b0] + [b1] && Acked(lost) == 2
      && Recover(CrashView(lost.fs, 0), c.id) == Found(c, s)
  {
    var run := c.engine.run(c.engine.create(b0.objects[0].definition), b1.objects[0].data);
    SaveBegins(c, s, s', b0, b1, t);
    var saving := Run(c, s', BeginSave(t));
    RunConcat(c, s', BeginSave(t), DiskSteps(SAVE_SWITCH));
    ScriptSteps(c, saving, SAVE_SWITCH);
    UnsyncedSave(c, s.fs, t, run.model, {b1.id});
    var dying := Run(c, saving, DiskSteps(SAVE_SWITCH));
    ResumesOnIt(c, dying, b1);
    RunConcat(c, s', BeginSave(t) + DiskSteps(SAVE_SWITCH), DieAndResume());
  }

  lemma DieInSaveSplits(c: Config, s: State, b0: Batch, b1: Batch, t: string)
    ensures Run(c, s, DieInSave(b0, b1, t)) ==
      Run(c, Run(c, Run(c, s, DefineAndAck(b0, t)), TakeRow(b1, t)),
          BeginSave(t) + DiskSteps(SAVE_SWITCH) + DieAndResume())
  {
    var a, b := DefineAndAck(b0, t), TakeRow(b1, t);
    var d := BeginSave(t) + DiskSteps(SAVE_SWITCH) + DieAndResume();
    assert DieInSave(b0, b1, t) == a + b + d;
    RunConcat(c, s, a + b, d);
    RunConcat(c, s, a, b);
  }

  /**
   * The process dies right after renaming the link. The next one reads the new checkpoint, acks the
   * redelivered row as a duplicate, and then the machine crashes before anything synced the rename.
   */
  lemma UnsyncedCheckpointLosesRow(c: Config, s: State, b0: Batch, b1: Batch, t: string, u: string)
    requires Scene(c, s, b0, b1, t, u)
    ensures
      var s' := Run(c, s, DieInSave(b0, b1, t));
      Acked(s') == 2 && !RecoversPrefix(c, s', Recover(CrashView(s'.fs, 0), c.id))
  {
    var defined := Run(c, s, DefineAndAck(b0, t));
    DefinedRun(c, s, b0, b1, t, u);
    RowTaken(c, defined, b0, b1, t);
    DiesSaving(c, defined, Run(c, defined, TakeRow(b1, t)), b0, b1, t);
    DieInSaveSplits(c, s, b0, b1, t);
    RowLost(c, Run(c, s, DieInSave(b0, b1, t)), b0, b1);
  }

  // ----- a process that dies between the rename of a definition and its sync -----

  function DieAndConfirm(u: string): seq<Step> { DieAndResume() + [Handle(u)] }

  function DieInDefine(b0: Batch, t: string, u: string): seq<Step> {
    BeginDefinition(b0, t) + DiskSteps(4) + DieAndConfirm(u) + FinishUnsaved(u, u)
  }

  lemma UnsyncedEntry(c: Config, d: Disk, t: string, u: string, definition: Definition)
    requires c.id !in d.entries && t !in d.scratch && u !in d.scratch && t != u
    ensures
      var made := ApplyAll(DefineScript(c.id, t, definition)[..4], d);
      Recover(made, c.id) == Defined(definition) && CanSave(made, c.id, u, u)
  {
    DefineMade(d, c.id, t, definition);
    assert u !in ApplyAll(DefineScript(c.id, t, definition)[..4], d).scratch - {t};
  }

  lemma UnsyncedDefine(c: Config, fs: Fs, t: string, u: string, definition: Definition)
    requires fs.pending == [] && c.id !in fs.base.entries && t !in fs.base.scratch
    requires u !in fs.base.scratch && t != u
    ensures
      var now := ExecAll(fs, DefineScript(c.id, t, definition)[..4]);
      && Recover(View(now), c.id) == Defined(definition) && CanSave(View(now), c.id, u, u)
      && Recover(CrashView(now, 0), c.id) == NoEntry
  {
    var script := DefineScript(c.id, t, definition);
    assert View(fs) == fs.base;
    UnsyncedEntry(c, fs.base, t, u, definition);
    DefineSwitches(fs.base, c.id, t, definition);
    UnsyncedEntryFrom(fs, script);
  }

  lemma UnsyncedEntryFrom(fs: Fs, script: seq<Op>)
    requires |script| >= 4 && Flushes(script[2]) && !Flushes(script[3])
    ensures View(ExecAll(fs, script[..4])) == ApplyAll(script[..4], View(fs))
    ensures CrashView(ExecAll(fs, script[..4]), 0) == ApplyAll(script[..3], View(fs))
  {
    ExecView(fs, script[..4]);
    ExecBase(fs, script[..4]);
    ThirdFlushes(script);
    assert script[..4][..3] == script[..3];
    ViewIsCrashView(ExecAll(fs, script[..4]));
  }

  lemma ThirdFlushes(script: seq<Op>)
    requires |script| >= 4 && Flushes(script[2]) && !Flushes(script[3])
    ensures FlushedUpTo(script[..4]) == 3
  {
    assert script[..4][..3] == script[..3];
  }

  lemma Redefines(c: Config, s: State, b0: Batch)
    requires |b0.objects| == 1
    requires s.process.Alive? && s.broker == Broker([b0], []) && BatchIdsOf(Found(c, s)) == {}
    ensures
      var s' := Run(c, s, DieAndResume());
      && s' == s.(process := s'.process)
      && s'.process.Alive? && s'.process.pc == Handling(b0, [])
      && s'.process.mem.last == Some(LastBatch(b0.id, true)) && s'.process.mem.archive.model.None?
      && s'.process.mem.runRequests == 1
  {
    RunConcat(c, s, [Die] + [Start], [Deliver]);
    RunTwo(c, s, Die, Start);
    var started := Next(c, Next(c, s, Die), Start);
    RunOne(c, started, Deliver);
    assert [b0] + [] == [b0] && [b0][1..] == [] && [] + [b0] == [b0];
  }

  /** The next process finds the definition there and confirms it. */
  lemma Confirms(c: Config, s: State, b0: Batch, u: string)
    requires |b0.objects| == 1 && b0.objects[0].DefineModel?
    requires s.process.Alive? && s.broker == Broker([b0], []) && Found(c, s) == Defined(b0.objects[0].definition)
    requires u !in View(s.fs).scratch
    ensures
      var s' := Run(c, s, DieAndConfirm(u));
      && s' == s.(process := s'.process)
      && s'.process.Alive? && s'.process.pc == Handling(b0, [CommandDone(b0.objects[0].commandId)])
      && s'.process.mem.last == Some(LastBatch(b0.id, true)) && s'.process.mem.archive.model.None?
      && s'.process.mem.runRequests == 1
  {
    RunConcat(c, s, DieAndResume(), [Handle(u)]);
    Redefines(c, s, b0);
    RunOne(c, Run(c, s, DieAndResume()), Handle(u));
    assert [] + [CommandDone(b0.objects[0].commandId)] == [CommandDone(b0.objects[0].commandId)];
  }

  lemma DieInDefineSplits(c: Config, s: State, b0: Batch, t: string, u: string)
    ensures Run(c, s, DieInDefine(b0, t, u)) ==
      Run(c, Run(c, Run(c, Run(c, s, BeginDefinition(b0, t)), DiskSteps(4)), DieAndConfirm(u)), FinishUnsaved(u, u))
  {
    RunConcat(c, s, BeginDefinition(b0, t) + DiskSteps(4) + DieAndConfirm(u), FinishUnsaved(u, u));
    RunConcat(c, s, BeginDefinition(b0, t) + DiskSteps(4), DieAndConfirm(u));
    RunConcat(c, s, BeginDefinition(b0, t), DiskSteps(4));
  }

  lemma DefinitionGone(c: Config, s: State, b0: Batch)
    requires |b0.objects| == 1 && b0.objects[0].DefineModel? && s.submitted == [b0] && Acked(s) == 1
    ensures !RecoversPrefix(c, s, NoEntry)
  {
    FirstBatch(c, [b0]);
    assert [b0][..1] == [b0];
  }

  /**
   * The process dies right after renaming the entry. The next one finds the model defined, confirms and
   * acks the definition without touching the disk, and a crash then takes the model away altogether.
   */
  lemma UnsyncedDefinitionLost(c: Config, s: State, b0: Batch, b1: Batch, t: string, u: string)
    requires Scene(c, s, b0, b1, t, u)
    ensures
      var s' := Run(c, s, DieInDefine(b0, t, u));
      && Acked(s') == 1 && Recover(CrashView(s'.fs, 0), c.id).NoEntry?
      && !RecoversPrefix(c, s', Recover(CrashView(s'.fs, 0), c.id))
  {
    var begun := Begun(c, s, b0, t);
    Begins(c, s, b0, b1, t, u);
    ScriptSteps(c, begun, 4);
    var dying := Run(c, begun, DiskSteps(4));
    UnsyncedDefine(c, s.fs, t, u, b0.objects[0].definition);
    Confirms(c, dying, b0, u);
    FinishesUnsaved(c, Run(c, dying, DieAndConfirm(u)), b0, u, u);
    DieInDefineSplits(c, s, b0, t, u);
    assert [] + [b0] == [b0];
    DefinitionGone(c, Run(c, s, DieInDefine(b0, t, u)), b0);
  }

  // ----- a channel lost by any runner -----

  /** A runner about to take a batch of one row, as the first of a run that will not end with it. */
  predicate LosesChannel(c: Config, s: State, t: string) {
    && s.process.Alive? && s.process.pc.Consuming? && s.process.mem.runRequests + 1 < c.target
    && s.broker.outstanding == [] && s.broker.ready != [] && t !in View(s.fs).scratch
    && !IsDuplicate(s.process.mem, s.broker.ready[0])
    && |s.broker.ready[0].objects| == 1 && s.broker.ready[0].objects[0].InputRow?
  }

  /** Be delivered the row, handle and answer it, lose the channel, be delivered it again. */
  function ExposingSteps(t: string): seq<Step> { [Deliver] + ([Handle(t)] + [Publish]) + ([Reconnect] + [Deliver]) }

  /** The row is taken, answered and waits for the end of its run. */
  lemma RowWaits(c: Config, s: State, t: string)
    requires LosesChannel(c, s, t)
    ensures
      var s', row := Run(c, s, [Deliver] + ([Handle(t)] + [Publish])), s.broker.ready[0];
      && s'.fs == s.fs && s'.submitted == s.submitted && s'.broker == Broker([row], s.broker.ready[1..])
      && s'.process.Alive? && s'.process.pc.Consuming? && row.id in s'.process.mem.runIds
  {
    var s1 := Next(c, s, Deliver);
    RunConcat(c, s, [Deliver], [Handle(t)] + [Publish]);
    RunOne(c, s, Deliver);
    assert [] + [s.broker.ready[0]] == [s.broker.ready[0]];
    RunTwo(c, s1, Handle(t), Publish);
  }

  lemma ComesAgain(c: Config, s: State, row: Batch, others: seq<Batch>)
    requires s.process.Alive? && s.process.pc.Consuming? && row.id in s.process.mem.runIds
    requires s.broker == Broker([row], others)
    ensures
      var s' := Run(c, s, [Reconnect] + [Deliver]);
      && s'.fs == s.fs && s'.submitted == s.submitted && s'.broker == Broker([], others)
      && s'.process.Alive? && s'.process.pc.Consuming? && s'.process.mem.runIds == s.process.mem.runIds
  {
    RunTwo(c, s, Reconnect, Deliver);
    assert ([row] + others)[1..] == others;
  }

  lemma FiveSteps(c: Config, s: State, t: string)
    requires LosesChannel(c, s, t)
    ensures
      var s' := Run(c, s, ExposingSteps(t));
      && s'.fs == s.fs && s'.submitted == s.submitted && s'.broker == Broker([], s.broker.ready[1..])
      && s.broker.ready[0].id in Counted(c, s')
  {
    RunConcat(c, s, [Deliver] + ([Handle(t)] + [Publish]), [Reconnect] + [Deliver]);
    RowWaits(c, s, t);
    ComesAgain(c, Run(c, s, [Deliver] + ([Handle(t)] + [Publish])), s.broker.ready[0], s.broker.ready[1..]);
  }

  /** No view of the disk names the batch about to be taken. */
  lemma NotYetNamed(c: Config, s: State, r: nat, h: nat, k: nat)
    requires QueueOk(s, r, h) && s.process.Alive? && s.process.pc.Consuming? && IdleOk(c, s, s.process.mem, r, h)
    requires s.broker.ready != [] && !IsDuplicate(s.process.mem, s.broker.ready[0]) && k <= |s.fs.pending|
    ensures s.broker.ready[0].id !in BatchIdsOf(Recover(CrashView(s.fs, k), c.id))
  {
    var y := IdleLeads(c, s, s.process.mem, r, h, k);
    DuplicateIff(s, s.process.mem, r, h);
    assert y <= |s.submitted| && s.broker.ready[0] == s.submitted[Position(s)];
    assert s.broker.ready[0].id !in IdsBetween(s.submitted, 0, if y <= h then y else h);
  }

  lemma TakenFromQueue(s: State, s': State)
    requires WellFormedStream(s.submitted) && BrokerOk(s) && s.broker.outstanding == [] && s.broker.ready != []
    requires s'.submitted == s.submitted && s'.broker == Broker([], s.broker.ready[1..])
    ensures Acked(s') == Acked(s) + 1 && s.broker.ready[0].id !in Queued(s')
  {
    HeadIdUnique(s);
    assert [] + s.broker.ready[1..] == s.broker.ready[1..];
  }

  lemma NamedNowhere(c: Config, s: State, k: nat)
    requires Inv(c, s) && s.process.Alive? && s.process.pc.Consuming? && k <= |s.fs.pending|
    requires s.broker.ready != [] && !IsDuplicate(s.process.mem, s.broker.ready[0])
    ensures WellFormedStream(s.submitted) && BrokerOk(s)
    ensures s.broker.ready[0].id !in BatchIdsOf(Recover(CrashView(s.fs, k), c.id))
  {
    var r: nat, h: nat :| InvAt(c, s, r, h);
    NotYetNamed(c, s, r, h, k);
  }

  /** One row, one lost channel: five steps take such a runner to where every crash loses an acked batch. */
  lemma LostChannelExposes(c: Config, s: State, t: string, k: nat)
    requires Inv(c, s) && LosesChannel(c, s, t) && Acked(s) >= 1 && k <= |s.fs.pending|
    ensures
      var s' := Run(c, s, ExposingSteps(t));
      && s'.fs == s.fs && s'.submitted == s.submitted && Acked(s') == Acked(s) + 1
      && Loses(c, s', Recover(CrashView(s.fs, k), c.id))
  {
    FiveSteps(c, s, t);
    NamedNowhere(c, s, k);
    TakenFromQueue(s, Run(c, s, ExposingSteps(t)));
  }

  ghost predicate NoFailures(steps: seq<Step>) { forall step | step in steps :: !step.Crash? && !step.Die? }

  lemma InvWithoutFailures(c: Config, s: State, steps: seq<Step>)
    requires Inv(c, s) && NoFailures(steps)
    ensures Inv(c, Run(c, s, steps))
  {
    forall i {:trigger steps[i]} | 0 <= i < |steps|
      ensures Harmless(c, Run(c, s, steps[..i]), steps[i])
    {
      assert steps[i] in steps;
    }
    RunInv(c, s, steps);
  }

  lemma NoFailureAmong(t: string)
    ensures NoFailures(ExposingSteps(t))
  {
  }

  /** And then any crash loses the row: the broker no longer has it, the disk does not have it yet. */
  lemma AckedRowLost(c: Config, s: State, t: string, k: nat)
    requires Inv(c, s) && LosesChannel(c, s, t) && Acked(s) >= 1 && EveryBatchTells(c, s.submitted)
    requires k <= |s.fs.pending|
    ensures
      var s' := Run(c, s, ExposingSteps(t));
      s'.fs == s.fs && !RecoversPrefix(c, s', Recover(CrashView(s'.fs, k), c.id))
  {
    NoFailureAmong(t);
    InvWithoutFailures(c, s, ExposingSteps(t));
    LostChannelExposes(c, s, t, k);
    CrashKeepsAckedIff(c, Run(c, s, ExposingSteps(t)), k);
  }
}
