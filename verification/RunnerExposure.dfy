/**
 * Where exactly-once processing ends, exactly. The runner acks a redelivered batch as a duplicate
 * although a crash may still find a checkpoint without it: because the batch belongs to the run in
 * progress, redelivered on a new channel, or because the checkpoint that names it was left with its
 * rename not yet synced by a process that died. Likewise it acks a definition that such a process left.
 */
module RunnerExposure {
  import opened CheckpointDisk
  import opened CheckpointScripts
  import opened ModelArchiving
  import opened RunnerSemantics
  import opened RunnerProtocol
  import opened RunnerInvariant
  import opened RunnerSafety
  import opened RunnerDurability
  import opened RunnerCrash
  import opened RunnerTheorems

  // ----- what losing a batch means -----

  /** A stream each of whose batches from the definition on leaves its mark on the model. */
  ghost predicate EveryBatchTells(c: Config, batches: seq<Batch>) {
    forall i, j | 1 <= i < j <= |batches| :: Fold(c.engine, batches[..i]) != Fold(c.engine, batches[..j])
  }

  lemma ShortPrefix(c: Config, s: State, found: Recovered, y: nat)
    requires WellFormedStream(s.submitted) && EveryBatchTells(c, s.submitted) && Acked(s) <= |s.submitted|
    requires y < Acked(s) && Covers(c, s.submitted, found, y) && (found.NoEntry? || 1 < Acked(s))
    ensures !RecoversPrefix(c, s, found)
  {
    if y == 0 {
      assert s.submitted[..0] == [];
    }
    forall n: nat | Acked(s) <= n <= |s.submitted|
      ensures LogicalOf(c.engine, found) != Fold(c.engine, s.submitted[..n])
    {
      FoldTrained(c.engine, s.submitted, n);
    }
  }

  /**
   * The exact condition: at any point, a crash or the death of the process keeps every acked batch
   * if and only if no counted batch is gone from both the recovered checkpoint and the broker.
   */
  lemma CrashKeepsAckedIff(c: Config, s: State, k: nat)
    requires Inv(c, s) && k <= |s.fs.pending| && EveryBatchTells(c, s.submitted)
    ensures RecoversPrefix(c, s, Recover(CrashView(s.fs, k), c.id))
        <==> !Loses(c, s, Recover(CrashView(s.fs, k), c.id))
  {
    var found := Recover(CrashView(s.fs, k), c.id);
    if Loses(c, s, found) {
      var r: nat, h: nat :| InvAt(c, s, r, h);
      var x := Stands(c, s, r, h);
      var y := CrashLeads(c, s, x, k);
      LosesIff(c, s, found, y);
      ShortPrefix(c, s, found, y);
    } else {
      CrashRecoversPrefix(c, s, k);
    }
  }

  // ----- which steps expose -----

  lemma NotExposed(c: Config, s: State, k: nat)
    requires !Exposed(c, s) && k <= |s.fs.pending|
    ensures !Loses(c, s, Recover(CrashView(s.fs, k), c.id))
  {
  }

  /** Batch ids in the queue are unique, so delivering the first leaves no other with its id. */
  lemma HeadIdUnique(s: State)
    requires WellFormedStream(s.submitted) && BrokerOk(s) && s.broker.outstanding == [] && s.broker.ready != []
    ensures Ids(s.broker.ready) == Ids(s.broker.ready[1..]) + {s.broker.ready[0].id}
    ensures s.broker.ready[0].id !in Ids(s.broker.ready[1..])
  {
    var ready := s.broker.ready;
    assert [] + ready == ready && ready == [ready[0]] + ready[1..];
    assert forall j | 0 <= j < |ready| :: ready[j] == s.submitted[Acked(s)..][j] == s.submitted[Acked(s) + j];
  }

  /** Delivering a duplicate takes it, and only it, from the queue. */
  lemma DuplicateTaken(s: State, mem: Memory, r: nat, h: nat)
    requires QueueOk(s, r, h) && s.process == Alive(mem, Consuming) && RunOk(s, mem, r, h)
    requires s.broker.ready != [] && IsDuplicate(mem, s.broker.ready[0])
    ensures Acked(DeliverNext(s)) == Acked(s) + 1 && Acked(s) < h
    ensures Queued(DeliverNext(s)) == Queued(s) - {s.broker.ready[0].id}
    ensures s.broker.ready[0] == s.submitted[Acked(s)]
  {
    var ready := s.broker.ready;
    DuplicateIff(s, mem, r, h);
    HeadIdUnique(s);
    assert [] + ready == ready && DeliverNext(s).broker.outstanding + DeliverNext(s).broker.ready == ready[1..];
  }

  /** A batch the live model has and the broker still holds is named on disk or of this run. */
  lemma DuplicateCounted(c: Config, s: State, mem: Memory, r: nat, h: nat)
    requires 0 <= Acked(s) < h <= |s.submitted| && r <= h && RunOk(s, mem, r, h)
    requires Known(s.submitted, Acked(s), r, BatchIdsOf(Found(c, s)))
    ensures s.submitted[Acked(s)].id in BatchIdsOf(Found(c, s)) || s.submitted[Acked(s)].id in mem.runIds
  {
    if Acked(s) >= r {
      assert s.submitted[Acked(s)].id in IdsBetween(s.submitted, r, h);
    }
  }

  /** A duplicate acked counts as lost with any view whose checkpoint lacks it. */
  ghost predicate Lacking(s: State, found: Recovered, id: BatchId) {
    id !in BatchIdsOf(found) && (found.NoEntry? || Acked(s) >= 1)
  }

  lemma DuplicateLost(c: Config, s: State, s': State, found: Recovered, y: nat, id: BatchId)
    requires WellFormedStream(s.submitted) && BrokerOk(s) && Leads(c, s, found, y) && !Loses(c, s, found)
    requires Acked(s') == Acked(s) + 1 && Counted(c, s') == Counted(c, s) && Queued(s') == Queued(s) - {id}
    requires id in Counted(c, s) && Acked(s) < |s.submitted| && id == s.submitted[Acked(s)].id
    ensures Loses(c, s', found) <==> Lacking(s, found, id)
  {
    LosesIff(c, s, found, y);
  }

  lemma IdleLeads(c: Config, s: State, mem: Memory, r: nat, h: nat, k: nat) returns (y: nat)
    requires QueueOk(s, r, h) && s.process == Alive(mem, Consuming) && IdleOk(c, s, mem, r, h) && k <= |s.fs.pending|
    ensures Leads(c, s, Recover(CrashView(s.fs, k), c.id), y)
  {
    ReadingStands(c, s, mem, r, h, h);
    y := CrashLeads(c, s, r, k);
  }

  /** What delivering a duplicate does to the batches that count. */
  lemma DuplicateFacts(c: Config, s: State, mem: Memory, r: nat, h: nat)
    requires QueueOk(s, r, h) && s.process == Alive(mem, Consuming) && IdleOk(c, s, mem, r, h)
    requires s.broker.ready != [] && IsDuplicate(mem, s.broker.ready[0])
    ensures
      var s', id := DeliverNext(s), s.broker.ready[0].id;
      && WellFormedStream(s.submitted) && BrokerOk(s) && 0 <= Acked(s) < |s.submitted|
      && Acked(s') == Acked(s) + 1 && Counted(c, s') == Counted(c, s) && Queued(s') == Queued(s) - {id}
      && id in Counted(c, s) && id == s.submitted[Acked(s)].id
  {
    DuplicateTaken(s, mem, r, h);
    DuplicateCounted(c, s, mem, r, h);
  }

  lemma DuplicateViews(c: Config, s: State, mem: Memory, r: nat, h: nat, k: nat)
    requires QueueOk(s, r, h) && s.process == Alive(mem, Consuming) && IdleOk(c, s, mem, r, h) && !Exposed(c, s)
    requires s.broker.ready != [] && IsDuplicate(mem, s.broker.ready[0]) && k <= |s.fs.pending|
    ensures
      var found := Recover(CrashView(s.fs, k), c.id);
      Loses(c, DeliverNext(s), found) <==> Lacking(s, found, s.broker.ready[0].id)
  {
    DuplicateFacts(c, s, mem, r, h);
    NotExposed(c, s, k);
    var y := IdleLeads(c, s, mem, r, h, k);
    DuplicateLost(c, s, DeliverNext(s), Recover(CrashView(s.fs, k), c.id), y, s.broker.ready[0].id);
  }

  lemma FreshDelivery(c: Config, s: State)
    requires s.process.Alive? && s.process.pc.Consuming? && s.broker.ready != []
    requires !IsDuplicate(s.process.mem, s.broker.ready[0]) && !Exposed(c, s)
    ensures !Exposed(c, DeliverNext(s))
  {
    var s', b := DeliverNext(s), s.broker.ready[0];
    assert s'.broker.outstanding + s'.broker.ready == s.broker.outstanding + s.broker.ready;
    assert b in s.broker.outstanding + s.broker.ready;
    forall k {:trigger CrashView(s.fs, k)} | 0 <= k <= |s.fs.pending|
      ensures !Loses(c, s', Recover(CrashView(s.fs, k), c.id))
    {
      NotExposed(c, s, k);
    }
  }

  /** The batch to be delivered is taken for a duplicate, although some crash would undo it now. */
  ghost predicate AcksUndoable(c: Config, s: State)
    requires s.process.Alive? && s.broker.ready != []
  {
    && IsDuplicate(s.process.mem, s.broker.ready[0])
    && exists k {:trigger CrashView(s.fs, k)} ::
         0 <= k <= |s.fs.pending| && Lacking(s, Recover(CrashView(s.fs, k), c.id), s.broker.ready[0].id)
  }

  lemma DuplicateDelivery(c: Config, s: State, mem: Memory, r: nat, h: nat)
    requires QueueOk(s, r, h) && s.process == Alive(mem, Consuming) && IdleOk(c, s, mem, r, h) && !Exposed(c, s)
    requires s.broker.ready != [] && IsDuplicate(mem, s.broker.ready[0])
    ensures Exposed(c, DeliverNext(s)) <==> AcksUndoable(c, s)
  {
    forall k {:trigger CrashView(s.fs, k)} | 0 <= k <= |s.fs.pending|
      ensures Loses(c, DeliverNext(s), Recover(CrashView(s.fs, k), c.id))
          <==> Lacking(s, Recover(CrashView(s.fs, k), c.id), s.broker.ready[0].id)
    {
      DuplicateViews(c, s, mem, r, h, k);
    }
  }

  lemma DeliveryExposesAt(c: Config, s: State, r: nat, h: nat)
    requires QueueOk(s, r, h) && s.process.Alive? && s.process.pc.Consuming? && s.broker.ready != []
    requires IdleOk(c, s, s.process.mem, r, h) && !Exposed(c, s)
    ensures Exposed(c, DeliverNext(s)) <==> AcksUndoable(c, s)
  {
    if IsDuplicate(s.process.mem, s.broker.ready[0]) {
      DuplicateDelivery(c, s, s.process.mem, r, h);
    } else {
      FreshDelivery(c, s);
    }
  }

  /** A delivery exposes exactly if the runner acks as a duplicate a batch that some crash now undoes. */
  lemma DeliveryExposes(c: Config, s: State)
    requires Inv(c, s) && CanStep(c, s, Deliver) && !Exposed(c, s)
    ensures Exposed(c, Next(c, s, Deliver)) <==> AcksUndoable(c, s)
  {
    var r: nat, h: nat :| InvAt(c, s, r, h);
    DeliveryExposesAt(c, s, r, h);
  }

  /** Nothing on disk can be undone for this model. */
  ghost predicate Settled(c: Config, s: State) {
    forall k {:trigger CrashView(s.fs, k)} | 0 <= k <= |s.fs.pending| ::
      Recover(CrashView(s.fs, k), c.id) == Found(c, s)
  }

  /** Acking the whole run takes all of it, and only it, from the broker. */
  lemma RunAcked(c: Config, s: State, mem: Memory, r: nat, h: nat, preempt: bool)
    requires QueueOk(s, r, h) && s.process == Alive(mem, Acking) && RunOk(s, mem, r, h)
    requires mem.last.Some? && mem.last.value.current
    ensures
      var s' := AckRun(s, preempt);
      && s'.fs == s.fs && s'.submitted == s.submitted && Acked(s') == h == Position(s) && BrokerOk(s')
      && Counted(c, s') == BatchIdsOf(Found(c, s))
  {
    var s' := AckRun(s, preempt);
    AckAll(s, mem, r, h);
    assert s'.broker.outstanding + s'.broker.ready == s.submitted[h..] by {
      assert s.broker.ready == (s.broker.outstanding + s.broker.ready)[|s.broker.outstanding|..];
      assert [] + s.broker.ready == s.broker.ready;
    }
  }

  /** A view that undoes a checkpoint lacks a batch it names. */
  lemma UndoneLacks(c: Config, s: State, s': State, q: nat, earlier: Recovered) returns (id: BatchId)
    requires WellFormedStream(s.submitted) && 0 <= Acked(s) && DiskCovers(c, s, q)
    requires earlier == Recover(s.fs.base, c.id) != Found(c, s) && !earlier.NoEntry?
    requires s'.submitted == s.submitted && BrokerOk(s') && q <= Acked(s')
    ensures id in BatchIdsOf(Found(c, s)) && id !in BatchIdsOf(earlier) && id !in Queued(s')
  {
    var p: nat :| Undone(c, s.submitted, Acked(s), Found(c, s), earlier, q, p);
    NotQueued(s', p);
    assert s.submitted[p].id !in IdsBetween(s.submitted, 0, p);
    id := s.submitted[p].id;
  }

  /** After the ack of a whole run, a view loses something exactly if it undoes what is on disk. */
  lemma AckedView(c: Config, s: State, s': State, q: nat, h: nat, k: nat)
    requires WellFormedStream(s.submitted) && 0 <= Acked(s) && q <= h == Acked(s') && 0 < h && k <= |s.fs.pending|
    requires DiskCovers(c, s, q) && Covers(c, s.submitted, Found(c, s), h)
    requires s'.submitted == s.submitted && BrokerOk(s') && Counted(c, s') == BatchIdsOf(Found(c, s))
    ensures
      var found := Recover(CrashView(s.fs, k), c.id);
      Loses(c, s', found) <==> found != Found(c, s) && (found.NoEntry? || h > 1)
  {
    var found := Recover(CrashView(s.fs, k), c.id);
    if Found(c, s).NoEntry? {
      NoEntryCoversNothing(c, s.submitted, Found(c, s), h);
    } else if found != Found(c, s) && !found.NoEntry? {
      var id := UndoneLacks(c, s, s', q, found);
    }
  }

  lemma StaleAck(c: Config, s: State, preempt: bool)
    requires s.process.Alive? && s.process.pc.Acking? && s.process.mem.last.Some? && !s.process.mem.last.value.current
    requires !Exposed(c, s)
    ensures !Exposed(c, AckRun(s, preempt))
  {
    var s' := AckRun(s, preempt);
    assert s'.broker.outstanding + s'.broker.ready == s.broker.outstanding + s.broker.ready;
    forall k {:trigger CrashView(s.fs, k)} | 0 <= k <= |s.fs.pending|
      ensures !Loses(c, s', Recover(CrashView(s.fs, k), c.id))
    {
      NotExposed(c, s, k);
    }
  }

  /** Some crash now undoes what is on disk: the entry, or batches after the first. */
  ghost predicate Undoable(c: Config, s: State) {
    exists k {:trigger CrashView(s.fs, k)} ::
      && 0 <= k <= |s.fs.pending| && Recover(CrashView(s.fs, k), c.id) != Found(c, s)
      && (Recover(CrashView(s.fs, k), c.id).NoEntry? || Position(s) > 1)
  }

  /** What some crash would lose once the ack is made. */
  lemma AckLoses(c: Config, s: State, mem: Memory, r: nat, h: nat, q: nat, preempt: bool, k: nat)
    requires QueueOk(s, r, h) && s.process == Alive(mem, Acking) && AckingOk(c, s, mem, r, h, q)
    requires mem.last.value.current && k <= |s.fs.pending|
    ensures
      var found := Recover(CrashView(s.fs, k), c.id);
      Loses(c, AckRun(s, preempt), found) <==> found != Found(c, s) && (found.NoEntry? || Position(s) > 1)
  {
    RunAcked(c, s, mem, r, h, preempt);
    AckedView(c, s, AckRun(s, preempt), q, h, k);
  }

  lemma CurrentAck(c: Config, s: State, mem: Memory, r: nat, h: nat, q: nat, preempt: bool)
    requires QueueOk(s, r, h) && s.process == Alive(mem, Acking) && AckingOk(c, s, mem, r, h, q)
    requires mem.last.value.current
    ensures Exposed(c, AckRun(s, preempt)) <==> Undoable(c, s)
  {
    assert AckRun(s, preempt).fs == s.fs by {
      RunAcked(c, s, mem, r, h, preempt);
    }
    forall k {:trigger CrashView(s.fs, k)} | 0 <= k <= |s.fs.pending|
      ensures
        var found := Recover(CrashView(s.fs, k), c.id);
        Loses(c, AckRun(s, preempt), found) <==> found != Found(c, s) && (found.NoEntry? || Position(s) > 1)
    {
      AckLoses(c, s, mem, r, h, q, preempt, k);
    }
  }

  lemma AckExposesAt(c: Config, s: State, r: nat, h: nat, preempt: bool)
    requires QueueOk(s, r, h) && ProcessOk(c, s, r, h) && s.process.Alive? && s.process.pc.Acking?
    requires s.process.mem.last.Some? && !Exposed(c, s)
    ensures Exposed(c, AckRun(s, preempt)) <==> s.process.mem.last.value.current && Undoable(c, s)
  {
    if s.process.mem.last.value.current {
      var q: nat :| AckingOk(c, s, s.process.mem, r, h, q);
      CurrentAck(c, s, s.process.mem, r, h, q, preempt);
    } else {
      StaleAck(c, s, preempt);
    }
  }

  /** An ack exposes exactly if it is of the current channel and some crash now undoes what is on disk. */
  lemma AckExposes(c: Config, s: State, preempt: bool)
    requires Inv(c, s) && CanStep(c, s, Ack(preempt)) && !Exposed(c, s)
    ensures Exposed(c, Next(c, s, Ack(preempt))) <==> s.process.mem.last.value.current && Undoable(c, s)
  {
    var r: nat, h: nat :| InvAt(c, s, r, h);
    AckExposesAt(c, s, r, h, preempt);
  }

  /** With the same disk, no more counted, nothing gone from the queue and no ack, nothing new is exposed. */
  lemma StillCovered(c: Config, s: State, s': State)
    requires s'.fs == s.fs && Acked(s') == Acked(s) && Counted(c, s') <= Counted(c, s) && Queued(s) <= Queued(s')
    requires !Exposed(c, s)
    ensures !Exposed(c, s')
  {
    forall k {:trigger CrashView(s.fs, k)} | 0 <= k <= |s.fs.pending|
      ensures !Loses(c, s', Recover(CrashView(s.fs, k), c.id))
    {
      NotExposed(c, s, k);
    }
  }

  lemma CrashedCovered(c: Config, s: State, k: nat)
    requires k <= |s.fs.pending| && !Exposed(c, s)
    ensures !Exposed(c, Crashed(s, k))
  {
    var s' := Crashed(s, k);
    NotExposed(c, s, k);
    assert s'.fs.pending == [] && CrashView(s'.fs, 0) == CrashView(s.fs, k) == View(s'.fs);
  }

  lemma SaveStepView(c: Config, fs: Fs, start: Fs, script: seq<Op>, i: nat, switch: nat, after: Recovered)
    requires i < |script| && fs == ExecAll(start, script[..i])
    requires Switches(View(start), c.id, script, switch, after)
    ensures
      var now := Recover(View(Exec(fs, script[i])), c.id);
      now == Recover(View(fs), c.id) || now == after
  {
    ScriptStep(fs, start, script, i);
    ScriptShows(c, start, script, i, switch, after);
    ScriptShows(c, start, script, i + 1, switch, after);
  }

  lemma ScriptShows(c: Config, start: Fs, script: seq<Op>, i: nat, switch: nat, after: Recovered)
    requires Switches(View(start), c.id, script, switch, after) && i <= |script|
    ensures Recover(View(ExecAll(start, script[..i])), c.id)
         == if i < switch then Recover(View(start), c.id) else after
  {
    ExecView(start, script[..i]);
  }

  /** The new step's view loses nothing, and the other views are old ones. */
  lemma OneMoreView(c: Config, s: State, s': State, op: Op)
    requires s'.fs == Exec(s.fs, op) && Acked(s') == Acked(s) && Queued(s') == Queued(s)
    requires Counted(c, s') <= Counted(c, s)
    requires Found(c, s') == Found(c, s) || (!Found(c, s').NoEntry? && Counted(c, s') <= BatchIdsOf(Found(c, s')))
    requires !Exposed(c, s)
    ensures !Exposed(c, s')
  {
    ViewIsCrashView(s.fs);
    ViewIsCrashView(s'.fs);
    NotExposed(c, s, |s.fs.pending|);
    forall k {:trigger CrashView(s'.fs, k)} | 0 <= k <= |s'.fs.pending|
      ensures !Loses(c, s', Recover(CrashView(s'.fs, k), c.id))
    {
      if k != |s'.fs.pending| {
        assert s'.fs.pending[..k] == s.fs.pending[..k];
        NotExposed(c, s, k);
      }
    }
  }

  lemma SaveStepCovered(c: Config, s: State, mem: Memory, pc: Pc, r: nat, h: nat)
    requires QueueOk(s, r, h) && s.process == Alive(mem, pc) && pc.Saving? && ProcessOk(c, s, r, h) && !Exposed(c, s)
    requires pc.i < |pc.script|
    ensures !Exposed(c, NextDiskStep(s))
  {
    var switch: nat, after :| SavingOk(c, s, mem, pc, r, h, switch, after);
    SaveStepView(c, s.fs, pc.start, pc.script, pc.i, switch, after);
    OneMoreView(c, s, NextDiskStep(s), pc.script[pc.i]);
  }

  lemma DiskStepCovered(c: Config, s: State)
    requires Inv(c, s) && CanStep(c, s, DiskStep) && !Exposed(c, s)
    ensures !Exposed(c, Next(c, s, DiskStep))
  {
    var r: nat, h: nat :| InvAt(c, s, r, h);
    if s.process.pc.Saving? {
      SaveStepCovered(c, s, s.process.mem, s.process.pc, r, h);
    } else {
      assert CreatingOk(c, s, s.process.mem, s.process.pc, r, h);
      assert Acked(s) == 0;
    }
  }

  lemma SameQueue(s: State, s': State)
    requires s'.broker == Requeued(s.broker) || s'.broker == s.broker
    ensures Queued(s') == Queued(s) && (s'.submitted == s.submitted ==> Acked(s') == Acked(s))
  {
    assert s'.broker.outstanding + s'.broker.ready == s.broker.outstanding + s.broker.ready;
  }

  lemma SubmitCovered(c: Config, s: State, batch: Batch)
    requires !Exposed(c, s)
    ensures !Exposed(c, Submitted(s, batch))
  {
    var s' := Submitted(s, batch);
    assert s'.broker.outstanding + s'.broker.ready == (s.broker.outstanding + s.broker.ready) + [batch];
    StillCovered(c, s, s');
  }

  lemma CloseCovered(c: Config, s: State, t: string, store: string)
    requires s.process.Alive? && s.process.pc.Closing? && !Exposed(c, s)
    ensures !Exposed(c, CloseRun(c, s, t, store))
  {
    SameQueue(s, CloseRun(c, s, t, store));
    StillCovered(c, s, CloseRun(c, s, t, store));
  }

  lemma HandleCovered(c: Config, s: State, t: string)
    requires s.process.Alive? && s.process.pc.Handling? && |s.process.pc.replies| < |s.process.pc.batch.objects|
    requires !Exposed(c, s)
    ensures !Exposed(c, HandleNext(c, s, t))
  {
    HandleFrame(c, s, t);
    StillCovered(c, s, HandleNext(c, s, t));
  }

  lemma ProcessCovered(c: Config, s: State, step: Step)
    requires CanStep(c, s, step) && !Exposed(c, s)
    requires step.Start? || step.Publish? || step.Drained? || step.Reconnect? || step.Die?
    ensures !Exposed(c, Next(c, s, step))
  {
    SameQueue(s, Next(c, s, step));
    StillCovered(c, s, Next(c, s, step));
  }

  /** No other step exposes, neither a lost channel nor a death nor a crash. */
  lemma OthersDoNotExpose(c: Config, s: State, step: Step)
    requires Inv(c, s) && !step.Deliver? && !step.Ack? && !Exposed(c, s)
    ensures !Exposed(c, Next(c, s, step))
  {
    if CanStep(c, s, step) {
      match step {
        case Submit(batch) => SubmitCovered(c, s, batch);
        case Handle(t) => HandleCovered(c, s, t);
        case DiskStep => DiskStepCovered(c, s);
        case Checkpoint(t, store) => CloseCovered(c, s, t, store);
        case Crash(k) => CrashedCovered(c, s, k);
        case _ => ProcessCovered(c, s, step);
      }
    }
  }

  // ----- runs that are never exposed -----

  predicate Steady(s: State) {
    s.process.Alive? && s.process.mem.last.Some? ==> s.process.mem.last.value.current
  }

  /** No channel is lost, and the process dies alone only with nothing left to sync. */
  ghost predicate Orderly(c: Config, s: State, step: Step) {
    !step.Reconnect? && (step.Die? ==> Settled(c, s))
  }

  ghost predicate OrderlyRun(c: Config, s: State, steps: seq<Step>) {
    forall i {:trigger steps[i]} | 0 <= i < |steps| :: Orderly(c, Run(c, s, steps[..i]), steps[i])
  }

  ghost predicate Calm(c: Config, s: State) {
    Steady(s) && (Settled(c, s) || (s.process.Alive? && (s.process.pc.Creating? || s.process.pc.Saving?)))
  }

  lemma SteadyStep(c: Config, s: State, step: Step)
    requires Steady(s) && !step.Reconnect?
    ensures Steady(Next(c, s, step))
  {
  }

  lemma SteadyDelivery(s: State, mem: Memory, r: nat, h: nat)
    requires QueueOk(s, r, h) && s.process == Alive(mem, Consuming) && RunOk(s, mem, r, h)
    requires s.broker.ready != [] && Steady(s)
    ensures s.broker.ready[0].id !in mem.runIds
  {
    DuplicateIff(s, mem, r, h);
    if r == h {
      assert IdsBetween(s.submitted, r, h) == {};
    }
  }

  lemma SaveEnds(c: Config, s: State, mem: Memory, pc: Pc, r: nat, h: nat)
    requires QueueOk(s, r, h) && s.process == Alive(mem, pc) && ProcessOk(c, s, r, h) && pc.Saving?
    requires pc.i + 1 == |pc.script|
    ensures Settled(c, NextDiskStep(s))
  {
    var switch: nat, after :| SavingOk(c, s, mem, pc, r, h, switch, after);
    LastStep(c, s.fs, pc.start, pc.script, pc.i, switch, after);
  }

  lemma SettledStep(c: Config, s: State)
    requires Inv(c, s) && CanStep(c, s, DiskStep)
    ensures Settled(c, Next(c, s, DiskStep)) || Next(c, s, DiskStep).process.pc.Creating?
         || Next(c, s, DiskStep).process.pc.Saving?
  {
    var r: nat, h: nat :| InvAt(c, s, r, h);
    var Alive(mem, pc) := s.process;
    if pc.i + 1 == |pc.script| {
      if pc.Saving? {
        SaveEnds(c, s, mem, pc, r, h);
      } else {
        CreateSettled(c, s, mem, pc, r, h);
      }
    }
  }

  lemma SettledKept(c: Config, s: State, step: Step)
    requires Settled(c, s) && !step.DiskStep? && !step.Crash?
    ensures Settled(c, Next(c, s, step))
  {
    assert Next(c, s, step).fs == s.fs;
  }

  lemma SettledAfter(c: Config, s: State, step: Step)
    requires Inv(c, s) && Calm(c, s) && Orderly(c, s, step) && CanStep(c, s, step)
    ensures Settled(c, Next(c, s, step))
        || (Next(c, s, step).process.Alive? &&
              (Next(c, s, step).process.pc.Creating? || Next(c, s, step).process.pc.Saving?))
  {
    if step.DiskStep? {
      SettledStep(c, s);
    } else if step.Crash? {
      assert CrashView(Crashed(s, step.k).fs, 0) == View(Crashed(s, step.k).fs);
    } else if Settled(c, s) {
      SettledKept(c, s, step);
    }
  }

  lemma CalmStep(c: Config, s: State, step: Step)
    requires Inv(c, s) && Calm(c, s) && Orderly(c, s, step) && CanStep(c, s, step)
    ensures Calm(c, Next(c, s, step))
  {
    SteadyStep(c, s, step);
    SettledAfter(c, s, step);
  }

  lemma CalmDuplicate(c: Config, s: State, r: nat, h: nat)
    requires QueueOk(s, r, h) && s.process.Alive? && s.process.pc.Consuming? && s.broker.ready != []
    requires IdleOk(c, s, s.process.mem, r, h) && Steady(s) && Settled(c, s)
    ensures !AcksUndoable(c, s)
  {
    if IsDuplicate(s.process.mem, s.broker.ready[0]) {
      SteadyDelivery(s, s.process.mem, r, h);
      DuplicateTaken(s, s.process.mem, r, h);
      DuplicateCounted(c, s, s.process.mem, r, h);
    }
  }

  lemma CalmDelivery(c: Config, s: State)
    requires Inv(c, s) && Calm(c, s) && !Exposed(c, s) && CanStep(c, s, Deliver)
    ensures !Exposed(c, Next(c, s, Deliver))
  {
    var r: nat, h: nat :| InvAt(c, s, r, h);
    CalmDuplicate(c, s, r, h);
    DeliveryExposes(c, s);
  }

  lemma CalmCovered(c: Config, s: State, step: Step)
    requires Inv(c, s) && Calm(c, s) && !Exposed(c, s) && Orderly(c, s, step)
    ensures Inv(c, Next(c, s, step)) && Calm(c, Next(c, s, step)) && !Exposed(c, Next(c, s, step))
  {
    if CanStep(c, s, step) {
      CalmStep(c, s, step);
      ViewIsCrashView(s.fs);
      StepInv(c, s, step);
      if step.Deliver? {
        CalmDelivery(c, s);
      } else if step.Ack? {
        AckExposes(c, s, step.preempt);
      } else {
        OthersDoNotExpose(c, s, step);
      }
    }
  }

  lemma OrderlyPrefix(c: Config, s: State, steps: seq<Step>)
    requires OrderlyRun(c, s, steps) && steps != []
    ensures OrderlyRun(c, s, steps[..|steps| - 1])
    ensures Orderly(c, Run(c, s, steps[..|steps| - 1]), steps[|steps| - 1])
  {
    var init := steps[..|steps| - 1];
    forall i {:trigger init[i]} | 0 <= i < |init|
      ensures Orderly(c, Run(c, s, init[..i]), init[i])
    {
      assert steps[i] == init[i] && steps[..i] == init[..i];
    }
  }

  lemma {:induction false} CalmRun(c: Config, s: State, steps: seq<Step>)
    requires Inv(c, s) && Calm(c, s) && !Exposed(c, s) && OrderlyRun(c, s, steps)
    ensures Inv(c, Run(c, s, steps)) && Calm(c, Run(c, s, steps)) && !Exposed(c, Run(c, s, steps))
    decreases |steps|
  {
    if steps != [] {
      OrderlyPrefix(c, s, steps);
      CalmRun(c, s, steps[..|steps| - 1]);
      CalmCovered(c, Run(c, s, steps[..|steps| - 1]), steps[|steps| - 1]);
    }
  }

  /**
   * With its channel kept open within each run, and no process dying alone between a rename and its
   * sync, the runner processes exactly once, whatever crashes and when, and never risks an acked batch.
   */
  lemma ExactlyOnceWhenOrderly(c: Config, s: State, steps: seq<Step>)
    requires Initial(c, s) && OrderlyRun(c, s, steps)
    ensures ExactlyOnce(c, Run(c, s, steps)) && !Exposed(c, Run(c, s, steps))
  {
    InitialInv(c, s);
    assert CrashView(s.fs, 0) == View(s.fs);
    CalmRun(c, s, steps);
    InvExactlyOnce(c, Run(c, s, steps));
  }
}
