/** What a crash of the machine or the death of the process leaves, and when it loses an acked batch. */
module RunnerCrash {
  import opened CheckpointDisk
  import opened CheckpointScripts
  import opened ModelArchiving
  import opened RunnerSemantics
  import opened RunnerProtocol
  import opened RunnerInvariant
  import opened RunnerSafety
  import opened RunnerDurability

  // ----- where the disk stands -----

  /**
   * The disk shows the first x batches. If not all acked batches are among them, the one at x is
   * counted; if they are, every counted batch is named on disk or still queued.
   */
  ghost predicate Standing(c: Config, s: State, x: nat)
    requires 0 <= Acked(s)
  {
    && DiskCovers(c, s, x)
    && (x < Acked(s) ==> x < |s.submitted| && s.submitted[x].id in Counted(c, s))
    && (Acked(s) <= x ==> Counted(c, s) <= BatchIdsOf(Found(c, s)) + Queued(s))
  }

  lemma QueuedIds(s: State, lo: nat, hi: nat)
    requires BrokerOk(s) && Acked(s) <= lo <= hi <= |s.submitted|
    ensures IdsBetween(s.submitted, lo, hi) <= Queued(s)
  {
    var queue := s.broker.outstanding + s.broker.ready;
    assert forall j | Acked(s) <= j < |s.submitted| :: queue[j - Acked(s)] == s.submitted[j];
  }

  lemma NotQueued(s: State, j: nat)
    requires WellFormedStream(s.submitted) && BrokerOk(s) && j < Acked(s)
    ensures s.submitted[j].id !in Queued(s)
  {
    var queue := s.broker.outstanding + s.broker.ready;
    assert forall i | 0 <= i < |queue| :: queue[i] == s.submitted[Acked(s) + i];
  }

  lemma ReadingStands(c: Config, s: State, mem: Memory, r: nat, h: nat, taken: nat)
    requires QueueOk(s, r, h) && s.process.Alive? && s.process.mem == mem && !s.process.pc.Acking?
    requires h <= taken <= |s.submitted| && RunOk(s, mem, r, taken) && DiskCovers(c, s, r)
    ensures Standing(c, s, r)
  {
    if Acked(s) <= r {
      QueuedIds(s, r, taken);
    }
  }

  lemma CreatingStands(c: Config, s: State, mem: Memory, pc: Pc, r: nat, h: nat)
    requires QueueOk(s, r, h) && s.process == Alive(mem, pc) && pc.Creating? && CreatingOk(c, s, mem, pc, r, h)
    ensures Standing(c, s, 0)
  {
    var after := Defined(pc.batch.objects[0].definition);
    FirstBatch(c, s.submitted);
    ViewIsCrashView(pc.start);
    ScriptChange(c, pc.start, pc.script, pc.i, 4, after);
    ScriptBase(c, pc.start, pc.script, pc.i, 4, after);
    var found, earlier := Found(c, s), Recover(s.fs.base, c.id);
    if earlier != found {
      assert Undone(c, s.submitted, Acked(s), found, earlier, 0, 0);
    }
    QueuedIds(s, 0, 1);
  }

  lemma UnswitchedFs(c: Config, start: Fs, script: seq<Op>, i: nat, switch: nat, after: Recovered)
    requires OneChange(c, start) && Switches(View(start), c.id, script, switch, after) && Prepared(script, switch)
    requires i < switch && i <= |script|
    ensures
      var now := ExecAll(start, script[..i]);
      && OneChange(c, now) && Recover(View(now), c.id) == Recover(View(start), c.id)
      && (now.base == start.base || Recover(now.base, c.id) == Recover(View(start), c.id))
  {
    ScriptChange(c, start, script, i, switch, after);
    ScriptBase(c, start, script, i, switch, after);
  }

  lemma UndoneAsBefore(c: Config, s: State, start: Fs, r: nat)
    requires 0 <= Acked(s) && DiskCovers(c, s.(fs := start), r) && s.fs.base == start.base
    requires Found(c, s) == Recover(View(start), c.id) != Recover(s.fs.base, c.id)
    ensures exists p: nat :: Undone(c, s.submitted, Acked(s), Found(c, s), Recover(s.fs.base, c.id), r, p)
  {
    var p: nat :| Undone(c, s.submitted, Acked(s), Found(c, s), Recover(s.fs.base, c.id), r, p);
  }

  lemma UnswitchedDisk(c: Config, s: State, start: Fs, script: seq<Op>, i: nat, r: nat, switch: nat, after: Recovered)
    requires 0 <= Acked(s) && DiskCovers(c, s.(fs := start), r)
    requires Switches(View(start), c.id, script, switch, after) && Prepared(script, switch)
    requires i < switch && i <= |script| && s.fs == ExecAll(start, script[..i])
    ensures DiskCovers(c, s, r)
  {
    UnswitchedFs(c, start, script, i, switch, after);
    var found, earlier := Found(c, s), Recover(s.fs.base, c.id);
    if earlier != found {
      UndoneAsBefore(c, s, start, r);
    }
  }

  /** A save before its switch: the disk still shows what it showed. */
  lemma UnswitchedStands(c: Config, s: State, mem: Memory, pc: Pc, r: nat, h: nat, switch: nat, after: Recovered)
    requires QueueOk(s, r, h) && s.process == Alive(mem, pc) && pc.Saving?
        && SavingOk(c, s, mem, pc, r, h, switch, after)
    requires pc.i < switch
    ensures Standing(c, s, r)
  {
    UnswitchedDisk(c, s, pc.start, pc.script, pc.i, r, switch, after);
    ReadingStands(c, s, mem, r, h, h);
  }

  /** A save past its switch: the disk shows the new checkpoint; the one before may still come back. */
  lemma SwitchedStands(c: Config, s: State, mem: Memory, pc: Pc, r: nat, h: nat, switch: nat, after: Recovered)
    requires QueueOk(s, r, h) && s.process == Alive(mem, pc) && pc.Saving?
        && SavingOk(c, s, mem, pc, r, h, switch, after)
    requires switch <= pc.i
    ensures Standing(c, s, h)
  {
    ScriptChange(c, pc.start, pc.script, pc.i, switch, after);
    ScriptBase(c, pc.start, pc.script, pc.i, switch, after);
    var found, earlier := Found(c, s), Recover(s.fs.base, c.id);
    if earlier != found {
      assert Undone(c, s.submitted, Acked(s), found, earlier, h, r);
    }
  }

  lemma SavingStands(c: Config, s: State, mem: Memory, pc: Pc, r: nat, h: nat, switch: nat, after: Recovered)
      returns (x: nat)
    requires QueueOk(s, r, h) && s.process == Alive(mem, pc) && pc.Saving?
        && SavingOk(c, s, mem, pc, r, h, switch, after)
    ensures x <= h && Standing(c, s, x)
  {
    if pc.i < switch {
      UnswitchedStands(c, s, mem, pc, r, h, switch, after);
      x := r;
    } else {
      SwitchedStands(c, s, mem, pc, r, h, switch, after);
      x := h;
    }
  }

  lemma RunningStands(c: Config, s: State, r: nat, h: nat)
    requires QueueOk(s, r, h) && ProcessOk(c, s, r, h) && s.process.Alive?
    requires s.process.pc.Consuming? || s.process.pc.Closing? || s.process.pc.Handling?
    ensures Standing(c, s, r)
  {
    ReadingStands(c, s, s.process.mem, r, h, if s.process.pc.Handling? then h + 1 else h);
  }

  lemma WritingStands(c: Config, s: State, mem: Memory, pc: Pc, r: nat, h: nat) returns (x: nat)
    requires QueueOk(s, r, h) && s.process == Alive(mem, pc) && ProcessOk(c, s, r, h) && (pc.Saving? || pc.Acking?)
    ensures x <= h && Standing(c, s, x)
  {
    if pc.Saving? {
      var switch: nat, after :| SavingOk(c, s, mem, pc, r, h, switch, after);
      x := SavingStands(c, s, mem, pc, r, h, switch, after);
    } else {
      var q: nat :| AckingOk(c, s, mem, r, h, q);
      x := q;
    }
  }

  lemma Stands(c: Config, s: State, r: nat, h: nat) returns (x: nat)
    requires QueueOk(s, r, h) && ProcessOk(c, s, r, h)
    ensures x <= h && Standing(c, s, x)
  {
    x := r;
    if s.process.Alive? {
      var pc := s.process.pc;
      if pc.Consuming? || pc.Closing? || pc.Handling? {
        RunningStands(c, s, r, h);
      } else if pc.Creating? {
        CreatingStands(c, s, s.process.mem, pc, r, h);
      } else {
        x := WritingStands(c, s, s.process.mem, pc, r, h);
      }
    }
  }

  // ----- where a crash leads -----

  /** found covers the first y batches, and whether it lacks an acked one shows in the counted ones. */
  ghost predicate Leads(c: Config, s: State, found: Recovered, y: nat)
    requires 0 <= Acked(s)
  {
    && Covers(c, s.submitted, found, y)
    && Known(s.submitted, Acked(s), y, BatchIdsOf(found))
    && (y < Acked(s) ==> found.NoEntry? || (y < |s.submitted| && s.submitted[y].id in Counted(c, s)))
    && (Acked(s) <= y ==> Counted(c, s) <= BatchIdsOf(found) + Queued(s))
  }

  lemma UndoneLeads(c: Config, s: State, x: nat, earlier: Recovered) returns (p: nat)
    requires BrokerOk(s) && Standing(c, s, x) && earlier != Found(c, s) && earlier == Recover(s.fs.base, c.id)
    ensures p <= x && Leads(c, s, earlier, p)
  {
    var found := Found(c, s);
    p :| Undone(c, s.submitted, Acked(s), found, earlier, x, p);
    if Acked(s) <= p {
      QueuedIds(s, p, x);
    }
  }

  lemma CrashLeads(c: Config, s: State, x: nat, k: nat) returns (y: nat)
    requires BrokerOk(s) && Standing(c, s, x) && k <= |s.fs.pending|
    ensures y <= x && Healthy(CrashView(s.fs, k), c.id) && Leads(c, s, Recover(CrashView(s.fs, k), c.id), y)
  {
    var found := Recover(CrashView(s.fs, k), c.id);
    if found == Found(c, s) {
      y := x;
    } else {
      y := UndoneLeads(c, s, x, found);
    }
  }

  predicate Sound(found: Recovered) { !found.Dangling? && !found.Unreadable? }

  /** Without an entry nothing is covered. */
  lemma NoEntryCoversNothing(c: Config, batches: seq<Batch>, found: Recovered, y: nat)
    requires WellFormedStream(batches) && Covers(c, batches, found, y) && found.NoEntry?
    ensures y == 0
  {
    if y > 0 {
      FoldTrained(c.engine, batches, y);
    }
  }

  lemma LosesIff(c: Config, s: State, found: Recovered, y: nat)
    requires WellFormedStream(s.submitted) && BrokerOk(s) && Leads(c, s, found, y)
    ensures Loses(c, s, found) <==> y < Acked(s) && (found.NoEntry? || Acked(s) > 1)
  {
    if found.NoEntry? {
      NoEntryCoversNothing(c, s.submitted, found, y);
    } else if y < Acked(s) {
      NotQueued(s, y);
      assert s.submitted[y].id !in IdsBetween(s.submitted, 0, y);
    }
  }

  // ----- the invariant after it -----

  function Died(s: State): State { s.(broker := Requeued(s.broker), process := Dead) }

  function Crashed(s: State, k: nat): State
    requires k <= |s.fs.pending|
  {
    s.(fs := Fs(CrashView(s.fs, k), []), broker := Requeued(s.broker), process := Dead)
  }

  /** A disk that covers the first q batches lets a new process resume from there. */
  lemma DeadAt(c: Config, s: State, s': State, r: nat, h: nat, q: nat)
    requires QueueOk(s, r, h) && PublishedOk(c, s, h) && Acked(s) <= q <= h
    requires s'.submitted == s.submitted && s'.published == s.published
    requires s'.broker == Requeued(s.broker) && s'.process.Dead?
    requires 0 <= Acked(s') && DiskCovers(c, s', q)
    ensures InvAt(c, s', q, q)
  {
    RequeuedQueue(s, s', r, h);
    PublishedKept(c, s, s', q);
  }

  /** The definition's batch needs no checkpoint: an entry covers it already. */
  lemma EntryCovers(c: Config, batches: seq<Batch>, found: Recovered)
    requires WellFormedStream(batches) && batches != [] && Covers(c, batches, found, 0)
    requires Sound(found) && !found.NoEntry?
    ensures Covers(c, batches, found, 1) && LogicalOf(c.engine, found) == Fold(c.engine, batches[..1])
  {
    FirstBatch(c, batches);
  }

  /** From where a new process resumes after a harmless crash. */
  lemma Resumes(c: Config, s: State, h: nat, found: Recovered, y: nat) returns (q: nat)
    requires WellFormedStream(s.submitted) && BrokerOk(s) && Acked(s) <= h <= |s.submitted| && y <= h
    requires Leads(c, s, found, y) && Sound(found) && !Loses(c, s, found)
    ensures y <= q && Acked(s) <= q <= h && Covers(c, s.submitted, found, q)
    ensures Known(s.submitted, Acked(s), q, BatchIdsOf(found))
    ensures LogicalOf(c.engine, found) == Fold(c.engine, s.submitted[..q])
         || (q == 0 && s.submitted != [] && LogicalOf(c.engine, found) == Fold(c.engine, s.submitted[..1]))
  {
    LosesIff(c, s, found, y);
    q := y;
    if y < Acked(s) {
      EntryCovers(c, s.submitted, found);
      q := 1;
    }
  }

  lemma CrashedDisk(c: Config, s: State, k: nat, q: nat)
    requires k <= |s.fs.pending| && 0 <= Acked(s) == Acked(Crashed(s, k)) && Healthy(CrashView(s.fs, k), c.id)
    requires Covers(c, s.submitted, Recover(CrashView(s.fs, k), c.id), q)
    requires Known(s.submitted, Acked(s), q, BatchIdsOf(Recover(CrashView(s.fs, k), c.id)))
    ensures DiskCovers(c, Crashed(s, k), q)
  {
  }

  /** A crash that loses no acked batch keeps the invariant, whatever step it follows. */
  lemma CrashStep(c: Config, s: State, r: nat, h: nat, k: nat)
    requires InvAt(c, s, r, h) && k <= |s.fs.pending| && !Loses(c, s, Recover(CrashView(s.fs, k), c.id))
    ensures Inv(c, Crashed(s, k))
  {
    var found := Recover(CrashView(s.fs, k), c.id);
    var x := Stands(c, s, r, h);
    var y := CrashLeads(c, s, x, k);
    assert Sound(found);
    var q := Resumes(c, s, h, found, y);
    CrashedDisk(c, s, k, q);
    DeadAt(c, s, Crashed(s, k), r, h, q);
    assert InvAt(c, Crashed(s, k), q, q);
  }

  /** So does the death of the process alone, with its unsynced steps still pending. */
  lemma DieStep(c: Config, s: State, r: nat, h: nat)
    requires InvAt(c, s, r, h) && !Loses(c, s, Found(c, s))
    ensures Inv(c, Died(s))
  {
    var x := Stands(c, s, r, h);
    ViewIsCrashView(s.fs);
    ViewHealthy(c, s.fs);
    assert Sound(Found(c, s));
    var q := Resumes(c, s, h, Found(c, s), x);
    DiskKept(c, s, Died(s), x, q);
    DeadAt(c, s, Died(s), r, h, q);
    assert InvAt(c, Died(s), q, q);
  }
}
