/** Exactly-once processing over every run of the model runner. */
module RunnerTheorems {
  import opened CheckpointDisk
  import opened RunnerSemantics
  import opened RunnerProtocol
  import opened RunnerInvariant
  import opened RunnerSafety
  import opened RunnerDurability
  import opened RunnerCrash

  lemma InitialInv(c: Config, s: State)
    requires Initial(c, s)
    ensures Inv(c, s)
  {
    assert s.submitted[..0] == [];
    assert InvAt(c, s, 0, 0);
  }

  lemma ReadingStepInv(c: Config, s: State, step: Step)
    requires Inv(c, s) && CanStep(c, s, step)
    requires step.Submit? || step.Start? || step.Deliver? || step.Handle? || step.Reconnect?
    ensures Inv(c, Next(c, s, step))
  {
    var r: nat, h: nat :| InvAt(c, s, r, h);
    match step
    case Submit(batch) => SubmitStep(c, s, r, h, batch); assert InvAt(c, Submitted(s, batch), r, h);
    case Start => StartStep(c, s, r, h); assert InvAt(c, Started(c, s), r, h);
    case Deliver => DeliverStep(c, s, r, h); assert InvAt(c, DeliverNext(s), r, h);
    case Handle(t) => HandleStep(c, s, r, h, t); assert InvAt(c, HandleNext(c, s, t), r, h);
    case Reconnect => ReconnectStep(c, s, r, h); assert InvAt(c, Reconnected(s), r, h);
  }

  /** A crash loses what its view lacks, the death of the process what the disk now shows lacks. */
  ghost predicate Harmless(c: Config, s: State, step: Step) {
    match step
    case Crash(k) => k <= |s.fs.pending| ==> !Loses(c, s, Recover(CrashView(s.fs, k), c.id))
    case Die => !Loses(c, s, Found(c, s))
    case _ => true
  }

  lemma WritingStepInv(c: Config, s: State, step: Step)
    requires Inv(c, s) && CanStep(c, s, step) && Harmless(c, s, step)
    requires step.DiskStep? || step.Publish? || step.Drained? || step.Checkpoint? || step.Ack? || step.Die?
          || step.Crash?
    ensures Inv(c, Next(c, s, step))
  {
    var r: nat, h: nat :| InvAt(c, s, r, h);
    match step
    case DiskStep =>
      if !(s.process.pc.Creating? && |s.process.pc.replies| >= |s.process.pc.batch.objects|) {
        DiskStepStep(c, s, r, h);
        assert InvAt(c, NextDiskStep(s), r, h);
      }
    case Publish => PublishStep(c, s, r, h); assert InvAt(c, PublishReplies(c, s), r, h + 1);
    case Drained => DrainedStep(c, s, r, h); assert InvAt(c, DrainedNow(s), r, h);
    case Checkpoint(t, store) => CloseStep(c, s, r, h, t, store);
    case Ack(preempt) => AckStep(c, s, r, h, preempt);
    case Die => DieStep(c, s, r, h);
    case Crash(k) => CrashStep(c, s, r, h, k);
  }

  /** Every step keeps the invariant, a crash or a death as long as it loses no acked batch. */
  lemma StepInv(c: Config, s: State, step: Step)
    requires Inv(c, s) && CanStep(c, s, step) && Harmless(c, s, step)
    ensures Inv(c, Next(c, s, step))
  {
    if step.Submit? || step.Start? || step.Deliver? || step.Handle? || step.Reconnect? {
      ReadingStepInv(c, s, step);
    } else {
      WritingStepInv(c, s, step);
    }
  }

  /** No crash and no death of the run loses an acked batch. */
  ghost predicate SafeRun(c: Config, s: State, steps: seq<Step>) {
    forall i {:trigger steps[i]} | 0 <= i < |steps| :: Harmless(c, Run(c, s, steps[..i]), steps[i])
  }

  lemma SafePrefix(c: Config, s: State, steps: seq<Step>)
    requires SafeRun(c, s, steps) && steps != []
    ensures SafeRun(c, s, steps[..|steps| - 1])
    ensures Harmless(c, Run(c, s, steps[..|steps| - 1]), steps[|steps| - 1])
  {
    var init := steps[..|steps| - 1];
    forall i {:trigger init[i]} | 0 <= i < |init|
      ensures Harmless(c, Run(c, s, init[..i]), init[i])
    {
      assert steps[i] == init[i] && steps[..i] == init[..i];
    }
  }

  lemma {:induction false} RunInv(c: Config, s: State, steps: seq<Step>)
    requires Inv(c, s) && SafeRun(c, s, steps)
    ensures Inv(c, Run(c, s, steps))
    decreases |steps|
  {
    if steps != [] {
      var init := steps[..|steps| - 1];
      SafePrefix(c, s, steps);
      RunInv(c, s, init);
      if CanStep(c, Run(c, s, init), steps[|steps| - 1]) {
        StepInv(c, Run(c, s, init), steps[|steps| - 1]);
      }
    }
  }

  // ----- exactly once -----

  /** Recovering after a crash at this point gives the fold of a prefix that contains every acked batch. */
  ghost predicate RecoversPrefix(c: Config, s: State, found: Recovered) {
    exists n: nat :: Acked(s) <= n <= |s.submitted| && LogicalOf(c.engine, found) == Fold(c.engine, s.submitted[..n])
  }

  /** The live model, between batches, is the fold of a prefix that contains every acked batch. */
  ghost predicate LivePrefix(c: Config, s: State) {
    s.process.Alive? && s.process.pc.Consuming? && s.process.mem.archive.model.Some? ==>
      exists n: nat, definition ::
        Acked(s) <= n <= |s.submitted|
        && Fold(c.engine, s.submitted[..n]) == Trained(definition, s.process.mem.archive.model.value)
  }

  ghost predicate ExactlyOnce(c: Config, s: State) {
    // nothing unacked is lost, reordered or repeated by the broker
    && 0 <= Acked(s) && s.broker.outstanding + s.broker.ready == s.submitted[Acked(s)..]
    // every acked batch was answered, and every answer is the one owed
    && (forall j: nat | j < Acked(s) :: (s.submitted[j].id, Replies(c.engine, s.submitted, j)) in s.published)
    && (forall p | p in s.published ::
          exists j: nat :: j < |s.submitted| && p == (s.submitted[j].id, Replies(c.engine, s.submitted, j)))
    // whatever a crash undoes, if it loses no acked batch each row of a prefix with them counts once, in order
    && (forall k {:trigger CrashView(s.fs, k)} | 0 <= k <= |s.fs.pending| ::
          !Loses(c, s, Recover(CrashView(s.fs, k), c.id)) ==> RecoversPrefix(c, s, Recover(CrashView(s.fs, k), c.id)))
    && LivePrefix(c, s)
  }

  lemma CrashRecoversPrefix(c: Config, s: State, k: nat)
    requires Inv(c, s) && k <= |s.fs.pending| && !Loses(c, s, Recover(CrashView(s.fs, k), c.id))
    ensures RecoversPrefix(c, s, Recover(CrashView(s.fs, k), c.id))
  {
    var r: nat, h: nat :| InvAt(c, s, r, h);
    var x := Stands(c, s, r, h);
    var y := CrashLeads(c, s, x, k);
    var q := Resumes(c, s, h, Recover(CrashView(s.fs, k), c.id), y);
    if LogicalOf(c.engine, Recover(CrashView(s.fs, k), c.id)) != Fold(c.engine, s.submitted[..q]) {
      assert Acked(s) <= 1 <= |s.submitted|;
    }
  }

  lemma InvExactlyOnce(c: Config, s: State)
    requires Inv(c, s)
    ensures ExactlyOnce(c, s)
  {
    var r: nat, h: nat :| InvAt(c, s, r, h);
    assert LivePrefix(c, s) by {
      if s.process.Alive? && s.process.pc.Consuming? && s.process.mem.archive.model.Some? {
        var found := Found(c, s);
        assert Fold(c.engine, s.submitted[..h]) == Trained(found.definition, s.process.mem.archive.model.value);
      }
    }
    forall k {:trigger CrashView(s.fs, k)} | 0 <= k <= |s.fs.pending|
      ensures !Loses(c, s, Recover(CrashView(s.fs, k), c.id)) ==>
                RecoversPrefix(c, s, Recover(CrashView(s.fs, k), c.id))
    {
      if !Loses(c, s, Recover(CrashView(s.fs, k), c.id)) {
        CrashRecoversPrefix(c, s, k);
      }
    }
  }

  /**
   * Exactly-once processing: over every run from a model nobody has heard of, with submissions,
   * restarts, lost channels, deaths of the process and crashes of the machine interleaved in any
   * way, as long as none of them loses an acked batch.
   */
  lemma ExactlyOnceTheorem(c: Config, s: State, steps: seq<Step>)
    requires Initial(c, s) && SafeRun(c, s, steps)
    ensures ExactlyOnce(c, Run(c, s, steps))
  {
    InitialInv(c, s);
    RunInv(c, s, steps);
    InvExactlyOnce(c, Run(c, s, steps));
  }
}
