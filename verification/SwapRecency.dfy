/** What the controller's decisions mean over its history: who was used last, who is stopped, and when all ends. */
module SwapRecency {
  import opened Basics
  import opened CheckpointDisk
  import opened SwapScheduling

  // ----- what a stamp is -----

  /** The turn starts m, or brings it new input while it runs. */
  ghost predicate Uses(c: Controller, o: Occurrence, m: ModelId)
    requires o.event.ModelDone? ==> o.event.m in c.running
  {
    || (o.event == NewInput(m) && m in c.running)
    || exists slot {:trigger StartModel(slot, m)} :: StartModel(slot, m) in Turn(c, o).calls
  }

  /** When m was last started or brought new input in these turns. */
  ghost function LastUse(c: Controller, run: seq<Occurrence>, m: ModelId): Option<int>
    requires Turns(c, run)
    decreases |run|
  {
    if run == [] then None
    else
      var later := LastUse(Turn(c, run[0]).after, run[1..], m);
      if later.Some? then later else if Uses(c, run[0], m) then Some(run[0].choice.now) else None
  }

  lemma LoopHeadStartsNobody(c: Controller, order: seq<nat>)
    ensures forall call | call in AtLoopHead(c, order).calls :: !call.StartModel?
  {
  }

  lemma PreemptionStartsNobody(c: Controller, victim: nat)
    ensures forall call | call in RequestPreemption(c, victim).calls :: !call.StartModel?
    ensures RequestPreemption(c, victim).after.running == c.running
  {
  }

  /** The models a handler starts: one at most, with the time as its stamp; the others keep what they had. */
  lemma NewInputUses(c: Controller, n: ModelId, choice: Choice, m: ModelId)
    ensures
      var after, calls := OnNewInput(c, n, choice).after, OnNewInput(c, n, choice).calls;
      if (n == m && m in c.running) || exists slot {:trigger StartModel(slot, m)} :: StartModel(slot, m) in calls
      then m in after.running && after.running[m].stamp == choice.now
      else m in after.running <==> m in c.running && after.running[m] == c.running[m]
  {
    PreemptionStartsNobody(c.(waiting := c.waiting + [n]), choice.victim);
    if n !in c.running && n !in c.waiting && c.free != [] {
      var slot := c.free[|c.free| - 1];
      assert StartModel(slot, n) in OnNewInput(c, n, choice).calls;
    }
  }

  lemma DoneCalls(c: Controller, d: ModelId, choice: Choice, m: ModelId)
    requires d in c.running && c.waiting != []
    ensures (exists slot {:trigger StartModel(slot, m)} :: StartModel(slot, m) in OnModelDone(c, d, choice).calls)
        <==> m == c.waiting[0]
  {
    var started := StartNextWaiting(Vacated(c, d), choice.now);
    var preempted := RequestPreemption(started.after, choice.victim);
    PreemptionStartsNobody(started.after, choice.victim);
    assert started.calls[0] in started.calls && started.calls[0].m == c.waiting[0];
    assert started.calls[0] in OnModelDone(c, d, choice).calls;
  }

  lemma DoneUses(c: Controller, d: ModelId, choice: Choice, m: ModelId)
    requires Orderly(c) && d in c.running
    ensures
      var after, calls := OnModelDone(c, d, choice).after, OnModelDone(c, d, choice).calls;
      if exists slot {:trigger StartModel(slot, m)} :: StartModel(slot, m) in calls
      then m in after.running && after.running[m].stamp == choice.now
      else m in after.running ==> m in c.running && after.running[m] == c.running[m]
  {
    if c.waiting != [] {
      DoneCalls(c, d, choice, m);
      var started := StartNextWaiting(Vacated(c, d), choice.now);
      PreemptionStartsNobody(started.after, choice.victim);
    }
  }

  lemma StopUses(c: Controller, o: Occurrence, m: ModelId)
    requires o.event.StopLoop?
    ensures React(c, o.event, o.choice).after.running == c.running && React(c, o.event, o.choice).calls == []
  {
  }

  lemma ReactUses(c: Controller, o: Occurrence, m: ModelId)
    requires Orderly(c) && (o.event.ModelDone? ==> o.event.m in c.running)
    ensures
      var after, calls := React(c, o.event, o.choice).after, React(c, o.event, o.choice).calls;
      if (o.event == NewInput(m) && m in c.running)
         || exists slot {:trigger StartModel(slot, m)} :: StartModel(slot, m) in calls
      then m in after.running && after.running[m].stamp == o.choice.now
      else m in after.running ==> m in c.running && after.running[m] == c.running[m]
  {
    match o.event
    case NewInput(n) => NewInputUses(c, n, o.choice, m);
    case ModelDone(d) => DoneUses(c, d, o.choice, m);
    case StopLoop => StopUses(c, o, m);
  }

  lemma TurnUses(c: Controller, o: Occurrence, m: ModelId)
    requires Orderly(c) && (o.event.ModelDone? ==> o.event.m in c.running)
    ensures
      if Uses(c, o, m) then m in Turn(c, o).after.running && Turn(c, o).after.running[m].stamp == o.choice.now
      else m in Turn(c, o).after.running ==> m in c.running && Turn(c, o).after.running[m] == c.running[m]
  {
    var reaction := React(c, o.event, o.choice);
    ReactUses(c, o, m);
    LoopHeadKeepsModels(reaction.after, o.order);
    LoopHeadStartsNobody(reaction.after, o.order);
    assert forall slot :: StartModel(slot, m) in Turn(c, o).calls <==> StartModel(slot, m) in reaction.calls;
  }

  /** The stamp of a running model is the time of the last turn that started it or brought it new input. */
  lemma {:induction false} StampIsLastUse(c: Controller, run: seq<Occurrence>, m: ModelId)
    requires Orderly(c) && Turns(c, run) && m in AfterTurns(c, run).running
    ensures
      var stamp := AfterTurns(c, run).running[m].stamp;
      match LastUse(c, run, m)
      case Some(now) => stamp == now
      case None => m in c.running && stamp == c.running[m].stamp
    decreases |run|
  {
    if run != [] {
      var c' := FirstTurn(c, run);
      TurnUses(c, run[0], m);
      StampIsLastUse(c', run[1..], m);
    }
  }

  // ----- who is preempted -----

  lemma {:induction false} OneMoreTurn(c: Controller, run: seq<Occurrence>, o: Occurrence)
    requires Turns(c, run) && Turns(AfterTurns(c, run), [o])
    ensures Turns(c, run + [o]) && AfterTurns(c, run + [o]) == Turn(AfterTurns(c, run), o).after
    decreases |run|
  {
    assert [o][1..] == [];
    if run == [] {
      assert run + [o] == [o];
    } else {
      assert (run + [o])[1..] == run[1..] + [o];
      OneMoreTurn(Turn(c, run[0]).after, run[1..], o);
    }
  }

  /** Slots being vacated, the one just vacated left out. */
  function StillPreempting(c: Controller, event: Event): set<nat>
    requires event.ModelDone? ==> event.m in c.running
  {
    c.preempting - if event.ModelDone? then {c.running[event.m].slot} else {}
  }

  /** The state in which a handler looks for a slot to preempt. */
  function Looking(c: Controller, event: Event, now: int): Controller
    requires event.ModelDone? ==> event.m in c.running
  {
    match event
    case NewInput(m) =>
      if m in c.running || m in c.waiting || c.free != [] then c else c.(waiting := c.waiting + [m])
    case ModelDone(m) => Refilled(c, m, now)
    case StopLoop => c
  }

  /** What a handler that has come to looking does about preemption, given what else it calls. */
  ghost predicate Preempts(looking: Controller, victim: nat, after: Controller, calls: seq<Call>) {
    && after.preempting == looking.preempting + (if PreemptionDue(looking) then {victim} else {})
    && (PreemptionDue(looking) ==> looking.running == after.running)
    && looking.waiting == after.waiting
    && forall slot :: StopModel(slot) in calls <==> PreemptionDue(looking) && slot == victim
  }

  lemma NotDue(c: Controller)
    requires Orderly(c)
    ensures !PreemptionDue(c)
  {
  }

  lemma PreemptsNobody(looking: Controller, victim: nat, after: Controller, calls: seq<Call>)
    requires !PreemptionDue(looking) && after.preempting == looking.preempting && after.waiting == looking.waiting
    requires forall call | call in calls :: !call.StopModel?
    ensures Preempts(looking, victim, after, calls)
  {
  }

  lemma AfterOthers(looking: Controller, victim: nat, others: seq<Call>)
    requires forall call | call in others :: !call.StopModel?
    ensures
      var preempted := RequestPreemption(looking, victim);
      Preempts(looking, victim, preempted.after, others + preempted.calls)
  {
  }

  lemma NewInputPreempts(c: Controller, m: ModelId, choice: Choice)
    requires Orderly(c)
    ensures
      var reaction := OnNewInput(c, m, choice);
      Preempts(Looking(c, NewInput(m), choice.now), choice.victim, reaction.after, reaction.calls)
  {
    var reaction := OnNewInput(c, m, choice);
    NotDue(c);
    if m in c.running || m in c.waiting || c.free != [] {
      PreemptsNobody(c, choice.victim, reaction.after, reaction.calls);
    } else {
      AfterOthers(c.(waiting := c.waiting + [m]), choice.victim, []);
      assert [] + reaction.calls == reaction.calls;
    }
  }

  lemma DoneCallsSplit(c: Controller, m: ModelId, choice: Choice) returns (others: seq<Call>)
    requires m in c.running && c.waiting != []
    ensures forall call | call in others :: !call.StopModel?
    ensures OnModelDone(c, m, choice).calls
         == others + RequestPreemption(Refilled(c, m, choice.now), choice.victim).calls
    ensures OnModelDone(c, m, choice).after == RequestPreemption(Refilled(c, m, choice.now), choice.victim).after
  {
    var started := StartNextWaiting(Vacated(c, m), choice.now);
    var released := [ReleaseSlot(c.running[m].slot)] + (if choice.more then [NotifySelf(m)] else []);
    others := released + started.calls;
  }

  lemma DonePreempts(c: Controller, m: ModelId, choice: Choice)
    requires Orderly(c) && m in c.running
    ensures
      var reaction := OnModelDone(c, m, choice);
      Preempts(Looking(c, ModelDone(m), choice.now), choice.victim, reaction.after, reaction.calls)
  {
    var reaction := OnModelDone(c, m, choice);
    if c.waiting != [] {
      var others := DoneCallsSplit(c, m, choice);
      AfterOthers(Refilled(c, m, choice.now), choice.victim, others);
    } else {
      PreemptsNobody(Vacated(c, m), choice.victim, reaction.after, reaction.calls);
    }
  }

  lemma LookingSlots(c: Controller, event: Event, now: int)
    requires event.ModelDone? ==> event.m in c.running
    ensures Looking(c, event, now).preempting == StillPreempting(c, event) && Looking(c, event, now).n == c.n
  {
  }

  lemma Preempted(c: Controller, event: Event, choice: Choice)
    requires Orderly(c) && (event.ModelDone? ==> event.m in c.running)
    ensures
      var looking, reaction := Looking(c, event, choice.now), React(c, event, choice);
      && looking.preempting == StillPreempting(c, event) && looking.n == c.n
      && Preempts(looking, choice.victim, reaction.after, reaction.calls)
  {
    LookingSlots(c, event, choice.now);
    match event
    case NewInput(m) => NewInputPreempts(c, m, choice);
    case ModelDone(m) => DonePreempts(c, m, choice);
    case StopLoop =>
      NotDue(c);
      PreemptsNobody(c, choice.victim, React(c, event, choice).after, []);
  }

  lemma VictimLeastUsed(c: Controller, event: Event, choice: Choice)
    requires Orderly(c) && (event.ModelDone? ==> event.m in c.running) && Possible(c, event, choice)
    requires PreemptionDue(Looking(c, event, choice.now))
    ensures LeastRecentlyUsed(Looking(c, event, choice.now), choice.victim)
  {
    NotDue(c);
  }

  /**
   * A handler stops one more running model exactly if, when it is through, more models wait than slots are
   * being vacated, and not all slots are.
   */
  lemma PreemptsAsNeeded(c: Controller, event: Event, choice: Choice)
    requires Orderly(c) && (event.ModelDone? ==> event.m in c.running) && Possible(c, event, choice)
    ensures
      var base, after := StillPreempting(c, event), React(c, event, choice).after;
      && base <= after.preempting
      && |after.preempting| == |base| + (if |after.waiting| > |base| && |base| < c.n then 1 else 0)
      && forall slot :: StopModel(slot) in React(c, event, choice).calls <==> slot in after.preempting - base
  {
    var looking := Looking(c, event, choice.now);
    Preempted(c, event, choice);
    if PreemptionDue(looking) {
      VictimLeastUsed(c, event, choice);
    }
  }

  /** While models wait, only preemption stops a running model. */
  lemma OnlyPreemptionStops(c: Controller, o: Occurrence, slot: nat)
    requires o.event.ModelDone? ==> o.event.m in c.running
    requires StopModel(slot) in Turn(c, o).calls && Turn(c, o).after.waiting != []
    ensures StopModel(slot) in React(c, o.event, o.choice).calls
    ensures Turn(c, o).after == React(c, o.event, o.choice).after
  {
  }

  /** The model of the preempted slot, in the state after the turn. */
  lemma VictimOf(c: Controller, o: Occurrence, slot: nat) returns (m: ModelId)
    requires Orderly(c) && Turns(c, [o]) && StopModel(slot) in Turn(c, o).calls && Turn(c, o).after.waiting != []
    ensures
      var after := Turn(c, o).after;
      && m in after.running && after.running[m].slot == slot && slot !in StillPreempting(c, o.event)
      && forall other | other in after.running && after.running[other].slot !in after.preempting ::
           after.running[m].stamp <= after.running[other].stamp
  {
    var looking := Looking(c, o.event, o.choice.now);
    OnlyPreemptionStops(c, o, slot);
    Preempted(c, o.event, o.choice);
    VictimLeastUsed(c, o.event, o.choice);
    m :| m in looking.running && QuietLongest(looking, m) && looking.running[m].slot == slot;
  }

  lemma NobodyAtFirst(n: nat, run: seq<Occurrence>, m: ModelId)
    requires n > 0 && Turns(NewController(n), run) && m in AfterTurns(NewController(n), run).running
    ensures LastUse(NewController(n), run, m) == Some(AfterTurns(NewController(n), run).running[m].stamp)
  {
    NewControllerOrderly(n);
    StampIsLastUse(NewController(n), run, m);
  }

  /**
   * Over every run of turns, whenever a running model is stopped for others that wait, it has not been
   * stopped yet, and no other running model that has not been stopped was last started or brought input earlier.
   */
  lemma PreemptsLeastRecentlyUsed(n: nat, run: seq<Occurrence>, o: Occurrence, slot: nat) returns (m: ModelId)
    requires n > 0 && Turns(NewController(n), run) && Turns(AfterTurns(NewController(n), run), [o])
    requires
      var turn := Turn(AfterTurns(NewController(n), run), o);
      StopModel(slot) in turn.calls && turn.after.waiting != []
    ensures Turns(NewController(n), run + [o])
    ensures
      var before, after := AfterTurns(NewController(n), run), AfterTurns(NewController(n), run + [o]);
      && m in after.running && after.running[m].slot == slot
      && slot !in StillPreempting(before, o.event)
      && LastUse(NewController(n), run + [o], m).Some?
      && forall other | other in after.running && after.running[other].slot !in after.preempting ::
           && LastUse(NewController(n), run + [o], other).Some?
           && LastUse(NewController(n), run + [o], m).value <= LastUse(NewController(n), run + [o], other).value
  {
    var c0 := NewController(n);
    NewControllerOrderly(n);
    TurnsKeepOrder(c0, run);
    OneMoreTurn(c0, run, o);
    m := VictimOf(AfterTurns(c0, run), o, slot);
    NobodyAtFirst(n, run + [o], m);
    var after := AfterTurns(c0, run + [o]);
    forall other | other in after.running && after.running[other].slot !in after.preempting
      ensures LastUse(c0, run + [o], other).Some?
      ensures LastUse(c0, run + [o], m).value <= LastUse(c0, run + [o], other).value
    {
      NobodyAtFirst(n, run + [o], other);
    }
  }

  // ----- who is started, and who hears of what -----

  lemma NewInputStarts(c: Controller, n: ModelId, choice: Choice, m: ModelId)
    requires Orderly(c)
    ensures (exists slot {:trigger StartModel(slot, m)} :: StartModel(slot, m) in OnNewInput(c, n, choice).calls)
        <==> m == n && IdleModel(c, n) && c.free != []
    ensures NotifySelf(m) !in OnNewInput(c, n, choice).calls
  {
    PreemptionStartsNobody(c.(waiting := c.waiting + [n]), choice.victim);
    if IdleModel(c, n) && c.free != [] {
      assert StartModel(c.free[|c.free| - 1], n) in OnNewInput(c, n, choice).calls;
    }
  }

  lemma DoneStarts(c: Controller, d: ModelId, choice: Choice, m: ModelId)
    requires d in c.running
    ensures (exists slot {:trigger StartModel(slot, m)} :: StartModel(slot, m) in OnModelDone(c, d, choice).calls)
        <==> c.waiting != [] && m == c.waiting[0]
    ensures NotifySelf(m) in OnModelDone(c, d, choice).calls <==> m == d && choice.more
  {
    if choice.more {
      assert OnModelDone(c, d, choice).calls[1] == NotifySelf(d);
    }
    if c.waiting != [] {
      DoneCalls(c, d, choice, m);
    }
  }

  lemma HeadStartsNobody(c: Controller, order: seq<nat>, m: ModelId)
    ensures forall call | call in AtLoopHead(c, order).calls :: !call.StartModel? && !call.NotifySelf?
  {
  }

  /**
   * A turn starts a model exactly if it brings the first input of an idle one while a slot is free, or frees a
   * slot while that model heads the waiting list; it reminds itself exactly of a finished model with input left.
   */
  lemma StartsExactly(c: Controller, o: Occurrence, m: ModelId)
    requires Orderly(c) && (o.event.ModelDone? ==> o.event.m in c.running)
    ensures (exists slot {:trigger StartModel(slot, m)} :: StartModel(slot, m) in Turn(c, o).calls) <==>
      || (o.event == NewInput(m) && IdleModel(c, m) && c.free != [])
      || (o.event.ModelDone? && c.waiting != [] && m == c.waiting[0])
    ensures NotifySelf(m) in Turn(c, o).calls <==> o.event == ModelDone(m) && o.choice.more
  {
    var reaction := React(c, o.event, o.choice);
    HeadStartsNobody(reaction.after, o.order, m);
    assert forall slot :: StartModel(slot, m) in Turn(c, o).calls <==> StartModel(slot, m) in reaction.calls;
    match o.event
    case NewInput(n) => NewInputStarts(c, n, o.choice, m);
    case ModelDone(d) => DoneStarts(c, d, o.choice, m);
    case StopLoop =>
  }

  // ----- slots and the end -----

  /** The slot freed last is the next to be used. */
  lemma LastFreedFirst(c: Controller, m: ModelId, next: ModelId, now: int)
    requires m in c.running
    ensures StartModel(c.running[m].slot, next) in AssignToFreeSlot(Vacated(c, m), next, now).calls
    ensures AssignToFreeSlot(Vacated(c, m), next, now).after.free == c.free
  {
    var slot := c.running[m].slot;
    assert (c.free + [slot])[..|c.free|] == c.free;
    assert [StartModel(slot, next)][0] == StartModel(slot, next);
  }

  predicate StopAsked(run: seq<Occurrence>) { exists i :: 0 <= i < |run| && run[i].event.StopLoop? }

  lemma {:induction false} StopsWhenAsked(c: Controller, run: seq<Occurrence>)
    requires Turns(c, run)
    ensures AfterTurns(c, run).stopping <==> c.stopping || StopAsked(run)
    decreases |run|
  {
    if run != [] {
      var rest := run[1..];
      StopsWhenAsked(Turn(c, run[0]).after, rest);
      assert forall i | 0 <= i < |rest| :: rest[i] == run[i + 1];
      assert StopAsked(run) <==> run[0].event.StopLoop? || StopAsked(rest) by {
        if StopAsked(rest) {
          var i :| 0 <= i < |rest| && rest[i].event.StopLoop?;
          assert run[i + 1].event.StopLoop?;
        }
      }
    }
  }

  lemma TurnCloses(c: Controller, o: Occurrence, slot: nat)
    requires o.event.ModelDone? ==> o.event.m in c.running
    ensures
      var turn := Turn(c, o);
      CloseSlot(slot) in turn.calls <==>
        slot < c.n && turn.after.stopping && turn.after.running == map[] && turn.after.waiting == []
  {
    var reaction := React(c, o.event, o.choice);
    assert forall call | call in reaction.calls :: !call.CloseSlot?;
    HeadCloses(reaction.after, o.order, slot);
  }

  lemma HeadCloses(c: Controller, order: seq<nat>, slot: nat)
    ensures CloseSlot(slot) in AtLoopHead(c, order).calls <==> slot < c.n && Leaving(c)
    ensures AtLoopHead(c, order).after.stopping == c.stopping
    ensures AtLoopHead(c, order).after.running == c.running && AtLoopHead(c, order).after.waiting == c.waiting
  {
    if Leaving(c) && slot < c.n {
      assert CloseCalls(c.n)[slot] == CloseSlot(slot);
    }
  }

  /** All slots are closed exactly if the stop has been asked for and no model runs or waits. */
  lemma ClosesWhenIdle(n: nat, run: seq<Occurrence>, o: Occurrence, slot: nat)
    requires n > 0 && Turns(NewController(n), run) && Turns(AfterTurns(NewController(n), run), [o])
    ensures
      var turn := Turn(AfterTurns(NewController(n), run), o);
      CloseSlot(slot) in turn.calls <==>
        slot < n && StopAsked(run + [o]) && turn.after.running == map[] && turn.after.waiting == []
  {
    OneMoreTurn(NewController(n), run, o);
    StopsWhenAsked(NewController(n), run + [o]);
    SizeKept(NewController(n), run);
    TurnCloses(AfterTurns(NewController(n), run), o, slot);
  }

  lemma TurnKeepsSize(c: Controller, o: Occurrence)
    requires o.event.ModelDone? ==> o.event.m in c.running
    ensures Turn(c, o).after.n == c.n
  {
  }

  lemma {:induction false} SizeKept(c: Controller, run: seq<Occurrence>)
    requires Turns(c, run)
    ensures AfterTurns(c, run).n == c.n
    decreases |run|
  {
    if run != [] {
      TurnKeepsSize(c, run[0]);
      SizeKept(Turn(c, run[0]).after, run[1..]);
    }
  }

  /**
   * The first turn at whose end the stop has been asked for and nobody waits, though models run, leaves every
   * running model asked to stop.
   */
  lemma StopsRemainingModels(c: Controller, o: Occurrence)
    requires Orderly(c) && Turns(c, [o])
    ensures
      var after := Turn(c, o).after;
      && after.stopSent == (c.stopSent || (after.stopping && after.waiting == [] && after.running != map[]))
      && (after.stopSent && !c.stopSent ==> after.preempting == SlotsInUse(after))
  {
    EventKeepsOrder(c, o.event, o.choice);
    HeadStops(React(c, o.event, o.choice).after, o.order);
  }

  lemma HeadStops(c: Controller, order: seq<nat>)
    requires c.preempting <= SlotsInUse(c) && (StopsRemaining(c) ==> StopOrder(c, order))
    ensures
      var after := AtLoopHead(c, order).after;
      && after.stopSent == (c.stopSent || (after.stopping && after.waiting == [] && after.running != map[]))
      && (after.stopSent && !c.stopSent ==> after.preempting == SlotsInUse(after))
  {
    var after := AtLoopHead(c, order).after;
    assert SlotsInUse(after) == SlotsInUse(c);
    if StopsRemaining(c) {
      assert after.preempting == c.preempting + (set slot | slot in order);
    }
  }
}
