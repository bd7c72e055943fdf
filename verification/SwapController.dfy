/** The swap controller and the slot agent as objects, held to the scheduling and slot protocols. */
module SwapObjects {
  import opened Basics
  import opened CheckpointDisk
  import opened SwapScheduling
  import opened SlotProtocol
  import Swap = SwapSystem

  class SlotAgent {
    /** The model this agent is associated with at its interface. */
    var modelId: Option<ModelId>
    var eventQ: seq<Command>
    /** The event-loop thread's own state. */
    var modelState: Agent

    constructor ()
      ensures modelId == None && eventQ == [] && modelState == Idle
    {
      modelId, eventQ, modelState := None, [], Idle;
    }

    method StartModel(m: ModelId)
      requires modelId == None
      modifies `modelId, `eventQ
      ensures modelId == Some(m) && eventQ == old(eventQ) + [Start(m)]
    {
      modelId := Some(m);
      eventQ := eventQ + [Start(m)];
    }

    method StopModel()
      requires modelId != None
      modifies `eventQ
      ensures eventQ == old(eventQ) + [Stop]
    {
      eventQ := eventQ + [Stop];
    }

    method ReleaseSlot()
      requires modelId != None
      modifies `modelId, `eventQ
      ensures modelId == None && eventQ == old(eventQ) + [Release]
    {
      modelId := None;
      eventQ := eventQ + [Release];
    }

    method Close()
      modifies `eventQ
      ensures eventQ == old(eventQ) + [SlotProtocol.Close]
    {
      eventQ := eventQ + [SlotProtocol.Close];
    }

    ghost function View(client: Chair, started: nat, answered: nat): Slot
      reads this
    {
      Slot(modelState, eventQ, client, started, answered)
    }

    /** One turn of the event loop, up to where it may wait for the runner; none of its assertions fails. */
    method ServeOne(ghost client: Chair, ghost started: nat, ghost answered: nat)
      requires SlotOk(View(client, started, answered)) && CanPop(View(client, started, answered))
      modifies `eventQ, `modelState
      ensures View(client, started, answered) == Popped(old(View(client, started, answered)))
      ensures SlotOk(View(client, started, answered))
    {
      PopKeeps(View(client, started, answered));
      var doStopModel, doClose := false, false;
      var command := eventQ[0];
      eventQ := eventQ[1..];
      match command {
        case Start(m) =>
          assert modelState.Idle?;
          modelState := Busy(m, false, false, false, true, Running);
        case Stop =>
          assert modelState.Busy? && !modelState.requested;
          modelState := modelState.(requested := true);
          doStopModel := true;
        case Exited =>
          assert modelState.Busy?;
          modelState := modelState.(runner := Seen);
          doStopModel := !modelState.pending;
        case Release =>
          assert modelState.Busy? && modelState.pending && modelState.finished;
          modelState := Idle;
        case Close =>
          doClose := true;
      }
      if doStopModel && modelState.Busy? && !modelState.pending {
        modelState := modelState.(pending := true);
      }
      if doClose {
        assert modelState.Idle?;
        modelState := Closed;
      }
    }

    /** The rest of the turn once the runner's end has been reported: the client is called back. */
    method FinishStop(ghost client: Chair, ghost started: nat, ghost answered: nat) returns (done: Event)
      requires SlotOk(View(client, started, answered)) && CanJoin(View(client, started, answered))
      modifies `modelState
      ensures done == ModelDone(old(modelState).m) && client.seat.Taken? && client.seat.m == old(modelState).m
      ensures View(client.(called := true), started, answered + 1) == Joined(old(View(client, started, answered)))
      ensures SlotOk(View(client.(called := true), started, answered + 1))
    {
      SlotStepKeeps(View(client, started, answered), SlotProtocol.Join);
      modelState := modelState.(finished := true);
      done := ModelDone(modelState.m);
    }
  }

  /** The agents' queues after the calls have been made. */
  ghost function Delivered(queues: seq<seq<Command>>, calls: seq<SwapScheduling.Call>): (after: seq<seq<Command>>)
    ensures |after| == |queues|
  {
    seq(|queues|, i requires 0 <= i < |queues| => queues[i] + Swap.For(calls, i))
  }

  lemma DeliveredNothing(queues: seq<seq<Command>>)
    ensures Delivered(queues, []) == queues
  {
    forall i: nat | i < |queues|
      ensures Delivered(queues, [])[i] == queues[i]
    {
      assert queues[i] + [] == queues[i];
    }
  }

  lemma DeliveredAppend(queues: seq<seq<Command>>, a: seq<SwapScheduling.Call>, b: seq<SwapScheduling.Call>)
    ensures Delivered(queues, a + b) == Delivered(Delivered(queues, a), b)
  {
    forall i: nat | i < |queues|
      ensures Delivered(queues, a + b)[i] == Delivered(Delivered(queues, a), b)[i]
    {
      Swap.ForAppend(a, b, i);
    }
  }

  lemma DeliveredOne(queues: seq<seq<Command>>, call: SwapScheduling.Call)
    requires Swap.ToSlot(call, |queues|)
    ensures Delivered(queues, [call]) == queues[call.slot := queues[call.slot] + [Swap.CommandOf(call)]]
  {
    var after := queues[call.slot := queues[call.slot] + [Swap.CommandOf(call)]];
    forall i: nat | i < |queues|
      ensures Delivered(queues, [call])[i] == after[i]
    {
      Swap.OneCall(call, i);
    }
    assert Delivered(queues, [call]) == after;
  }

  lemma DeliveredNotice(queues: seq<seq<Command>>, m: ModelId)
    ensures Delivered(queues, [NotifySelf(m)]) == queues
  {
    forall i: nat | i < |queues|
      ensures Delivered(queues, [NotifySelf(m)])[i] == queues[i]
    {
      Swap.ForNone([NotifySelf(m)], i);
    }
    assert Delivered(queues, [NotifySelf(m)]) == queues;
  }

  /** An agent's interface shows the model the controller runs in its slot. */
  ghost predicate Owns(c: Controller, i: nat, owner: Option<ModelId>) {
    match owner
    case None => i !in SlotsInUse(c)
    case Some(m) => m in c.running && c.running[m].slot == i
  }

  ghost predicate OwnersMatch(c: Controller, owners: seq<Option<ModelId>>) {
    forall i | 0 <= i < |owners| :: Owns(c, i, owners[i])
  }

  lemma OwnersAfterAssign(c: Controller, m: ModelId, now: int, owners: seq<Option<ModelId>>)
    requires SlotsConserved(c) && |owners| == c.n && c.free != [] && m !in c.running && OwnersMatch(c, owners)
    ensures
      var slot := c.free[|c.free| - 1];
      slot < c.n && owners[slot] == None && OwnersMatch(AssignToFreeSlot(c, m, now).after, owners[slot := Some(m)])
  {
    assert c.free[|c.free| - 1] in c.free;
    AssignConserves(c, m, now);
    assert Owns(c, c.free[|c.free| - 1], owners[c.free[|c.free| - 1]]);
  }

  lemma OwnersAfterVacate(c: Controller, m: ModelId, owners: seq<Option<ModelId>>)
    requires SlotsConserved(c) && |owners| == c.n && m in c.running && OwnersMatch(c, owners)
    ensures
      var slot := c.running[m].slot;
      slot < c.n && owners[slot] == Some(m) && OwnersMatch(Vacated(c, m), owners[slot := None])
  {
    VacateConserves(c, m);
    assert c.running[m].slot in SlotsInUse(c);
    assert Owns(c, c.running[m].slot, owners[c.running[m].slot]);
  }

  lemma OwnersSame(c: Controller, c': Controller, owners: seq<Option<ModelId>>)
    requires OwnersMatch(c, owners) && c'.running == c.running
    ensures OwnersMatch(c', owners)
  {
    assert SlotsInUse(c') == SlotsInUse(c);
  }

  ghost function DoneCalls(c: Controller, m: ModelId, more: bool): seq<SwapScheduling.Call>
    requires m in c.running
  {
    [ReleaseSlot(c.running[m].slot)] + (if more then [NotifySelf(m)] else [])
  }

  lemma DoneDelivered(queues: seq<seq<Command>>, c: Controller, m: ModelId, choice: Choice)
    requires m in c.running && c.waiting != []
    ensures
      var started := StartNextWaiting(Vacated(c, m), choice.now);
      Delivered(queues, OnModelDone(c, m, choice).calls)
      == Delivered(Delivered(queues, DoneCalls(c, m, choice.more)),
                   started.calls + RequestPreemption(started.after, choice.victim).calls)
  {
    var started := StartNextWaiting(Vacated(c, m), choice.now);
    var preempted := RequestPreemption(started.after, choice.victim);
    var calls := DoneCalls(c, m, choice.more);
    assert calls + started.calls + preempted.calls == calls + (started.calls + preempted.calls);
    DeliveredAppend(queues, calls, started.calls + preempted.calls);
  }

  /** Once m's slot is free it is the only free one if anyone waits. */
  ghost predicate FollowsVacating(c: Controller, m: ModelId)
    requires m in c.running
  {
    var vacated := Vacated(c, m);
    && vacated.preempting <= SlotsInUse(vacated)
    && (c.waiting != [] ==> |vacated.free| == 1)
    && (forall i, j | 0 <= i < j < |c.waiting| :: c.waiting[i] != c.waiting[j])
    && forall w | w in c.waiting :: w !in vacated.running
  }

  lemma AfterVacating(c: Controller, m: ModelId)
    requires Orderly(c) && m in c.running
    ensures FollowsVacating(c, m)
  {
    VacateConserves(c, m);
  }

  /** The models outside left have been stopped, each at most once, in this order. */
  ghost predicate StopsSoFar(c: Controller, left: set<ModelId>, order: seq<nat>) {
    && (forall i, j | 0 <= i < j < |order| :: order[i] != order[j])
    && (forall s | s in order :: s !in c.preempting)
    && (forall s | s in order :: exists m :: m in c.running && m !in left && c.running[m].slot == s)
    && (forall m | m in c.running && m !in left :: c.running[m].slot in c.preempting || c.running[m].slot in order)
  }

  lemma StopsOneMore(c: Controller, left: set<ModelId>, order: seq<nat>, m: ModelId)
    requires StopsSoFar(c, left, order) && m in left && m in c.running
    ensures
      var slot := c.running[m].slot;
      StopsSoFar(c, left - {m}, if slot in c.preempting || slot in order then order else order + [slot])
  {
    var slot := c.running[m].slot;
    var order' := if slot in c.preempting || slot in order then order else order + [slot];
    forall s | s in order'
      ensures exists m' :: m' in c.running && m' !in left - {m} && c.running[m'].slot == s
    {
      if s in order {
        var m' :| m' in c.running && m' !in left && c.running[m'].slot == s;
      }
    }
  }

  lemma AllStopped(c: Controller, order: seq<nat>)
    requires StopsSoFar(c, {}, order)
    ensures StopOrder(c, order)
  {
  }

  /** New input for a running model leaves everyone where they are. */
  lemma TouchKeepsOwners(c: Controller, m: ModelId, now: int, owners: seq<Option<ModelId>>)
    requires Orderly(c) && m in c.running && OwnersMatch(c, owners)
    ensures
      var touched := OnNewInput(c, m, Choice(now, 0, false)).after;
      Orderly(touched) && OwnersMatch(touched, owners)
  {
    var touched := OnNewInput(c, m, Choice(now, 0, false)).after;
    TouchKeepsSlots(c, m, now);
    NewInputOrderly(c, m, Choice(now, 0, false));
    forall i | 0 <= i < |owners|
      ensures Owns(touched, i, owners[i])
    {
      assert Owns(c, i, owners[i]);
    }
  }

  class SwapController {
    const slotAgents: seq<SlotAgent>
    var waitingModelsFifo: seq<ModelId>
    var runningModelsMap: map<ModelId, RunningModel>
    var freeSlots: seq<nat>
    var pendingPreemptSlots: set<nat>
    var eventLoopStopPending: bool
    var requestedStopOfRemainingModels: bool
    var eventQ: seq<Event>

    ghost function View(): Controller
      reads this
    {
      Controller(|slotAgents|, waitingModelsFifo, runningModelsMap, freeSlots, pendingPreemptSlots,
                 eventLoopStopPending, requestedStopOfRemainingModels)
    }

    ghost function Queues(): (queues: seq<seq<Command>>)
      reads slotAgents
      ensures |queues| == |slotAgents|
    {
      seq(|slotAgents|, i requires 0 <= i < |slotAgents| reads slotAgents => slotAgents[i].eventQ)
    }

    ghost predicate Distinct() {
      forall i, j | 0 <= i < j < |slotAgents| :: slotAgents[i] != slotAgents[j]
    }

    ghost function Owners(): (owners: seq<Option<ModelId>>)
      reads slotAgents
      ensures |owners| == |slotAgents|
    {
      seq(|slotAgents|, i requires 0 <= i < |slotAgents| reads slotAgents => slotAgents[i].modelId)
    }

    ghost predicate InStep()
      reads this, slotAgents
    {
      Distinct() && SlotsConserved(View()) && OwnersMatch(View(), Owners())
    }

    ghost predicate Valid()
      reads this, slotAgents
    {
      Distinct() && Orderly(View()) && OwnersMatch(View(), Owners())
    }

    constructor (slotAgents: seq<SlotAgent>)
      requires slotAgents != []
      requires forall i, j | 0 <= i < j < |slotAgents| :: slotAgents[i] != slotAgents[j]
      requires forall i | 0 <= i < |slotAgents| :: slotAgents[i].modelId == None
      ensures Valid() && View() == NewController(|slotAgents|) && this.slotAgents == slotAgents && eventQ == []
    {
      NewControllerOrderly(|slotAgents|);
      this.slotAgents := slotAgents;
      waitingModelsFifo, runningModelsMap, pendingPreemptSlots := [], map[], {};
      freeSlots := seq(|slotAgents|, (i: nat) => i);
      eventLoopStopPending, requestedStopOfRemainingModels, eventQ := false, false, [];
    }

    method StartAgent(slot: nat, m: ModelId)
      requires Distinct() && slot < |slotAgents| && Owners()[slot] == None
      modifies slotAgents[slot]
      ensures Owners() == old(Owners())[slot := Some(m)]
      ensures Queues() == Delivered(old(Queues()), [StartModel(slot, m)])
    {
      DeliveredOne(Queues(), StartModel(slot, m));
      slotAgents[slot].StartModel(m);
    }

    method StopAgent(slot: nat)
      requires Distinct() && slot < |slotAgents| && Owners()[slot] != None
      modifies slotAgents[slot]
      ensures Owners() == old(Owners())
      ensures Queues() == Delivered(old(Queues()), [StopModel(slot)])
    {
      DeliveredOne(Queues(), StopModel(slot));
      slotAgents[slot].StopModel();
    }

    method ReleaseAgent(slot: nat)
      requires Distinct() && slot < |slotAgents| && Owners()[slot] != None
      modifies slotAgents[slot]
      ensures Owners() == old(Owners())[slot := None]
      ensures Queues() == Delivered(old(Queues()), [ReleaseSlot(slot)])
    {
      DeliveredOne(Queues(), ReleaseSlot(slot));
      slotAgents[slot].ReleaseSlot();
    }

    method CloseAgent(slot: nat)
      requires Distinct() && slot < |slotAgents|
      modifies slotAgents[slot]
      ensures Owners() == old(Owners())
      ensures Queues() == Delivered(old(Queues()), [CloseSlot(slot)])
    {
      DeliveredOne(Queues(), CloseSlot(slot));
      slotAgents[slot].Close();
    }

    /** Gives the model the last free slot and starts it there. */
    method AssignModelToFreeSlot(m: ModelId, now: int)
      requires InStep() && freeSlots != [] && m !in runningModelsMap && m !in waitingModelsFifo
      modifies `freeSlots, `runningModelsMap, slotAgents
      ensures View() == AssignToFreeSlot(old(View()), m, now).after && InStep()
      ensures Queues() == Delivered(old(Queues()), AssignToFreeSlot(old(View()), m, now).calls)
    {
      AssignConserves(View(), m, now);
      OwnersAfterAssign(View(), m, now, Owners());
      var slot := freeSlots[|freeSlots| - 1];
      freeSlots := freeSlots[..|freeSlots| - 1];
      StartAgent(slot, m);
      runningModelsMap := runningModelsMap[m := RunningModel(slot, now)];
      assert |runningModelsMap| + |freeSlots| == |slotAgents|;
    }

    /** Among the running models nobody stopped yet, one that has been quiet longest. */
    method LeastRecentlyUsedModel() returns (lru: ModelId)
      requires exists m :: m in runningModelsMap && runningModelsMap[m].slot !in pendingPreemptSlots
      ensures lru in runningModelsMap && QuietLongest(View(), lru)
    {
      var left, best := runningModelsMap.Keys, None;
      while left != {}
        invariant left <= runningModelsMap.Keys
        invariant best.None? ==>
          forall m | m in runningModelsMap && m !in left :: runningModelsMap[m].slot in pendingPreemptSlots
        invariant best.Some? ==>
          best.value in runningModelsMap && runningModelsMap[best.value].slot !in pendingPreemptSlots
        invariant best.Some? ==>
          forall m | m in runningModelsMap && m !in left && runningModelsMap[m].slot !in pendingPreemptSlots ::
            runningModelsMap[best.value].stamp <= runningModelsMap[m].stamp
        decreases |left|
      {
        var m :| m in left;
        left := left - {m};
        var info := runningModelsMap[m];
        if info.slot !in pendingPreemptSlots && (best.None? || info.stamp < runningModelsMap[best.value].stamp) {
          best := Some(m);
        }
      }
      return best.value;
    }

    /** Stops the least recently used model if someone waits for whom no slot is being vacated. */
    method RequestPreemptionOfRunningSlotIfNeededAndPossible() returns (ghost victim: nat)
      requires InStep() && pendingPreemptSlots <= SlotsInUse(View()) && freeSlots == []
      modifies `pendingPreemptSlots, slotAgents
      ensures PreemptionDue(old(View())) ==> LeastRecentlyUsed(old(View()), victim)
      ensures View() == RequestPreemption(old(View()), victim).after && InStep()
      ensures Queues() == Delivered(old(Queues()), RequestPreemption(old(View()), victim).calls)
    {
      if |waitingModelsFifo| <= |pendingPreemptSlots| || |pendingPreemptSlots| >= |slotAgents| {
        DeliveredNothing(Queues());
        return 0;
      }
      ghost var before := View();
      victim := VictimExists(before);
      var lru := LeastRecentlyUsedModel();
      var slot := runningModelsMap[lru].slot;
      victim := slot;
      assert before.running[lru].slot == victim;
      OwnersAfterVacate(before, lru, Owners());
      StopAgent(slot);
      pendingPreemptSlots := pendingPreemptSlots + {slot};
      assert SlotsInUse(View()) == SlotsInUse(before);
      OwnersSame(before, View(), Owners());
    }

    /** A model that has to wait, and the preemption that will make room for it. */
    method AddWaiting(m: ModelId, now: int) returns (ghost choice: Choice)
      requires Valid() && freeSlots == [] && m !in runningModelsMap && m !in waitingModelsFifo
      modifies `waitingModelsFifo, `pendingPreemptSlots, slotAgents
      ensures Valid() && choice.now == now && Possible(old(View()), NewInput(m), choice)
      ensures View() == OnNewInput(old(View()), m, choice).after
      ensures Queues() == Delivered(old(Queues()), OnNewInput(old(View()), m, choice).calls)
    {
      ghost var before := View();
      waitingModelsFifo := waitingModelsFifo + [m];
      assert SlotsInUse(View()) == SlotsInUse(before);
      OwnersSame(before, View(), Owners());
      ghost var victim := RequestPreemptionOfRunningSlotIfNeededAndPossible();
      choice := Choice(now, victim, false);
      NewInputOrderly(before, m, choice);
    }

    /** Notes that a running model has new input. */
    method Touch(m: ModelId, now: int)
      requires Valid() && m in runningModelsMap
      modifies `runningModelsMap
      ensures Valid() && View() == OnNewInput(old(View()), m, Choice(now, 0, false)).after
    {
      TouchKeepsOwners(View(), m, now, Owners());
      runningModelsMap := runningModelsMap[m := runningModelsMap[m].(stamp := now)];
    }

    method HandleNewInputNotify(m: ModelId, now: int) returns (ghost choice: Choice)
      requires Valid()
      modifies this, slotAgents
      ensures Valid() && choice.now == now && Possible(old(View()), NewInput(m), choice)
      ensures View() == OnNewInput(old(View()), m, choice).after && eventQ == old(eventQ)
      ensures Queues() == Delivered(old(Queues()), OnNewInput(old(View()), m, choice).calls)
    {
      choice := Choice(now, 0, false);
      if m in runningModelsMap {
        DeliveredNothing(Queues());
        Touch(m, now);
      } else if m in waitingModelsFifo {
        DeliveredNothing(Queues());
      } else if freeSlots != [] {
        assert waitingModelsFifo == [];
        NewInputOrderly(View(), m, choice);
        AssignModelToFreeSlot(m, now);
      } else {
        choice := AddWaiting(m, now);
      }
    }

    /** The slot of the finished model becomes free and its agent is told. */
    method VacateSlot(m: ModelId)
      requires InStep() && m in runningModelsMap
      modifies `runningModelsMap, `freeSlots, `pendingPreemptSlots, slotAgents
      ensures View() == Vacated(old(View()), m) && InStep()
      ensures Queues() == Delivered(old(Queues()), [ReleaseSlot(old(View()).running[m].slot)])
    {
      VacateConserves(View(), m);
      OwnersAfterVacate(View(), m, Owners());
      var slot := runningModelsMap[m].slot;
      assert slot in SlotsInUse(View());
      runningModelsMap := runningModelsMap - {m};
      assert slot !in freeSlots && slot < |slotAgents|;
      freeSlots := freeSlots + [slot];
      pendingPreemptSlots := pendingPreemptSlots - {slot};
      ReleaseAgent(slot);
    }

    /** Starts the model that has waited longest, and makes room for the next. */
    method StartWaiting(now: int) returns (ghost victim: nat)
      requires InStep() && |freeSlots| == 1 && waitingModelsFifo != [] && pendingPreemptSlots <= SlotsInUse(View())
      requires forall i, j | 0 <= i < j < |waitingModelsFifo| :: waitingModelsFifo[i] != waitingModelsFifo[j]
      requires forall m | m in waitingModelsFifo :: m !in runningModelsMap
      modifies `waitingModelsFifo, `freeSlots, `runningModelsMap, `pendingPreemptSlots, slotAgents
      ensures InStep()
      ensures
        var started := StartNextWaiting(old(View()), now);
        && (PreemptionDue(started.after) ==> LeastRecentlyUsed(started.after, victim))
        && View() == RequestPreemption(started.after, victim).after
        && Queues() == Delivered(old(Queues()), started.calls + RequestPreemption(started.after, victim).calls)
    {
      ghost var before, queues := View(), Queues();
      RefillWaiting(before, now);
      ghost var started := StartNextWaiting(before, now);
      var newModelId := waitingModelsFifo[0];
      waitingModelsFifo := waitingModelsFifo[1..];
      assert SlotsInUse(View()) == SlotsInUse(before);
      OwnersSame(before, View(), Owners());
      AssignModelToFreeSlot(newModelId, now);
      assert View() == started.after;
      victim := RequestPreemptionOfRunningSlotIfNeededAndPossible();
      DeliveredAppend(queues, started.calls, RequestPreemption(started.after, victim).calls);
    }

    /** Frees the slot, then asks for another turn of the model if it has input left. */
    method ReleaseAndRenotify(m: ModelId, more: bool)
      requires InStep() && m in runningModelsMap
      modifies `runningModelsMap, `freeSlots, `pendingPreemptSlots, `eventQ, slotAgents
      ensures View() == Vacated(old(View()), m) && InStep()
      ensures Queues() == Delivered(old(Queues()), DoneCalls(old(View()), m, more))
      ensures eventQ == old(eventQ) + (if more then [NewInput(m)] else [])
    {
      ghost var queues, release := Queues(), [ReleaseSlot(View().running[m].slot)];
      VacateSlot(m);
      if more {
        DeliveredAppend(queues, release, [NotifySelf(m)]);
        DeliveredNotice(Queues(), m);
        eventQ := eventQ + [NewInput(m)];
      } else {
        assert release + [] == release;
      }
    }

    method FinishModel(m: ModelId, now: int, more: bool) returns (ghost choice: Choice)
      requires InStep() && m in runningModelsMap && FollowsVacating(View(), m)
      modifies this, slotAgents
      ensures InStep() && choice.now == now && choice.more == more && Possible(old(View()), ModelDone(m), choice)
      ensures View() == OnModelDone(old(View()), m, choice).after
      ensures Queues() == Delivered(old(Queues()), OnModelDone(old(View()), m, choice).calls)
      ensures eventQ == old(eventQ) + (if more then [NewInput(m)] else [])
    {
      ghost var before, queues := View(), Queues();
      ReleaseAndRenotify(m, more);
      choice := Choice(now, 0, more);
      if waitingModelsFifo != [] {
        ghost var victim := StartWaiting(now);
        choice := Choice(now, victim, more);
        DoneDelivered(queues, before, m, choice);
      }
    }

    /** more: the finished model has input left, as the swapper interface reports it. */
    method HandleModelDoneNotify(m: ModelId, now: int, more: bool) returns (ghost choice: Choice)
      requires Valid() && m in runningModelsMap
      modifies this, slotAgents
      ensures Valid() && choice.now == now && choice.more == more && Possible(old(View()), ModelDone(m), choice)
      ensures View() == OnModelDone(old(View()), m, choice).after
      ensures Queues() == Delivered(old(Queues()), OnModelDone(old(View()), m, choice).calls)
      ensures eventQ == old(eventQ) + (if more then [NewInput(m)] else [])
    {
      ghost var before := View();
      AfterVacating(before, m);
      choice := FinishModel(m, now, more);
      ModelDoneOrderly(before, m, choice);
    }

    method HandleStopEventLoopRequest()
      requires Valid()
      modifies `eventLoopStopPending
      ensures Valid() && View() == old(View()).(stopping := true)
    {
      ghost var before := View();
      eventLoopStopPending := true;
      assert SlotsInUse(View()) == SlotsInUse(before);
      OwnersSame(before, View(), Owners());
    }

    /** The models outside left have been asked to stop, the slots of order in this very loop. */
    ghost predicate Stopping(before: Controller, queues: seq<seq<Command>>, left: set<ModelId>, order: seq<nat>)
      reads this, slotAgents
    {
      && InStep() && left <= runningModelsMap.Keys
      && pendingPreemptSlots == before.preempting + (set s | s in order)
      && View() == before.(preempting := pendingPreemptSlots)
      && StopsSoFar(before, left, order)
      && Queues() == Delivered(queues, StopCalls(order))
    }

    /** Stops a running model unless that has been done already. */
    method StopUnlessStopped(m: ModelId, ghost before: Controller, ghost queues: seq<seq<Command>>,
                             ghost left: set<ModelId>, ghost order: seq<nat>)
        returns (ghost order': seq<nat>)
      requires Stopping(before, queues, left, order) && m in left
      modifies `pendingPreemptSlots, slotAgents
      ensures Stopping(before, queues, left - {m}, order')
    {
      var slot := runningModelsMap[m].slot;
      order' := order;
      StopsOneMore(before, left, order, m);
      if slot !in pendingPreemptSlots {
        ghost var stopped := View();
        OwnersAfterVacate(stopped, m, Owners());
        StopAgent(slot);
        pendingPreemptSlots := pendingPreemptSlots + {slot};
        order' := order + [slot];
        assert StopCalls(order') == StopCalls(order) + [StopModel(slot)];
        DeliveredAppend(queues, StopCalls(order), [StopModel(slot)]);
        assert SlotsInUse(View()) == SlotsInUse(stopped);
        OwnersSame(stopped, View(), Owners());
      }
    }

    /** Asks every running model that was not asked yet to stop. */
    method StopEachRunning() returns (ghost order: seq<nat>)
      requires InStep()
      modifies `pendingPreemptSlots, slotAgents
      ensures StopOrder(old(View()), order) && InStep()
      ensures View() == old(View()).(preempting := old(View()).preempting + (set s | s in order))
      ensures Queues() == Delivered(old(Queues()), StopCalls(order))
    {
      ghost var before, queues := View(), Queues();
      var left := runningModelsMap.Keys;
      order := [];
      assert StopCalls([]) == [];
      DeliveredNothing(queues);
      while left != {}
        invariant Stopping(before, queues, left, order)
        decreases |left|
      {
        var m :| m in left;
        order := StopUnlessStopped(m, before, queues, left, order);
        left := left - {m};
      }
      AllStopped(before, order);
    }

    /** Does so, and remembers that it is done. */
    method StopRemainingModels() returns (ghost order: seq<nat>)
      requires InStep()
      modifies `pendingPreemptSlots, `requestedStopOfRemainingModels, slotAgents
      ensures StopOrder(old(View()), order) && InStep()
      ensures View() == old(View()).(preempting := old(View()).preempting + (set s | s in order), stopSent := true)
      ensures Queues() == Delivered(old(Queues()), StopCalls(order))
    {
      order := StopEachRunning();
      ghost var stopped := View();
      requestedStopOfRemainingModels := true;
      assert SlotsInUse(View()) == SlotsInUse(stopped);
      OwnersSame(stopped, View(), Owners());
    }

    method CloseAgents()
      requires Distinct()
      modifies slotAgents
      ensures Owners() == old(Owners()) && Queues() == Delivered(old(Queues()), CloseCalls(|slotAgents|))
    {
      ghost var queues, calls := Queues(), CloseCalls(|slotAgents|);
      assert calls[..0] == [];
      DeliveredNothing(queues);
      for i := 0 to |slotAgents|
        invariant Owners() == old(Owners()) && Queues() == Delivered(queues, calls[..i])
      {
        assert calls[..i + 1] == calls[..i] + [CloseSlot(i)];
        DeliveredAppend(queues, calls[..i], [CloseSlot(i)]);
        CloseAgent(i);
      }
      assert calls[..|slotAgents|] == calls;
    }

    /** The head of the event loop; leaving says whether the loop is left. */
    method LoopHead() returns (leaving: bool, ghost order: seq<nat>)
      requires Valid()
      modifies `pendingPreemptSlots, `requestedStopOfRemainingModels, slotAgents
      ensures leaving == Leaving(old(View())) && (StopsRemaining(old(View())) ==> StopOrder(old(View()), order))
      ensures Valid() && View() == AtLoopHead(old(View()), order).after
      ensures Queues() == Delivered(old(Queues()), AtLoopHead(old(View()), order).calls)
    {
      ghost var before := View();
      leaving, order := false, [];
      if eventLoopStopPending && runningModelsMap == map[] && waitingModelsFifo == [] {
        CloseAgents();
        leaving := true;
      } else if eventLoopStopPending && waitingModelsFifo == [] && !requestedStopOfRemainingModels {
        order := StopRemainingModels();
        LoopHeadOrderly(before, order);
      } else {
        DeliveredNothing(Queues());
      }
    }

    /** Dispatches one event to its handler. */
    method HandleEvent(event: Event, now: int, more: bool) returns (ghost choice: Choice)
      requires Valid() && (event.ModelDone? ==> event.m in runningModelsMap)
      modifies this, slotAgents
      ensures Valid() && choice.now == now && Possible(old(View()), event, choice)
      ensures event.ModelDone? ==> choice.more == more
      ensures View() == React(old(View()), event, choice).after
      ensures Queues() == Delivered(old(Queues()), React(old(View()), event, choice).calls)
      ensures eventQ == old(eventQ) + Renotification(event, more)
    {
      assert eventQ + [] == eventQ;
      match event
      case NewInput(m) => choice := HandleNewInputNotify(m, now);
      case ModelDone(m) => choice := HandleModelDoneNotify(m, now, more);
      case StopLoop =>
        HandleStopEventLoopRequest();
        choice := Choice(now, 0, more);
        DeliveredNothing(Queues());
    }

    /** What handling an event adds to the controller's own queue: a finished model with input left comes again. */
    static function Renotification(event: Event, more: bool): seq<Event> {
      if event.ModelDone? && more then [NewInput(event.m)] else []
    }

    /** Takes the next event off the queue. */
    method NextEvent() returns (event: Event)
      requires Valid() && eventQ != []
      modifies `eventQ
      ensures event == old(eventQ)[0] && eventQ == old(eventQ)[1..] && Valid()
    {
      event := eventQ[0];
      eventQ := eventQ[1..];
    }

    /** Gets and handles the next event. */
    method HandleNext(now: int, more: bool) returns (event: Event, ghost choice: Choice)
      requires Valid() && eventQ != [] && (eventQ[0].ModelDone? ==> eventQ[0].m in runningModelsMap)
      modifies this, slotAgents
      ensures event == old(eventQ)[0] && choice.now == now && (event.ModelDone? ==> choice.more == more)
      ensures Valid() && Possible(old(View()), event, choice)
      ensures View() == React(old(View()), event, choice).after
      ensures Queues() == Delivered(old(Queues()), React(old(View()), event, choice).calls)
      ensures eventQ == old(eventQ)[1..] + Renotification(event, more)
    {
      event := NextEvent();
      choice := HandleEvent(event, now, more);
    }

    /** One turn of the event loop: handle the next event, then see whether it is time to leave. */
    method OneTurn(now: int, more: bool) returns (leaving: bool, ghost o: Occurrence)
      requires Valid() && eventQ != [] && (eventQ[0].ModelDone? ==> eventQ[0].m in runningModelsMap)
      modifies this, slotAgents
      ensures o.event == old(eventQ)[0] && o.choice.now == now && Turns(old(View()), [o])
      ensures o.event.ModelDone? ==> o.choice.more == more
      ensures eventQ == old(eventQ)[1..] + Renotification(o.event, more)
      ensures Valid() && View() == Turn(old(View()), o).after && leaving == Leaving(View())
      ensures Queues() == Delivered(old(Queues()), Turn(old(View()), o).calls)
    {
      ghost var before, queues := View(), Queues();
      var event;
      ghost var choice;
      event, choice := HandleNext(now, more);
      ghost var reaction := React(before, event, choice);
      ghost var order;
      leaving, order := LoopHead();
      o := Occurrence(event, choice, order);
      DeliveredAppend(queues, reaction.calls, AtLoopHead(reaction.after, order).calls);
      assert [o][1..] == [];
    }
  }
}
