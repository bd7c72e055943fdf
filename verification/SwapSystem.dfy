/**
 * The swap controller and all its slot agents, interleaved in every way: the controller handles
 * one event at a time and issues its calls one by one while agents, runners and monitor threads
 * go on.
 */
module SwapSystem {
  import opened Basics
  import opened CheckpointDisk
  import opened SwapScheduling
  import opened SlotProtocol

  /** outbox holds the calls of the event in hand that the controller has yet to make; left: it is leaving its loop. */
  datatype System = System(ctl: Controller, slots: seq<Slot>, events: seq<Event>, outbox: seq<SwapScheduling.Call>,
                           left: bool, broken: bool)

  datatype Step =
    | Notified(m: ModelId)
    | StopRequested
    | Handle(choice: Choice, order: seq<nat>)
    | Issue
    | Agent(slot: nat, step: SlotStep)

  function NewSystem(n: nat): System {
    System(NewController(n), seq(n, (i: nat) => NEW_SLOT), [], [], false, false)
  }

  ghost predicate CanHandle(s: System, choice: Choice, order: seq<nat>) {
    && s.outbox == [] && !s.left && s.events != []
    && var event := s.events[0];
       (event.ModelDone? ==> event.m in s.ctl.running) ==> Turns(s.ctl, [Occurrence(event, choice, order)])
  }

  ghost predicate CanStep(s: System, step: Step) {
    match step
    case Notified(_) => true
    case StopRequested => true
    case Handle(choice, order) => CanHandle(s, choice, order)
    case Issue => s.outbox != []
    case Agent(i, a) => i < |s.slots| && !a.Call? && CanSlotStep(s.slots[i], a)
  }

  predicate ToSlot(call: SwapScheduling.Call, n: nat) { !call.NotifySelf? && call.slot < n }

  /** The command a call puts into an agent's queue. */
  function CommandOf(call: SwapScheduling.Call): Command
    requires !call.NotifySelf?
  {
    match call
    case StartModel(_, m) => Start(m)
    case StopModel(_) => Stop
    case ReleaseSlot(_) => Release
    case CloseSlot(_) => Close
  }

  function HandleEvent(s: System, choice: Choice, order: seq<nat>): System
    requires s.events != []
  {
    var event, rest := s.events[0], s.events[1..];
    if event.ModelDone? && event.m !in s.ctl.running then s.(events := rest, broken := true)
    else
      var turn := Turn(s.ctl, Occurrence(event, choice, order));
      s.(ctl := turn.after, events := rest, outbox := turn.calls, left := Leaving(turn.after))
  }

  function IssueCall(s: System): System
    requires s.outbox != []
  {
    var call, rest := s.outbox[0], s.outbox[1..];
    if call.NotifySelf? then s.(events := s.events + [NewInput(call.m)], outbox := rest)
    else if !ToSlot(call, |s.slots|) then s.(outbox := rest, broken := true)
    else s.(slots := s.slots[call.slot := Called(s.slots[call.slot], CommandOf(call))], outbox := rest)
  }

  /** A callback puts the model-done event into the controller's queue. */
  function AgentStep(s: System, i: nat, a: SlotStep): System
    requires i < |s.slots| && CanSlotStep(s.slots[i], a)
  {
    var slot := s.slots[i];
    var done := if a.Join? && slot.agent.callback then [ModelDone(slot.agent.m)] else [];
    s.(slots := s.slots[i := SlotNext(slot, a)], events := s.events + done)
  }

  ghost function Next(s: System, step: Step): System {
    if !CanStep(s, step) then s
    else
      match step
      case Notified(m) => s.(events := s.events + [NewInput(m)])
      case StopRequested => s.(events := s.events + [StopLoop])
      case Handle(choice, order) => HandleEvent(s, choice, order)
      case Issue => IssueCall(s)
      case Agent(i, a) => AgentStep(s, i, a)
  }

  ghost function Run(s: System, steps: seq<Step>): System {
    if steps == [] then s else Next(Run(s, steps[..|steps| - 1]), steps[|steps| - 1])
  }

  // ----- the invariant -----

  /** The commands for slot i among some calls. */
  function For(calls: seq<SwapScheduling.Call>, i: nat): seq<Command> {
    if calls == [] then []
    else if calls[0].NotifySelf? || calls[0].slot != i then For(calls[1..], i)
    else [CommandOf(calls[0])] + For(calls[1..], i)
  }

  /** The chair after these commands, if all are allowed. */
  function Settled(chair: Chair, commands: seq<Command>): Option<Chair>
    decreases |commands|
  {
    if commands == [] then Some(chair)
    else if Allowed(chair, commands[0]) then Settled(ChairAfter(chair, commands[0]), commands[1..])
    else None
  }

  /** The chair shows what the controller believes about slot i. */
  ghost predicate Matches(c: Controller, left: bool, i: nat, chair: Chair) {
    match chair.seat
    case Free => !left && i !in SlotsInUse(c) && !chair.called
    case Taken(m, stopped) => m in c.running && c.running[m].slot == i && (stopped <==> i in c.preempting)
    case Shut => left && !chair.called
  }

  ghost predicate SeatOk(s: System, i: nat)
    requires i < |s.slots|
  {
    var chair := Settled(s.slots[i].chair, For(s.outbox, i));
    SlotOk(s.slots[i]) && chair.Some? && Matches(s.ctl, s.left, i, chair.value)
  }

  /** A callback that has reached the controller's queue but not its handler. */
  ghost predicate DoneOk(s: System) {
    && (forall j | 0 <= j < |s.events| && s.events[j].ModelDone? :: Answered(s, s.events[j].m))
    && (forall j, k | 0 <= j < k < |s.events| && s.events[j].ModelDone? :: s.events[j] != s.events[k])
    && (forall i | 0 <= i < |s.slots| && s.slots[i].chair.called && s.slots[i].chair.seat.Taken?
        && Release !in For(s.outbox, i) ::
          ModelDone(s.slots[i].chair.seat.m) in s.events)
  }

  ghost predicate Answered(s: System, m: ModelId) {
    && m in s.ctl.running && s.ctl.running[m].slot < |s.slots|
    && s.slots[s.ctl.running[m].slot].chair.called
    && Release !in For(s.outbox, s.ctl.running[m].slot)
  }

  ghost predicate SystemOk(s: System) {
    && !s.broken && Orderly(s.ctl) && s.ctl.n == |s.slots|
    && (forall i | 0 <= i < |s.slots| :: SeatOk(s, i))
    && ToSlots(s.outbox, |s.slots|)
    && DoneOk(s)
  }

  // ----- calls and the commands they become -----

  lemma {:induction false} ForAppend(a: seq<SwapScheduling.Call>, b: seq<SwapScheduling.Call>, i: nat)
    ensures For(a + b, i) == For(a, i) + For(b, i)
    decreases |a|
  {
    if a == [] {
      assert a + b == b;
    } else {
      assert (a + b)[1..] == a[1..] + b;
      ForAppend(a[1..], b, i);
    }
  }

  lemma {:induction false} ForMembers(calls: seq<SwapScheduling.Call>, i: nat, command: Command)
    ensures command in For(calls, i) <==>
      exists call :: call in calls && !call.NotifySelf? && call.slot == i && CommandOf(call) == command
    decreases |calls|
  {
    if calls != [] {
      ForMembers(calls[1..], i, command);
      assert forall call :: call in calls <==> call == calls[0] || call in calls[1..];
    }
  }

  lemma {:induction false} SettledAppend(chair: Chair, a: seq<Command>, b: seq<Command>)
    requires Settled(chair, a).Some?
    ensures Settled(chair, a + b) == Settled(Settled(chair, a).value, b)
    decreases |a|
  {
    if a == [] {
      assert a + b == b;
    } else {
      assert (a + b)[1..] == a[1..] + b && (a + b)[0] == a[0];
      SettledAppend(ChairAfter(chair, a[0]), a[1..], b);
    }
  }

  lemma OneCall(call: SwapScheduling.Call, i: nat)
    requires !call.NotifySelf?
    ensures For([call], i) == if call.slot == i then [CommandOf(call)] else []
  {
    assert [call][1..] == [];
  }

  lemma OneCommand(chair: Chair, command: Command)
    requires Allowed(chair, command)
    ensures Settled(chair, [command]) == Some(ChairAfter(chair, command))
  {
    assert [command][1..] == [];
  }

  // ----- what the scheduling functions mean for one slot -----

  lemma AssignSeat(c: Controller, m: ModelId, now: int, i: nat, chair: Chair) returns (after: Chair)
    requires SlotsConserved(c) && c.preempting <= SlotsInUse(c) && c.free != [] && m !in c.running
    requires Matches(c, false, i, chair)
    ensures Settled(chair, For(AssignToFreeSlot(c, m, now).calls, i)) == Some(after)
    ensures Matches(AssignToFreeSlot(c, m, now).after, false, i, after)
  {
    var slot := c.free[|c.free| - 1];
    assert slot in c.free;
    AssignConserves(c, m, now);
    OneCall(StartModel(slot, m), i);
    if i == slot {
      OneCommand(chair, Start(m));
      after := ChairAfter(chair, Start(m));
    } else {
      after := chair;
    }
  }

  lemma VacateSeat(c: Controller, m: ModelId, i: nat, chair: Chair) returns (after: Chair)
    requires SlotsConserved(c) && m in c.running && (c.running[m].slot == i ==> chair.called)
    requires Matches(c, false, i, chair)
    ensures Settled(chair, For([ReleaseSlot(c.running[m].slot)], i)) == Some(after)
    ensures Matches(Vacated(c, m), false, i, after)
  {
    var slot := c.running[m].slot;
    VacateConserves(c, m);
    OneCall(ReleaseSlot(slot), i);
    if i == slot {
      assert slot in SlotsInUse(c);
      OneCommand(chair, Release);
      after := ChairAfter(chair, Release);
    } else {
      after := chair;
    }
  }

  lemma PreemptSeat(c: Controller, victim: nat, i: nat, chair: Chair) returns (after: Chair)
    requires SlotsConserved(c) && (PreemptionDue(c) ==> LeastRecentlyUsed(c, victim))
    requires Matches(c, false, i, chair)
    ensures Settled(chair, For(RequestPreemption(c, victim).calls, i)) == Some(after)
    ensures Matches(RequestPreemption(c, victim).after, false, i, after)
  {
    after := chair;
    var c' := RequestPreemption(c, victim).after;
    assert SlotsInUse(c') == SlotsInUse(c);
    if PreemptionDue(c) {
      OneCall(StopModel(victim), i);
      if i == victim {
        assert victim in SlotsInUse(c);
        OneCommand(chair, Stop);
        after := ChairAfter(chair, Stop);
      }
    }
  }

  lemma {:induction false} ForNone(calls: seq<SwapScheduling.Call>, i: nat)
    requires forall call | call in calls :: call.NotifySelf? || call.slot != i
    ensures For(calls, i) == []
    decreases |calls|
  {
    if calls != [] {
      assert calls[0] in calls;
      ForNone(calls[1..], i);
    }
  }

  lemma {:induction false} ForOne(calls: seq<SwapScheduling.Call>, i: nat, k: nat)
    requires k < |calls| && !calls[k].NotifySelf? && calls[k].slot == i
    requires forall j | 0 <= j < |calls| && j != k :: calls[j].NotifySelf? || calls[j].slot != i
    ensures For(calls, i) == [CommandOf(calls[k])]
    decreases |calls|
  {
    if k == 0 {
      ForNone(calls[1..], i);
    } else {
      assert calls[0].NotifySelf? || calls[0].slot != i;
      ForOne(calls[1..], i, k - 1);
    }
  }

  lemma StopsSeat(c: Controller, order: seq<nat>, i: nat, chair: Chair) returns (after: Chair)
    requires StopsRemaining(c) && StopOrder(c, order) && Matches(c, false, i, chair)
    ensures Settled(chair, For(AtLoopHead(c, order).calls, i)) == Some(after)
    ensures Matches(AtLoopHead(c, order).after, false, i, after)
  {
    var c', calls := AtLoopHead(c, order).after, StopCalls(order);
    assert SlotsInUse(c') == SlotsInUse(c);
    after := chair;
    if i in order {
      var k :| 0 <= k < |order| && order[k] == i;
      assert calls[k] == StopModel(i);
      ForOne(calls, i, k);
      OneCommand(chair, Stop);
      after := ChairAfter(chair, Stop);
    } else {
      ForNone(calls, i);
    }
  }

  lemma ClosesSeat(c: Controller, order: seq<nat>, i: nat, chair: Chair) returns (after: Chair)
    requires Leaving(c) && i < c.n && Matches(c, false, i, chair)
    ensures Settled(chair, For(AtLoopHead(c, order).calls, i)) == Some(after)
    ensures Matches(AtLoopHead(c, order).after, true, i, after)
  {
    var calls := CloseCalls(c.n);
    ForOne(calls, i, i);
    OneCommand(chair, Close);
    after := ChairAfter(chair, Close);
  }

  lemma LoopHeadSeat(c: Controller, order: seq<nat>, i: nat, chair: Chair) returns (after: Chair)
    requires i < c.n && (StopsRemaining(c) ==> StopOrder(c, order)) && Matches(c, false, i, chair)
    ensures Settled(chair, For(AtLoopHead(c, order).calls, i)) == Some(after)
    ensures Matches(AtLoopHead(c, order).after, Leaving(c), i, after)
  {
    if Leaving(c) {
      after := ClosesSeat(c, order, i, chair);
    } else if StopsRemaining(c) {
      after := StopsSeat(c, order, i, chair);
    } else {
      after := chair;
    }
  }

  /** Two reactions in a row. */
  lemma SeatThen(a: seq<SwapScheduling.Call>, b: seq<SwapScheduling.Call>, i: nat, chair: Chair, middle: Chair,
                 after: Chair)
    requires Settled(chair, For(a, i)) == Some(middle) && Settled(middle, For(b, i)) == Some(after)
    ensures Settled(chair, For(a + b, i)) == Some(after)
  {
    ForAppend(a, b, i);
    SettledAppend(chair, For(a, i), For(b, i));
  }

  lemma NewInputSeat(c: Controller, m: ModelId, choice: Choice, i: nat, chair: Chair) returns (after: Chair)
    requires Orderly(c) && Possible(c, NewInput(m), choice) && Matches(c, false, i, chair)
    ensures Settled(chair, For(OnNewInput(c, m, choice).calls, i)) == Some(after)
    ensures Matches(OnNewInput(c, m, choice).after, false, i, after)
  {
    after := chair;
    if m in c.running {
      TouchKeepsSlots(c, m, choice.now);
    } else if m !in c.waiting {
      if c.free != [] {
        after := AssignSeat(c, m, choice.now, i, chair);
      } else {
        var longer := c.(waiting := c.waiting + [m]);
        assert SlotsInUse(longer) == SlotsInUse(c);
        after := PreemptSeat(longer, choice.victim, i, chair);
      }
    }
  }

  lemma RefillSeat(c: Controller, now: int, i: nat, chair: Chair) returns (after: Chair)
    requires SlotsConserved(c) && c.preempting <= SlotsInUse(c) && c.free != [] && c.waiting != []
    requires c.waiting[0] !in c.running && Matches(c, false, i, chair)
    ensures Settled(chair, For(StartNextWaiting(c, now).calls, i)) == Some(after)
    ensures Matches(StartNextWaiting(c, now).after, false, i, after)
  {
    var shorter := c.(waiting := c.waiting[1..]);
    assert SlotsInUse(shorter) == SlotsInUse(c);
    after := AssignSeat(shorter, c.waiting[0], now, i, chair);
  }

  lemma ReleaseSeat(c: Controller, m: ModelId, more: bool, i: nat, chair: Chair) returns (after: Chair)
    requires SlotsConserved(c) && m in c.running && (c.running[m].slot == i ==> chair.called)
    requires Matches(c, false, i, chair)
    ensures
      var calls := [ReleaseSlot(c.running[m].slot)] + (if more then [NotifySelf(m)] else []);
      Settled(chair, For(calls, i)) == Some(after)
    ensures Matches(Vacated(c, m), false, i, after)
  {
    after := VacateSeat(c, m, i, chair);
    if more {
      ForNone([NotifySelf(m)], i);
      SeatThen([ReleaseSlot(c.running[m].slot)], [NotifySelf(m)], i, chair, after, after);
    }
  }

  lemma DoneSeat(c: Controller, m: ModelId, choice: Choice, i: nat, chair: Chair) returns (after: Chair)
    requires Orderly(c) && m in c.running && Possible(c, ModelDone(m), choice) && Matches(c, false, i, chair)
    requires c.running[m].slot == i ==> chair.called
    ensures Settled(chair, For(OnModelDone(c, m, choice).calls, i)) == Some(after)
    ensures Matches(OnModelDone(c, m, choice).after, false, i, after)
  {
    var vacated := Vacated(c, m);
    var calls := [ReleaseSlot(c.running[m].slot)] + (if choice.more then [NotifySelf(m)] else []);
    var empty := ReleaseSeat(c, m, choice.more, i, chair);
    after := empty;
    if c.waiting != [] {
      VacateConserves(c, m);
      assert c.waiting[0] in c.waiting;
      var started := StartNextWaiting(vacated, choice.now);
      var full := RefillSeat(vacated, choice.now, i, empty);
      RefilledOk(c, m, choice.now);
      after := PreemptSeat(started.after, choice.victim, i, full);
      SeatThen(calls, started.calls, i, chair, empty, full);
      SeatThen(calls + started.calls, RequestPreemption(started.after, choice.victim).calls, i, chair, full, after);
    }
  }

  lemma ReactSeat(c: Controller, event: Event, choice: Choice, i: nat, chair: Chair) returns (after: Chair)
    requires Orderly(c) && (event.ModelDone? ==> event.m in c.running) && Possible(c, event, choice)
    requires Matches(c, false, i, chair)
    requires event.ModelDone? && c.running[event.m].slot == i ==> chair.called
    ensures Settled(chair, For(React(c, event, choice).calls, i)) == Some(after)
    ensures Matches(React(c, event, choice).after, false, i, after)
  {
    match event
    case NewInput(m) => after := NewInputSeat(c, m, choice, i, chair);
    case ModelDone(m) => after := DoneSeat(c, m, choice, i, chair);
    case StopLoop =>
      after := chair;
      assert SlotsInUse(React(c, event, choice).after) == SlotsInUse(c);
  }

  /** What one turn of the controller asks of a slot is allowed, and leaves the slot as the controller believes. */
  lemma TurnSeat(c: Controller, o: Occurrence, i: nat, chair: Chair) returns (after: Chair)
    requires Orderly(c) && Turns(c, [o]) && i < c.n && Matches(c, false, i, chair)
    requires o.event.ModelDone? && c.running[o.event.m].slot == i ==> chair.called
    ensures Settled(chair, For(Turn(c, o).calls, i)) == Some(after)
    ensures Matches(Turn(c, o).after, Leaving(Turn(c, o).after), i, after)
  {
    var reaction := React(c, o.event, o.choice);
    ReactKeepsSlots(c, o.event, o.choice);
    var middle := ReactSeat(c, o.event, o.choice, i, chair);
    after := LoopHeadSeat(reaction.after, o.order, i, middle);
    SeatThen(reaction.calls, AtLoopHead(reaction.after, o.order).calls, i, chair, middle, after);
  }

  lemma ReactKeepsSlots(c: Controller, event: Event, choice: Choice)
    requires event.ModelDone? ==> event.m in c.running
    ensures React(c, event, choice).after.n == c.n
  {
  }

  // ----- every step keeps the invariant -----

  lemma QueueMore(s: System, event: Event)
    requires SystemOk(s) && !event.ModelDone?
    ensures SystemOk(s.(events := s.events + [event]))
  {
    var s' := s.(events := s.events + [event]);
    assert forall i | 0 <= i < |s.slots| && SeatOk(s, i) :: SeatOk(s', i);
    assert forall m | Answered(s, m) :: Answered(s', m);
  }

  /** Issuing a call to a slot keeps that slot in order; the others do not notice. */
  lemma IssueSeat(s: System, i: nat)
    requires s.outbox != [] && ToSlot(s.outbox[0], |s.slots|) && i < |s.slots| && SeatOk(s, i)
    requires s.outbox[0].slot < |s.slots| && SeatOk(s, s.outbox[0].slot)
    ensures SeatOk(IssueCall(s), i)
  {
    if i == s.outbox[0].slot {
      CallKeeps(s.slots[i], CommandOf(s.outbox[0]));
    }
  }

  lemma IssueChair(s: System, i: nat)
    requires s.outbox != [] && ToSlot(s.outbox[0], |s.slots|) && i < |s.slots| && SeatOk(s, i)
    ensures Release in For(IssueCall(s).outbox, i) ==> Release in For(s.outbox, i)
    ensures Release !in For(s.outbox, i) ==> IssueCall(s).slots[i].chair.called == s.slots[i].chair.called
    ensures IssueCall(s).slots[i].chair.called && Release !in For(IssueCall(s).outbox, i) ==>
              s.slots[i].chair.called && Release !in For(s.outbox, i)
    ensures
      var seat, seat' := s.slots[i].chair.seat, IssueCall(s).slots[i].chair.seat;
      IssueCall(s).slots[i].chair.called && Release !in For(IssueCall(s).outbox, i) && seat.Taken? ==>
        seat'.Taken? && seat'.m == seat.m
  {
  }

  lemma IssueDone(s: System)
    requires SystemOk(s) && s.outbox != [] && ToSlot(s.outbox[0], |s.slots|)
    ensures DoneOk(IssueCall(s))
  {
    var s' := IssueCall(s);
    forall m | Answered(s, m)
      ensures Answered(s', m)
    {
      IssueChair(s, s.ctl.running[m].slot);
    }
    forall i | 0 <= i < |s.slots| && s'.slots[i].chair.called && s'.slots[i].chair.seat.Taken?
        && Release !in For(s'.outbox, i)
      ensures ModelDone(s'.slots[i].chair.seat.m) in s'.events
    {
      IssueChair(s, i);
      CalledTaken(s.slots[i]);
    }
  }

  lemma CalledTaken(s: Slot)
    requires SlotOk(s) && s.chair.called
    ensures s.chair.seat.Taken?
  {
  }

  lemma IssueKeeps(s: System)
    requires SystemOk(s) && s.outbox != []
    ensures SystemOk(IssueCall(s))
  {
    var s' := IssueCall(s);
    assert s.outbox[0] in s.outbox;
    if s.outbox[0].NotifySelf? {
      var shorter := s.(outbox := s.outbox[1..]);
      assert forall i: nat :: For(s.outbox, i) == For(shorter.outbox, i);
      assert forall i | 0 <= i < |s.slots| && SeatOk(s, i) :: SeatOk(shorter, i);
      assert forall m | Answered(s, m) :: Answered(shorter, m);
      QueueMore(shorter, NewInput(s.outbox[0].m));
    } else {
      forall i | 0 <= i < |s.slots|
        ensures SeatOk(s', i)
      {
        IssueSeat(s, i);
      }
      IssueDone(s);
    }
  }

  /** Before the callback only a stop can be on its way to a running slot. */
  lemma BeforeCallback(chair: Chair, commands: seq<Command>)
    requires chair.seat.Taken? && !chair.called && Settled(chair, commands).Some?
    ensures Release !in commands
    ensures Settled(chair, commands).value.seat.Taken? && Settled(chair, commands).value.seat.m == chair.seat.m
    ensures Settled(chair.(called := true), commands) == Some(Settled(chair, commands).value.(called := true))
  {
    if commands != [] {
      assert commands[0] == Stop;
      assert commands[1..] == [];
      assert commands == [Stop];
    }
  }

  lemma AgentSeat(s: System, i: nat, a: SlotStep)
    requires i < |s.slots| && SeatOk(s, i) && !a.Call? && CanSlotStep(s.slots[i], a)
    ensures SeatOk(AgentStep(s, i, a), i)
    ensures !a.Join? ==> SlotNext(s.slots[i], a).chair == s.slots[i].chair
  {
    SlotStepKeeps(s.slots[i], a);
    if a.Join? {
      JoinedChair(s.slots[i]);
      BeforeCallback(s.slots[i].chair, For(s.outbox, i));
    }
  }

  lemma JoinedChair(s: Slot)
    requires SlotOk(s) && CanJoin(s)
    ensures s.agent.callback && s.chair.seat.Taken? && s.chair.seat.m == s.agent.m && !s.chair.called
    ensures Joined(s).chair == s.chair.(called := true)
  {
  }

  lemma JoinDone(s: System, i: nat)
    requires SystemOk(s) && i < |s.slots| && CanJoin(s.slots[i])
    ensures DoneOk(AgentStep(s, i, Join))
  {
    var s', m := AgentStep(s, i, Join), s.slots[i].agent.m;
    assert SeatOk(s, i);
    JoinedChair(s.slots[i]);
    BeforeCallback(s.slots[i].chair, For(s.outbox, i));
    assert m in s.ctl.running && s.ctl.running[m].slot == i;
    assert !Answered(s, m);
    assert forall other | Answered(s, other) :: Answered(s', other);
    OneMoreDone(s, s', i, m);
  }

  lemma OneMoreDone(s: System, s': System, i: nat, m: ModelId)
    requires DoneOk(s) && !Answered(s, m) && Answered(s', m) && forall other | Answered(s, other) :: Answered(s', other)
    requires s'.events == s.events + [ModelDone(m)] && s'.outbox == s.outbox
    requires i < |s.slots| == |s'.slots| && forall j | 0 <= j < |s.slots| && j != i :: s'.slots[j] == s.slots[j]
    requires s'.slots[i].chair.seat.Taken? ==> s'.slots[i].chair.seat.m == m
    ensures DoneOk(s')
  {
    assert forall j | 0 <= j < |s.events| :: s'.events[j] == s.events[j];
  }

  lemma AgentKeeps(s: System, i: nat, a: SlotStep)
    requires SystemOk(s) && i < |s.slots| && !a.Call? && CanSlotStep(s.slots[i], a)
    ensures SystemOk(AgentStep(s, i, a))
  {
    var s' := AgentStep(s, i, a);
    AgentSeat(s, i, a);
    forall j | 0 <= j < |s.slots|
      ensures SeatOk(s', j)
    {
      assert SeatOk(s, j);
    }
    if a.Join? {
      JoinDone(s, i);
    } else {
      assert forall m | Answered(s, m) :: Answered(s', m);
    }
  }

  lemma HeadEvent(s: System)
    requires SystemOk(s) && s.events != [] && s.events[0].ModelDone?
    ensures Answered(s, s.events[0].m)
    ensures forall j | 1 <= j < |s.events| :: s.events[j] != s.events[0]
  {
  }

  lemma HandleSeat(s: System, choice: Choice, order: seq<nat>, i: nat)
    requires SystemOk(s) && CanHandle(s, choice, order) && i < |s.slots|
    ensures SeatOk(HandleEvent(s, choice, order), i)
  {
    assert SeatOk(s, i);
    var event, chair := s.events[0], s.slots[i].chair;
    if event.ModelDone? {
      HeadEvent(s);
    }
    var after := TurnSeat(s.ctl, Occurrence(event, choice, order), i, chair);
  }

  predicate Releases(calls: seq<SwapScheduling.Call>, i: nat) { ReleaseSlot(i) in calls }

  lemma ReactReleases(c: Controller, event: Event, choice: Choice, i: nat)
    requires event.ModelDone? ==> event.m in c.running
    ensures Releases(React(c, event, choice).calls, i) <==> event.ModelDone? && c.running[event.m].slot == i
  {
    match event
    case NewInput(m) => NewInputReleases(c, m, choice, i);
    case ModelDone(m) => DoneReleases(c, m, choice, i);
    case StopLoop =>
  }

  lemma NewInputReleases(c: Controller, m: ModelId, choice: Choice, i: nat)
    ensures !Releases(OnNewInput(c, m, choice).calls, i)
  {
  }

  lemma DoneReleases(c: Controller, m: ModelId, choice: Choice, i: nat)
    requires m in c.running
    ensures Releases(OnModelDone(c, m, choice).calls, i) <==> c.running[m].slot == i
  {
    assert OnModelDone(c, m, choice).calls[0] == ReleaseSlot(c.running[m].slot);
  }

  /** A turn releases exactly the slot of the model that finished. */
  lemma TurnReleases(c: Controller, o: Occurrence, i: nat)
    requires o.event.ModelDone? ==> o.event.m in c.running
    ensures Release in For(Turn(c, o).calls, i) <==> o.event.ModelDone? && c.running[o.event.m].slot == i
  {
    var reaction := React(c, o.event, o.choice);
    var head := AtLoopHead(reaction.after, o.order);
    ReactReleases(c, o.event, o.choice, i);
    assert !Releases(head.calls, i);
    ForMembers(Turn(c, o).calls, i, Release);
    assert Releases(Turn(c, o).calls, i) <==> Releases(reaction.calls, i);
    assert CommandOf(ReleaseSlot(i)) == Release;
  }

  lemma TurnKeepsRunning(c: Controller, o: Occurrence, m: ModelId)
    requires (o.event.ModelDone? ==> o.event.m in c.running && o.event.m != m) && m in c.running
    ensures m in Turn(c, o).after.running && (m !in c.waiting ==> Turn(c, o).after.running[m].slot == c.running[m].slot)
  {
    LoopHeadKeepsModels(React(c, o.event, o.choice).after, o.order);
    match o.event
    case NewInput(n) => NewInputKeepsRunning(c, n, o.choice, m);
    case ModelDone(d) => DoneKeepsRunning(c, d, o.choice, m);
    case StopLoop =>
  }

  lemma NewInputKeepsRunning(c: Controller, n: ModelId, choice: Choice, m: ModelId)
    requires m in c.running
    ensures
      var running := OnNewInput(c, n, choice).after.running;
      m in running && running[m].slot == c.running[m].slot
  {
  }

  lemma DoneKeepsRunning(c: Controller, d: ModelId, choice: Choice, m: ModelId)
    requires d in c.running && m in c.running && d != m
    ensures
      var running := OnModelDone(c, d, choice).after.running;
      m in running && (m !in c.waiting ==> running[m].slot == c.running[m].slot)
  {
  }

  lemma HandleDone(s: System, choice: Choice, order: seq<nat>)
    requires SystemOk(s) && CanHandle(s, choice, order)
    ensures DoneOk(HandleEvent(s, choice, order))
  {
    var s', o := HandleEvent(s, choice, order), Occurrence(s.events[0], choice, order);
    if o.event.ModelDone? {
      HeadEvent(s);
    }
    forall m | Answered(s, m) && s.events[0] != ModelDone(m)
      ensures Answered(s', m)
    {
      assert m !in s.ctl.waiting;
      TurnKeepsRunning(s.ctl, o, m);
      TurnReleases(s.ctl, o, s.ctl.running[m].slot);
    }
    forall i | 0 <= i < |s.slots| && s'.slots[i].chair.called && s'.slots[i].chair.seat.Taken?
        && Release !in For(s'.outbox, i)
      ensures ModelDone(s'.slots[i].chair.seat.m) in s'.events
    {
      TurnReleases(s.ctl, o, i);
      assert SeatOk(s, i);
      assert ModelDone(s.slots[i].chair.seat.m) in s.events;
    }
  }

  ghost predicate ToSlots(calls: seq<SwapScheduling.Call>, n: nat) {
    forall call | call in calls :: call.NotifySelf? || call.slot < n
  }

  lemma NewInputCallsSlots(c: Controller, m: ModelId, choice: Choice)
    requires Orderly(c) && Possible(c, NewInput(m), choice)
    ensures ToSlots(OnNewInput(c, m, choice).calls, c.n)
  {
    if c.free != [] {
      assert c.free[|c.free| - 1] in c.free;
    }
  }

  lemma PreemptCallsSlots(c: Controller, victim: nat)
    requires SlotsConserved(c) && (PreemptionDue(c) ==> LeastRecentlyUsed(c, victim))
    ensures ToSlots(RequestPreemption(c, victim).calls, c.n)
  {
  }

  lemma RefillCallsSlots(c: Controller, now: int)
    requires SlotsConserved(c) && c.free != [] && c.waiting != []
    ensures ToSlots(StartNextWaiting(c, now).calls, c.n)
  {
    assert c.free[|c.free| - 1] in c.free;
  }

  lemma AllToSlots(a: seq<SwapScheduling.Call>, b: seq<SwapScheduling.Call>, d: seq<SwapScheduling.Call>, n: nat)
    requires ToSlots(a, n) && ToSlots(b, n) && ToSlots(d, n)
    ensures ToSlots(a + b + d, n)
  {
  }

  lemma DoneCallsSlots(c: Controller, m: ModelId, choice: Choice)
    requires Orderly(c) && m in c.running && Possible(c, ModelDone(m), choice)
    ensures ToSlots(OnModelDone(c, m, choice).calls, c.n)
  {
    if c.waiting == [] {
      ReleaseCallsSlot(c.running[m].slot, m, choice.more, c.n);
    } else {
      VacateConserves(c, m);
      RefilledOk(c, m, choice.now);
      DoneWaitingCallsSlots(c, m, choice);
    }
  }

  lemma ReleaseCallsSlot(slot: nat, m: ModelId, more: bool, n: nat)
    requires slot < n
    ensures ToSlots([ReleaseSlot(slot)] + (if more then [NotifySelf(m)] else []), n)
  {
  }

  lemma DoneWaitingCallsSlots(c: Controller, m: ModelId, choice: Choice)
    requires m in c.running && c.running[m].slot < c.n && c.waiting != []
    requires SlotsConserved(Vacated(c, m)) && SlotsConserved(Refilled(c, m, choice.now))
    requires PreemptionDue(Refilled(c, m, choice.now)) ==> LeastRecentlyUsed(Refilled(c, m, choice.now), choice.victim)
    ensures ToSlots(OnModelDone(c, m, choice).calls, c.n)
  {
    var calls := [ReleaseSlot(c.running[m].slot)] + (if choice.more then [NotifySelf(m)] else []);
    ReleaseCallsSlot(c.running[m].slot, m, choice.more, c.n);
    RefillingCallsSlots(Vacated(c, m), calls, choice);
  }

  lemma RefillingCallsSlots(c: Controller, calls: seq<SwapScheduling.Call>, choice: Choice)
    requires SlotsConserved(c) && c.free != [] && c.waiting != [] && ToSlots(calls, c.n)
    requires
      var started := StartNextWaiting(c, choice.now);
      SlotsConserved(started.after) && (PreemptionDue(started.after) ==>
          LeastRecentlyUsed(started.after, choice.victim))
    ensures
      var started := StartNextWaiting(c, choice.now);
      ToSlots(calls + started.calls + RequestPreemption(started.after, choice.victim).calls, c.n)
  {
    var started := StartNextWaiting(c, choice.now);
    RefillCallsSlots(c, choice.now);
    PreemptCallsSlots(started.after, choice.victim);
    AllToSlots(calls, started.calls, RequestPreemption(started.after, choice.victim).calls, c.n);
  }

  lemma HeadCallsSlots(c: Controller, order: seq<nat>)
    requires Orderly(c) && (StopsRemaining(c) ==> StopOrder(c, order))
    ensures ToSlots(AtLoopHead(c, order).calls, c.n)
  {
    if StopsRemaining(c) {
      assert forall i | 0 <= i < |order| :: order[i] in order;
    }
  }

  lemma TurnCallsSlots(c: Controller, o: Occurrence)
    requires Orderly(c) && Turns(c, [o])
    ensures ToSlots(Turn(c, o).calls, c.n)
  {
    ReactKeepsSlots(c, o.event, o.choice);
    EventKeepsOrder(c, o.event, o.choice);
    match o.event {
      case NewInput(m) => NewInputCallsSlots(c, m, o.choice);
      case ModelDone(m) => DoneCallsSlots(c, m, o.choice);
      case StopLoop =>
    }
    HeadCallsSlots(React(c, o.event, o.choice).after, o.order);
  }

  lemma HandleKeeps(s: System, choice: Choice, order: seq<nat>)
    requires SystemOk(s) && CanHandle(s, choice, order)
    ensures SystemOk(HandleEvent(s, choice, order))
  {
    var s', o := HandleEvent(s, choice, order), Occurrence(s.events[0], choice, order);
    if o.event.ModelDone? {
      HeadEvent(s);
    }
    TurnKeepsOrder(s.ctl, o);
    TurnCallsSlots(s.ctl, o);
    ReactKeepsSlots(s.ctl, o.event, choice);
    forall i | 0 <= i < |s.slots|
      ensures SeatOk(s', i)
    {
      HandleSeat(s, choice, order, i);
    }
    HandleDone(s, choice, order);
  }

  lemma StepKeeps(s: System, step: Step)
    requires SystemOk(s)
    ensures SystemOk(Next(s, step))
  {
    if CanStep(s, step) {
      match step
      case Notified(m) => QueueMore(s, NewInput(m));
      case StopRequested => QueueMore(s, StopLoop);
      case Handle(choice, order) => HandleKeeps(s, choice, order);
      case Issue => IssueKeeps(s);
      case Agent(i, a) => AgentKeeps(s, i, a);
    }
  }

  lemma NewSystemOk(n: nat)
    requires n > 0
    ensures SystemOk(NewSystem(n))
  {
    NewControllerOrderly(n);
    assert SlotsInUse(NewController(n)) == {};
    assert forall i | 0 <= i < n :: SeatOk(NewSystem(n), i);
  }

  lemma {:induction false} RunKeeps(s: System, steps: seq<Step>)
    requires SystemOk(s)
    ensures SystemOk(Run(s, steps))
    decreases |steps|
  {
    if steps != [] {
      RunKeeps(s, steps[..|steps| - 1]);
      StepKeeps(Run(s, steps[..|steps| - 1]), steps[|steps| - 1]);
    }
  }

  // ----- what follows -----

  /** No assertion of the controller or of an agent has failed, and each agent's handshake is in order. */
  ghost predicate HandshakesHold(s: System) {
    !s.broken && forall i | 0 <= i < |s.slots| :: HandshakeHolds(s.slots[i])
  }

  /** At most one slot has a live runner for a model. */
  ghost predicate OneRunnerPerModel(s: System) {
    forall i, j | 0 <= i < j < |s.slots| && LiveRunner(s.slots[i]) && LiveRunner(s.slots[j]) ::
      s.slots[i].agent.m != s.slots[j].agent.m
  }

  predicate LiveRunner(s: Slot) { s.agent.Busy? && s.agent.runner.Running? }

  lemma LiveRunnerIsRunning(s: System, i: nat)
    requires i < |s.slots| && SeatOk(s, i) && LiveRunner(s.slots[i])
    ensures s.slots[i].agent.m in s.ctl.running && s.ctl.running[s.slots[i].agent.m].slot == i
  {
    BeforeCallback(s.slots[i].chair, For(s.outbox, i));
  }

  /** The controller and its agents, over every interleaving, from start-up on. */
  lemma ControllerAndAgents(n: nat, steps: seq<Step>)
    requires n > 0
    ensures HandshakesHold(Run(NewSystem(n), steps))
    ensures OneRunnerPerModel(Run(NewSystem(n), steps))
    ensures Orderly(Run(NewSystem(n), steps).ctl)
  {
    var s := Run(NewSystem(n), steps);
    NewSystemOk(n);
    RunKeeps(NewSystem(n), steps);
    forall i | 0 <= i < |s.slots|
      ensures HandshakeHolds(s.slots[i])
      ensures LiveRunner(s.slots[i]) ==>
        s.slots[i].agent.m in s.ctl.running && s.ctl.running[s.slots[i].agent.m].slot == i
    {
      assert SeatOk(s, i);
      HandshakeInvariant(s.slots[i]);
      if LiveRunner(s.slots[i]) {
        LiveRunnerIsRunning(s, i);
      }
    }
  }
}
