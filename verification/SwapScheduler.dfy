/**
 * The scheduling decisions of the swap controller: which model gets which slot, who waits, and
 * which running model must make room. One function per event handler; calls lists what the
 * handler asks of the slot agents and of itself, in order.
 */
module SwapScheduling {
  import opened Basics
  import opened CheckpointDisk

  /** A running model: its slot, and when it last started or got new input. */
  datatype RunningModel = RunningModel(slot: nat, stamp: int)

  datatype Controller = Controller(n: nat, waiting: seq<ModelId>, running: map<ModelId, RunningModel>, free: seq<nat>,
                                   preempting: set<nat>, stopping: bool, stopSent: bool)

  datatype Event = NewInput(m: ModelId) | ModelDone(m: ModelId) | StopLoop

  datatype Call =
    | StartModel(slot: nat, m: ModelId)
    | StopModel(slot: nat)
    | ReleaseSlot(slot: nat)
    | CloseSlot(slot: nat)
    | NotifySelf(m: ModelId)

  datatype Reaction = Reaction(after: Controller, calls: seq<Call>)

  /** What a handler cannot compute: the time, who wins a tie for least recently used, and whether input is left. */
  datatype Choice = Choice(now: int, victim: nat, more: bool)

  function AllSlots(n: nat): (slots: set<nat>)
    ensures forall s: nat :: s in slots <==> s < n
    ensures |slots| == n
  {
    if n == 0 then {} else AllSlots(n - 1) + {n - 1}
  }

  function SlotsInUse(c: Controller): set<nat> { set m | m in c.running :: c.running[m].slot }

  predicate IdleModel(c: Controller, m: ModelId) { m !in c.running && m !in c.waiting }

  function AssignToFreeSlot(c: Controller, m: ModelId, now: int): Reaction
    requires c.free != []
  {
    var slot := c.free[|c.free| - 1];
    Reaction(c.(free := c.free[..|c.free| - 1], running := c.running[m := RunningModel(slot, now)]),
        [StartModel(slot, m)])
  }

  predicate PreemptionDue(c: Controller) { |c.waiting| > |c.preempting| && |c.preempting| < c.n }

  /** victim is the slot of a running model that nobody stopped yet and that has been quiet longest. */
  ghost predicate LeastRecentlyUsed(c: Controller, victim: nat) {
    exists m :: m in c.running && QuietLongest(c, m) && c.running[m].slot == victim
  }

  ghost predicate QuietLongest(c: Controller, m: ModelId)
    requires m in c.running
  {
    && c.running[m].slot !in c.preempting
    && forall other | other in c.running && c.running[other].slot !in c.preempting ::
         c.running[m].stamp <= c.running[other].stamp
  }

  function RequestPreemption(c: Controller, victim: nat): Reaction {
    if PreemptionDue(c) then Reaction(c.(preempting := c.preempting + {victim}), [StopModel(victim)])
    else Reaction(c, [])
  }

  function OnNewInput(c: Controller, m: ModelId, choice: Choice): Reaction {
    if m in c.running then Reaction(c.(running := c.running[m := c.running[m].(stamp := choice.now)]), [])
    else if m in c.waiting then Reaction(c, [])
    else if c.free != [] then AssignToFreeSlot(c, m, choice.now)
    else RequestPreemption(c.(waiting := c.waiting + [m]), choice.victim)
  }

  /** The slot of a finished model is free again. */
  function Vacated(c: Controller, m: ModelId): Controller
    requires m in c.running
  {
    var slot := c.running[m].slot;
    c.(running := c.running - {m}, free := c.free + [slot], preempting := c.preempting - {slot})
  }

  /** The head of the waiting list takes the last freed slot. */
  function StartNextWaiting(c: Controller, now: int): Reaction
    requires c.free != [] && c.waiting != []
  {
    AssignToFreeSlot(c.(waiting := c.waiting[1..]), c.waiting[0], now)
  }

  function OnModelDone(c: Controller, m: ModelId, choice: Choice): Reaction
    requires m in c.running
  {
    var vacated := Vacated(c, m);
    var calls := [ReleaseSlot(c.running[m].slot)] + (if choice.more then [NotifySelf(m)] else []);
    if c.waiting == [] then Reaction(vacated, calls)
    else
      var started := StartNextWaiting(vacated, choice.now);
      var preempted := RequestPreemption(started.after, choice.victim);
      Reaction(preempted.after, calls + started.calls + preempted.calls)
  }

  function React(c: Controller, event: Event, choice: Choice): Reaction
    requires event.ModelDone? ==> event.m in c.running
  {
    match event
    case NewInput(m) => OnNewInput(c, m, choice)
    case ModelDone(m) => OnModelDone(c, m, choice)
    case StopLoop => Reaction(c.(stopping := true), [])
  }

  // ----- the head of the event loop -----

  predicate Leaving(c: Controller) { c.stopping && c.running == map[] && c.waiting == [] }

  predicate StopsRemaining(c: Controller) { c.stopping && !Leaving(c) && c.waiting == [] && !c.stopSent }

  /** order lists each running slot that nobody stopped yet, once. */
  ghost predicate StopOrder(c: Controller, order: seq<nat>) {
    && (forall i, j | 0 <= i < j < |order| :: order[i] != order[j])
    && (forall s: nat :: s in order <==> s in SlotsInUse(c) && s !in c.preempting)
  }

  function StopCalls(order: seq<nat>): (calls: seq<Call>)
    ensures |calls| == |order| && forall i | 0 <= i < |order| :: calls[i] == StopModel(order[i])
  {
    seq(|order|, i requires 0 <= i < |order| => StopModel(order[i]))
  }

  function CloseCalls(n: nat): (calls: seq<Call>)
    ensures |calls| == n && forall i | 0 <= i < n :: calls[i] == CloseSlot(i)
  {
    seq(n, (i: nat) requires i < n => CloseSlot(i))
  }

  function AtLoopHead(c: Controller, order: seq<nat>): Reaction {
    if Leaving(c) then Reaction(c, CloseCalls(c.n))
    else if StopsRemaining(c)
    then Reaction(c.(preempting := c.preempting + (set s | s in order), stopSent := true), StopCalls(order))
    else Reaction(c, [])
  }

  function NewController(n: nat): Controller {
    Controller(n, [], map[], seq(n, (i: nat) => i), {}, false, false)
  }

  // ----- what every event keeps -----

  /** free lists, once each, the slots below n that are not in use. */
  ghost predicate FreeOk(free: seq<nat>, n: nat, inUse: set<nat>) {
    && (forall i, j | 0 <= i < j < |free| :: free[i] != free[j])
    && (forall s: nat :: s in free <==> s < n && s !in inUse)
  }

  /** No two models run in the same slot. */
  ghost predicate RunningOk(running: map<ModelId, RunningModel>, n: nat) {
    && (forall m, m' | m in running && m' in running && m != m' :: running[m].slot != running[m'].slot)
    && (forall m | m in running :: running[m].slot < n)
  }

  /** Free slots and the slots of running models partition all slots. */
  ghost predicate SlotsConserved(c: Controller) {
    |c.running| + |c.free| == c.n && FreeOk(c.free, c.n, SlotsInUse(c)) && RunningOk(c.running, c.n)
  }

  /** Nobody waits twice, or while running, or while a slot is free. */
  ghost predicate WaitingOk(c: Controller) {
    && (forall i, j | 0 <= i < j < |c.waiting| :: c.waiting[i] != c.waiting[j])
    && (forall m | m in c.waiting :: m !in c.running)
    && (c.free != [] ==> c.waiting == [])
  }

  /** Only running slots are being preempted, and enough of them for everyone who waits. */
  ghost predicate PreemptionOk(c: Controller) {
    && c.preempting <= SlotsInUse(c)
    && |c.preempting| >= Min(|c.waiting|, c.n)
  }

  ghost predicate Orderly(c: Controller) { c.n > 0 && SlotsConserved(c) && WaitingOk(c) && PreemptionOk(c) }

  lemma NewControllerOrderly(n: nat)
    requires n > 0
    ensures Orderly(NewController(n))
  {
    var free := NewController(n).free;
    assert SlotsInUse(NewController(n)) == {};
    forall s: nat
      ensures s in free <==> s < n
    {
      if s < n {
        assert free[s] == s;
      }
    }
  }

  lemma SomethingMissing(small: set<nat>, large: set<nat>) returns (x: nat)
    requires |small| < |large|
    ensures x in large && x !in small
  {
    assert |large - small| == |large| - |large * small| && |small - large| == |small| - |large * small|;
    x :| x in large - small;
  }

  /** Whenever a preemption is requested, some running slot can be picked. */
  lemma VictimExists(c: Controller) returns (victim: nat)
    requires SlotsConserved(c) && c.preempting <= SlotsInUse(c) && c.free == [] && PreemptionDue(c)
    ensures LeastRecentlyUsed(c, victim)
  {
    assert SlotsInUse(c) == AllSlots(c.n);
    var candidates := set m | m in c.running && c.running[m].slot !in c.preempting;
    var slot := SomethingMissing(c.preempting, SlotsInUse(c));
    var holder :| holder in c.running && c.running[holder].slot == slot;
    assert holder in candidates;
    var m := QuietestOf(c, candidates);
    victim := c.running[m].slot;
  }

  lemma {:induction false} QuietestOf(c: Controller, models: set<ModelId>) returns (m: ModelId)
    requires models != {} && models <= c.running.Keys
    ensures m in models && forall other | other in models :: c.running[m].stamp <= c.running[other].stamp
    decreases |models|
  {
    m :| m in models;
    if models != {m} {
      var best := QuietestOf(c, models - {m});
      if c.running[best].stamp < c.running[m].stamp {
        m := best;
      }
    }
  }

  // ----- the handlers keep the order -----

  lemma SlotsAfterStart(c: Controller, m: ModelId, r: RunningModel)
    requires m !in c.running
    ensures SlotsInUse(c.(running := c.running[m := r])) == SlotsInUse(c) + {r.slot}
  {
    var running := c.running[m := r];
    assert running[m] == r;
    assert forall other | other in c.running :: running[other] == c.running[other];
  }

  lemma SlotsAfterEnd(c: Controller, m: ModelId)
    requires m in c.running
    requires forall other | other in c.running && other != m :: c.running[other].slot != c.running[m].slot
    ensures SlotsInUse(c.(running := c.running - {m})) == SlotsInUse(c) - {c.running[m].slot}
  {
    var running := c.running - {m};
    assert forall other | other in c.running && other != m :: other in running && running[other] == c.running[other];
  }

  lemma TakeLast(free: seq<nat>, n: nat, inUse: set<nat>)
    requires free != [] && FreeOk(free, n, inUse)
    ensures
      var slot := free[|free| - 1];
      slot < n && slot !in inUse && FreeOk(free[..|free| - 1], n, inUse + {slot})
  {
    var slot, rest := free[|free| - 1], free[..|free| - 1];
    assert free == rest + [slot] && slot in free;
    assert forall i | 0 <= i < |rest| :: rest[i] == free[i];
    assert forall s: nat :: s in free <==> s in rest || s == slot;
  }

  lemma PutBack(free: seq<nat>, n: nat, inUse: set<nat>, slot: nat)
    requires FreeOk(free, n, inUse) && slot in inUse && slot < n
    ensures FreeOk(free + [slot], n, inUse - {slot})
  {
    assert slot !in free;
  }

  lemma RunningAdded(running: map<ModelId, RunningModel>, n: nat, m: ModelId, r: RunningModel)
    requires RunningOk(running, n) && m !in running && r.slot < n
    requires forall other | other in running :: running[other].slot != r.slot
    ensures RunningOk(running[m := r], n)
  {
  }

  lemma AssignConserves(c: Controller, m: ModelId, now: int)
    requires SlotsConserved(c) && c.free != [] && m !in c.running
    ensures SlotsConserved(AssignToFreeSlot(c, m, now).after)
    ensures SlotsInUse(AssignToFreeSlot(c, m, now).after) == SlotsInUse(c) + {c.free[|c.free| - 1]}
  {
    var slot, c' := c.free[|c.free| - 1], AssignToFreeSlot(c, m, now).after;
    SlotsAfterStart(c, m, RunningModel(slot, now));
    TakeLast(c.free, c.n, SlotsInUse(c));
    assert SlotsInUse(c') == SlotsInUse(c.(running := c'.running));
    assert c'.running.Keys == c.running.Keys + {m};
    assert forall other | other in c.running :: c.running[other].slot in SlotsInUse(c);
    RunningAdded(c.running, c.n, m, RunningModel(slot, now));
  }

  lemma VacateConserves(c: Controller, m: ModelId)
    requires SlotsConserved(c) && m in c.running
    ensures SlotsConserved(Vacated(c, m))
    ensures SlotsInUse(Vacated(c, m)) == SlotsInUse(c) - {c.running[m].slot}
  {
    var slot, c' := c.running[m].slot, Vacated(c, m);
    assert c'.running.Keys == c.running.Keys - {m};
    SlotsAfterEnd(c, m);
    assert SlotsInUse(c') == SlotsInUse(c.(running := c'.running));
    assert slot in SlotsInUse(c);
    PutBack(c.free, c.n, SlotsInUse(c), slot);
  }

  lemma PreemptOk(c: Controller, victim: nat)
    requires c.preempting <= SlotsInUse(c) && |c.preempting| >= Min(|c.waiting| - 1, c.n - 1)
    requires PreemptionDue(c) ==> LeastRecentlyUsed(c, victim)
    ensures PreemptionOk(RequestPreemption(c, victim).after)
  {
    var c' := RequestPreemption(c, victim).after;
    assert SlotsInUse(c') == SlotsInUse(c);
  }

  lemma TouchKeepsSlots(c: Controller, m: ModelId, now: int)
    requires m in c.running
    ensures SlotsInUse(c.(running := c.running[m := c.running[m].(stamp := now)])) == SlotsInUse(c)
  {
    var running := c.running[m := c.running[m].(stamp := now)];
    assert forall other | other in c.running :: running[other].slot == c.running[other].slot;
  }

  lemma NewInputOrderly(c: Controller, m: ModelId, choice: Choice)
    requires Orderly(c)
    requires
      var longer := c.(waiting := c.waiting + [m]);
      IdleModel(c, m) && c.free == [] && PreemptionDue(longer) ==> LeastRecentlyUsed(longer, choice.victim)
    ensures Orderly(OnNewInput(c, m, choice).after)
  {
    var c' := OnNewInput(c, m, choice).after;
    if m in c.running {
      assert c'.running.Keys == c.running.Keys;
      TouchKeepsSlots(c, m, choice.now);
    } else if m !in c.waiting {
      if c.free != [] {
        AssignConserves(c, m, choice.now);
      } else {
        var longer := c.(waiting := c.waiting + [m]);
        assert SlotsInUse(longer) == SlotsInUse(c);
        PreemptOk(longer, choice.victim);
        assert SlotsInUse(c') == SlotsInUse(c);
      }
    }
  }

  /** After a model finished and the next waiting one, if any, took its slot, still before preempting. */
  function Refilled(c: Controller, m: ModelId, now: int): Controller
    requires m in c.running
  {
    if c.waiting == [] then Vacated(c, m) else StartNextWaiting(Vacated(c, m), now).after
  }

  lemma RefilledOk(c: Controller, m: ModelId, now: int)
    requires Orderly(c) && m in c.running
    ensures SlotsConserved(Refilled(c, m, now)) && WaitingOk(Refilled(c, m, now))
    ensures Refilled(c, m, now).preempting <= SlotsInUse(Refilled(c, m, now))
    ensures |Refilled(c, m, now).preempting| >= Min(|c.waiting|, c.n) - 1
  {
    var vacated, slot := Vacated(c, m), c.running[m].slot;
    VacateConserves(c, m);
    assert vacated.preempting <= SlotsInUse(vacated) && |vacated.preempting| >= |c.preempting| - 1;
    if c.waiting != [] {
      assert c.free == [] && vacated.free == [slot];
      RefillWaiting(vacated, now);
    }
  }

  lemma RefillWaiting(c: Controller, now: int)
    requires SlotsConserved(c) && |c.free| == 1 && c.waiting != [] && c.preempting <= SlotsInUse(c)
    requires forall i, j | 0 <= i < j < |c.waiting| :: c.waiting[i] != c.waiting[j]
    requires forall m | m in c.waiting :: m !in c.running
    ensures
      var next := StartNextWaiting(c, now).after;
      SlotsConserved(next) && WaitingOk(next) && next.preempting == c.preempting <= SlotsInUse(next)
  {
    var m, shorter := c.waiting[0], c.(waiting := c.waiting[1..]);
    assert SlotsInUse(shorter) == SlotsInUse(c);
    assert m in c.waiting && forall w | w in shorter.waiting :: w in c.waiting && w != m;
    AssignConserves(shorter, m, now);
  }

  lemma ModelDoneOrderly(c: Controller, m: ModelId, choice: Choice)
    requires Orderly(c) && m in c.running
    requires
      var refilled := Refilled(c, m, choice.now);
      c.waiting != [] && PreemptionDue(refilled) ==> LeastRecentlyUsed(refilled, choice.victim)
    ensures Orderly(OnModelDone(c, m, choice).after)
  {
    RefilledOk(c, m, choice.now);
    var refilled := Refilled(c, m, choice.now);
    if c.waiting != [] {
      PreemptOk(refilled, choice.victim);
      assert SlotsInUse(OnModelDone(c, m, choice).after) == SlotsInUse(refilled);
    }
  }

  /** choice is one the handler could make. */
  ghost predicate Possible(c: Controller, event: Event, choice: Choice)
    requires event.ModelDone? ==> event.m in c.running
  {
    match event
    case NewInput(m) =>
      var longer := c.(waiting := c.waiting + [m]);
      IdleModel(c, m) && c.free == [] && PreemptionDue(longer) ==> LeastRecentlyUsed(longer, choice.victim)
    case ModelDone(m) =>
      var refilled := Refilled(c, m, choice.now);
      c.waiting != [] && PreemptionDue(refilled) ==> LeastRecentlyUsed(refilled, choice.victim)
    case StopLoop => true
  }

  /** Slot conservation and sufficient preemption survive every event. */
  lemma EventKeepsOrder(c: Controller, event: Event, choice: Choice)
    requires Orderly(c) && (event.ModelDone? ==> event.m in c.running) && Possible(c, event, choice)
    ensures Orderly(React(c, event, choice).after)
  {
    match event
    case NewInput(m) => NewInputOrderly(c, m, choice);
    case ModelDone(m) => ModelDoneOrderly(c, m, choice);
    case StopLoop => assert SlotsInUse(React(c, event, choice).after) == SlotsInUse(c);
  }

  /** No handler is ever left without a model to preempt when it looks for one. */
  lemma EventPossible(c: Controller, event: Event, now: int, more: bool) returns (choice: Choice)
    requires Orderly(c) && (event.ModelDone? ==> event.m in c.running)
    ensures choice.now == now && choice.more == more && Possible(c, event, choice)
  {
    choice := Choice(now, 0, more);
    match event
    case NewInput(m) =>
      var longer := c.(waiting := c.waiting + [m]);
      if c.free == [] && PreemptionDue(longer) {
        assert SlotsInUse(longer) == SlotsInUse(c);
        var victim := VictimExists(longer);
        choice := Choice(now, victim, more);
      }
    case ModelDone(m) =>
      var refilled := Refilled(c, m, now);
      RefilledOk(c, m, now);
      if c.waiting != [] && PreemptionDue(refilled) {
        assert refilled.free == [] by {
          assert c.free == [];
        }
        var victim := VictimExists(refilled);
        choice := Choice(now, victim, more);
      }
    case StopLoop =>
  }

  lemma LoopHeadOrderly(c: Controller, order: seq<nat>)
    requires Orderly(c) && (StopsRemaining(c) ==> StopOrder(c, order))
    ensures Orderly(AtLoopHead(c, order).after)
  {
    var c' := AtLoopHead(c, order).after;
    assert SlotsInUse(c') == SlotsInUse(c);
  }

  // ----- how long a model waits -----

  datatype Occurrence = Occurrence(event: Event, choice: Choice, order: seq<nat>)

  /** One turn of the event loop. */
  function Turn(c: Controller, o: Occurrence): Reaction
    requires o.event.ModelDone? ==> o.event.m in c.running
  {
    var reaction := React(c, o.event, o.choice);
    var head := AtLoopHead(reaction.after, o.order);
    Reaction(head.after, reaction.calls + head.calls)
  }

  /** Each turn handles an event that can occur then, with a choice that can be made. */
  ghost predicate Turns(c: Controller, run: seq<Occurrence>)
    decreases |run|
  {
    run == [] ||
    (var o := run[0];
     && (o.event.ModelDone? ==> o.event.m in c.running)
     && Possible(c, o.event, o.choice)
     && (StopsRemaining(React(c, o.event, o.choice).after) ==> StopOrder(React(c, o.event, o.choice).after, o.order))
     && Turns(Turn(c, o).after, run[1..]))
  }

  function DoneCount(run: seq<Occurrence>): nat {
    if run == [] then 0 else (if run[0].event.ModelDone? then 1 else 0) + DoneCount(run[1..])
  }

  ghost function AfterTurns(c: Controller, run: seq<Occurrence>): Controller
    requires Turns(c, run)
    decreases |run|
  {
    if run == [] then c else AfterTurns(Turn(c, run[0]).after, run[1..])
  }

  lemma TurnKeepsOrder(c: Controller, o: Occurrence)
    requires Orderly(c) && Turns(c, [o])
    ensures Orderly(Turn(c, o).after)
  {
    EventKeepsOrder(c, o.event, o.choice);
    LoopHeadOrderly(React(c, o.event, o.choice).after, o.order);
  }

  lemma {:induction false} TurnsKeepOrder(c: Controller, run: seq<Occurrence>)
    requires Orderly(c) && Turns(c, run)
    ensures Orderly(AfterTurns(c, run))
    decreases |run|
  {
    if run != [] {
      assert [run[0]][1..] == [];
      TurnKeepsOrder(c, run[0]);
      TurnsKeepOrder(Turn(c, run[0]).after, run[1..]);
    }
  }

  lemma LoopHeadKeepsModels(c: Controller, order: seq<nat>)
    ensures AtLoopHead(c, order).after.waiting == c.waiting && AtLoopHead(c, order).after.running == c.running
  {
  }

  lemma DoneStartsHead(c: Controller, m: ModelId, choice: Choice)
    requires c.waiting != [] && m in c.running
    ensures
      var w, reaction := c.waiting[0], OnModelDone(c, m, choice);
      && reaction.after.waiting == c.waiting[1..]
      && w in reaction.after.running && StartModel(reaction.after.running[w].slot, w) in reaction.calls
  {
    var started := StartNextWaiting(Vacated(c, m), choice.now);
    var preempted := RequestPreemption(started.after, choice.victim);
    assert preempted.after.running == started.after.running;
    assert started.calls[0] in started.calls;
  }

  /** Only a finished model moves the waiting list, and it starts the head. */
  lemma TurnMovesWaiting(c: Controller, o: Occurrence, k: nat)
    requires k < |c.waiting| && (o.event.ModelDone? ==> o.event.m in c.running)
    ensures
      var w, after, calls := c.waiting[k], Turn(c, o).after, Turn(c, o).calls;
      if !o.event.ModelDone? then k < |after.waiting| && after.waiting[k] == w
      else if k > 0 then k - 1 < |after.waiting| && after.waiting[k - 1] == w
      else w in after.running && StartModel(after.running[w].slot, w) in calls
  {
    LoopHeadKeepsModels(React(c, o.event, o.choice).after, o.order);
    if o.event.ModelDone? {
      DoneStartsHead(c, o.event.m, o.choice);
    }
  }

  lemma FirstTurn(c: Controller, run: seq<Occurrence>) returns (c': Controller)
    requires Orderly(c) && Turns(c, run) && run != []
    ensures Orderly(c') && Turns(c', run[1..]) && AfterTurns(c, run) == AfterTurns(c', run[1..])
    ensures c' == Turn(c, run[0]).after
  {
    assert [run[0]][1..] == [];
    c' := Turn(c, run[0]).after;
    TurnKeepsOrder(c, run[0]);
  }

  lemma FirstTurnMovesWaiting(c: Controller, run: seq<Occurrence>, k: nat) returns (c': Controller, k': int)
    requires Orderly(c) && Turns(c, run) && run != [] && k < |c.waiting| && DoneCount(run) <= k
    ensures Orderly(c') && Turns(c', run[1..]) && AfterTurns(c, run) == AfterTurns(c', run[1..])
    ensures k' - DoneCount(run[1..]) == k - DoneCount(run)
    ensures 0 <= k' < |c'.waiting| && c'.waiting[k'] == c.waiting[k]
  {
    c' := FirstTurn(c, run);
    TurnMovesWaiting(c, run[0], k);
    k' := if run[0].event.ModelDone? then k - 1 else k;
  }

  /** A model at position k is still waiting after j <= k models finished, at position k - j. */
  lemma {:induction false} StillWaiting(c: Controller, run: seq<Occurrence>, k: nat)
    requires Orderly(c) && Turns(c, run) && k < |c.waiting| && DoneCount(run) <= k
    ensures
      var after := AfterTurns(c, run);
      k - DoneCount(run) < |after.waiting| && after.waiting[k - DoneCount(run)] == c.waiting[k]
    decreases |run|
  {
    if run != [] {
      var c', k' := FirstTurnMovesWaiting(c, run, k);
      StillWaiting(c', run[1..], k');
    }
  }

  /** A controller that starts w at the turn of o. */
  ghost predicate StartsAt(c: Controller, o: Occurrence, w: ModelId)
    requires o.event.ModelDone? ==> o.event.m in c.running
  {
    var final := Turn(c, o);
    w in final.after.running && StartModel(final.after.running[w].slot, w) in final.calls
  }

  lemma HeadStarts(c: Controller, o: Occurrence, w: ModelId)
    requires c.waiting != [] && c.waiting[0] == w && o.event.ModelDone? && Turns(c, [o])
    ensures StartsAt(c, o, w)
  {
    TurnMovesWaiting(c, o, 0);
  }

  lemma ReachesHead(c: Controller, run: seq<Occurrence>, k: nat) returns (before: Controller)
    requires Orderly(c) && Turns(c, run) && k < |c.waiting| && DoneCount(run) == k
    ensures before == AfterTurns(c, run) && Orderly(before)
    ensures before.waiting != [] && before.waiting[0] == c.waiting[k]
  {
    before := AfterTurns(c, run);
    StillWaiting(c, run, k);
    TurnsKeepOrder(c, run);
  }

  /** And the (k+1)-th model to finish is the one that starts it, whatever else happens in between. */
  lemma BoundedWait(c: Controller, run: seq<Occurrence>, last: Occurrence, k: nat)
    requires Orderly(c) && Turns(c, run) && k < |c.waiting| && DoneCount(run) == k
    requires last.event.ModelDone? && Turns(AfterTurns(c, run), [last])
    ensures StartsAt(AfterTurns(c, run), last, c.waiting[k])
  {
    var before := ReachesHead(c, run, k);
    HeadStarts(before, last, c.waiting[k]);
  }
}
