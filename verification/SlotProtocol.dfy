/**
 * One slot agent: the commands in its queue, its event-loop thread, the model runner it started
 * and the thread that waits for the runner's exit. Every interleaving of these with a client that
 * keeps the interface's rules is covered.
 */
module SlotProtocol {
  import opened CheckpointDisk

  datatype Command = Start(m: ModelId) | Stop | Exited | Release | Close

  /** The runner process: alive, exited, exit reported by the monitor thread, report seen by the event loop. */
  datatype Runner = Running | Gone | Reported | Seen

  /** The event-loop thread; Busy holds the flags of the current model's state. */
  datatype Agent =
    | Idle
    | Busy(m: ModelId, requested: bool, pending: bool, finished: bool, callback: bool, runner: Runner)
    | Closed
    | Failed

  /** What the client did last through the interface. */
  datatype Seat = Free | Taken(m: ModelId, stopped: bool) | Shut

  /** The client's side: called is a finished callback not yet answered by a release. */
  datatype Chair = Chair(seat: Seat, called: bool)

  /** started and answered count starts and finished callbacks. */
  datatype Slot = Slot(agent: Agent, queue: seq<Command>, chair: Chair, started: nat, answered: nat)

  const NEW_SLOT := Slot(Idle, [], Chair(Free, false), 0, 0)

  datatype SlotStep =
    | Call(command: Command)
    | Pop
    | Join
    | Exit
    | Report

  // ----- the client -----

  /** The interface's rules: start when free, stop once, release after the callback, close when free. */
  predicate Allowed(chair: Chair, command: Command) {
    match command
    case Start(_) => chair.seat.Free?
    case Stop => chair.seat.Taken? && !chair.seat.stopped
    case Release => chair.seat.Taken? && chair.called
    case Close => chair.seat.Free?
    case Exited => false
  }

  function ChairAfter(chair: Chair, command: Command): Chair
    requires Allowed(chair, command)
  {
    match command
    case Start(m) => Chair(Taken(m, false), chair.called)
    case Stop => chair.(seat := Taken(chair.seat.m, true))
    case Release => Chair(Free, false)
    case Close => chair.(seat := Shut)
  }

  /** A call from the client; breaking the rules fails an assertion. */
  function Called(s: Slot, command: Command): Slot {
    if !Allowed(s.chair, command) then s.(agent := Failed)
    else
      s.(queue := s.queue + [command], chair := ChairAfter(s.chair, command),
         started := if command.Start? then s.started + 1 else s.started)
  }

  // ----- the event loop -----

  /** The thread waits for the monitor thread in stopGracefully. */
  predicate Joining(agent: Agent) { agent.Busy? && agent.pending && !agent.finished }

  predicate CanPop(s: Slot) { s.queue != [] && !s.agent.Closed? && !s.agent.Failed? && !Joining(s.agent) }

  /** Handling one command, up to the point where the thread waits for the runner. */
  function Handled(agent: Agent, command: Command): Agent {
    match command
    case Start(m) => if agent.Idle? then Busy(m, false, false, false, true, Running) else Failed
    case Stop =>
      if !agent.Busy? || agent.requested then Failed
      else agent.(requested := true, pending := true)
    case Exited => if !agent.Busy? then Failed else agent.(runner := Seen, pending := true)
    case Release => if agent.Busy? && agent.pending && agent.finished then Idle else Failed
    case Close =>
      if agent.Busy? && !agent.pending then agent.(pending := true, callback := false) else Closed
  }

  function Popped(s: Slot): Slot
    requires CanPop(s)
  {
    s.(agent := Handled(s.agent, s.queue[0]), queue := s.queue[1..])
  }

  predicate CanJoin(s: Slot) { Joining(s.agent) && (s.agent.runner.Reported? || s.agent.runner.Seen?) }

  /** stopGracefully returns: the client is called back, or the agent was being closed. */
  function Joined(s: Slot): Slot
    requires CanJoin(s)
  {
    if s.agent.callback
    then s.(agent := s.agent.(finished := true), chair := s.chair.(called := true), answered := s.answered + 1)
    else s.(agent := Closed)
  }

  predicate CanSlotStep(s: Slot, step: SlotStep) {
    match step
    case Call(command) => Allowed(s.chair, command)
    case Pop => CanPop(s)
    case Join => CanJoin(s)
    case Exit => s.agent.Busy? && s.agent.runner.Running?
    case Report => s.agent.Busy? && s.agent.runner.Gone?
  }

  function SlotNext(s: Slot, step: SlotStep): Slot
    requires CanSlotStep(s, step)
  {
    match step
    case Call(command) => Called(s, command)
    case Pop => Popped(s)
    case Join => Joined(s)
    case Exit => s.(agent := s.agent.(runner := Gone))
    case Report => s.(agent := s.agent.(runner := Reported), queue := s.queue + [Exited])
  }

  // ----- the invariant -----

  /** What an idle agent finds in its queue. */
  predicate Upcoming(queue: seq<Command>, seat: Seat) {
    match seat
    case Free => queue == []
    case Taken(m, stopped) => queue == [Start(m)] + (if stopped then [Stop] else [])
    case Shut => queue == [Close]
  }

  /** Before the release: the stop request and the exit report, each at most once, in either order. */
  predicate Signals(queue: seq<Command>, stopLeft: bool, exitLeft: bool) {
    if queue == [] then !stopLeft && !exitLeft
    else if queue[0].Stop? then stopLeft && Signals(queue[1..], false, exitLeft)
    else queue[0].Exited? && exitLeft && Signals(queue[1..], stopLeft, false)
  }

  /** After the release was called: leftover signals, the release itself, and what comes next. */
  predicate Settling(queue: seq<Command>, requested: bool, exitLeft: bool, seat: Seat) {
    queue != [] &&
    match queue[0]
    case Stop => !requested && Settling(queue[1..], true, exitLeft, seat)
    case Exited => exitLeft && Settling(queue[1..], requested, false, seat)
    case Release => !exitLeft && Upcoming(queue[1..], seat)
    case Start(_) => false
    case Close => false
  }

  predicate Awaited(s: Slot)
    requires s.agent.Busy?
  {
    var a, seat := s.agent, s.chair.seat;
    && seat.Taken? && seat.m == a.m && (a.requested ==> seat.stopped)
    && Signals(s.queue, seat.stopped && !a.requested, a.runner.Reported?)
  }

  predicate AgentOk(s: Slot) {
    match s.agent
    case Idle => !s.chair.called && Upcoming(s.queue, s.chair.seat)
    case Busy(m, requested, pending, finished, callback, runner) =>
      && callback
      && (!pending ==> !requested && !finished && !runner.Seen?)
      && (pending && !requested ==> runner.Seen?)
      && (finished ==> pending && (runner.Reported? || runner.Seen?))
      && (if finished && !s.chair.called then Settling(s.queue, requested, runner.Reported?, s.chair.seat)
          else s.chair.called == finished && Awaited(s))
    case Closed => s.queue == [] && s.chair == Chair(Shut, false)
    case Failed => false
  }

  /** Each start is answered once, and before the next start. */
  predicate CountsOk(s: Slot) {
    s.started == s.answered + (if s.chair.seat.Taken? && !s.chair.called then 1 else 0)
  }

  predicate SlotOk(s: Slot) { AgentOk(s) && CountsOk(s) }

  // ----- commands appended at the end of the queue -----

  lemma {:induction false} SignalsThenStop(queue: seq<Command>, exitLeft: bool)
    requires Signals(queue, false, exitLeft)
    ensures Signals(queue + [Stop], true, exitLeft)
    decreases |queue|
  {
    if queue != [] {
      assert (queue + [Stop])[1..] == queue[1..] + [Stop];
      SignalsThenStop(queue[1..], false);
    } else {
      assert (queue + [Stop])[1..] == [];
    }
  }

  lemma {:induction false} SignalsThenExited(queue: seq<Command>, stopLeft: bool)
    requires Signals(queue, stopLeft, false)
    ensures Signals(queue + [Exited], stopLeft, true)
    decreases |queue|
  {
    if queue != [] {
      assert (queue + [Exited])[1..] == queue[1..] + [Exited];
      SignalsThenExited(queue[1..], false);
    } else {
      assert (queue + [Exited])[1..] == [];
    }
  }

  lemma {:induction false} SignalsThenRelease(queue: seq<Command>, stopLeft: bool, requested: bool, exitLeft: bool)
    requires Signals(queue, stopLeft, exitLeft) && (stopLeft ==> !requested)
    ensures Settling(queue + [Release], requested, exitLeft, Free)
    decreases |queue|
  {
    if queue != [] {
      assert (queue + [Release])[1..] == queue[1..] + [Release];
      if queue[0].Stop? {
        SignalsThenRelease(queue[1..], false, true, exitLeft);
      } else {
        SignalsThenRelease(queue[1..], stopLeft, requested, false);
      }
    } else {
      assert (queue + [Release])[1..] == [];
    }
  }

  lemma {:induction false} SettlingThenCall(queue: seq<Command>, requested: bool, exitLeft: bool, chair: Chair,
                                            command: Command)
    requires Settling(queue, requested, exitLeft, chair.seat) && !chair.called && Allowed(chair, command)
    ensures Settling(queue + [command], requested, exitLeft, ChairAfter(chair, command).seat)
    decreases |queue|
  {
    assert (queue + [command])[1..] == queue[1..] + [command];
    if queue[0].Stop? {
      SettlingThenCall(queue[1..], true, exitLeft, chair, command);
    } else if queue[0].Exited? {
      SettlingThenCall(queue[1..], requested, false, chair, command);
    }
  }

  // ----- the steps keep the invariant -----

  lemma CallKeeps(s: Slot, command: Command)
    requires SlotOk(s) && Allowed(s.chair, command)
    ensures SlotOk(Called(s, command))
  {
    if s.agent.Busy? {
      var a := s.agent;
      if a.finished && !s.chair.called {
        SettlingThenCall(s.queue, a.requested, a.runner.Reported?, s.chair, command);
      } else if command.Stop? {
        SignalsThenStop(s.queue, a.runner.Reported?);
      } else {
        SignalsThenRelease(s.queue, s.chair.seat.stopped && !a.requested, a.requested, a.runner.Reported?);
      }
    }
  }

  lemma PopKeeps(s: Slot)
    requires SlotOk(s) && CanPop(s)
    ensures SlotOk(Popped(s))
  {
  }

  lemma ReportKeeps(s: Slot)
    requires SlotOk(s) && CanSlotStep(s, Report)
    ensures SlotOk(SlotNext(s, Report))
  {
    SignalsThenExited(s.queue, s.chair.seat.stopped && !s.agent.requested);
  }

  lemma SlotStepKeeps(s: Slot, step: SlotStep)
    requires SlotOk(s) && CanSlotStep(s, step)
    ensures SlotOk(SlotNext(s, step))
  {
    match step
    case Call(command) => CallKeeps(s, command);
    case Pop => PopKeeps(s);
    case Join =>
    case Exit =>
    case Report => ReportKeeps(s);
  }

  /** A run of the slot, each step possible when it is taken. */
  predicate SlotRun(s: Slot, steps: seq<SlotStep>)
    decreases |steps|
  {
    steps == [] || (CanSlotStep(s, steps[0]) && SlotRun(SlotNext(s, steps[0]), steps[1..]))
  }

  function AfterSlotRun(s: Slot, steps: seq<SlotStep>): Slot
    requires SlotRun(s, steps)
    decreases |steps|
  {
    if steps == [] then s else AfterSlotRun(SlotNext(s, steps[0]), steps[1..])
  }

  lemma {:induction false} SlotRunKeeps(s: Slot, steps: seq<SlotStep>)
    requires SlotOk(s) && SlotRun(s, steps)
    ensures SlotOk(AfterSlotRun(s, steps))
    decreases |steps|
  {
    if steps != [] {
      SlotStepKeeps(s, steps[0]);
      SlotRunKeeps(SlotNext(s, steps[0]), steps[1..]);
    }
  }

  predicate HandshakeHolds(s: Slot) {
    // no assertion fails
    && !s.agent.Failed?
    // each start is answered by one callback, before the slot is started again
    && s.answered <= s.started <= s.answered + 1 && (s.chair.seat.Free? ==> s.started == s.answered)
    // the exit report is handled before the release that follows it
    && (s.queue != [] && s.queue[0].Release? ==> s.agent.Busy? && s.agent.finished && s.agent.runner.Seen?)
    // neither closing nor starting ever meets a model
    && (s.queue != [] && (s.queue[0].Close? || s.queue[0].Start?) ==> s.agent.Idle?)
    // a runner that may still be alive is the one the client asked for
    && (s.agent.Busy? && s.agent.runner.Running? ==> s.chair.seat.Taken? && s.chair.seat.m == s.agent.m)
  }

  lemma HandshakeInvariant(s: Slot)
    requires SlotOk(s)
    ensures HandshakeHolds(s)
  {
  }

  /** The handshake, in every interleaving with any client that keeps the interface's rules. */
  lemma Handshake(steps: seq<SlotStep>)
    requires SlotRun(NEW_SLOT, steps)
    ensures HandshakeHolds(AfterSlotRun(NEW_SLOT, steps))
  {
    SlotRunKeeps(NEW_SLOT, steps);
    HandshakeInvariant(AfterSlotRun(NEW_SLOT, steps));
  }

  // ----- an answer always comes -----

  /** What agent, runner or monitor thread does next while a start awaits its answer. */
  function NextOwn(s: Slot): SlotStep {
    if s.agent.Busy? && !s.agent.finished && s.agent.runner.Running? then Exit
    else if s.agent.Busy? && !s.agent.finished && s.agent.runner.Gone? then Report
    else if Joining(s.agent) then Join
    else Pop
  }

  function Phase(agent: Agent): nat {
    match agent
    case Busy(_, _, pending, finished, _, _) => if finished then 3 else if pending then 0 else 1
    case _ => 2
  }

  function ToReport(agent: Agent): nat {
    if !agent.Busy? then 0 else if agent.runner.Running? then 2 else if agent.runner.Gone? then 1 else 0
  }

  lemma NextOwnPossible(s: Slot)
    requires SlotOk(s) && s.chair.seat.Taken? && !s.chair.called
    ensures CanSlotStep(s, NextOwn(s))
    ensures
      var s' := SlotNext(s, NextOwn(s));
      if s'.chair.called then s'.answered == s.answered + 1
      else
        && s'.chair == s.chair && s'.answered == s.answered
        && (|| Phase(s'.agent) < Phase(s.agent)
            || (Phase(s'.agent) == Phase(s.agent) && ToReport(s'.agent) < ToReport(s.agent))
            || (Phase(s'.agent) == Phase(s.agent) && ToReport(s'.agent) == ToReport(s.agent)
                && |s'.queue| < |s.queue|))
  {
  }

  /**
   * Whatever has happened, a start that has not been answered can still be, by the agent, its runner and the
   * monitor thread alone: nobody waits for ever, once the runner exits.
   */
  lemma {:induction false} AnswerComes(s: Slot) returns (steps: seq<SlotStep>)
    requires SlotOk(s) && s.chair.seat.Taken? && !s.chair.called
    ensures SlotRun(s, steps) && forall step | step in steps :: !step.Call?
    ensures
      var after := AfterSlotRun(s, steps);
      after.chair == s.chair.(called := true) && after.answered == s.answered + 1
    decreases Phase(s.agent), ToReport(s.agent), |s.queue|
  {
    var step := NextOwn(s);
    NextOwnPossible(s);
    SlotStepKeeps(s, step);
    var s' := SlotNext(s, step);
    var rest := [];
    if !s'.chair.called {
      rest := AnswerComes(s');
    }
    steps := [step] + rest;
    assert steps[1..] == rest;
  }
}
