/**
 * No lost wake-up: from the publishers that fill a model's input queue, through the notification
 * queue and its reader, to the controller's own re-notification, some trace of every model with
 * unread input is always left.
 */
module Wakeups {
  import opened Basics
  import opened CheckpointDisk
  import opened SwapScheduling
  import Recency = SwapRecency
  import Swap = SwapSystem

  /** The notification reader's start-up scan, then its loop. */
  datatype Reader =
    | Starting
    | QueueReady
    | Scanning(left: set<ModelId>, found: seq<ModelId>)
    | Announcing(found: seq<ModelId>)
    | Reading

  /**
   * unread counts batches in input queues; publishing, publishers that have sent a batch but not yet
   * its notification; notices is the notification queue, which may not exist yet.
   */
  datatype World = World(swap: Swap.System, unread: multiset<ModelId>, publishing: multiset<ModelId>,
                         notices: Option<seq<ModelId>>, reader: Reader, stopRequested: bool)

  datatype Step =
    | PublishInput(m: ModelId)
    | PublishNotice(m: ModelId)
    | CreateNotices
    | ListQueues(names: set<ModelId>)
    | CheckQueue(m: ModelId)
    | EndScan
    | Announce
    | TakeNotice
    | Consume(m: ModelId)
    | RequestStop
    | Control(step: Swap.Step)

  function NewWorld(n: nat, unread: multiset<ModelId>): World {
    World(Swap.NewSystem(n), unread, multiset{}, None, Starting, false)
  }

  ghost predicate CanStep(w: World, step: Step) {
    match step
    case PublishInput(_) => true
    case PublishNotice(m) => m in w.publishing
    case CreateNotices => w.reader.Starting?
    case ListQueues(names) => w.reader.QueueReady? && forall m | m in w.unread :: m in names
    case CheckQueue(m) => w.reader.Scanning? && m in w.reader.left
    case EndScan => w.reader.Scanning? && w.reader.left == {}
    case Announce => w.reader.Announcing?
    case TakeNotice => w.reader.Reading? && !w.stopRequested && w.notices.Some? && w.notices.value != []
    case Consume(m) => m in w.unread
    case RequestStop => true
    case Control(step) => !step.Notified? && !step.StopRequested? && LooksAtInput(w, step)
  }

  /** When a model finishes the handler asks whether it has input left. */
  predicate LooksAtInput(w: World, step: Swap.Step) {
    step.Handle? && w.swap.events != [] && w.swap.events[0].ModelDone? ==>
      (step.choice.more <==> w.swap.events[0].m in w.unread)
  }

  function Notify(s: Swap.System, m: ModelId): Swap.System { s.(events := s.events + [NewInput(m)]) }

  ghost function Next(w: World, step: Step): World
    requires CanStep(w, step)
  {
    match step
    case PublishInput(m) =>
      w.(unread := w.unread + multiset{m}, publishing := w.publishing + multiset{m})
    case PublishNotice(m) =>
      w.(publishing := w.publishing - multiset{m},
         notices := if w.notices.None? then None else Some(w.notices.value + [m]))
    case CreateNotices =>
      w.(notices := if w.notices.None? then Some([]) else w.notices, reader := QueueReady)
    case ListQueues(names) => w.(reader := Scanning(names, []))
    case CheckQueue(m) =>
      w.(reader := Scanning(w.reader.left - {m}, if m in w.unread then w.reader.found + [m] else w.reader.found))
    case EndScan => w.(reader := Announcing(w.reader.found))
    case Announce =>
      if w.reader.found == [] then w.(reader := Reading)
      else w.(swap := Notify(w.swap, w.reader.found[0]), reader := Announcing(w.reader.found[1..]))
    case TakeNotice =>
      w.(swap := Notify(w.swap, w.notices.value[0]), notices := Some(w.notices.value[1..]))
    case Consume(m) => w.(unread := w.unread - multiset{m})
    case RequestStop =>
      w.(swap := Swap.Next(w.swap, Swap.StopRequested), stopRequested := true)
    case Control(step) => w.(swap := Swap.Next(w.swap, step))
  }

  // ----- the invariant -----

  /** The controller knows of m or will read of it. */
  predicate Scheduled(s: Swap.System, m: ModelId) {
    || m in s.ctl.running || m in s.ctl.waiting
    || NewInput(m) in s.events || NotifySelf(m) in s.outbox
  }

  /** The start-up scan has yet to report m. */
  predicate ScanAhead(reader: Reader, m: ModelId) {
    match reader
    case Starting => true
    case QueueReady => true
    case Scanning(left, found) => m in left || m in found
    case Announcing(found) => m in found
    case Reading => false
  }

  predicate Covered(w: World, m: ModelId) {
    || Scheduled(w.swap, m)
    || m in w.publishing
    || (w.notices.Some? && m in w.notices.value)
    || ScanAhead(w.reader, m)
  }

  ghost predicate WorldOk(w: World) {
    && Swap.SystemOk(w.swap)
    && (w.notices.None? ==> w.reader.Starting?)
    && (forall m | m in w.unread :: Covered(w, m))
  }

  // ----- the controller never forgets a model -----

  lemma InputKept(c: Controller, event: Event, choice: Choice, m: ModelId)
    requires event.ModelDone? ==> event.m in c.running
    requires m in c.running || m in c.waiting || event == NewInput(m)
    requires event != ModelDone(m)
    ensures m in React(c, event, choice).after.running || m in React(c, event, choice).after.waiting
  {
    if event.ModelDone? && c.waiting != [] {
      assert c.waiting == [c.waiting[0]] + c.waiting[1..];
    }
  }

  lemma DoneRenotifies(c: Controller, m: ModelId, choice: Choice)
    requires m in c.running && choice.more
    ensures NotifySelf(m) in OnModelDone(c, m, choice).calls
  {
    assert OnModelDone(c, m, choice).calls[1] == NotifySelf(m);
  }

  lemma HandleScheduled(s: Swap.System, choice: Choice, order: seq<nat>, m: ModelId)
    requires Swap.SystemOk(s) && Swap.CanHandle(s, choice, order) && Scheduled(s, m)
    requires s.events[0] == ModelDone(m) ==> choice.more
    ensures Scheduled(Swap.HandleEvent(s, choice, order), m)
  {
    var event := s.events[0];
    if event.ModelDone? {
      Swap.HeadEvent(s);
    }
    assert s.events == [event] + s.events[1..];
    LoopHeadKeepsModels(React(s.ctl, event, choice).after, order);
    if event == ModelDone(m) {
      DoneRenotifies(s.ctl, m, choice);
    } else if m in s.ctl.running || m in s.ctl.waiting || event == NewInput(m) {
      InputKept(s.ctl, event, choice, m);
    }
  }

  lemma IssueScheduled(s: Swap.System, m: ModelId)
    requires s.outbox != [] && Scheduled(s, m)
    ensures Scheduled(Swap.IssueCall(s), m)
  {
    assert s.outbox == [s.outbox[0]] + s.outbox[1..];
  }

  lemma ControlScheduled(w: World, step: Swap.Step, m: ModelId)
    requires WorldOk(w) && CanStep(w, Control(step)) && Scheduled(w.swap, m) && m in w.unread
    ensures Scheduled(Swap.Next(w.swap, step), m)
  {
    if Swap.CanStep(w.swap, step) {
      if step.Handle? {
        HandleScheduled(w.swap, step.choice, step.order, m);
      } else if step.Issue? {
        IssueScheduled(w.swap, m);
      }
    }
  }

  // ----- every step keeps every model covered -----

  lemma PublishCovered(w: World, step: Step, m: ModelId)
    requires WorldOk(w) && CanStep(w, step) && (step.PublishInput? || step.PublishNotice? || step.Consume?
        || step.RequestStop?)
    requires m in Next(w, step).unread
    ensures Covered(Next(w, step), m)
  {
    if step.PublishInput? && step.m == m {
    } else {
      assert m in w.unread && Covered(w, m);
    }
  }

  lemma ReaderCovered(w: World, step: Step, m: ModelId)
    requires WorldOk(w) && CanStep(w, step) && m in Next(w, step).unread
    requires step.CreateNotices? || step.ListQueues? || step.CheckQueue? || step.EndScan? || step.Announce?
        || step.TakeNotice?
    ensures Covered(Next(w, step), m)
  {
    assert Covered(w, m);
    if step.Announce? && w.reader.found != [] {
      assert w.reader.found == [w.reader.found[0]] + w.reader.found[1..];
    }
    if step.TakeNotice? {
      assert w.notices.value == [w.notices.value[0]] + w.notices.value[1..];
    }
  }

  lemma StepCovered(w: World, step: Step, m: ModelId)
    requires WorldOk(w) && CanStep(w, step) && m in Next(w, step).unread
    ensures Covered(Next(w, step), m)
  {
    if step.Control? {
      assert Covered(w, m);
      if Scheduled(w.swap, m) {
        ControlScheduled(w, step.step, m);
      }
    } else if step.PublishInput? || step.PublishNotice? || step.Consume? || step.RequestStop? {
      PublishCovered(w, step, m);
    } else {
      ReaderCovered(w, step, m);
    }
  }

  lemma StepSwapOk(w: World, step: Step)
    requires Swap.SystemOk(w.swap) && CanStep(w, step)
    ensures Swap.SystemOk(Next(w, step).swap)
  {
    match step
    case Announce => Swap.QueueMore(w.swap, NewInput(if w.reader.found == [] then "" else w.reader.found[0]));
    case TakeNotice => Swap.QueueMore(w.swap, NewInput(w.notices.value[0]));
    case RequestStop => Swap.StepKeeps(w.swap, Swap.StopRequested);
    case Control(inner) => Swap.StepKeeps(w.swap, inner);
    case PublishInput(_) =>
    case PublishNotice(_) =>
    case CreateNotices =>
    case ListQueues(_) =>
    case CheckQueue(_) =>
    case EndScan =>
    case Consume(_) =>
  }

  lemma StepKeeps(w: World, step: Step)
    requires WorldOk(w) && CanStep(w, step)
    ensures WorldOk(Next(w, step))
  {
    StepSwapOk(w, step);
    forall m | m in Next(w, step).unread
      ensures Covered(Next(w, step), m)
    {
      StepCovered(w, step, m);
    }
  }

  /** A run in which every step is possible when it is taken. */
  ghost predicate Possible(w: World, steps: seq<Step>)
    decreases |steps|
  {
    steps == [] || (CanStep(w, steps[0]) && Possible(Next(w, steps[0]), steps[1..]))
  }

  ghost function After(w: World, steps: seq<Step>): World
    requires Possible(w, steps)
    decreases |steps|
  {
    if steps == [] then w else After(Next(w, steps[0]), steps[1..])
  }

  lemma {:induction false} RunKeeps(w: World, steps: seq<Step>)
    requires WorldOk(w) && Possible(w, steps)
    ensures WorldOk(After(w, steps))
    decreases |steps|
  {
    if steps != [] {
      StepKeeps(w, steps[0]);
      RunKeeps(Next(w, steps[0]), steps[1..]);
    }
  }

  /** Nothing is on its way to the controller any more. */
  predicate Quiet(w: World) {
    && w.reader.Reading? && w.publishing == multiset{} && w.notices == Some([])
    && w.swap.outbox == [] && w.swap.events == []
  }

  /**
   * No wake-up is lost, whatever input was there at start-up and however publishers, reader,
   * controller, agents and runners interleave; once all is quiet, every model with unread input is
   * running or waiting.
   */
  lemma NoLostWakeup(n: nat, unread: multiset<ModelId>, steps: seq<Step>)
    requires n > 0 && Possible(NewWorld(n, unread), steps)
    ensures
      var w := After(NewWorld(n, unread), steps);
      forall m | m in w.unread ::
        Covered(w, m) && (Quiet(w) ==> m in w.swap.ctl.running || m in w.swap.ctl.waiting)
  {
    Swap.NewSystemOk(n);
    RunKeeps(NewWorld(n, unread), steps);
  }

  // ----- no wake-up without input -----

  function Found(reader: Reader): seq<ModelId> {
    match reader
    case Scanning(_, found) => found
    case Announcing(found) => found
    case _ => []
  }

  /** Somebody counts on m having input. */
  predicate Known(w: World, m: ModelId) {
    || Scheduled(w.swap, m)
    || m in w.publishing
    || (w.notices.Some? && m in w.notices.value)
    || m in Found(w.reader)
    || m in w.unread
  }

  lemma ReactKnown(c: Controller, event: Event, choice: Choice, m: ModelId)
    requires event.ModelDone? ==> event.m in c.running
    requires m in React(c, event, choice).after.running || m in React(c, event, choice).after.waiting
    ensures m in c.running || m in c.waiting || event == NewInput(m)
  {
  }

  lemma HandleKnown(s: Swap.System, choice: Choice, order: seq<nat>, m: ModelId)
    requires Swap.SystemOk(s) && Swap.CanHandle(s, choice, order)
    requires Scheduled(Swap.HandleEvent(s, choice, order), m)
    ensures Scheduled(s, m)
  {
    var event, o := s.events[0], Occurrence(s.events[0], choice, order);
    if event.ModelDone? {
      Swap.HeadEvent(s);
    }
    Recency.StartsExactly(s.ctl, o, m);
    var reaction := React(s.ctl, event, choice);
    LoopHeadKeepsModels(reaction.after, order);
    if m in reaction.after.running || m in reaction.after.waiting {
      ReactKnown(s.ctl, event, choice, m);
    }
  }

  lemma ControlKnown(w: World, step: Swap.Step, m: ModelId)
    requires WorldOk(w) && CanStep(w, Control(step)) && Scheduled(Swap.Next(w.swap, step), m)
    ensures Scheduled(w.swap, m)
  {
    if Swap.CanStep(w.swap, step) {
      match step
      case Handle(choice, order) => HandleKnown(w.swap, choice, order, m);
      case Issue => assert w.swap.outbox == [w.swap.outbox[0]] + w.swap.outbox[1..];
      case Agent(_, _) =>
    }
  }

  lemma PublishKnown(w: World, step: Step, m: ModelId)
    requires CanStep(w, step) && Known(Next(w, step), m)
    requires step.PublishInput? || step.PublishNotice? || step.Consume? || step.RequestStop?
    ensures Known(w, m) || step == PublishInput(m)
  {
  }

  lemma ReaderKnown(w: World, step: Step, m: ModelId)
    requires CanStep(w, step) && Known(Next(w, step), m)
    requires step.CreateNotices? || step.ListQueues? || step.CheckQueue? || step.EndScan? || step.Announce?
        || step.TakeNotice?
    ensures Known(w, m)
  {
    if step.Announce? && w.reader.found != [] {
      assert w.reader.found == [w.reader.found[0]] + w.reader.found[1..];
    }
    if step.TakeNotice? {
      assert w.notices.value == [w.notices.value[0]] + w.notices.value[1..];
    }
  }

  lemma StepKnown(w: World, step: Step, m: ModelId)
    requires WorldOk(w) && CanStep(w, step) && Known(Next(w, step), m)
    ensures Known(w, m) || step == PublishInput(m)
  {
    if step.Control? {
      if Scheduled(Next(w, step).swap, m) {
        ControlKnown(w, step.step, m);
      }
    } else if step.PublishInput? || step.PublishNotice? || step.Consume? || step.RequestStop? {
      PublishKnown(w, step, m);
    } else {
      ReaderKnown(w, step, m);
    }
  }

  lemma {:induction false} RunKnown(w: World, steps: seq<Step>, m: ModelId)
    requires WorldOk(w) && Possible(w, steps) && Known(After(w, steps), m)
    ensures Known(w, m) || PublishInput(m) in steps
    decreases |steps|
  {
    if steps != [] {
      StepKeeps(w, steps[0]);
      RunKnown(Next(w, steps[0]), steps[1..], m);
      if Known(Next(w, steps[0]), m) {
        StepKnown(w, steps[0], m);
      }
    }
  }

  /** Over every run, only models that have had input are notified, wait or run. */
  lemma NoSpuriousWakeup(n: nat, unread: multiset<ModelId>, steps: seq<Step>, m: ModelId)
    requires n > 0 && Possible(NewWorld(n, unread), steps) && Known(After(NewWorld(n, unread), steps), m)
    ensures m in unread || PublishInput(m) in steps
  {
    Swap.NewSystemOk(n);
    RunKnown(NewWorld(n, unread), steps, m);
  }
}
