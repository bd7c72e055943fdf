/** What the answers of a stream say, told from the requests alone. */
module RunnerReplies {
  import opened Basics
  import opened Opf
  import opened CheckpointDisk
  import opened CheckpointScripts
  import opened ModelArchiving
  import opened RunnerSemantics
  import opened RunnerProtocol
  import opened RunnerInvariant
  import opened RunnerTheorems

  // ----- the model, from the requests before -----

  /** All requests of a stream, in order. */
  function Flatten(batches: seq<Batch>): seq<Request> {
    if batches == [] then [] else Flatten(batches[..|batches| - 1]) + batches[|batches| - 1].objects
  }

  function RowsOf(requests: seq<Request>): seq<Row> {
    if requests == [] then []
    else
      var n := |requests| - 1;
      RowsOf(requests[..n]) + (if requests[n].InputRow? then [requests[n].data] else [])
  }

  /** Where the model is defined, or the length. */
  function FirstDefinition(requests: seq<Request>): (n: nat)
    ensures n <= |requests| && (n < |requests| ==> requests[n].DefineModel?)
    ensures forall i | 0 <= i < n :: !requests[i].DefineModel?
  {
    if requests == [] then 0
    else
      var n := FirstDefinition(requests[..|requests| - 1]);
      if n < |requests| - 1 || requests[n].DefineModel? then n else |requests|
  }

  /** The model after these requests: created from the first definition and fed every row since. */
  function LiveModel(engine: Engine, requests: seq<Request>): Logical {
    var d := FirstDefinition(requests);
    if d == |requests| then NoModel
    else
      var definition := requests[d].definition;
      Trained(definition, Replay(engine, engine.create(definition), RowsOf(requests[d + 1..])))
  }

  lemma FirstDefinitionMore(requests: seq<Request>, request: Request)
    ensures
      var d, more := FirstDefinition(requests), requests + [request];
      FirstDefinition(more) == if d < |requests| || request.DefineModel? then d else |more|
  {
    assert (requests + [request])[..|requests|] == requests;
  }

  lemma RowsMore(requests: seq<Request>, request: Request)
    ensures RowsOf(requests + [request]) == RowsOf(requests) + if request.InputRow? then [request.data] else []
  {
    assert (requests + [request])[..|requests|] == requests;
  }

  /** One more request is performed on the live model. */
  lemma LiveMore(engine: Engine, requests: seq<Request>, request: Request)
    ensures Perform(engine, LiveModel(engine, requests), request).0 == LiveModel(engine, requests + [request])
  {
    var d, more := FirstDefinition(requests), requests + [request];
    FirstDefinitionMore(requests, request);
    if d < |requests| {
      var since := requests[d + 1..];
      assert more[d + 1..] == since + [request];
      RowsMore(since, request);
      if request.InputRow? {
        var rows := RowsOf(since) + [request.data];
        assert rows[..|rows| - 1] == RowsOf(since);
      } else {
        assert RowsOf(since) + [] == RowsOf(since);
      }
    } else if request.DefineModel? {
      assert more[d + 1..] == [];
    }
  }

  lemma {:induction false} LiveAfter(engine: Engine, requests: seq<Request>, objects: seq<Request>)
    ensures PerformAll(engine, LiveModel(engine, requests), objects).0 == LiveModel(engine, requests + objects)
    decreases |objects|
  {
    if objects == [] {
      assert requests + objects == requests;
    } else {
      var init, last := objects[..|objects| - 1], objects[|objects| - 1];
      LiveAfter(engine, requests, init);
      LiveMore(engine, requests + init, last);
      assert requests + objects == requests + init + [last];
    }
  }

  /** Every row counts once and in order: the fold of a stream is its first definition, fed all rows since. */
  lemma {:induction false} FoldIsReplay(engine: Engine, batches: seq<Batch>)
    ensures Fold(engine, batches) == LiveModel(engine, Flatten(batches))
    decreases |batches|
  {
    if batches != [] {
      var init := batches[..|batches| - 1];
      FoldIsReplay(engine, init);
      LiveAfter(engine, Flatten(init), batches[|batches| - 1].objects);
    }
  }

  // ----- the answers -----

  lemma {:induction false} AnswerAt(engine: Engine, l: Logical, objects: seq<Request>, i: nat)
    requires i < |objects|
    ensures PerformAll(engine, l, objects).1[i]
         == Perform(engine, PerformAll(engine, l, objects[..i]).0, objects[i]).1
    decreases |objects|
  {
    var init := objects[..|objects| - 1];
    if i < |init| {
      AnswerAt(engine, l, init, i);
      assert init[..i] == objects[..i];
    }
  }

  /** The requests of a stream before object i of batch j. */
  function Before(batches: seq<Batch>, j: nat, i: nat): seq<Request>
    requires j < |batches| && i <= |batches[j].objects|
  {
    Flatten(batches[..j]) + batches[j].objects[..i]
  }

  /**
   * What a batch is owed: one answer per object, in order, each carrying that object's id and saying what
   * the model fed with all requests before makes of it.
   */
  lemma RepliesOwed(engine: Engine, batches: seq<Batch>, j: nat)
    requires j < |batches|
    ensures |Replies(engine, batches, j)| == |batches[j].objects|
    ensures forall i: nat | i < |batches[j].objects| ::
      Owed(engine, LiveModel(engine, Before(batches, j, i)), batches[j].objects[i], Replies(engine, batches, j)[i])
  {
    var l, objects := Fold(engine, batches[..j]), batches[j].objects;
    FoldIsReplay(engine, batches[..j]);
    forall i: nat | i < |objects|
      ensures Owed(engine, LiveModel(engine, Before(batches, j, i)), objects[i], Replies(engine, batches, j)[i])
    {
      AnswerAt(engine, l, objects, i);
      LiveAfter(engine, Flatten(batches[..j]), objects[..i]);
      PerformOwed(engine, LiveModel(engine, Before(batches, j, i)), objects[i]);
    }
  }

  // ----- every row is answered once -----

  function RowIds(requests: seq<Request>): seq<nat> {
    if requests == [] then []
    else
      var n := |requests| - 1;
      RowIds(requests[..n]) + (if requests[n].InputRow? then [requests[n].rowId] else [])
  }

  function AnsweredIds(replies: seq<Reply>): seq<nat> {
    if replies == [] then []
    else
      var n := |replies| - 1;
      AnsweredIds(replies[..n]) + (if replies[n].RowScored? || replies[n].RowFailed? then [replies[n].rowId] else [])
  }

  /** All answers to the first n batches. */
  function AllReplies(engine: Engine, batches: seq<Batch>, n: nat): seq<Reply>
    requires n <= |batches|
  {
    if n == 0 then [] else AllReplies(engine, batches, n - 1) + Replies(engine, batches, n - 1)
  }

  lemma {:induction false} BatchIdsAnswered(engine: Engine, l: Logical, objects: seq<Request>)
    ensures AnsweredIds(PerformAll(engine, l, objects).1) == RowIds(objects)
    decreases |objects|
  {
    if objects != [] {
      var init := objects[..|objects| - 1];
      var (now, replies) := PerformAll(engine, l, init);
      var last := Perform(engine, now, objects[|objects| - 1]).1;
      BatchIdsAnswered(engine, l, init);
      assert (replies + [last])[..|replies|] == replies;
      PerformOwed(engine, now, objects[|objects| - 1]);
    }
  }

  lemma {:induction false} RowIdsAppend(a: seq<Request>, b: seq<Request>)
    ensures RowIds(a + b) == RowIds(a) + RowIds(b)
    decreases |b|
  {
    if b == [] {
      assert a + b == a;
    } else {
      assert (a + b)[..|a + b| - 1] == a + b[..|b| - 1];
      RowIdsAppend(a, b[..|b| - 1]);
    }
  }

  lemma {:induction false} AnsweredIdsAppend(a: seq<Reply>, b: seq<Reply>)
    ensures AnsweredIds(a + b) == AnsweredIds(a) + AnsweredIds(b)
    decreases |b|
  {
    if b == [] {
      assert a + b == a;
    } else {
      assert (a + b)[..|a + b| - 1] == a + b[..|b| - 1];
      AnsweredIdsAppend(a, b[..|b| - 1]);
    }
  }

  /** For every stream, the answers to its rows carry exactly the stream's row ids, in order. */
  lemma {:induction false} RowsAnsweredInOrder(engine: Engine, batches: seq<Batch>, n: nat)
    requires n <= |batches|
    ensures AnsweredIds(AllReplies(engine, batches, n)) == RowIds(Flatten(batches[..n]))
  {
    if n > 0 {
      RowsAnsweredInOrder(engine, batches, n - 1);
      assert batches[..n][..n - 1] == batches[..n - 1];
      BatchIdsAnswered(engine, Fold(engine, batches[..n - 1]), batches[n - 1].objects);
      RowIdsAppend(Flatten(batches[..n - 1]), batches[n - 1].objects);
      AnsweredIdsAppend(AllReplies(engine, batches, n - 1), Replies(engine, batches, n - 1));
    }
  }

  // ----- over every run -----

  /** p answers batch j: with its id, one answer per object, each the one owed. */
  ghost predicate AnswersBatch(engine: Engine, batches: seq<Batch>, p: (BatchId, seq<Reply>), j: nat)
    requires j < |batches|
  {
    && p.0 == batches[j].id && |p.1| == |batches[j].objects|
    && forall i: nat | i < |p.1| ::
         Owed(engine, LiveModel(engine, Before(batches, j, i)), batches[j].objects[i], p.1[i])
  }

  /** Batch j has its answer among what is published. */
  ghost predicate BatchAnswered(engine: Engine, s: State, j: nat)
    requires j < |s.submitted|
  {
    exists p :: p in s.published && AnswersBatch(engine, s.submitted, p, j)
  }

  ghost predicate AnswersSome(engine: Engine, s: State, p: (BatchId, seq<Reply>)) {
    exists j: nat :: j < |s.submitted| && AnswersBatch(engine, s.submitted, p, j)
  }

  lemma OwedAnswer(engine: Engine, batches: seq<Batch>, j: nat)
    requires j < |batches|
    ensures AnswersBatch(engine, batches, (batches[j].id, Replies(engine, batches, j)), j)
  {
    RepliesOwed(engine, batches, j);
  }

  lemma PublishedOwed(c: Config, s: State)
    requires ExactlyOnce(c, s)
    ensures forall p | p in s.published :: AnswersSome(c.engine, s, p)
    ensures forall j: nat | j < Acked(s) :: BatchAnswered(c.engine, s, j)
  {
    forall p | p in s.published
      ensures AnswersSome(c.engine, s, p)
    {
      var j: nat :| j < |s.submitted| && p == (s.submitted[j].id, Replies(c.engine, s.submitted, j));
      OwedAnswer(c.engine, s.submitted, j);
    }
    forall j: nat | j < Acked(s)
      ensures BatchAnswered(c.engine, s, j)
    {
      OwedAnswer(c.engine, s.submitted, j);
      assert (s.submitted[j].id, Replies(c.engine, s.submitted, j)) in s.published;
    }
  }

  /**
   * Over every safe run whatever is published answers some batch as owed by the requests before it, and
   * every acked batch has been answered so.
   */
  lemma AnswersOwed(c: Config, s: State, steps: seq<Step>)
    requires Initial(c, s) && SafeRun(c, s, steps)
    ensures forall p | p in Run(c, s, steps).published :: AnswersSome(c.engine, Run(c, s, steps), p)
    ensures forall j: nat | j < Acked(Run(c, s, steps)) :: BatchAnswered(c.engine, Run(c, s, steps), j)
  {
    ExactlyOnceTheorem(c, s, steps);
    PublishedOwed(c, Run(c, s, steps));
  }

  // ----- how long a run is -----

  /** The run in progress takes in batches while it is short of the target, and ends with the queue at the latest. */
  ghost predicate Paced(c: Config, s: State) {
    s.process.Alive? ==>
      var mem := s.process.mem;
      && (s.process.pc.Consuming? ==> mem.runRequests < c.target || (mem.runRequests == 0 && mem.runIds == {}))
      && (s.process.pc.Closing? ==> mem.runRequests >= c.target || mem.done)
  }

  lemma StepPaced(c: Config, s: State, step: Step)
    requires Paced(c, s)
    ensures Paced(c, Next(c, s, step))
  {
  }

  lemma {:induction false} RunPaced(c: Config, s: State, steps: seq<Step>)
    requires Paced(c, s)
    ensures Paced(c, Run(c, s, steps))
    decreases |steps|
  {
    if steps != [] {
      RunPaced(c, s, steps[..|steps| - 1]);
      StepPaced(c, Run(c, s, steps[..|steps| - 1]), steps[|steps| - 1]);
    }
  }

  /** The run in progress took in batches r to taken - 1, with as many requests as it counts. */
  ghost predicate RunCounts(s: State, r: nat, taken: nat)
    requires s.process.Alive?
  {
    && r <= taken <= |s.submitted| && s.process.mem.runIds == IdsBetween(s.submitted, r, taken)
    && s.process.mem.runRequests == Requests(s.submitted, r, taken)
  }

  lemma CountsWriting(c: Config, s: State, r: nat, h: nat)
    requires QueueOk(s, r, h) && ProcessOk(c, s, r, h) && s.process.Alive?
    requires s.process.pc.Saving? || s.process.pc.Acking?
    ensures RunCounts(s, r, h)
  {
    if s.process.pc.Saving? {
      var switch: nat, after :| SavingOk(c, s, s.process.mem, s.process.pc, r, h, switch, after);
    } else {
      var q: nat :| AckingOk(c, s, s.process.mem, r, h, q);
    }
  }

  lemma CountsReading(c: Config, s: State, r: nat, h: nat)
    requires QueueOk(s, r, h) && ProcessOk(c, s, r, h) && s.process.Alive?
    requires !s.process.pc.Saving? && !s.process.pc.Acking?
    ensures RunCounts(s, r, if s.process.pc.Handling? then h + 1 else if s.process.pc.Creating? then 1 else h)
  {
  }

  lemma CountsOfRun(c: Config, s: State) returns (r: nat, taken: nat)
    requires Inv(c, s) && s.process.Alive?
    ensures RunCounts(s, r, taken)
  {
    var h: nat;
    r, h :| InvAt(c, s, r, h);
    if s.process.pc.Saving? || s.process.pc.Acking? {
      CountsWriting(c, s, r, h);
      taken := h;
    } else {
      CountsReading(c, s, r, h);
      taken := if s.process.pc.Handling? then h + 1 else if s.process.pc.Creating? then 1 else h;
    }
  }

  /**
   * Over every safe run the runner counts the requests of its run right, takes in another batch only while
   * they are short of the target, and goes on to checkpoint and ack once they reach it or the queue is empty.
   */
  lemma TargetKept(c: Config, s: State, steps: seq<Step>) returns (r: nat, taken: nat)
    requires Initial(c, s) && SafeRun(c, s, steps) && Run(c, s, steps).process.Alive?
    ensures RunCounts(Run(c, s, steps), r, taken)
    ensures Run(c, s, steps).process.pc.Consuming? ==>
      r == taken || Requests(Run(c, s, steps).submitted, r, taken) < c.target
    ensures Run(c, s, steps).process.pc.Closing? ==>
      Run(c, s, steps).process.mem.done || Requests(Run(c, s, steps).submitted, r, taken) >= c.target
  {
    InitialInv(c, s);
    RunInv(c, s, steps);
    RunPaced(c, s, steps);
    r, taken := CountsOfRun(c, Run(c, s, steps));
    var s' := Run(c, s, steps);
    if r < taken {
      assert s'.submitted[r].id in s'.process.mem.runIds;
    }
  }

  /** A process comes to its end only with an empty queue, on request, by a failing ack or save, or by force. */
  predicate Ends(c: Config, s: State, step: Step)
    requires s.process.Alive?
  {
    var mem := s.process.mem;
    match step
    case Ack(preempt) => mem.last.Some? && (mem.done || preempt || !mem.last.value.current)
    case Checkpoint(_, _) =>
      if mem.last.None? then mem.done
      else mem.archive.model.Some? && mem.archive.samples.Some? && mem.archive.hasCheckpoint
           && |mem.archive.samples.value| + |mem.runSamples| <= MAX_INCREMENTAL_ROWS
           && OldStore(View(s.fs), c.id).None?
    case Die => true
    case Crash(_) => true
    case _ => false
  }

  lemma EndsIff(c: Config, s: State, step: Step)
    requires s.process.Alive? && CanStep(c, s, step)
    ensures Next(c, s, step).process.Dead? <==> Ends(c, s, step)
  {
  }
}
