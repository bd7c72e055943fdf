/** Small shared vocabulary: optional values and the model engine behind a model runner. */
module Basics {
  datatype Option<+T> = None | Some(value: T)

  function Min(a: int, b: int): int { if a <= b then a else b }
}

/**
 * The prediction engine as the runner sees it: creating a model from its definition and
 * running one row through it. Both are deterministic; a failing run leaves the model alone.
 */
module Opf {
  type Model(!new,==)
  type Row(!new,==)
  type Definition(!new,==)
  type Score(!new,==)

  datatype RunResult = Inferred(model: Model, score: Score) | RunFailed

  datatype Engine = Engine(create: Definition -> Model, run: (Model, Row) -> RunResult)

  /** The model after one row: unchanged when the run fails. */
  function Feed(engine: Engine, model: Model, row: Row): Model {
    match engine.run(model, row)
    case Inferred(next, _) => next
    case RunFailed => model
  }

  /** The model after feeding it rows in order. */
  function Replay(engine: Engine, model: Model, rows: seq<Row>): Model {
    if rows == [] then model
    else Feed(engine, Replay(engine, model, rows[..|rows| - 1]), rows[|rows| - 1])
  }

  lemma {:induction false} ReplayAppend(engine: Engine, model: Model, a: seq<Row>, b: seq<Row>)
    ensures Replay(engine, model, a + b) == Replay(engine, Replay(engine, model, a), b)
    decreases |b|
  {
    if b == [] {
      assert a + b == a;
    } else {
      var b' := b[..|b| - 1];
      assert (a + b)[..|a + b| - 1] == a + b';
      ReplayAppend(engine, model, a, b');
    }
  }
}
