/**
 * Loading and checkpointing one model: a full checkpoint stores the model itself, an incremental
 * one only the rows processed since, to be replayed into the last full snapshot.
 */
module ModelArchiving {
  import opened Basics
  import opened Opf
  import opened CheckpointDisk
  import opened CheckpointScripts
  import opened CheckpointManager

  const MAX_INCREMENTAL_ROWS: nat := 100

  /** The archiver's fields; None is an unset cache. */
  datatype Archive = Archive(model: Option<Model>, hasCheckpoint: bool,
                             batchIds: Option<set<BatchId>>, samples: Option<seq<Row>>)

  const NEW_ARCHIVE := Archive(None, false, None, None)

  // ----- what a checkpoint stands for -----

  function SamplesOf(found: Recovered): seq<Row> {
    if found.Checkpointed? && found.attributes.samples.Some? then found.attributes.samples.value else []
  }

  function BatchIdsOf(found: Recovered): set<BatchId> {
    if found.Checkpointed? then found.attributes.batchIds else {}
  }

  /** The model a restarted process gets: the snapshot, or a new model, and the stored rows replayed. */
  function Restored(engine: Engine, found: Recovered): Model
    requires found.Defined? || found.Checkpointed?
  {
    match found
    case Defined(definition) => engine.create(definition)
    case Checkpointed(_, instance, _) => Replay(engine, instance, SamplesOf(found))
  }

  // ----- the archiver's operations on its fields -----

  /** Both caches are filled together, from the current checkpoint or empty. */
  function WithAttributes(a: Archive, found: Recovered): Archive {
    if a.batchIds.Some? && a.samples.Some? then a
    else a.(batchIds := Some(BatchIdsOf(found)), samples := Some(SamplesOf(found)))
  }

  /** The fields after loadModel, or None when the model is not known at all. */
  function WithModel(a: Archive, engine: Engine, found: Recovered): Option<Archive> {
    if a.model.Some? then Some(a)
    else if !found.Defined? && !found.Checkpointed? then None
    else
      var cached := WithAttributes(a, found);
      var base := if found.Checkpointed? then found.instance else engine.create(found.definition);
      Some(cached.(model := Some(Replay(engine, base, cached.samples.value)), hasCheckpoint := found.Checkpointed?))
  }

  predicate FullNeeded(a: Archive, runSamples: seq<Row>)
    requires a.samples.Some?
  {
    !a.hasCheckpoint || |a.samples.value| + |runSamples| > MAX_INCREMENTAL_ROWS
  }

  function Attributed(a: Archive, ids: set<BatchId>, runSamples: seq<Row>): Attributes
    requires a.samples.Some?
  {
    if FullNeeded(a, runSamples) then Attributes(ids, None)
    else Attributes(ids, Some(a.samples.value + runSamples))
  }

  function AfterSave(a: Archive, ids: set<BatchId>, runSamples: seq<Row>): Archive
    requires a.samples.Some?
  {
    if FullNeeded(a, runSamples) then a.(batchIds := Some(ids), samples := Some([]), hasCheckpoint := true)
    else a.(batchIds := Some(ids), samples := Some(a.samples.value + runSamples))
  }

  /** The file-system steps of saveModel. */
  function SaveModelScript(a: Archive, d: Disk, id: ModelId, t: string, s: string,
                           ids: set<BatchId>, runSamples: seq<Row>): seq<Op>
    requires a.model.Some? && a.samples.Some?
    requires !FullNeeded(a, runSamples) ==> OldStore(d, id).Some?
  {
    if FullNeeded(a, runSamples) then SaveScript(d, id, t, s, a.model.value, Attributed(a, ids, runSamples))
    else UpdateScript(t, OldStore(d, id).value, Attributed(a, ids, runSamples))
  }

  /** What is recovered after saveModel. */
  function SavedModel(a: Archive, found: Recovered, ids: set<BatchId>, runSamples: seq<Row>): Recovered
    requires a.model.Some? && a.samples.Some?
    requires found.Defined? || found.Checkpointed?
    requires !FullNeeded(a, runSamples) ==> found.Checkpointed?
  {
    if FullNeeded(a, runSamples)
    then Checkpointed(found.definition, a.model.value, Attributed(a, ids, runSamples))
    else found.(attributes := Attributed(a, ids, runSamples))
  }

  // ----- invariant and refinement -----

  /** The fields agree with the checkpoint on disk; a loaded model implies loaded caches. */
  ghost predicate Coherent(a: Archive, found: Recovered) {
    && (a.batchIds.Some? <==> a.samples.Some?)
    && (a.samples.Some? ==> a.samples.value == SamplesOf(found) && a.batchIds.value == BatchIdsOf(found))
    && (a.model.Some? ==>
          a.samples.Some? && (found.Defined? || found.Checkpointed?) && a.hasCheckpoint == found.Checkpointed?)
  }

  /**
   * Incremental checkpoints refine full ones: whichever kind saveModel takes, a process restarted
   * from it gets the live model, the replay list is bounded, and exactly this run's ids are kept.
   */
  lemma SaveModelRestores(a: Archive, engine: Engine, found: Recovered, ids: set<BatchId>, runSamples: seq<Row>)
    requires Coherent(a, found) && a.model.Some?
    requires a.model.value == Replay(engine, Restored(engine, found), runSamples)
    requires |SamplesOf(found)| <= MAX_INCREMENTAL_ROWS
    ensures
      var saved := SavedModel(a, found, ids, runSamples);
      && saved.Checkpointed? && saved.definition == found.definition
      && Restored(engine, saved) == a.model.value
      && |SamplesOf(saved)| <= MAX_INCREMENTAL_ROWS
      && BatchIdsOf(saved) == ids
      && Coherent(AfterSave(a, ids, runSamples), saved)
  {
    if !FullNeeded(a, runSamples) {
      ReplayAppend(engine, found.instance, SamplesOf(found), runSamples);
    }
  }

  /**
   * The snapshot of a checkpoint stays, and the run's rows join the stored ones, as long as these are at most
   * 100 in all; otherwise, and at first, the live model becomes the snapshot and no rows are stored.
   */
  ghost predicate GrowsOrRenews(found: Recovered, live: Model, runSamples: seq<Row>, saved: Recovered)
    requires saved.Checkpointed?
  {
    if found.Checkpointed? && |SamplesOf(found)| + |runSamples| <= 100 then
      saved.instance == found.instance && SamplesOf(saved) == SamplesOf(found) + runSamples
    else saved.instance == live && SamplesOf(saved) == []
  }

  lemma SaveModelGrowsOrRenews(a: Archive, found: Recovered, ids: set<BatchId>, runSamples: seq<Row>)
    requires Coherent(a, found) && a.model.Some?
    ensures SavedModel(a, found, ids, runSamples).Checkpointed?
    ensures GrowsOrRenews(found, a.model.value, runSamples, SavedModel(a, found, ids, runSamples))
  {
  }

  /** A freshly loaded model is the one the checkpoint stands for. */
  lemma WithModelRestores(a: Archive, engine: Engine, found: Recovered)
    requires Coherent(a, found) && a.model.None? && (found.Defined? || found.Checkpointed?)
    ensures
      var loaded := WithModel(a, engine, found);
      && loaded.Some? && loaded.value.model == Some(Restored(engine, found))
      && Coherent(loaded.value, found)
  {
    if found.Defined? {
      assert SamplesOf(found) == [];
    }
  }

  /** saveModel changes what is recovered atomically, to what SavedModel says. */
  lemma SaveModelSwitches(a: Archive, d: Disk, id: ModelId, t: string, s: string,
                          ids: set<BatchId>, runSamples: seq<Row>)
      returns (switch: nat)
    requires CanSave(d, id, t, s) && Coherent(a, Recover(d, id)) && a.model.Some?
    ensures Switches(d, id, SaveModelScript(a, d, id, t, s, ids, runSamples), switch,
                     SavedModel(a, Recover(d, id), ids, runSamples))
    ensures Prepared(SaveModelScript(a, d, id, t, s, ids, runSamples), switch)
  {
    if FullNeeded(a, runSamples) {
      SaveSwitches(d, id, t, s, a.model.value, Attributed(a, ids, runSamples));
      switch := SAVE_SWITCH;
    } else {
      UpdateSwitches(d, id, t, Attributed(a, ids, runSamples));
      switch := 3;
    }
  }

  /** Everything saveModel owes its caller, given that its steps were taken. */
  lemma SaveModelOutcome(a: Archive, engine: Engine, d: Disk, id: ModelId, t: string, s: string,
                         ids: set<BatchId>, runSamples: seq<Row>)
    requires CanSave(d, id, t, s) && Coherent(a, Recover(d, id)) && a.model.Some?
    requires a.model.value == Replay(engine, Restored(engine, Recover(d, id)), runSamples)
    requires |SamplesOf(Recover(d, id))| <= MAX_INCREMENTAL_ROWS
    ensures
      var now := ApplyAll(SaveModelScript(a, d, id, t, s, ids, runSamples), d);
      && Healthy(now, id)
      && Recover(now, id) == SavedModel(a, Recover(d, id), ids, runSamples)
  {
    var script := SaveModelScript(a, d, id, t, s, ids, runSamples);
    var switch := SaveModelSwitches(a, d, id, t, s, ids, runSamples);
    assert script[..|script|] == script;
  }

  lemma SaveModelSettles(a: Archive, fs: Fs, id: ModelId, t: string, s: string, ids: set<BatchId>, runSamples: seq<Row>)
    requires CanSave(View(fs), id, t, s) && Coherent(a, Recover(View(fs), id)) && a.model.Some?
    ensures AlwaysRecovers(ExecAll(fs, SaveModelScript(a, View(fs), id, t, s, ids, runSamples)), id,
                           SavedModel(a, Recover(View(fs), id), ids, runSamples))
  {
    var script := SaveModelScript(a, View(fs), id, t, s, ids, runSamples);
    var switch := SaveModelSwitches(a, View(fs), id, t, s, ids, runSamples);
    ScriptSettles(fs, id, script, switch, SavedModel(a, Recover(View(fs), id), ids, runSamples));
  }

  // ----- the class -----

  class ModelArchiver {
    const id: ModelId
    const engine: Engine
    const checkpointMgr: ModelCheckpointMgr
    var model: Option<Model>
    var hasCheckpoint: bool
    var batchIdsCache: Option<set<BatchId>>
    var samplesCache: Option<seq<Row>>

    ghost function State(): Archive
      reads this
    {
      Archive(model, hasCheckpoint, batchIdsCache, samplesCache)
    }

    ghost function Found(): Recovered
      reads checkpointMgr.fs
    {
      Recover(checkpointMgr.fs.disk, id)
    }

    ghost predicate Valid()
      reads this, checkpointMgr.fs
    {
      && checkpointMgr.fs.Valid()
      && Healthy(checkpointMgr.fs.disk, id)
      && Coherent(State(), Found())
    }

    constructor (id: ModelId, engine: Engine, checkpointMgr: ModelCheckpointMgr)
      requires checkpointMgr.fs.Valid() && Healthy(checkpointMgr.fs.disk, id)
      ensures Valid() && State() == NEW_ARCHIVE
      ensures this.id == id && this.engine == engine && this.checkpointMgr == checkpointMgr
    {
      this.id, this.engine, this.checkpointMgr := id, engine, checkpointMgr;
      model, hasCheckpoint, batchIdsCache, samplesCache := None, false, None, None;
    }

    method LoadCheckpointAttributes()
      requires Valid() && State().batchIds.None?
      modifies this
      ensures Valid() && State() == WithAttributes(old(State()), Found())
    {
      var attributes := checkpointMgr.LoadCheckpointAttributes(id);
      match attributes
      case None =>
        batchIdsCache, samplesCache := Some({}), Some([]);
      case Some(loaded) =>
        batchIdsCache := Some(loaded.batchIds);
        samplesCache := Some(if loaded.samples.Some? then loaded.samples.value else []);
    }

    method ModelCheckpointBatchIdSet() returns (ids: set<BatchId>)
      requires Valid()
      modifies this
      ensures Valid() && State() == WithAttributes(old(State()), Found())
      ensures ids == BatchIdsOf(Found())
    {
      if batchIdsCache.None? {
        LoadCheckpointAttributes();
      }
      return batchIdsCache.value;
    }

    method InputSamplesSinceLastFullCheckpoint() returns (samples: seq<Row>)
      requires Valid()
      modifies this
      ensures Valid() && State() == WithAttributes(old(State()), Found())
      ensures samples == SamplesOf(Found())
    {
      if samplesCache.None? {
        LoadCheckpointAttributes();
      }
      return samplesCache.value;
    }

    /** Loads or creates the model and replays the stored rows; false is the model-not-found error. */
    method LoadModel() returns (loaded: bool)
      requires Valid()
      modifies this
      ensures Valid() && loaded == (old(model).Some? || Found().Defined? || Found().Checkpointed?)
      ensures loaded ==> Some(State()) == WithModel(old(State()), engine, Found())
      ensures !loaded ==> model.None?
      ensures old(model).None? && loaded ==> model == Some(Restored(engine, Found()))
    {
      if model.Some? {
        return true;
      }
      var snapshot := checkpointMgr.Load(id);
      var definition := checkpointMgr.LoadModelDefinition(id);
      hasCheckpoint := snapshot.Some?;
      if definition.None? {
        return false;
      }
      ghost var before := old(State());
      var samples := InputSamplesSinceLastFullCheckpoint();
      var m := if snapshot.Some? then snapshot.value else engine.create(definition.value);
      ghost var base := m;
      for i := 0 to |samples|
        invariant m == Replay(engine, base, samples[..i])
      {
        assert samples[..i + 1][..i] == samples[..i];
        m := Feed(engine, m, samples[i]);
      }
      assert samples[..|samples|] == samples;
      model := Some(m);
      WithModelRestores(before, engine, Found());
      return true;
    }

    /** Checkpoints the model: incrementally while the replay list stays short, else fully. */
    method SaveModel(ids: set<BatchId>, runSamples: seq<Row>, t: string, s: string)
      requires Valid() && model.Some? && CanSave(checkpointMgr.fs.disk, id, t, s)
      requires |SamplesOf(Found())| <= MAX_INCREMENTAL_ROWS
      requires model.value == Replay(engine, Restored(engine, Found()), runSamples)
      modifies this, checkpointMgr.fs
      ensures Valid() && State() == AfterSave(old(State()), ids, runSamples)
      ensures checkpointMgr.Took(
        SaveModelScript(old(State()), old(checkpointMgr.fs.disk), id, t, s, ids, runSamples))
      ensures Found().Checkpointed? && Found().definition == old(Found()).definition
      ensures Restored(engine, Found()) == old(model.value) && model == old(model)
      ensures BatchIdsOf(Found()) == ids && |SamplesOf(Found())| <= MAX_INCREMENTAL_ROWS
      ensures GrowsOrRenews(old(Found()), old(model.value), runSamples, Found())
      ensures AlwaysRecovers(checkpointMgr.fs.State(), id, Found())
    {
      SaveModelRestores(State(), engine, Found(), ids, runSamples);
      SaveModelGrowsOrRenews(State(), Found(), ids, runSamples);
      SaveModelOutcome(State(), engine, checkpointMgr.fs.disk, id, t, s, ids, runSamples);
      checkpointMgr.fs.StateOf();
      SaveModelSettles(State(), checkpointMgr.fs.State(), id, t, s, ids, runSamples);
      ghost var script := SaveModelScript(State(), checkpointMgr.fs.disk, id, t, s, ids, runSamples);
      batchIdsCache := Some(ids);
      if !hasCheckpoint || |samplesCache.value| + |runSamples| > MAX_INCREMENTAL_ROWS {
        samplesCache := Some([]);
        var _ := checkpointMgr.Save(id, model.value, Attributes(ids, None), t, s);
        hasCheckpoint := true;
      } else {
        samplesCache := Some(samplesCache.value + runSamples);
        var _ := checkpointMgr.UpdateCheckpointAttributes(id, Attributes(ids, samplesCache), t);
      }
      checkpointMgr.Outcome(script);
    }
  }
}
