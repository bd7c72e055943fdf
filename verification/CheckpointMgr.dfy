/** The checkpoint manager itself: methods that take the steps of their script one by one. */
module CheckpointManager {
  import opened Basics
  import opened Opf
  import opened CheckpointDisk
  import opened CheckpointOutcomes
  import opened CheckpointScripts

  lemma {:induction false} ExecAllAppend(fs: Fs, a: seq<Op>, b: seq<Op>)
    ensures ExecAll(fs, a + b) == ExecAll(ExecAll(fs, a), b)
    decreases |b|
  {
    if b == [] {
      assert a + b == a;
    } else {
      assert (a + b)[..|a + b| - 1] == a + b[..|b| - 1];
      ExecAllAppend(fs, a, b[..|b| - 1]);
    }
  }

  /** history is a run of the file system from origin taking the steps of log, and disk is what it shows at the end. */
  ghost predicate Runs(origin: Fs, log: seq<Op>, history: seq<Fs>, disk: Disk) {
    && |history| == |log| + 1 && history[0] == origin
    && (forall i {:trigger Stepped(history, log, i)} | 0 <= i < |log| :: Stepped(history, log, i))
    && Shows(history, disk)
  }

  ghost predicate Stepped(history: seq<Fs>, log: seq<Op>, i: nat)
    requires i < |log| && |history| == |log| + 1
  {
    history[i + 1] == Exec(history[i], log[i])
  }

  ghost predicate Shows(history: seq<Fs>, disk: Disk)
    requires history != []
  {
    disk == View(history[|history| - 1])
  }

  lemma RunsOneMore(origin: Fs, log: seq<Op>, history: seq<Fs>, disk: Disk, op: Op)
    requires Runs(origin, log, history, disk)
    ensures Runs(origin, log + [op], history + [Exec(history[|log|], op)], Apply(op, disk))
  {
    var fs := history[|log|];
    var history' := history + [Exec(fs, op)];
    forall i | 0 <= i < |log| + 1
      ensures Stepped(history', log + [op], i)
    {
      if i < |log| {
        assert Stepped(history, log, i);
      }
    }
    assert ExecAll(fs, [op]) == Exec(fs, op) by {
      assert [op][..0] == [];
    }
    ExecView(fs, [op]);
    ApplyOne(op, disk);
  }

  lemma {:induction false} RunsExecAll(origin: Fs, log: seq<Op>, history: seq<Fs>, disk: Disk, n: nat)
    requires Runs(origin, log, history, disk) && n <= |log|
    ensures history[n] == ExecAll(origin, log[..n])
  {
    if n > 0 {
      RunsExecAll(origin, log, history, disk, n - 1);
      assert Stepped(history, log, n - 1);
      assert log[..n][..n - 1] == log[..n - 1];
    }
  }

  /** The file system the manager works on, with the log of the steps taken on it. */
  class FileSystem {
    var disk: Disk
    ghost const origin: Fs
    ghost var log: seq<Op>
    ghost var history: seq<Fs>

    ghost predicate Valid()
      reads this
    {
      Runs(origin, log, history, disk)
    }

    /** The state that decides what a crash may leave. */
    ghost function State(): Fs
      requires Valid()
      reads this
    {
      history[|log|]
    }

    /** A process finds what those before it left, perhaps not all of it synced. */
    constructor (disk: Disk, ghost origin: Fs)
      requires View(origin) == disk
      ensures Valid() && this.disk == disk && this.origin == origin && log == [] && State() == origin
    {
      this.disk, this.origin, this.log, this.history := disk, origin, [], [origin];
    }

    /** Every state there was can be told from the log. */
    lemma StateOf()
      requires Valid()
      ensures State() == ExecAll(origin, log) && disk == View(State())
    {
      RunsExecAll(origin, log, history, disk, |log|);
      assert log[..|log|] == log;
    }

    /** One atomic step; the caller knows that it does not fail. */
    method Do(op: Op)
      requires Valid() && Enabled(op, disk)
      modifies this
      ensures Valid() && log == old(log) + [op] && disk == Apply(op, old(disk))
    {
      RunsOneMore(origin, log, history, disk, op);
      history := history + [Exec(history[|log|], op)];
      log := log + [op];
      disk := Apply(op, disk);
    }
  }

  /** Adding a store and moving the link leave the previous store as it was. */
  lemma CleanupUnaffected(d: Disk, now: Disk, id: ModelId, t: string, s: string, store: Store, link: Option<Target>)
    requires id in d.entries && s !in d.entries[id].stores
    requires OldStore(d, id).Some? ==> OldStore(d, id).value.owner == id
    requires now.entries == d.entries[id := d.entries[id].(stores := d.entries[id].stores[s := store], link := link)]
    ensures
      var previous := OldStore(d, id);
      && (previous.Some? ==> StoreExists(now, previous.value))
      && SaveCleanup(d, id, t) ==
           (if previous.Some? then CheckpointScripts.RemoveTree(now, previous.value) else []) + [RemoveTemp(t)]
  {
    if OldStore(d, id).Some? {
      assert StoreAt(now, OldStore(d, id).value) == StoreAt(d, OldStore(d, id).value);
    }
  }

  datatype Status = Done | ModelNotFound | ModelAlreadyExists

  class ModelCheckpointMgr {
    const fs: FileSystem

    constructor (fs: FileSystem)
      ensures this.fs == fs
    {
      this.fs := fs;
    }

    /** The operation took exactly these steps. */
    twostate predicate Took(script: seq<Op>)
      reads fs
    {
      fs.Valid() && fs.log == old(fs.log) + script
    }

    /** And so it left the file system, crash behaviour included, as executing them does. */
    twostate lemma Outcome(script: seq<Op>)
      requires old(fs.Valid()) && Took(script)
      ensures fs.State() == ExecAll(old(fs.State()), script)
      ensures fs.disk == ApplyAll(script, old(fs.disk))
    {
      RunsExecAll(fs.origin, old(fs.log), old(fs.history), old(fs.disk), |old(fs.log)|);
      RunsExecAll(fs.origin, fs.log, fs.history, fs.disk, |fs.log|);
      assert old(fs.log)[..|old(fs.log)|] == old(fs.log) && fs.log[..|fs.log|] == fs.log;
      ExecAllAppend(fs.origin, old(fs.log), script);
      ExecView(old(fs.State()), script);
    }

    /** Builds the new entry in a scratch directory. */
    method PrepareEntry(definition: Definition, t: string)
      requires fs.Valid() && t !in fs.disk.scratch
      modifies fs
      ensures Took([MakeTemp(t), WriteTempEntry(t, definition), SyncTempEntry(t)])
      ensures fs.disk.entries == old(fs.disk).entries
      ensures t in fs.disk.scratch && fs.disk.scratch[t].entry.Some?
    {
      fs.Do(MakeTemp(t));
      fs.Do(WriteTempEntry(t, definition));
      fs.Do(SyncTempEntry(t));
    }

    /** Moves the prepared entry into the archive. */
    method PublishEntry(id: ModelId, t: string)
      requires fs.Valid() && t in fs.disk.scratch && fs.disk.scratch[t].entry.Some? && id !in fs.disk.entries
      modifies fs
      ensures Took([RenameEntry(t, id), SyncRoot, RemoveTemp(t)])
    {
      fs.Do(RenameEntry(t, id));
      fs.Do(SyncRoot);
      fs.Do(RemoveTemp(t));
    }

    method Define(id: ModelId, definition: Definition, t: string) returns (status: Status)
      requires fs.Valid() && t !in fs.disk.scratch
      modifies fs
      ensures status == if id in old(fs.disk).entries then ModelAlreadyExists else Done
      ensures Took(if status.Done? then DefineScript(id, t, definition) else [])
      ensures status.Done? ==> fs.disk == Disk(Entered(old(fs.disk), id, definition), old(fs.disk).scratch)
    {
      if id in fs.disk.entries {
        return ModelAlreadyExists;
      }
      PrepareEntry(definition, t);
      PublishEntry(id, t);
      Outcome(DefineScript(id, t, definition));
      DefineLeaves(old(fs.disk), id, t, definition);
      return Done;
    }

    /** Creates the new store in a scratch directory and moves it into the entry. */
    method BuildStore(id: ModelId, t: string, s: string, m: Model, a: Attributes)
      requires fs.Valid() && CanSave(fs.disk, id, t, s)
      modifies fs
      ensures Took(SaveBuild(id, t, s, m, a))
      ensures
        var before := old(fs.disk);
        && fs.disk.entries == before.entries[id := before.entries[id].(stores :=
             before.entries[id].stores[s := Store(Some(File(a, true)), Some(File(m, true)))])]
        && t in fs.disk.scratch && fs.disk.scratch[t].link.Some?
    {
      fs.Do(MakeTemp(t));
      fs.Do(WriteTempStore(t, a));
      fs.Do(WriteTempInstance(t, m));
      fs.Do(SyncTempStore(t));
      fs.Do(RenameStore(t, id, s));
      fs.Do(LinkTemp(t, Target(id, s)));
    }

    /** Deletes a store directory and everything in it. */
    method RemoveTree(target: Target)
      requires fs.Valid() && StoreExists(fs.disk, target)
      modifies fs
      ensures Took(CheckpointScripts.RemoveTree(old(fs.disk), target))
      ensures fs.disk.scratch == old(fs.disk).scratch
    {
      if StoreAt(fs.disk, target).attributes.Some? {
        fs.Do(RemoveAttributes(target));
      }
      if StoreAt(fs.disk, target).instance.Some? {
        fs.Do(RemoveInstance(target));
      }
      fs.Do(RemoveStore(target));
    }

    /** Moves the prepared link over the current one and syncs the entry before anything is deleted. */
    method SwitchLink(id: ModelId, t: string)
      requires fs.Valid() && t in fs.disk.scratch && fs.disk.scratch[t].link.Some? && id in fs.disk.entries
      modifies fs
      ensures Took([RenameLink(t, id), SyncEntry(id)])
      ensures
        var before := old(fs.disk);
        fs.disk.entries == before.entries[id := before.entries[id].(link := before.scratch[t].link)]
      ensures t in fs.disk.scratch
    {
      fs.Do(RenameLink(t, id));
      fs.Do(SyncEntry(id));
    }

    /** Deletes the previous store, if there was one, and the scratch directory. */
    method CleanUp(previous: Option<Target>, t: string)
      requires fs.Valid() && t in fs.disk.scratch
      requires previous.Some? ==> StoreExists(fs.disk, previous.value)
      modifies fs
      ensures Took(
        (if previous.Some? then CheckpointScripts.RemoveTree(old(fs.disk), previous.value) else []) + [RemoveTemp(t)])
    {
      if previous.Some? {
        RemoveTree(previous.value);
      }
      fs.Do(RemoveTemp(t));
    }

    method Save(id: ModelId, m: Model, a: Attributes, t: string, s: string) returns (status: Status)
      requires fs.Valid() && t !in fs.disk.scratch
      requires id in fs.disk.entries ==> CanSave(fs.disk, id, t, s)
      modifies fs
      ensures status == if id in old(fs.disk).entries then Done else ModelNotFound
      ensures Took(if status.Done? then SaveScript(old(fs.disk), id, t, s, m, a) else [])
      ensures status.Done? ==>
        var before := old(fs.disk);
        fs.disk == Disk(before.entries[id := SavedEntry(before.entries[id], id, s, m, a)], before.scratch)
    {
      if id !in fs.disk.entries {
        return ModelNotFound;
      }
      BuildStore(id, t, s, m, a);
      var previous := OldStore(fs.disk, id);
      assert previous == OldStore(old(fs.disk), id);
      ghost var link := fs.disk.scratch[t].link;
      SwitchLink(id, t);
      CleanupUnaffected(old(fs.disk), fs.disk, id, t, s, Store(Some(File(a, true)), Some(File(m, true))), link);
      CleanUp(previous, t);
      Outcome(SaveScript(old(fs.disk), id, t, s, m, a));
      SaveLeaves(old(fs.disk), id, t, s, m, a);
      return Done;
    }

    /** Writes the new attributes beside the store and moves them in. */
    method ReplaceAttributes(current: Target, a: Attributes, t: string)
      requires fs.Valid() && t !in fs.disk.scratch && StoreExists(fs.disk, current)
      modifies fs
      ensures Took(UpdateScript(t, current, a))
    {
      fs.Do(WriteTempAttributes(t, a));
      fs.Do(SyncTempAttributes(t));
      fs.Do(RenameAttributes(t, current));
      fs.Do(SyncStore(current));
    }

    method UpdateCheckpointAttributes(id: ModelId, a: Attributes, t: string) returns (status: Status)
      requires fs.Valid() && t !in fs.disk.scratch
      modifies fs
      ensures status == if OldStore(old(fs.disk), id).Some? then Done else ModelNotFound
      ensures Took(if status.Done? then UpdateScript(t, OldStore(old(fs.disk), id).value, a) else [])
      ensures status.Done? ==>
        var before, current := old(fs.disk), OldStore(old(fs.disk), id).value;
        fs.disk == WithStore(before, current, Store(Some(File(a, true)), StoreAt(before, current).instance))
    {
      match OldStore(fs.disk, id)
      case None =>
        return ModelNotFound;
      case Some(current) =>
        ReplaceAttributes(current, a, t);
        Outcome(UpdateScript(t, current, a));
        UpdateLeaves(old(fs.disk), current, t, a);
        return Done;
    }

    /** Points the link of the copy into the destination, if it leads to a store. */
    method Relink(source: Option<Target>, destination: ModelId, t: string)
      requires fs.Valid() && t in fs.disk.scratch && fs.disk.scratch[t].entry.Some?
      requires source.Some? ==> fs.disk.scratch[t].entry.value.link.Some?
      modifies fs
      ensures Took(match source {
        case Some(store) => [UnlinkTempEntry(t), LinkTempEntry(t, Target(destination, store.store))]
        case None => []
      })
      ensures fs.disk.entries == old(fs.disk).entries
      ensures t in fs.disk.scratch && fs.disk.scratch[t].entry.Some?
    {
      if source.Some? {
        fs.Do(UnlinkTempEntry(t));
        fs.Do(LinkTempEntry(t, Target(destination, source.value.store)));
      }
    }

    /** Copies the entry into a scratch directory. */
    method CopyIntoScratch(id: ModelId, destination: ModelId, t: string)
      requires fs.Valid() && t !in fs.disk.scratch && id in fs.disk.entries
      modifies fs
      ensures Took(CloneBuild(old(fs.disk), id, destination, t))
      ensures fs.disk.entries == old(fs.disk).entries
      ensures t in fs.disk.scratch && fs.disk.scratch[t].entry.Some?
    {
      fs.Do(MakeTemp(t));
      fs.Do(CopyEntry(t, id));
      Relink(OldStore(fs.disk, id), destination, t);
      fs.Do(SyncTempEntry(t));
    }

    method Clone(id: ModelId, destination: ModelId, t: string) returns (status: Status)
      requires fs.Valid() && t !in fs.disk.scratch
      modifies fs
      ensures status ==
        if id !in old(fs.disk).entries then ModelNotFound
        else if destination in old(fs.disk).entries then ModelAlreadyExists
        else Done
      ensures Took(if status.Done? then CloneScript(old(fs.disk), id, destination, t) else [])
      ensures status.Done? && Healthy(old(fs.disk), id) ==>
        var before, now := old(fs.disk), fs.disk;
        && destination in now.entries
        && CopyOf(now.entries[destination], before.entries[id], destination)
        && now == Disk(before.entries[destination := now.entries[destination]], before.scratch)
    {
      if id !in fs.disk.entries {
        return ModelNotFound;
      }
      if destination in fs.disk.entries {
        return ModelAlreadyExists;
      }
      CopyIntoScratch(id, destination, t);
      PublishEntry(destination, t);
      Outcome(CloneScript(old(fs.disk), id, destination, t));
      if Healthy(old(fs.disk), id) {
        ghost var copy := CloneLeaves(old(fs.disk), id, destination, t);
      }
      return Done;
    }

    method Remove(id: ModelId, t: string) returns (status: Status)
      requires fs.Valid() && t !in fs.disk.scratch
      modifies fs
      ensures status == if id in old(fs.disk).entries then Done else ModelNotFound
      ensures Took(if status.Done? then RemoveScript(id, t) else [MakeTemp(t), RemoveTemp(t)])
      ensures fs.disk == Disk(old(fs.disk).entries - {id}, old(fs.disk).scratch)
    {
      fs.Do(MakeTemp(t));
      if id !in fs.disk.entries {
        fs.Do(RemoveTemp(t));
        Outcome([MakeTemp(t), RemoveTemp(t)]);
        NothingRemoved(old(fs.disk), t);
        assert fs.disk.entries - {id} == fs.disk.entries;
        return ModelNotFound;
      }
      fs.Do(TrashEntry(id, t));
      fs.Do(SyncRoot);
      fs.Do(RemoveTemp(t));
      Outcome(RemoveScript(id, t));
      RemoveLeaves(old(fs.disk), id, t);
      return Done;
    }

    /** The definition, or None for ModelNotFound. */
    method LoadModelDefinition(id: ModelId) returns (r: Option<Definition>)
      requires Healthy(fs.disk, id)
      ensures r == match Recover(fs.disk, id) {
        case Defined(definition) => Some(definition)
        case Checkpointed(definition, _, _) => Some(definition)
        case _ => None
      }
    {
      if id !in fs.disk.entries {
        return None;
      }
      return Some(fs.disk.entries[id].definition.content);
    }

    /** The snapshot of the current checkpoint, or None for ModelNotFound. */
    method Load(id: ModelId) returns (r: Option<Model>)
      requires Healthy(fs.disk, id)
      ensures r == if Recover(fs.disk, id).Checkpointed? then Some(Recover(fs.disk, id).instance) else None
    {
      match OldStore(fs.disk, id)
      case None => return None;
      case Some(current) => return Some(StoreAt(fs.disk, current).instance.value.content);
    }

    /** The attributes of the current checkpoint, or None for ModelNotFound. */
    method LoadCheckpointAttributes(id: ModelId) returns (r: Option<Attributes>)
      requires Healthy(fs.disk, id)
      ensures r == if Recover(fs.disk, id).Checkpointed? then Some(Recover(fs.disk, id).attributes) else None
    {
      match OldStore(fs.disk, id)
      case None => return None;
      case Some(current) => return Some(StoreAt(fs.disk, current).attributes.value.content);
    }
  }
}
