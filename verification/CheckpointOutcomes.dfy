/** What each operation of the checkpoint manager leaves on disk when it is through. */
module CheckpointOutcomes {
  import opened Basics
  import opened Opf
  import opened CheckpointDisk
  import opened CheckpointScripts

  // ----- the scratch directory -----

  /** op touches no other directory under the scratch directory than t. */
  predicate OnlyTemp(op: Op, t: string) {
    match op
    case MakeTemp(x) => x == t
    case RemoveTemp(x) => x == t
    case WriteTempStore(x, _) => x == t
    case WriteTempInstance(x, _) => x == t
    case SyncTempStore(x) => x == t
    case RenameStore(x, _, _) => x == t
    case LinkTemp(x, _) => x == t
    case RenameLink(x, _) => x == t
    case WriteTempAttributes(x, _) => x == t
    case SyncTempAttributes(x) => x == t
    case RenameAttributes(x, _) => x == t
    case WriteTempEntry(x, _) => x == t
    case CopyEntry(x, _) => x == t
    case UnlinkTempEntry(x) => x == t
    case LinkTempEntry(x, _) => x == t
    case SyncTempEntry(x) => x == t
    case RenameEntry(x, _) => x == t
    case TrashEntry(_, x) => x == t
    case _ => true
  }

  lemma OtherTempsStay(op: Op, d: Disk, t: string)
    requires OnlyTemp(op, t)
    ensures Apply(op, d).scratch - {t} == d.scratch - {t}
  {
  }

  lemma {:induction false} OtherTempsKept(ops: seq<Op>, d: Disk, t: string)
    requires forall op | op in ops :: OnlyTemp(op, t)
    ensures ApplyAll(ops, d).scratch - {t} == d.scratch - {t}
    decreases |ops|
  {
    if ops != [] {
      var init := ops[..|ops| - 1];
      OtherTempsKept(init, d, t);
      OtherTempsStay(ops[|ops| - 1], ApplyAll(init, d), t);
    }
  }

  /** Steps in a new scratch directory, and its removal, leave the scratch directory as it was. */
  lemma ScratchAsBefore(ops: seq<Op>, d: Disk, t: string)
    requires t !in d.scratch && forall op | op in ops :: OnlyTemp(op, t)
    ensures ApplyAll(ops + [RemoveTemp(t)], d).scratch == d.scratch
    ensures ApplyAll(ops + [RemoveTemp(t)], d).entries == ApplyAll(ops, d).entries
  {
    OtherTempsKept(ops, d, t);
    assert (ops + [RemoveTemp(t)])[..|ops|] == ops;
    assert d.scratch - {t} == d.scratch;
    var built := ApplyAll(ops, d);
    assert t !in built.scratch ==> built.scratch - {t} == built.scratch;
  }

  // ----- save -----

  /** Deleting a store directory takes it, and nothing else, out of its entry. */
  lemma RemoveTreeLeaves(d: Disk, target: Target)
    requires StoreExists(d, target)
    ensures
      var e := d.entries[target.owner];
      ApplyAll(RemoveTree(d, target), d).entries == d.entries[target.owner := e.(stores := e.stores - {target.store})]
  {
    var first := if StoreAt(d, target).attributes.Some? then [RemoveAttributes(target)] else [];
    var second := if StoreAt(d, target).instance.Some? then [RemoveInstance(target)] else [];
    var d1 := ApplyAll(first, d);
    ApplyAllAppend(first + second, [RemoveStore(target)], d);
    ApplyAllAppend(first, second, d);
    assert d1 == if first == [] then d else Apply(RemoveAttributes(target), d) by {
      if first != [] {
        ApplyOne(first[0], d);
      }
    }
    StoreEmptied(d, target, d1, second);
    ApplyOne(RemoveStore(target), ApplyAll(second, d1));
    StoreGone(d, target, ApplyAll(second, d1));
  }

  lemma StoreEmptied(d: Disk, target: Target, d1: Disk, second: seq<Op>)
    requires StoreExists(d, target)
    requires d1 == if StoreAt(d, target).attributes.Some? then Apply(RemoveAttributes(target), d) else d
    requires second == if StoreAt(d, target).instance.Some? then [RemoveInstance(target)] else []
    ensures ApplyAll(second, d1).entries == WithStore(d, target, Store(None, None)).entries
  {
    if second != [] {
      ApplyOne(second[0], d1);
    }
    var empty := Store(None, None);
    WithStoreTwice(d, target, StoreAt(d, target).(attributes := None), empty);
    WithStoreAgain(d, target);
  }

  /** The second of two writes to a store hides the first. */
  lemma WithStoreTwice(d: Disk, target: Target, first: Store, second: Store)
    requires target.owner in d.entries
    ensures WithStore(WithStore(d, target, first), target, second) == WithStore(d, target, second)
  {
    var e := d.entries[target.owner];
    assert e.stores[target.store := first][target.store := second] == e.stores[target.store := second];
    var e1 := e.(stores := e.stores[target.store := first]);
    var e2 := e.(stores := e.stores[target.store := second]);
    assert d.entries[target.owner := e1][target.owner := e2] == d.entries[target.owner := e2];
  }

  lemma WithStoreAgain(d: Disk, target: Target)
    requires StoreExists(d, target)
    ensures WithStore(d, target, StoreAt(d, target)) == d
  {
    var e := d.entries[target.owner];
    assert e.stores[target.store := StoreAt(d, target)] == e.stores;
    assert d.entries[target.owner := e] == d.entries;
  }

  lemma StoreGone(d: Disk, target: Target, emptied: Disk)
    requires StoreExists(d, target) && emptied.entries == WithStore(d, target, Store(None, None)).entries
    ensures
      var e := d.entries[target.owner];
      Apply(RemoveStore(target), emptied).entries
        == d.entries[target.owner := e.(stores := e.stores - {target.store})]
  {
    var e := d.entries[target.owner];
    assert e.stores[target.store := Store(None, None)] - {target.store} == e.stores - {target.store};
  }

  /** The entry after a save: the new store in, the one the link led to out, the link re-pointed. */
  function SavedEntry(e: Entry, id: ModelId, s: string, m: Model, a: Attributes): Entry {
    var kept := e.stores - if e.link.Some? then {e.link.value.store} else {};
    Entry(e.definition, kept[s := Store(Some(File(a, true)), Some(File(m, true)))], Some(Target(id, s)))
  }

  /** The link moved, nothing deleted yet. */
  lemma SaveMoved(d: Disk, id: ModelId, t: string, s: string, m: Model, a: Attributes)
    requires CanSave(d, id, t, s)
    ensures
      var moved := ApplyAll(SaveBuild(id, t, s, m, a) + [RenameLink(t, id), SyncEntry(id)], d);
      moved.entries == d.entries[id := Entry(d.entries[id].definition,
        d.entries[id].stores[s := Store(Some(File(a, true)), Some(File(m, true)))], Some(Target(id, s)))]
  {
    var built := ApplyAll(SaveBuild(id, t, s, m, a), d);
    SaveBuilt(d, id, t, s, m, a);
    ApplyAllAppend(SaveBuild(id, t, s, m, a), [RenameLink(t, id), SyncEntry(id)], d);
    ApplyTwo(RenameLink(t, id), SyncEntry(id), built);
  }

  lemma CleanupLeaves(d: Disk, moved: Disk, id: ModelId, t: string, s: string, m: Model, a: Attributes)
    requires CanSave(d, id, t, s)
    requires moved.entries == d.entries[id := Entry(d.entries[id].definition,
      d.entries[id].stores[s := Store(Some(File(a, true)), Some(File(m, true)))], Some(Target(id, s)))]
    ensures
      var removal := match OldStore(d, id) { case Some(previous) => RemoveTree(d, previous) case None => [] };
      ApplyAll(removal, moved).entries == d.entries[id := SavedEntry(d.entries[id], id, s, m, a)]
  {
    match OldStore(d, id)
    case None =>
      assert d.entries[id].stores - {} == d.entries[id].stores;
    case Some(previous) =>
      assert previous.owner == id && StoreAt(moved, previous) == StoreAt(d, previous);
      assert RemoveTree(moved, previous) == RemoveTree(d, previous);
      RemoveTreeLeaves(moved, previous);
      var stores, new' := d.entries[id].stores, Store(Some(File(a, true)), Some(File(m, true)));
      assert stores[s := new'] - {previous.store} == (stores - {previous.store})[s := new'];
  }

  /**
   * After a save the entry has the stores it had, less the one its link led to, plus the new one, to which
   * the link leads; the other entries and the scratch directory are as before.
   */
  lemma SaveLeaves(d: Disk, id: ModelId, t: string, s: string, m: Model, a: Attributes)
    requires CanSave(d, id, t, s)
    ensures ApplyAll(SaveScript(d, id, t, s, m, a), d)
         == Disk(d.entries[id := SavedEntry(d.entries[id], id, s, m, a)], d.scratch)
  {
    var move := SaveBuild(id, t, s, m, a) + [RenameLink(t, id), SyncEntry(id)];
    var removal := match OldStore(d, id) { case Some(previous) => RemoveTree(d, previous) case None => [] };
    assert SaveScript(d, id, t, s, m, a) == move + removal + [RemoveTemp(t)];
    assert forall op | op in move + removal :: OnlyTemp(op, t);
    ScratchAsBefore(move + removal, d, t);
    ApplyAllAppend(move, removal, d);
    SaveMoved(d, id, t, s, m, a);
    CleanupLeaves(d, ApplyAll(move, d), id, t, s, m, a);
  }

  // ----- updateCheckpointAttributes -----

  /** After an update the store has the new attributes and the snapshot it had, and all else is as before. */
  lemma UpdateLeaves(d: Disk, current: Target, t: string, a: Attributes)
    requires StoreExists(d, current) && t !in d.scratch
    ensures ApplyAll(UpdateScript(t, current, a), d)
         == WithStore(d, current, Store(Some(File(a, true)), StoreAt(d, current).instance))
  {
    var first, second := [WriteTempAttributes(t, a), SyncTempAttributes(t)],
                         [RenameAttributes(t, current), SyncStore(current)];
    assert UpdateScript(t, current, a) == first + second;
    ApplyAllAppend(first, second, d);
    AttributesWritten(d, t, a);
    AttributesMoved(d, ApplyAll(first, d), t, current, a);
  }

  lemma AttributesWritten(d: Disk, t: string, a: Attributes)
    requires t !in d.scratch
    ensures ApplyAll([WriteTempAttributes(t, a), SyncTempAttributes(t)], d)
         == WithTemp(d, t, EMPTY_TEMP.(attributes := Some(File(a, true))))
  {
    ApplyTwo(WriteTempAttributes(t, a), SyncTempAttributes(t), d);
    var unsynced := EMPTY_TEMP.(attributes := Some(File(a, false)));
    var synced := EMPTY_TEMP.(attributes := Some(File(a, true)));
    assert d.scratch[t := unsynced][t := synced] == d.scratch[t := synced];
  }

  lemma AttributesMoved(d: Disk, written: Disk, t: string, current: Target, a: Attributes)
    requires t !in d.scratch && StoreExists(d, current)
    requires written == WithTemp(d, t, EMPTY_TEMP.(attributes := Some(File(a, true))))
    ensures ApplyAll([RenameAttributes(t, current), SyncStore(current)], written)
         == WithStore(d, current, Store(Some(File(a, true)), StoreAt(d, current).instance))
  {
    ApplyTwo(RenameAttributes(t, current), SyncStore(current), written);
    assert written.scratch - {t} == d.scratch;
  }

  // ----- define -----

  function Entered(d: Disk, id: ModelId, definition: Definition): map<ModelId, Entry> {
    d.entries[id := Entry(File(definition, true), map[], None)]
  }

  lemma EntryWritten(d: Disk, t: string, definition: Definition)
    requires t !in d.scratch
    ensures
      var written := ApplyAll([MakeTemp(t), WriteTempEntry(t, definition)], d);
      written == WithTemp(d, t, EMPTY_TEMP.(entry := Some(Entry(File(definition, false), map[], None))))
  {
    ApplyTwo(MakeTemp(t), WriteTempEntry(t, definition), d);
  }

  lemma EntryRenamed(d: Disk, written: Disk, id: ModelId, t: string, definition: Definition)
    requires id !in d.entries && t !in d.scratch
    requires written == WithTemp(d, t, EMPTY_TEMP.(entry := Some(Entry(File(definition, false), map[], None))))
    ensures
      var made := ApplyAll([SyncTempEntry(t), RenameEntry(t, id)], written);
      && made.entries == Entered(d, id, definition)
      && t in made.scratch && made.scratch - {t} == d.scratch
  {
    ApplyTwo(SyncTempEntry(t), RenameEntry(t, id), written);
    var synced := Apply(SyncTempEntry(t), written);
    assert synced.scratch[t].entry == Some(Entry(File(definition, true), map[], None));
  }

  lemma DefineMade(d: Disk, id: ModelId, t: string, definition: Definition)
    requires id !in d.entries && t !in d.scratch
    ensures
      var made := ApplyAll(DefineScript(id, t, definition)[..4], d);
      && made.entries == Entered(d, id, definition)
      && t in made.scratch && made.scratch - {t} == d.scratch
  {
    var a, b := [MakeTemp(t), WriteTempEntry(t, definition)], [SyncTempEntry(t), RenameEntry(t, id)];
    assert DefineScript(id, t, definition)[..4] == a + b;
    ApplyAllAppend(a, b, d);
    EntryWritten(d, t, definition);
    EntryRenamed(d, ApplyAll(a, d), id, t, definition);
  }

  lemma DefineLeaves(d: Disk, id: ModelId, t: string, definition: Definition)
    requires id !in d.entries && t !in d.scratch
    ensures ApplyAll(DefineScript(id, t, definition), d) == Disk(Entered(d, id, definition), d.scratch)
  {
    var tail := [SyncRoot, RemoveTemp(t)];
    assert DefineScript(id, t, definition) == DefineScript(id, t, definition)[..4] + tail;
    ApplyAllAppend(DefineScript(id, t, definition)[..4], tail, d);
    DefineMade(d, id, t, definition);
    ApplyTwo(tail[0], tail[1], ApplyAll(DefineScript(id, t, definition)[..4], d));
  }

  // ----- clone -----

  /** copy holds what e holds, all of it synced, its link re-pointed into the copy. */
  ghost predicate CopyOf(copy: Entry, e: Entry, destination: ModelId) {
    && copy.definition == File(e.definition.content, true)
    && copy.stores.Keys == e.stores.Keys
    && (forall s | s in e.stores :: copy.stores[s] == SyncedStore(e.stores[s]))
    && copy.link == if e.link.Some? then Some(Target(destination, e.link.value.store)) else None
  }

  lemma ClonedIsCopy(d: Disk, id: ModelId, destination: ModelId, t: string)
    requires CanClone(d, id, destination, t)
    ensures CopyOf(ClonedEntry(d, id, destination), d.entries[id], destination)
  {
  }

  /** After a clone there is one more entry, a copy; the other entries and the scratch directory are as before. */
  lemma CloneLeaves(d: Disk, id: ModelId, destination: ModelId, t: string) returns (copy: Entry)
    requires CanClone(d, id, destination, t)
    ensures CopyOf(copy, d.entries[id], destination)
    ensures ApplyAll(CloneScript(d, id, destination, t), d) == Disk(d.entries[destination := copy], d.scratch)
  {
    copy := ClonedEntry(d, id, destination);
    ClonedIsCopy(d, id, destination, t);
    var ops := CloneBuild(d, id, destination, t) + [RenameEntry(t, destination), SyncRoot];
    CloneInScratch(d, id, destination, t, ops);
    ScratchAsBefore(ops, d, t);
    CopyMoved(d, id, destination, t);
  }

  lemma CloneInScratch(d: Disk, id: ModelId, destination: ModelId, t: string, ops: seq<Op>)
    requires ops == CloneBuild(d, id, destination, t) + [RenameEntry(t, destination), SyncRoot]
    ensures CloneScript(d, id, destination, t) == ops + [RemoveTemp(t)]
    ensures forall op | op in ops :: OnlyTemp(op, t)
  {
  }

  lemma CopyMoved(d: Disk, id: ModelId, destination: ModelId, t: string)
    requires CanClone(d, id, destination, t)
    ensures
      var ops := CloneBuild(d, id, destination, t) + [RenameEntry(t, destination), SyncRoot];
      ApplyAll(ops, d).entries == d.entries[destination := ClonedEntry(d, id, destination)]
  {
    var build := CloneBuild(d, id, destination, t);
    CloneBuilt(d, id, destination, t);
    ApplyAllAppend(build, [RenameEntry(t, destination), SyncRoot], d);
    ApplyTwo(RenameEntry(t, destination), SyncRoot, ApplyAll(build, d));
  }

  // ----- remove -----

  /** After a removal the entry is gone; the others and the scratch directory are as before. */
  lemma RemoveLeaves(d: Disk, id: ModelId, t: string)
    requires id in d.entries && t !in d.scratch
    ensures ApplyAll(RemoveScript(id, t), d) == Disk(d.entries - {id}, d.scratch)
  {
    var ops := [MakeTemp(t), TrashEntry(id, t)] + [SyncRoot];
    assert RemoveScript(id, t) == ops + [RemoveTemp(t)];
    assert forall op | op in ops :: OnlyTemp(op, t);
    ScratchAsBefore(ops, d, t);
    EntryTrashed(d, id, t);
  }

  lemma EntryTrashed(d: Disk, id: ModelId, t: string)
    requires id in d.entries && t !in d.scratch
    ensures ApplyAll([MakeTemp(t), TrashEntry(id, t)] + [SyncRoot], d).entries == d.entries - {id}
  {
    ApplyThree(MakeTemp(t), TrashEntry(id, t), SyncRoot, d);
  }

  /** Looking for an entry to remove and not finding it leaves everything as it was. */
  lemma NothingRemoved(d: Disk, t: string)
    requires t !in d.scratch
    ensures ApplyAll([MakeTemp(t), RemoveTemp(t)], d) == d
  {
    assert [MakeTemp(t), RemoveTemp(t)] == [MakeTemp(t)] + [RemoveTemp(t)];
    ScratchAsBefore([MakeTemp(t)], d, t);
    ApplyOne(MakeTemp(t), d);
  }
}
