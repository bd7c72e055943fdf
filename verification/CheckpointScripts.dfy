/**
 * Each operation of the checkpoint manager as the list of file-system steps it takes, and
 * what a restarted process finds after a crash between any two of them.
 */
module CheckpointScripts {
  import opened Basics
  import opened Opf
  import opened CheckpointDisk

  function LinkOf(d: Disk, id: ModelId): Option<Target> {
    if id in d.entries then d.entries[id].link else None
  }

  // ----- the scripts -----

  /** The store the current link leads to, if it is there. */
  function OldStore(d: Disk, id: ModelId): Option<Target> {
    match LinkOf(d, id)
    case Some(target) => if StoreExists(d, target) then Some(target) else None
    case None => None
  }

  /** Deleting a store directory: its files one by one, then the directory. */
  function RemoveTree(d: Disk, target: Target): seq<Op>
    requires StoreExists(d, target)
  {
    (if StoreAt(d, target).attributes.Some? then [RemoveAttributes(target)] else [])
    + (if StoreAt(d, target).instance.Some? then [RemoveInstance(target)] else [])
    + [RemoveStore(target)]
  }

  function SaveBuild(id: ModelId, t: string, s: string, m: Model, a: Attributes): seq<Op> {
    [MakeTemp(t), WriteTempStore(t, a), WriteTempInstance(t, m), SyncTempStore(t),
     RenameStore(t, id, s), LinkTemp(t, Target(id, s))]
  }

  function SaveCleanup(d: Disk, id: ModelId, t: string): seq<Op> {
    (match OldStore(d, id) { case Some(previous) => RemoveTree(d, previous) case None => [] }) + [RemoveTemp(t)]
  }

  function SaveScript(d: Disk, id: ModelId, t: string, s: string, m: Model, a: Attributes): seq<Op> {
    SaveBuild(id, t, s, m, a) + [RenameLink(t, id), SyncEntry(id)] + SaveCleanup(d, id, t)
  }

  function UpdateScript(t: string, current: Target, a: Attributes): seq<Op> {
    [WriteTempAttributes(t, a), SyncTempAttributes(t), RenameAttributes(t, current), SyncStore(current)]
  }

  function DefineScript(id: ModelId, t: string, definition: Definition): seq<Op> {
    [MakeTemp(t), WriteTempEntry(t, definition), SyncTempEntry(t), RenameEntry(t, id), SyncRoot, RemoveTemp(t)]
  }

  function CloneBuild(d: Disk, id: ModelId, destination: ModelId, t: string): seq<Op> {
    [MakeTemp(t), CopyEntry(t, id)]
    + (match OldStore(d, id) {
         case Some(source) => [UnlinkTempEntry(t), LinkTempEntry(t, Target(destination, source.store))]
         case None => []
       })
    + [SyncTempEntry(t)]
  }

  function CloneScript(d: Disk, id: ModelId, destination: ModelId, t: string): seq<Op> {
    CloneBuild(d, id, destination, t) + [RenameEntry(t, destination), SyncRoot, RemoveTemp(t)]
  }

  function RemoveScript(id: ModelId, t: string): seq<Op> {
    [MakeTemp(t), TrashEntry(id, t), SyncRoot, RemoveTemp(t)]
  }

  // ----- steps that cannot change what is recovered -----

  /** With its link pointing at link, nothing recovered for id depends on op. */
  predicate Quiet(op: Op, id: ModelId, link: Option<Target>) {
    match op
    case RenameLink(_, x) => x != id
    case RenameEntry(_, x) => x != id
    case TrashEntry(x, _) => x != id
    case RemoveAttributes(target) => Some(target) != link
    case RemoveInstance(target) => Some(target) != link
    case RemoveStore(target) => Some(target) != link
    case RenameAttributes(_, target) => Some(target) != link
    case _ => true
  }

  /** Steps that change what is under the entries. */
  predicate TouchesEntries(op: Op) {
    op.RenameStore? || op.RenameLink? || op.RemoveAttributes? || op.RemoveInstance? || op.RemoveStore?
    || op.RenameAttributes? || op.RenameEntry? || op.TrashEntry?
  }

  lemma ScratchStep(op: Op, d: Disk)
    requires !TouchesEntries(op)
    ensures Apply(op, d).entries == d.entries
  {
  }

  lemma EntryStep(op: Op, d: Disk, id: ModelId)
    requires Healthy(d, id) && Quiet(op, id, LinkOf(d, id)) && TouchesEntries(op)
    ensures Healthy(Apply(op, d), id)
    ensures Recover(Apply(op, d), id) == Recover(d, id) && LinkOf(Apply(op, d), id) == LinkOf(d, id)
  {
  }

  lemma QuietStep(op: Op, d: Disk, id: ModelId)
    requires Healthy(d, id) && Quiet(op, id, LinkOf(d, id))
    ensures Healthy(Apply(op, d), id)
    ensures Recover(Apply(op, d), id) == Recover(d, id) && LinkOf(Apply(op, d), id) == LinkOf(d, id)
  {
    if TouchesEntries(op) {
      EntryStep(op, d, id);
    } else {
      ScratchStep(op, d);
    }
  }

  lemma {:induction false} QuietSteps(ops: seq<Op>, d: Disk, id: ModelId)
    requires Healthy(d, id) && forall op | op in ops :: Quiet(op, id, LinkOf(d, id))
    ensures Healthy(ApplyAll(ops, d), id)
    ensures Recover(ApplyAll(ops, d), id) == Recover(d, id) && LinkOf(ApplyAll(ops, d), id) == LinkOf(d, id)
    decreases |ops|
  {
    if ops != [] {
      QuietSteps(ops[..|ops| - 1], d, id);
      QuietStep(ops[|ops| - 1], ApplyAll(ops[..|ops| - 1], d), id);
    }
  }

  lemma ApplyOne(a: Op, d: Disk)
    ensures ApplyAll([a], d) == Apply(a, d)
  {
    assert [a][..0] == [];
  }

  lemma ApplyTwo(a: Op, b: Op, d: Disk)
    ensures ApplyAll([a, b], d) == Apply(b, Apply(a, d))
  {
    assert [a, b][..1] == [a];
    ApplyOne(a, d);
  }

  // ----- save -----

  /** What save needs: the entry exists and both names are new. */
  predicate CanSave(d: Disk, id: ModelId, t: string, s: string) {
    id in d.entries && Healthy(d, id) && t !in d.scratch && s !in d.entries[id].stores
  }

  lemma SaveBuilt(d: Disk, id: ModelId, t: string, s: string, m: Model, a: Attributes)
    requires CanSave(d, id, t, s)
    ensures
      var built := ApplyAll(SaveBuild(id, t, s, m, a), d);
      && built.entries == d.entries[id := d.entries[id].(stores :=
           d.entries[id].stores[s := Store(Some(File(a, true)), Some(File(m, true)))])]
      && t in built.scratch && built.scratch[t].link == Some(Target(id, s))
  {
    var ops := SaveBuild(id, t, s, m, a);
    var first, second, third := [ops[0], ops[1]], [ops[2], ops[3]], [ops[4], ops[5]];
    assert ops == first + second + third;
    ApplyAllAppend(first + second, third, d);
    ApplyAllAppend(first, second, d);
    ApplyTwo(ops[0], ops[1], d);
    ApplyTwo(ops[2], ops[3], ApplyAll(first, d));
    ApplyTwo(ops[4], ops[5], ApplyAll(second, ApplyAll(first, d)));
  }

  function Saved(d: Disk, id: ModelId, m: Model, a: Attributes): Recovered
    requires id in d.entries
  {
    Checkpointed(d.entries[id].definition.content, m, a)
  }

  const SAVE_SWITCH := 7

  lemma SaveSwitched(d: Disk, id: ModelId, t: string, s: string, m: Model, a: Attributes)
    requires CanSave(d, id, t, s)
    ensures
      var switched := ApplyAll(SaveBuild(id, t, s, m, a) + [RenameLink(t, id)], d);
      && Healthy(switched, id)
      && Recover(switched, id) == Saved(d, id, m, a)
      && LinkOf(switched, id) == Some(Target(id, s))
  {
    SaveBuilt(d, id, t, s, m, a);
    ApplyAllAppend(SaveBuild(id, t, s, m, a), [RenameLink(t, id)], d);
    ApplyOne(RenameLink(t, id), ApplyAll(SaveBuild(id, t, s, m, a), d));
  }

  lemma SaveCleanupQuiet(d: Disk, id: ModelId, t: string, s: string)
    requires CanSave(d, id, t, s)
    ensures forall op | op in [SyncEntry(id)] + SaveCleanup(d, id, t) :: Quiet(op, id, Some(Target(id, s)))
  {
  }

  /**
   * script is an atomic change of what is recovered for id: up to the switching step id recovers as
   * on d, from it on as after, and a flush follows the switch.
   */
  ghost predicate Switches(d: Disk, id: ModelId, script: seq<Op>, switch: nat, after: Recovered) {
    && 0 < switch <= FlushedUpTo(script)
    && forall j | 0 <= j <= |script| ::
         && Healthy(ApplyAll(script[..j], d), id)
         && Recover(ApplyAll(script[..j], d), id) == if j < switch then Recover(d, id) else after
  }

  lemma {:induction false} FlushBeforeTail(a: seq<Op>, b: seq<Op>)
    requires a != [] && Flushes(a[|a| - 1])
    ensures FlushedUpTo(a + b) >= |a|
    decreases |b|
  {
    if b == [] {
      assert a + b == a;
    } else {
      assert (a + b)[..|a + b| - 1] == a + b[..|b| - 1];
      FlushBeforeTail(a, b[..|b| - 1]);
    }
  }

  /** A script of steps quiet for id, one switching step, and more quiet steps is an atomic change. */
  lemma SwitchesAround(d: Disk, id: ModelId, before: seq<Op>, switch: Op, flush: Op, tail: seq<Op>, after: Recovered)
    requires Healthy(d, id) && forall op | op in before :: Quiet(op, id, LinkOf(d, id))
    requires Flushes(flush)
    requires
      var switched := ApplyAll(before + [switch], d);
      && Healthy(switched, id) && Recover(switched, id) == after
      && forall op | op in tail :: Quiet(op, id, LinkOf(switched, id))
    ensures Switches(d, id, before + [switch, flush] + tail, |before| + 1, after)
  {
    var script := before + [switch, flush] + tail;
    FlushBeforeTail(before + [switch, flush], tail);
    forall j | 0 <= j <= |script|
      ensures Healthy(ApplyAll(script[..j], d), id)
      ensures Recover(ApplyAll(script[..j], d), id) == if j < |before| + 1 then Recover(d, id) else after
    {
      if j <= |before| {
        assert script[..j] == before[..j];
        QuietSteps(before[..j], d, id);
      } else {
        var rest := ([flush] + tail)[..j - |before| - 1];
        assert script[..j] == (before + [switch]) + rest;
        ApplyAllAppend(before + [switch], rest, d);
        assert forall op | op in rest :: op == flush || op in tail;
        QuietSteps(rest, ApplyAll(before + [switch], d), id);
      }
    }
  }

  /**
   * Crash atomicity: whatever step a crash follows and however much of the unsynced work it undoes,
   * id recovers as after a crash before the script, or exactly as after it. Once the script is
   * complete only the latter is left.
   */
  lemma CrashAtomic(fs: Fs, id: ModelId, script: seq<Op>, switch: nat, after: Recovered, i: nat, k: nat)
    requires Switches(View(fs), id, script, switch, after)
    requires i <= |script| && k <= |ExecAll(fs, script[..i]).pending|
    requires forall n | 0 <= n <= |fs.pending| :: Healthy(CrashView(fs, n), id)
    ensures
      var found := CrashView(ExecAll(fs, script[..i]), k);
      && Healthy(found, id)
      && (|| Recover(found, id) == after
          || (i < |script| &&
              exists n :: 0 <= n <= |fs.pending| && Recover(found, id) == Recover(CrashView(fs, n), id)))
  {
    assert fs.pending[..|fs.pending|] == fs.pending && CrashView(fs, |fs.pending|) == View(fs);
    assert script[..|script|] == script;
    var j := CrashViews(fs, script[..i], k);
    assert script[..i][..j] == script[..j];
    var found := CrashView(ExecAll(fs, script[..i]), k);
    if found == ApplyAll(script[..j], View(fs)) {
      assert Recover(CrashView(fs, |fs.pending|), id) == Recover(View(fs), id);
    } else {
      assert found == CrashView(fs, k);
    }
  }

  /** A flush comes before the switching step as well, so that a crash undoes one change at most. */
  ghost predicate Prepared(script: seq<Op>, switch: nat) {
    exists j {:trigger script[j]} :: 0 <= j < |script| && j + 1 < switch && Flushes(script[j])
  }

  /** Once its steps are all taken, an operation is settled: no crash brings back what it replaced. */
  lemma ScriptSettles(fs: Fs, id: ModelId, script: seq<Op>, switch: nat, after: Recovered)
    requires Switches(View(fs), id, script, switch, after)
    ensures AlwaysRecovers(ExecAll(fs, script), id, after) && Recover(View(ExecAll(fs, script)), id) == after
  {
    var now := ExecAll(fs, script);
    forall k {:trigger CrashView(now, k)} | 0 <= k <= |now.pending|
      ensures Healthy(CrashView(now, k), id) && Recover(CrashView(now, k), id) == after
    {
      var j := CrashViews(fs, script, k);
    }
    ExecView(fs, script);
    assert script[..|script|] == script;
  }

  /** save replaces what is recovered by the saved snapshot and attributes, atomically. */
  lemma SaveSwitches(d: Disk, id: ModelId, t: string, s: string, m: Model, a: Attributes)
    requires CanSave(d, id, t, s)
    ensures Switches(d, id, SaveScript(d, id, t, s, m, a), SAVE_SWITCH, Saved(d, id, m, a))
    ensures Prepared(SaveScript(d, id, t, s, m, a), SAVE_SWITCH)
  {
    assert SaveScript(d, id, t, s, m, a)[3] == SyncTempStore(t);
    SaveSwitched(d, id, t, s, m, a);
    SaveCleanupQuiet(d, id, t, s);
    SwitchesAround(d, id, SaveBuild(id, t, s, m, a), RenameLink(t, id), SyncEntry(id), SaveCleanup(d, id, t),
                   Saved(d, id, m, a));
  }

  // ----- updateCheckpointAttributes -----

  predicate CanUpdate(d: Disk, id: ModelId, t: string) {
    Healthy(d, id) && Recover(d, id).Checkpointed? && t !in d.scratch
  }

  lemma UpdateApplied(d: Disk, id: ModelId, t: string, a: Attributes)
    requires CanUpdate(d, id, t)
    ensures
      var current := LinkOf(d, id).value;
      var prepared := Apply(SyncTempAttributes(t), Apply(WriteTempAttributes(t, a), d));
      var switched := Apply(RenameAttributes(t, current), prepared);
      Healthy(switched, id) && Recover(switched, id) == Recover(d, id).(attributes := a)
  {
    var written := Apply(WriteTempAttributes(t, a), d);
    var prepared := Apply(SyncTempAttributes(t), written);
    assert prepared.entries == d.entries && prepared.scratch[t].attributes == Some(File(a, true));
  }

  lemma ApplyThree(a: Op, b: Op, c: Op, d: Disk)
    ensures ApplyAll([a, b] + [c], d) == Apply(c, Apply(b, Apply(a, d)))
  {
    ApplyAllAppend([a, b], [c], d);
    ApplyTwo(a, b, d);
    ApplyOne(c, ApplyAll([a, b], d));
  }

  /** updateCheckpointAttributes replaces the attributes and keeps the snapshot, atomically. */
  lemma UpdateSwitches(d: Disk, id: ModelId, t: string, a: Attributes)
    requires CanUpdate(d, id, t)
    ensures Switches(d, id, UpdateScript(t, LinkOf(d, id).value, a), 3, Recover(d, id).(attributes := a))
    ensures Prepared(UpdateScript(t, LinkOf(d, id).value, a), 3)
  {
    assert UpdateScript(t, LinkOf(d, id).value, a)[1] == SyncTempAttributes(t);
    var current := LinkOf(d, id).value;
    var before, switch := [WriteTempAttributes(t, a), SyncTempAttributes(t)], RenameAttributes(t, current);
    UpdateApplied(d, id, t, a);
    ApplyThree(before[0], before[1], switch, d);
    assert UpdateScript(t, current, a) == before + [switch, SyncStore(current)] + [];
    SwitchesAround(d, id, before, switch, SyncStore(current), [], Recover(d, id).(attributes := a));
  }

  // ----- define -----

  lemma DefineApplied(d: Disk, id: ModelId, t: string, definition: Definition)
    requires id !in d.entries && t !in d.scratch
    ensures
      var prepared := Apply(SyncTempEntry(t), Apply(WriteTempEntry(t, definition), Apply(MakeTemp(t), d)));
      var switched := Apply(RenameEntry(t, id), prepared);
      Healthy(switched, id) && Recover(switched, id) == Defined(definition)
  {
    var written := Apply(WriteTempEntry(t, definition), Apply(MakeTemp(t), d));
    assert written.scratch[t].entry == Some(Entry(File(definition, false), map[], None));
    var prepared := Apply(SyncTempEntry(t), written);
    assert prepared.entries == d.entries && prepared.scratch[t].entry.value.definition == File(definition, true);
  }

  /** define creates the entry, atomically. */
  lemma DefineSwitches(d: Disk, id: ModelId, t: string, definition: Definition)
    requires id !in d.entries && t !in d.scratch
    ensures Switches(d, id, DefineScript(id, t, definition), 4, Defined(definition))
    ensures Prepared(DefineScript(id, t, definition), 4)
  {
    assert DefineScript(id, t, definition)[2] == SyncTempEntry(t);
    var before, switch := [MakeTemp(t), WriteTempEntry(t, definition), SyncTempEntry(t)], RenameEntry(t, id);
    assert before == [before[0], before[1]] + [before[2]];
    ApplyThree(before[0], before[1], before[2], d);
    ApplyAllAppend(before, [switch], d);
    ApplyOne(switch, ApplyAll(before, d));
    DefineApplied(d, id, t, definition);
    assert DefineScript(id, t, definition) == before + [switch, SyncRoot] + [RemoveTemp(t)];
    SwitchesAround(d, id, before, switch, SyncRoot, [RemoveTemp(t)], Defined(definition));
  }

  // ----- clone -----

  predicate CanClone(d: Disk, id: ModelId, destination: ModelId, t: string) {
    id in d.entries && Healthy(d, id) && destination !in d.entries && t !in d.scratch
  }

  /** The prepared copy of an entry, its link re-pointed into the destination. */
  function ClonedEntry(d: Disk, id: ModelId, destination: ModelId): Entry
    requires id in d.entries
  {
    SyncedEntry(CopiedEntry(d.entries[id]).(link :=
      match OldStore(d, id) {
        case None => d.entries[id].link
        case Some(source) => Some(Target(destination, source.store))
      }))
  }

  lemma CloneRelinked(d: Disk, t: string, copy: Entry, destination: ModelId, store: string)
    requires t in d.scratch && d.scratch[t].entry == Some(copy) && copy.link.Some?
    ensures
      var relinked := Apply(LinkTempEntry(t, Target(destination, store)), Apply(UnlinkTempEntry(t), d));
      && relinked.entries == d.entries && t in relinked.scratch
      && relinked.scratch[t].entry == Some(copy.(link := Some(Target(destination, store))))
  {
  }

  lemma CloneSynced(d: Disk, t: string, copy: Entry)
    requires t in d.scratch && d.scratch[t].entry == Some(copy)
    ensures
      var synced := Apply(SyncTempEntry(t), d);
      synced.entries == d.entries && t in synced.scratch && synced.scratch[t].entry == Some(SyncedEntry(copy))
  {
  }

  lemma CloneApplied(d: Disk, id: ModelId, destination: ModelId, t: string)
    requires CanClone(d, id, destination, t)
    ensures
      var copied := Apply(CopyEntry(t, id), Apply(MakeTemp(t), d));
      var relinked :=
        match OldStore(d, id) {
          case None => copied
          case Some(source) =>
            Apply(LinkTempEntry(t, Target(destination, source.store)), Apply(UnlinkTempEntry(t), copied))
        };
      var built := Apply(SyncTempEntry(t), relinked);
      && built.entries == d.entries && t in built.scratch
      && built.scratch[t].entry == Some(ClonedEntry(d, id, destination))
  {
    var copied := Apply(CopyEntry(t, id), Apply(MakeTemp(t), d));
    assert copied.entries == d.entries && copied.scratch[t].entry == Some(CopiedEntry(d.entries[id]));
    var copy := CopiedEntry(d.entries[id]);
    match OldStore(d, id)
    case None =>
      CloneSynced(copied, t, copy);
    case Some(source) =>
      CloneRelinked(copied, t, copy, destination, source.store);
      CloneSynced(Apply(LinkTempEntry(t, Target(destination, source.store)), Apply(UnlinkTempEntry(t), copied)), t,
                  copy.(link := Some(Target(destination, source.store))));
  }

  lemma CloneBuilt(d: Disk, id: ModelId, destination: ModelId, t: string)
    requires CanClone(d, id, destination, t)
    ensures
      var built := ApplyAll(CloneBuild(d, id, destination, t), d);
      && built.entries == d.entries && t in built.scratch
      && built.scratch[t].entry == Some(ClonedEntry(d, id, destination))
  {
    CloneApplied(d, id, destination, t);
    var start := [MakeTemp(t), CopyEntry(t, id)];
    match OldStore(d, id)
    case None =>
      assert CloneBuild(d, id, destination, t) == start + [SyncTempEntry(t)];
      ApplyThree(start[0], start[1], SyncTempEntry(t), d);
    case Some(source) =>
      var relink := [UnlinkTempEntry(t), LinkTempEntry(t, Target(destination, source.store))];
      assert CloneBuild(d, id, destination, t) == start + (relink + [SyncTempEntry(t)]);
      ApplyAllAppend(start, relink + [SyncTempEntry(t)], d);
      ApplyTwo(start[0], start[1], d);
      ApplyThree(relink[0], relink[1], SyncTempEntry(t), ApplyAll(start, d));
  }

  lemma CloneRecovered(d: Disk, id: ModelId, destination: ModelId, t: string, built: Disk)
    requires CanClone(d, id, destination, t)
    requires built.entries == d.entries && t in built.scratch
    requires built.scratch[t].entry == Some(ClonedEntry(d, id, destination))
    ensures
      var switched := Apply(RenameEntry(t, destination), built);
      Healthy(switched, destination) && Recover(switched, destination) == Recover(d, id)
  {
    var e := ClonedEntry(d, id, destination);
    assert Apply(RenameEntry(t, destination), built).entries == d.entries[destination := e];
    assert e.stores.Keys == d.entries[id].stores.Keys;
  }

  /** Clone fidelity: the new entry recovers, atomically, exactly what the source recovers. */
  lemma CloneSwitches(d: Disk, id: ModelId, destination: ModelId, t: string)
    requires CanClone(d, id, destination, t)
    ensures Switches(d, destination, CloneScript(d, id, destination, t),
                     |CloneBuild(d, id, destination, t)| + 1, Recover(d, id))
  {
    var before, switch := CloneBuild(d, id, destination, t), RenameEntry(t, destination);
    CloneBuilt(d, id, destination, t);
    CloneRecovered(d, id, destination, t, ApplyAll(before, d));
    ApplyAllAppend(before, [switch], d);
    ApplyOne(switch, ApplyAll(before, d));
    assert CloneScript(d, id, destination, t) == before + [switch, SyncRoot] + [RemoveTemp(t)];
    SwitchesAround(d, destination, before, switch, SyncRoot, [RemoveTemp(t)], Recover(d, id));
  }

  // ----- remove -----

  /** remove makes the model unknown, atomically. */
  lemma RemoveSwitches(d: Disk, id: ModelId, t: string)
    requires id in d.entries && Healthy(d, id) && t !in d.scratch
    ensures Switches(d, id, RemoveScript(id, t), 2, NoEntry)
  {
    ApplyTwo(MakeTemp(t), TrashEntry(id, t), d);
    assert [MakeTemp(t)] + [TrashEntry(id, t)] == [MakeTemp(t), TrashEntry(id, t)];
    assert RemoveScript(id, t) == [MakeTemp(t)] + [TrashEntry(id, t), SyncRoot] + [RemoveTemp(t)];
    SwitchesAround(d, id, [MakeTemp(t)], TrashEntry(id, t), SyncRoot, [RemoveTemp(t)], NoEntry);
  }

  // ----- one model's operations never touch another's -----

  /** The step lists the manager runs for id on d; a clone is listed under its destination. */
  ghost predicate IsScriptFor(script: seq<Op>, d: Disk, id: ModelId) {
    || (exists t, s, m, a :: CanSave(d, id, t, s) && script == SaveScript(d, id, t, s, m, a))
    || (exists t, a :: CanUpdate(d, id, t) && script == UpdateScript(t, LinkOf(d, id).value, a))
    || (exists t, definition :: id !in d.entries && script == DefineScript(id, t, definition))
    || (exists source, t :: CanClone(d, source, id, t) && script == CloneScript(d, source, id, t))
    || (exists t :: id in d.entries && Healthy(d, id) && script == RemoveScript(id, t))
  }

  lemma SaveQuietForOthers(d: Disk, id: ModelId, other: ModelId, t: string, s: string, m: Model, a: Attributes)
    requires id != other && Healthy(d, other) && CanSave(d, id, t, s)
    ensures forall op | op in SaveScript(d, id, t, s, m, a) :: Quiet(op, other, LinkOf(d, other))
  {
    assert LinkOf(d, other).Some? ==> LinkOf(d, other).value.owner == other;
    assert OldStore(d, id).Some? ==> OldStore(d, id).value.owner == id;
    assert forall op | op in SaveBuild(id, t, s, m, a) :: Quiet(op, other, LinkOf(d, other));
    assert forall op | op in SaveCleanup(d, id, t) :: Quiet(op, other, LinkOf(d, other));
  }

  lemma CloneQuietForOthers(d: Disk, source: ModelId, id: ModelId, other: ModelId, t: string)
    requires id != other && Healthy(d, other) && CanClone(d, source, id, t)
    ensures forall op | op in CloneScript(d, source, id, t) :: Quiet(op, other, LinkOf(d, other))
  {
  }

  lemma UpdateQuietForOthers(d: Disk, id: ModelId, other: ModelId, t: string, a: Attributes)
    requires id != other && Healthy(d, other) && CanUpdate(d, id, t)
    ensures forall op | op in UpdateScript(t, LinkOf(d, id).value, a) :: Quiet(op, other, LinkOf(d, other))
  {
    assert LinkOf(d, id).value.owner == id;
    assert LinkOf(d, other).Some? ==> LinkOf(d, other).value.owner == other;
  }

  lemma ScriptQuietForOthers(d: Disk, id: ModelId, other: ModelId, script: seq<Op>)
    requires id != other && Healthy(d, other) && IsScriptFor(script, d, id)
    ensures forall op | op in script :: Quiet(op, other, LinkOf(d, other))
  {
    if t, s, m, a :| CanSave(d, id, t, s) && script == SaveScript(d, id, t, s, m, a) {
      SaveQuietForOthers(d, id, other, t, s, m, a);
    } else if source, t :| CanClone(d, source, id, t) && script == CloneScript(d, source, id, t) {
      CloneQuietForOthers(d, source, id, other, t);
    } else if t, a :| CanUpdate(d, id, t) && script == UpdateScript(t, LinkOf(d, id).value, a) {
      UpdateQuietForOthers(d, id, other, t, a);
    }
  }

  /** Independence, of clones in particular: after any prefix of any script for id another model recovers as before. */
  lemma OthersUnchanged(d: Disk, id: ModelId, other: ModelId, script: seq<Op>, j: nat)
    requires id != other && Healthy(d, other) && IsScriptFor(script, d, id) && j <= |script|
    ensures Healthy(ApplyAll(script[..j], d), other)
    ensures Recover(ApplyAll(script[..j], d), other) == Recover(d, other)
  {
    ScriptQuietForOthers(d, id, other, script);
    QuietSteps(script[..j], d, other);
  }

  /**
   * Any number of operations, one after the other from d, on models other than this one; each may
   * have been cut short.
   */
  ghost predicate Operations(d: Disk, other: ModelId, parts: seq<seq<Op>>)
    decreases |parts|
  {
    parts == [] || (PartElsewhere(d, other, parts[0]) && Operations(ApplyAll(parts[0], d), other, parts[1..]))
  }

  ghost predicate PartElsewhere(d: Disk, other: ModelId, part: seq<Op>) {
    exists id, script :: id != other && IsScriptFor(script, d, id) && part <= script
  }

  function Concat(parts: seq<seq<Op>>): seq<Op>
    decreases |parts|
  {
    if parts == [] then [] else parts[0] + Concat(parts[1..])
  }

  lemma {:induction false} OperationsQuiet(d: Disk, other: ModelId, parts: seq<seq<Op>>)
    requires Healthy(d, other) && Operations(d, other, parts)
    ensures forall op | op in Concat(parts) :: Quiet(op, other, LinkOf(d, other))
    decreases |parts|
  {
    if parts != [] {
      var id, script :| id != other && IsScriptFor(script, d, id) && parts[0] <= script;
      ScriptQuietForOthers(d, id, other, script);
      QuietSteps(parts[0], d, other);
      OperationsQuiet(ApplyAll(parts[0], d), other, parts[1..]);
    }
  }

  /**
   * Independence over time: whatever operations run on other models and wherever a crash strikes
   * among their steps, this model recovers as it could have before them, and as before without a crash.
   */
  lemma OthersRecover(fs: Fs, other: ModelId, parts: seq<seq<Op>>, i: nat, k: nat)
    requires forall n | 0 <= n <= |fs.pending| :: Healthy(CrashView(fs, n), other)
    requires Operations(View(fs), other, parts) && i <= |Concat(parts)|
    requires k <= |ExecAll(fs, Concat(parts)[..i]).pending|
    ensures
      var now := ExecAll(fs, Concat(parts)[..i]);
      && Recover(View(now), other) == Recover(View(fs), other)
      && Healthy(CrashView(now, k), other)
      && exists n :: 0 <= n <= |fs.pending| && Recover(CrashView(now, k), other) == Recover(CrashView(fs, n), other)
  {
    var ops := Concat(parts);
    assert fs.pending[..|fs.pending|] == fs.pending && CrashView(fs, |fs.pending|) == View(fs);
    OperationsQuiet(View(fs), other, parts);
    ExecView(fs, ops[..i]);
    QuietSteps(ops[..i], View(fs), other);
    var j := CrashViews(fs, ops[..i], k);
    QuietSteps(ops[..i][..j], View(fs), other);
  }
}
