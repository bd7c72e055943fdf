/**
 * The checkpoint archive on disk. Disk is the directory tree of the archive; Op lists the
 * atomic steps the manager takes on it; Fs adds what a crash may undo. Recover is what a
 * restarted process reads back for one model.
 */
module CheckpointDisk {
  import opened Basics
  import opened Opf

  type ModelId = string
  type BatchId = string

  datatype Attributes = Attributes(batchIds: set<BatchId>, samples: Option<seq<Row>>)

  /** Until a file is synced a crash may leave anything in it. */
  datatype File<T> = File(content: T, synced: bool)

  datatype Store = Store(attributes: Option<File<Attributes>>, instance: Option<File<Model>>)

  /** An absolute link: a store directory inside some model's entry. */
  datatype Target = Target(owner: ModelId, store: string)

  datatype Entry = Entry(definition: File<Definition>, stores: map<string, Store>, link: Option<Target>)

  /** One directory under the scratch directory. */
  datatype Temp = Temp(store: Option<Store>, link: Option<Target>,
                       attributes: Option<File<Attributes>>, entry: Option<Entry>)

  const EMPTY_TEMP := Temp(None, None, None, None)

  datatype Disk = Disk(entries: map<ModelId, Entry>, scratch: map<string, Temp>)

  datatype Op =
    | MakeTemp(temp: string)
    | RemoveTemp(temp: string)
    | WriteTempStore(temp: string, attributes: Attributes)
    | WriteTempInstance(temp: string, model: Model)
    | SyncTempStore(temp: string)
    | RenameStore(temp: string, id: ModelId, store: string)
    | LinkTemp(temp: string, target: Target)
    | RenameLink(temp: string, id: ModelId)
    | SyncEntry(id: ModelId)
    | RemoveAttributes(target: Target)
    | RemoveInstance(target: Target)
    | RemoveStore(target: Target)
    | WriteTempAttributes(temp: string, attributes: Attributes)
    | SyncTempAttributes(temp: string)
    | RenameAttributes(temp: string, target: Target)
    | SyncStore(target: Target)
    | WriteTempEntry(temp: string, definition: Definition)
    | CopyEntry(temp: string, id: ModelId)
    | UnlinkTempEntry(temp: string)
    | LinkTempEntry(temp: string, target: Target)
    | SyncTempEntry(temp: string)
    | RenameEntry(temp: string, id: ModelId)
    | TrashEntry(id: ModelId, temp: string)
    | SyncRoot

  predicate StoreExists(d: Disk, target: Target) {
    target.owner in d.entries && target.store in d.entries[target.owner].stores
  }

  function StoreAt(d: Disk, target: Target): Store
    requires StoreExists(d, target)
  {
    d.entries[target.owner].stores[target.store]
  }

  /** The system call behind op succeeds on d. */
  predicate Enabled(op: Op, d: Disk) {
    match op
    case MakeTemp(t) => t !in d.scratch
    case RemoveTemp(t) => t in d.scratch
    case WriteTempStore(t, _) => t in d.scratch && d.scratch[t].store.None?
    case WriteTempInstance(t, _) => t in d.scratch && d.scratch[t].store.Some?
    case SyncTempStore(t) => t in d.scratch && d.scratch[t].store.Some?
    case RenameStore(t, id, s) =>
      t in d.scratch && d.scratch[t].store.Some? && id in d.entries && s !in d.entries[id].stores
    case LinkTemp(t, _) => t in d.scratch && d.scratch[t].link.None?
    case RenameLink(t, id) => t in d.scratch && d.scratch[t].link.Some? && id in d.entries
    case SyncEntry(id) => id in d.entries
    case RemoveAttributes(target) => StoreExists(d, target) && StoreAt(d, target).attributes.Some?
    case RemoveInstance(target) => StoreExists(d, target) && StoreAt(d, target).instance.Some?
    case RemoveStore(target) => StoreExists(d, target) && StoreAt(d, target) == Store(None, None)
    case WriteTempAttributes(t, _) => t !in d.scratch
    case SyncTempAttributes(t) => t in d.scratch && d.scratch[t].attributes.Some?
    case RenameAttributes(t, target) =>
      t in d.scratch && d.scratch[t].attributes.Some? && StoreExists(d, target)
    case SyncStore(target) => StoreExists(d, target)
    case WriteTempEntry(t, _) => t in d.scratch && d.scratch[t].entry.None?
    case CopyEntry(t, id) => t in d.scratch && d.scratch[t].entry.None? && id in d.entries
    case UnlinkTempEntry(t) => t in d.scratch && d.scratch[t].entry.Some? && d.scratch[t].entry.value.link.Some?
    case LinkTempEntry(t, _) => t in d.scratch && d.scratch[t].entry.Some? && d.scratch[t].entry.value.link.None?
    case SyncTempEntry(t) => t in d.scratch && d.scratch[t].entry.Some?
    case RenameEntry(t, id) => t in d.scratch && d.scratch[t].entry.Some? && id !in d.entries
    case TrashEntry(id, t) => id in d.entries && t in d.scratch && d.scratch[t].entry.None?
    case SyncRoot => true
  }

  function SyncedFile<T>(f: Option<File<T>>): Option<File<T>> {
    match f case None => None case Some(file) => Some(file.(synced := true))
  }

  function UnsyncedFile<T>(f: Option<File<T>>): Option<File<T>> {
    match f case None => None case Some(file) => Some(file.(synced := false))
  }

  function SyncedStore(s: Store): Store { Store(SyncedFile(s.attributes), SyncedFile(s.instance)) }

  function CopiedStore(s: Store): Store { Store(UnsyncedFile(s.attributes), UnsyncedFile(s.instance)) }

  function SyncedEntry(e: Entry): Entry {
    Entry(e.definition.(synced := true), map s | s in e.stores :: SyncedStore(e.stores[s]), e.link)
  }

  function CopiedEntry(e: Entry): Entry {
    Entry(e.definition.(synced := false), map s | s in e.stores :: CopiedStore(e.stores[s]), e.link)
  }

  function WithTemp(d: Disk, t: string, temp: Temp): Disk { d.(scratch := d.scratch[t := temp]) }

  function WithEntry(d: Disk, id: ModelId, e: Entry): Disk { d.(entries := d.entries[id := e]) }

  function WithStore(d: Disk, target: Target, s: Store): Disk
    requires target.owner in d.entries
  {
    var e := d.entries[target.owner];
    WithEntry(d, target.owner, e.(stores := e.stores[target.store := s]))
  }

  /** The directory tree after one step; a call that fails changes nothing. */
  function Apply(op: Op, d: Disk): Disk {
    if !Enabled(op, d) then d
    else
      match op
      case MakeTemp(t) => WithTemp(d, t, EMPTY_TEMP)
      case RemoveTemp(t) => d.(scratch := d.scratch - {t})
      case WriteTempStore(t, a) =>
        WithTemp(d, t, d.scratch[t].(store := Some(Store(Some(File(a, false)), None))))
      case WriteTempInstance(t, m) =>
        WithTemp(d, t, d.scratch[t].(store := Some(d.scratch[t].store.value.(instance := Some(File(m, false))))))
      case SyncTempStore(t) =>
        WithTemp(d, t, d.scratch[t].(store := Some(SyncedStore(d.scratch[t].store.value))))
      case RenameStore(t, id, s) =>
        WithTemp(WithStore(d, Target(id, s), d.scratch[t].store.value), t, d.scratch[t].(store := None))
      case LinkTemp(t, target) => WithTemp(d, t, d.scratch[t].(link := Some(target)))
      case RenameLink(t, id) =>
        WithTemp(WithEntry(d, id, d.entries[id].(link := d.scratch[t].link)), t, d.scratch[t].(link := None))
      case SyncEntry(_) => d
      case RemoveAttributes(target) => WithStore(d, target, StoreAt(d, target).(attributes := None))
      case RemoveInstance(target) => WithStore(d, target, StoreAt(d, target).(instance := None))
      case RemoveStore(target) =>
        var e := d.entries[target.owner];
        WithEntry(d, target.owner, e.(stores := e.stores - {target.store}))
      case WriteTempAttributes(t, a) => WithTemp(d, t, EMPTY_TEMP.(attributes := Some(File(a, false))))
      case SyncTempAttributes(t) =>
        WithTemp(d, t, d.scratch[t].(attributes := SyncedFile(d.scratch[t].attributes)))
      case RenameAttributes(t, target) =>
        WithStore(d, target, StoreAt(d, target).(attributes := d.scratch[t].attributes))
          .(scratch := d.scratch - {t})
      case SyncStore(_) => d
      case WriteTempEntry(t, definition) =>
        WithTemp(d, t, d.scratch[t].(entry := Some(Entry(File(definition, false), map[], None))))
      case CopyEntry(t, id) => WithTemp(d, t, d.scratch[t].(entry := Some(CopiedEntry(d.entries[id]))))
      case UnlinkTempEntry(t) =>
        WithTemp(d, t, d.scratch[t].(entry := Some(d.scratch[t].entry.value.(link := None))))
      case LinkTempEntry(t, target) =>
        WithTemp(d, t, d.scratch[t].(entry := Some(d.scratch[t].entry.value.(link := Some(target)))))
      case SyncTempEntry(t) =>
        WithTemp(d, t, d.scratch[t].(entry := Some(SyncedEntry(d.scratch[t].entry.value))))
      case RenameEntry(t, id) =>
        WithTemp(WithEntry(d, id, d.scratch[t].entry.value), t, d.scratch[t].(entry := None))
      case TrashEntry(id, t) =>
        Disk(d.entries - {id}, d.scratch[t := d.scratch[t].(entry := Some(d.entries[id]))])
      case SyncRoot => d
  }

  /** What a freshly started process reads for one model. */
  datatype Recovered =
    | NoEntry
    | Defined(definition: Definition)
    | Checkpointed(definition: Definition, instance: Model, attributes: Attributes)
    | Dangling
    | Unreadable

  predicate Readable<T>(f: Option<File<T>>) { f.Some? && f.value.synced }

  function Recover(d: Disk, id: ModelId): Recovered {
    if id !in d.entries then NoEntry
    else
      var e := d.entries[id];
      if !e.definition.synced then Unreadable
      else if e.link.None? then Defined(e.definition.content)
      else if !StoreExists(d, e.link.value) then Dangling
      else
        var s := StoreAt(d, e.link.value);
        if Readable(s.attributes) && Readable(s.instance)
        then Checkpointed(e.definition.content, s.instance.value.content, s.attributes.value.content)
        else Unreadable
  }

  /** The entry's link, if any, stays inside the entry and leads to a complete, synced store. */
  predicate Healthy(d: Disk, id: ModelId) {
    id in d.entries ==>
      && !Recover(d, id).Dangling?
      && !Recover(d, id).Unreadable?
      && (d.entries[id].link.Some? ==> d.entries[id].link.value.owner == id)
  }

  // ----- crashes -----

  /** base is safely on disk; pending lists, in program order, what a crash may still undo. */
  datatype Fs = Fs(base: Disk, pending: seq<Op>)

  predicate Flushes(op: Op) {
    op.SyncTempStore? || op.SyncEntry? || op.SyncTempAttributes? || op.SyncStore? || op.SyncTempEntry? || op.SyncRoot?
  }

  function ApplyAll(ops: seq<Op>, d: Disk): Disk {
    if ops == [] then d else Apply(ops[|ops| - 1], ApplyAll(ops[..|ops| - 1], d))
  }

  /** What running processes see. */
  function View(fs: Fs): Disk { ApplyAll(fs.pending, fs.base) }

  /** What a crash leaves when the first k unsynced steps had reached the disk. */
  function CrashView(fs: Fs, k: nat): Disk
    requires k <= |fs.pending|
  {
    ApplyAll(fs.pending[..k], fs.base)
  }

  /** Whatever a crash undoes, id is sound and recovers as found. */
  ghost predicate AlwaysRecovers(fs: Fs, id: ModelId, found: Recovered) {
    forall k {:trigger CrashView(fs, k)} | 0 <= k <= |fs.pending| ::
      Healthy(CrashView(fs, k), id) && Recover(CrashView(fs, k), id) == found
  }

  function Exec(fs: Fs, op: Op): Fs {
    if Flushes(op) then Fs(Apply(op, View(fs)), []) else Fs(fs.base, fs.pending + [op])
  }

  function ExecAll(fs: Fs, ops: seq<Op>): Fs {
    if ops == [] then fs else Exec(ExecAll(fs, ops[..|ops| - 1]), ops[|ops| - 1])
  }

  /** Steps up to and including the last flush. */
  function FlushedUpTo(ops: seq<Op>): (n: nat)
    ensures n <= |ops|
  {
    if ops == [] then 0
    else if Flushes(ops[|ops| - 1]) then |ops|
    else FlushedUpTo(ops[..|ops| - 1])
  }

  lemma {:induction false} ApplyAllAppend(a: seq<Op>, b: seq<Op>, d: Disk)
    ensures ApplyAll(a + b, d) == ApplyAll(b, ApplyAll(a, d))
    decreases |b|
  {
    if b == [] {
      assert a + b == a;
    } else {
      assert (a + b)[..|a + b| - 1] == a + b[..|b| - 1];
      ApplyAllAppend(a, b[..|b| - 1], d);
    }
  }

  lemma {:induction false} ExecView(fs: Fs, ops: seq<Op>)
    ensures View(ExecAll(fs, ops)) == ApplyAll(ops, View(fs))
    decreases |ops|
  {
    if ops != [] {
      var init, op := ops[..|ops| - 1], ops[|ops| - 1];
      ExecView(fs, init);
      var mid := ExecAll(fs, init);
      if !Flushes(op) {
        assert (mid.pending + [op])[..|mid.pending|] == mid.pending;
      }
    }
  }

  /** What a crash cannot undo: the steps up to the last flush, or what was there before these steps. */
  lemma {:induction false} ExecBase(fs: Fs, ops: seq<Op>)
    ensures ExecAll(fs, ops).base ==
      if FlushedUpTo(ops) == 0 then fs.base else ApplyAll(ops[..FlushedUpTo(ops)], View(fs))
    decreases |ops|
  {
    if ops != [] {
      var init, op := ops[..|ops| - 1], ops[|ops| - 1];
      if Flushes(op) {
        ExecView(fs, ops);
        assert ops[..|ops|] == ops;
        ExecView(fs, init);
      } else {
        ExecBase(fs, init);
        assert init[..FlushedUpTo(init)] == ops[..FlushedUpTo(init)];
      }
    }
  }

  lemma {:induction false} FlushAmong(ops: seq<Op>, j: nat)
    requires j < |ops| && Flushes(ops[j])
    ensures FlushedUpTo(ops) > j
    decreases |ops|
  {
    if j < |ops| - 1 {
      FlushAmong(ops[..|ops| - 1], j);
    }
  }

  /** A crash leaves a view seen at or after the last flush, or one from before these steps. */
  lemma {:induction false} CrashViews(fs: Fs, ops: seq<Op>, k: nat) returns (j: nat)
    requires k <= |ExecAll(fs, ops).pending|
    ensures j <= |ops|
    ensures
      || (FlushedUpTo(ops) <= j && CrashView(ExecAll(fs, ops), k) == ApplyAll(ops[..j], View(fs)))
      || (FlushedUpTo(ops) == 0 && k <= |fs.pending| && CrashView(ExecAll(fs, ops), k) == CrashView(fs, k))
    decreases |ops|
  {
    var after := ExecAll(fs, ops);
    if ops == [] {
      j := 0;
    } else {
      var init, op := ops[..|ops| - 1], ops[|ops| - 1];
      var mid := ExecAll(fs, init);
      ExecView(fs, ops);
      assert ops[..|ops|] == ops;
      if k == |after.pending| {
        assert after.pending[..k] == after.pending;
        j := |ops|;
      } else {
        assert !Flushes(op);
        assert after.pending[..k] == mid.pending[..k];
        j := CrashViews(fs, init, k);
        assert init[..j] == ops[..j];
      }
    }
  }
}
