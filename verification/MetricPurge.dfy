/** Purging old metric data in batches, oldest rows of each metric first. */
module MetricPurge {
  import opened Basics

  const MAX_DELETE_BATCH_SIZE: nat := 1000

  datatype Entry = Entry(uid: int, rowId: int, timestamp: int)

  /** The metric_data table, in primary-key order. */
  type Table = seq<Entry>

  predicate Before(a: Entry, b: Entry) { a.uid < b.uid || (a.uid == b.uid && a.rowId < b.rowId) }

  /** Keys are unique and, within a metric, later rows are younger. */
  ghost predicate TableOk(t: Table) {
    && (forall i, j | 0 <= i < j < |t| :: Before(t[i], t[j]))
    && (forall i, j | 0 <= i < j < |t| && t[i].uid == t[j].uid :: t[i].timestamp < t[j].timestamp)
  }

  function CountOld(t: Table, cutoff: int): (n: nat)
    ensures n <= |t|
  {
    if t == [] then 0 else (if t[0].timestamp < cutoff then 1 else 0) + CountOld(t[1..], cutoff)
  }

  /** The rows of one metric. */
  function Of(t: Table, uid: int): seq<Entry> {
    if t == [] then [] else (if t[0].uid == uid then [t[0]] else []) + Of(t[1..], uid)
  }

  /** The table without its first limit old rows. */
  function Purged(t: Table, cutoff: int, limit: nat): Table {
    if t == [] || limit == 0 then t
    else if t[0].timestamp < cutoff then Purged(t[1..], cutoff, limit - 1)
    else [t[0]] + Purged(t[1..], cutoff, limit)
  }

  predicate Suffix(s: seq<Entry>, t: seq<Entry>) { |s| <= |t| && s == t[|t| - |s|..] }

  /** now holds a suffix of each metric's rows in before. */
  ghost predicate NoHoles(before: Table, now: Table) {
    forall uid :: Suffix(Of(now, uid), Of(before, uid))
  }

  // ----- one batch -----

  /** A metric whose oldest row is young loses nothing. */
  lemma {:induction false} YoungKept(t: Table, cutoff: int, limit: nat, uid: int)
    requires forall i | 0 <= i < |t| && t[i].uid == uid :: t[i].timestamp >= cutoff
    ensures Of(Purged(t, cutoff, limit), uid) == Of(t, uid)
    decreases |t|
  {
    if t != [] && limit > 0 {
      var rest := t[1..];
      assert forall i | 0 <= i < |rest| :: rest[i] == t[i + 1];
      if t[0].timestamp < cutoff {
        YoungKept(rest, cutoff, limit - 1, uid);
      } else {
        YoungKept(rest, cutoff, limit, uid);
        assert ([t[0]] + Purged(rest, cutoff, limit))[1..] == Purged(rest, cutoff, limit);
      }
    }
  }

  lemma TableRest(t: Table)
    requires TableOk(t) && t != []
    ensures TableOk(t[1..])
    ensures forall i | 0 <= i < |t[1..]| && t[1..][i].uid == t[0].uid :: t[0].timestamp < t[1..][i].timestamp
  {
    assert forall i | 0 <= i < |t[1..]| :: t[1..][i] == t[i + 1];
  }

  lemma SuffixOfLonger(s: seq<Entry>, t: seq<Entry>, front: seq<Entry>)
    requires Suffix(s, t)
    ensures Suffix(s, front + t)
  {
    assert (front + t)[|front + t| - |s|..] == t[|t| - |s|..];
  }

  /** What a batch leaves of each metric is a suffix: rows go oldest first. */
  lemma {:induction false} BatchLeavesSuffix(t: Table, cutoff: int, limit: nat, uid: int)
    requires TableOk(t)
    ensures Suffix(Of(Purged(t, cutoff, limit), uid), Of(t, uid))
    decreases |t|
  {
    if t != [] && limit > 0 {
      var rest := t[1..];
      TableRest(t);
      if t[0].timestamp < cutoff {
        BatchLeavesSuffix(rest, cutoff, limit - 1, uid);
        SuffixOfLonger(Of(Purged(rest, cutoff, limit - 1), uid), Of(rest, uid), if t[0].uid == uid then [t[0]] else []);
      } else {
        assert ([t[0]] + Purged(rest, cutoff, limit))[1..] == Purged(rest, cutoff, limit);
        if t[0].uid == uid {
          YoungKept(rest, cutoff, limit, uid);
        } else {
          BatchLeavesSuffix(rest, cutoff, limit, uid);
        }
      }
    }
  }

  lemma {:induction false} BatchFromTable(t: Table, cutoff: int, limit: nat)
    ensures forall e | e in Purged(t, cutoff, limit) :: e in t
    ensures forall e | e in t && e !in Purged(t, cutoff, limit) :: e.timestamp < cutoff
    decreases |t|
  {
    if t != [] && limit > 0 {
      assert t == [t[0]] + t[1..];
      BatchFromTable(t[1..], cutoff, if t[0].timestamp < cutoff then limit - 1 else limit);
    }
  }

  lemma HeadBefore(t: Table, left: Table)
    requires TableOk(t) && t != [] && TableOk(left) && forall e | e in left :: e in t[1..]
    ensures TableOk([t[0]] + left)
  {
    forall i | 0 <= i < |left|
      ensures Before(t[0], left[i]) && (left[i].uid == t[0].uid ==> t[0].timestamp < left[i].timestamp)
    {
      assert left[i] in t[1..];
      var j :| 0 <= j < |t[1..]| && t[1..][j] == left[i];
      assert left[i] == t[j + 1];
    }
  }

  lemma {:induction false} BatchKeepsOrder(t: Table, cutoff: int, limit: nat)
    requires TableOk(t)
    ensures TableOk(Purged(t, cutoff, limit))
    decreases |t|
  {
    if t != [] && limit > 0 {
      TableRest(t);
      BatchKeepsOrder(t[1..], cutoff, if t[0].timestamp < cutoff then limit - 1 else limit);
      if t[0].timestamp >= cutoff {
        BatchFromTable(t[1..], cutoff, limit);
        HeadBefore(t, Purged(t[1..], cutoff, limit));
      }
    }
  }

  /** A batch removes as many rows as asked for, if there are that many old ones. */
  lemma {:induction false} BatchCounts(t: Table, cutoff: int, limit: nat)
    ensures |Purged(t, cutoff, limit)| == |t| - Min(limit, CountOld(t, cutoff))
    ensures CountOld(Purged(t, cutoff, limit), cutoff) == CountOld(t, cutoff) - Min(limit, CountOld(t, cutoff))
    decreases |t|
  {
    if t != [] && limit > 0 {
      BatchCounts(t[1..], cutoff, if t[0].timestamp < cutoff then limit - 1 else limit);
      if t[0].timestamp >= cutoff {
        var left := Purged(t[1..], cutoff, limit);
        assert ([t[0]] + left)[1..] == left;
      }
    }
  }

  lemma NoHolesThen(a: Table, b: Table, c: Table)
    requires NoHoles(a, b) && NoHoles(b, c)
    ensures NoHoles(a, c)
  {
    forall uid
      ensures Suffix(Of(c, uid), Of(a, uid))
    {
      assert Suffix(Of(b, uid), Of(a, uid)) && Suffix(Of(c, uid), Of(b, uid));
    }
  }

  lemma BatchLeavesNoHoles(t: Table, cutoff: int, limit: nat)
    requires TableOk(t)
    ensures NoHoles(t, Purged(t, cutoff, limit))
  {
    forall uid
      ensures Suffix(Of(Purged(t, cutoff, limit), uid), Of(t, uid))
    {
      BatchLeavesSuffix(t, cutoff, limit, uid);
    }
  }

  lemma {:induction false} LaterCutoff(t: Table, cutoff: int, later: int)
    requires cutoff <= later
    ensures CountOld(t, cutoff) <= CountOld(t, later)
    decreases |t|
  {
    if t != [] {
      LaterCutoff(t[1..], cutoff, later);
    }
  }

  // ----- the code -----

  function Key(e: Entry): (int, int) { (e.uid, e.rowId) }

  function Keys(t: Table): set<(int, int)> { set e | e in t :: Key(e) }

  /** The first limit old rows. */
  function Candidates(t: Table, cutoff: int, limit: nat): Table {
    if t == [] || limit == 0 then []
    else if t[0].timestamp < cutoff then [t[0]] + Candidates(t[1..], cutoff, limit - 1)
    else Candidates(t[1..], cutoff, limit)
  }

  function Without(t: Table, keys: set<(int, int)>): Table {
    if t == [] then [] else (if Key(t[0]) in keys then [] else [t[0]]) + Without(t[1..], keys)
  }

  lemma {:induction false} CandidatesIn(t: Table, cutoff: int, limit: nat)
    ensures forall e | e in Candidates(t, cutoff, limit) :: e in t
    ensures |Candidates(t, cutoff, limit)| == Min(limit, CountOld(t, cutoff))
    decreases |t|
  {
    if t != [] && limit > 0 {
      CandidatesIn(t[1..], cutoff, if t[0].timestamp < cutoff then limit - 1 else limit);
    }
  }

  lemma {:induction false} WithoutOthers(t: Table, keys: set<(int, int)>, key: (int, int))
    requires forall i | 0 <= i < |t| :: Key(t[i]) != key
    ensures Without(t, keys + {key}) == Without(t, keys)
    decreases |t|
  {
    if t != [] {
      WithoutOthers(t[1..], keys, key);
    }
  }

  lemma {:induction false} WithoutNothing(t: Table)
    ensures Without(t, {}) == t
    decreases |t|
  {
    if t != [] {
      WithoutNothing(t[1..]);
    }
  }

  /** Querying candidates and deleting them by key is what Purged says. */
  lemma {:induction false} DeletingCandidates(t: Table, cutoff: int, limit: nat)
    requires TableOk(t)
    ensures Without(t, Keys(Candidates(t, cutoff, limit))) == Purged(t, cutoff, limit)
    decreases |t|
  {
    if t == [] || limit == 0 {
      assert Keys([]) == {};
      WithoutNothing(t);
    } else {
      var rest := t[1..];
      TableRest(t);
      assert forall i | 0 <= i < |rest| :: rest[i] == t[i + 1];
      if t[0].timestamp < cutoff {
        var chosen := Candidates(rest, cutoff, limit - 1);
        DeletingCandidates(rest, cutoff, limit - 1);
        assert Keys([t[0]] + chosen) == Keys(chosen) + {Key(t[0])};
        WithoutOthers(rest, Keys(chosen), Key(t[0]));
      } else {
        DeletingCandidates(rest, cutoff, limit);
        CandidatesIn(rest, cutoff, limit);
      }
    }
  }

  class MetricData {
    var rows: Table

    constructor (rows: Table)
      ensures this.rows == rows
    {
      this.rows := rows;
    }

    method EstimateNumRowsToDelete(cutoff: int) returns (n: nat)
      ensures n == CountOld(rows, cutoff)
    {
      n := 0;
      var i := |rows|;
      assert rows[|rows|..] == [];
      while i > 0
        invariant 0 <= i <= |rows| && n == CountOld(rows[i..], cutoff)
      {
        assert rows[i - 1..][1..] == rows[i..];
        i := i - 1;
        n := n + (if rows[i].timestamp < cutoff then 1 else 0);
      }
      assert rows[0..] == rows;
    }

    method QueryCandidateRows(cutoff: int, limit: nat) returns (candidates: Table)
      ensures candidates == Candidates(rows, cutoff, limit)
    {
      candidates := [];
      var i := 0;
      assert rows[0..] == rows;
      while i < |rows| && |candidates| < limit
        invariant 0 <= i <= |rows| && |candidates| <= limit
        invariant candidates + Candidates(rows[i..], cutoff, limit - |candidates|) == Candidates(rows, cutoff, limit)
      {
        assert rows[i..][1..] == rows[i + 1..];
        if rows[i].timestamp < cutoff {
          candidates := candidates + [rows[i]];
        }
        i := i + 1;
      }
    }

    method DeleteRows(candidates: Table) returns (numDeleted: nat)
      modifies this
      ensures rows == Without(old(rows), Keys(candidates))
      ensures numDeleted == |old(rows)| - |rows|
    {
      ghost var keys := Keys(candidates);
      var left, i := [], |rows|;
      assert rows[|rows|..] == [];
      while i > 0
        invariant 0 <= i <= |rows| && left == Without(rows[i..], keys) && |left| <= |rows| - i
      {
        assert rows[i - 1..][1..] == rows[i..];
        i := i - 1;
        if !(exists e :: e in candidates && Key(e) == Key(rows[i])) {
          left := [rows[i]] + left;
        }
      }
      assert rows[0..] == rows;
      numDeleted := |rows| - |left|;
      rows := left;
    }

    /**
     * clock gives the age limit at each query, the first for the estimate. Exactly the estimated
     * number of rows goes, all of them old, leaving a suffix of each metric.
     */
    method PurgeOldMetricDataRows(clock: nat -> int) returns (totalDeleted: nat, ghost queries: nat)
      requires TableOk(rows) && forall i: nat, j: nat | i <= j :: clock(i) <= clock(j)
      modifies this
      ensures totalDeleted == CountOld(old(rows), clock(0)) == |old(rows)| - |rows|
      ensures TableOk(rows) && NoHoles(old(rows), rows)
      ensures forall e | e in old(rows) && e !in rows :: e.timestamp < clock(queries)
    {
      var estimate := EstimateNumRowsToDelete(clock(0));
      totalDeleted := 0;
      var query := 0;
      while totalDeleted < estimate
        invariant totalDeleted <= estimate && totalDeleted == |old(rows)| - |rows|
        invariant TableOk(rows) && NoHoles(old(rows), rows)
        invariant CountOld(rows, clock(query)) >= estimate - totalDeleted
        invariant forall e | e in old(rows) && e !in rows :: e.timestamp < clock(query)
        decreases estimate - totalDeleted
      {
        query := query + 1;
        var limit := Min(MAX_DELETE_BATCH_SIZE, estimate - totalDeleted);
        ghost var before := rows;
        LaterCutoff(rows, clock(query - 1), clock(query));
        CandidatesIn(rows, clock(query), limit);
        var candidates := QueryCandidateRows(clock(query), limit);
        DeletingCandidates(rows, clock(query), limit);
        BatchFromTable(rows, clock(query), limit);
        BatchKeepsOrder(rows, clock(query), limit);
        BatchCounts(rows, clock(query), limit);
        BatchLeavesNoHoles(rows, clock(query), limit);
        // nothing else deletes rows, so there are candidates as long as the estimate is not reached
        assert |candidates| == limit;
        var numDeleted := DeleteRows(candidates);
        NoHolesThen(old(rows), before, rows);
        totalDeleted := totalDeleted + numDeleted;
      }
      queries := query;
    }
  }
}
