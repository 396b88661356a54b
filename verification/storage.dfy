/** What the server persists: records, one stamp per record, and per channel a head and one compacting
    invalidation row per record, in cursor order. */
module Storage {
  import opened Options
  import opened Records

  datatype Invalidation = Invalidation(key: Key, cursor: nat, stamp: nat)

  datatype Tables = Tables(rows: Table, stamps: map<Key, nat>, heads: map<string, nat>,
                           log: map<string, seq<Invalidation>>)

  function Head(t: Tables, channel: string): nat {
    if channel in t.heads then t.heads[channel] else 0
  }

  function Log(t: Tables, channel: string): seq<Invalidation> {
    if channel in t.log then t.log[channel] else []
  }

  function StampOf(t: Tables, k: Key): nat {
    if k in t.stamps then t.stamps[k] else 0
  }

  function Advance(t: Tables, k: Key): Tables {
    t.(stamps := t.stamps[k := StampOf(t, k) + 1])
  }

  /** Every key advanced once; the order does not matter. */
  function AdvanceAll(t: Tables, keys: set<Key>): (r: Tables)
    ensures forall k :: StampOf(r, k) == StampOf(t, k) + if k in keys then 1 else 0
    ensures r.stamps.Keys == t.stamps.Keys + keys && r == t.(stamps := r.stamps)
  {
    t.(stamps := map k | k in t.stamps.Keys + keys :: StampOf(t, k) + if k in keys then 1 else 0)
  }

  lemma AdvanceMore(t: Tables, keys: set<Key>, k: Key)
    requires k !in keys
    ensures Advance(AdvanceAll(t, keys), k) == AdvanceAll(t, keys + {k})
  {
    var a, b := Advance(AdvanceAll(t, keys), k), AdvanceAll(t, keys + {k});
    assert a.stamps.Keys == b.stamps.Keys;
    forall j | j in a.stamps ensures a.stamps[j] == b.stamps[j] {
      assert StampOf(a, j) == StampOf(b, j);
    }
    assert a.stamps == b.stamps;
  }

  /** The current stamp, initialised at 1 only when there is none. */
  function Ensure(t: Tables, k: Key): Tables {
    if k in t.stamps then t else t.(stamps := t.stamps[k := 1])
  }

  /** The log without the row of one record. */
  function Compacted(log: seq<Invalidation>, k: Key): seq<Invalidation> {
    if log == [] then []
    else if log[0].key == k then Compacted(log[1..], k)
    else [log[0]] + Compacted(log[1..], k)
  }

  lemma {:induction false} CompactedMembers(log: seq<Invalidation>, k: Key, row: Invalidation)
    ensures row in Compacted(log, k) <==> row in log && row.key != k
  {
    if log != [] { CompactedMembers(log[1..], k, row); }
  }

  /** Invalidate a record on a channel at `stamp`, which must be its current stamp. */
  function PublishAt(t: Tables, channel: string, k: Key, stamp: nat): Option<Tables> {
    if k !in t.stamps || t.stamps[k] != stamp then None
    else
      var cursor := Head(t, channel) + 1;
      Some(t.(heads := t.heads[channel := cursor],
              log := t.log[channel := Compacted(Log(t, channel), k) + [Invalidation(k, cursor, stamp)]]))
  }

  /** In cursor order, one row per record. */
  predicate Sorted(log: seq<Invalidation>) {
    forall i, j :: 0 <= i < j < |log| ==> log[i].cursor < log[j].cursor && log[i].key != log[j].key
  }

  predicate InRange(log: seq<Invalidation>, head: nat) {
    forall i :: 0 <= i < |log| ==> 1 <= log[i].cursor <= head
  }

  /** A row never carries a stamp the record does not have yet. */
  predicate Behind(log: seq<Invalidation>, stamps: map<Key, nat>) {
    forall i :: 0 <= i < |log| ==> log[i].key in stamps && log[i].stamp <= stamps[log[i].key]
  }

  /** The head is the cursor of the newest row. */
  predicate Headed(log: seq<Invalidation>, head: nat) {
    if head == 0 then log == [] else log != [] && log[|log| - 1].cursor == head
  }

  predicate WellLogged(log: seq<Invalidation>, head: nat, stamps: map<Key, nat>) {
    Sorted(log) && InRange(log, head) && Behind(log, stamps) && Headed(log, head)
  }

  ghost predicate WellKept(t: Tables) {
    && (forall k :: k in t.stamps ==> t.stamps[k] >= 1)
    && forall c :: WellLogged(Log(t, c), Head(t, c), t.stamps)
  }

  lemma SortedTail(log: seq<Invalidation>)
    requires Sorted(log) && log != []
    ensures Sorted(log[1..]) && forall row :: row in log[1..] ==> log[0].cursor < row.cursor && log[0].key != row.key
  {
    var tail := log[1..];
    forall i, j | 0 <= i < j < |tail| ensures tail[i].cursor < tail[j].cursor && tail[i].key != tail[j].key {
      assert tail[i] == log[i + 1] && tail[j] == log[j + 1];
    }
  }

  lemma SortedCons(row: Invalidation, log: seq<Invalidation>)
    requires Sorted(log) && forall other :: other in log ==> row.cursor < other.cursor && row.key != other.key
    ensures Sorted([row] + log)
  {
    var all := [row] + log;
    forall i, j | 0 <= i < j < |all| ensures all[i].cursor < all[j].cursor && all[i].key != all[j].key {
      assert all[j] == log[j - 1] && log[j - 1] in log;
    }
  }

  lemma SortedSnoc(log: seq<Invalidation>, row: Invalidation)
    requires Sorted(log) && forall other :: other in log ==> other.cursor < row.cursor && row.key != other.key
    ensures Sorted(log + [row])
  {
    var all := log + [row];
    forall i, j | 0 <= i < j < |all| ensures all[i].cursor < all[j].cursor && all[i].key != all[j].key {
      assert all[i] == log[i] && log[i] in log;
    }
  }

  lemma {:induction false} CompactedSorted(log: seq<Invalidation>, k: Key)
    requires Sorted(log)
    ensures Sorted(Compacted(log, k))
  {
    if log != [] {
      SortedTail(log);
      CompactedSorted(log[1..], k);
      if log[0].key != k {
        forall row | row in Compacted(log[1..], k) ensures row in log[1..] { CompactedMembers(log[1..], k, row); }
        SortedCons(log[0], Compacted(log[1..], k));
      }
    }
  }

  /** What may happen to one channel: its head grows, and rows up to the old head are old rows. */
  predicate LogGrows(log: seq<Invalidation>, head: nat, log': seq<Invalidation>, head': nat) {
    head <= head' && forall i :: 0 <= i < |log'| && log'[i].cursor <= head ==> log'[i] in log
  }

  /** What may happen to one record: its stamp grows. */
  predicate RecordGrows(t: Tables, t': Tables, k: Key) {
    k in t.stamps ==> k in t'.stamps && t.stamps[k] <= t'.stamps[k]
  }

  ghost predicate Grows(t: Tables, t': Tables) {
    && (forall k :: RecordGrows(t, t', k))
    && (forall c :: LogGrows(Log(t, c), Head(t, c), Log(t', c), Head(t', c)))
  }

  /** The content of a record changes only with its stamp. */
  predicate RecordTells(t: Tables, t': Tables, k: Key) {
    k in t.stamps && k in t'.stamps && t'.stamps[k] == t.stamps[k] ==> At(t'.rows, k) == At(t.rows, k)
  }

  ghost predicate Tells(t: Tables, t': Tables) {
    forall k :: RecordTells(t, t', k)
  }

  lemma TellsTwice(a: Tables, b: Tables, c: Tables)
    requires Grows(a, b) && Grows(b, c) && Tells(a, b) && Tells(b, c)
    ensures Tells(a, c)
  {
    forall k ensures RecordTells(a, c, k) {
      assert RecordGrows(a, b, k) && RecordGrows(b, c, k) && RecordTells(a, b, k) && RecordTells(b, c, k);
    }
  }

  lemma GrowsTwice(a: Tables, b: Tables, c: Tables)
    requires Grows(a, b) && Grows(b, c)
    ensures Grows(a, c)
  {
    forall k ensures RecordGrows(a, c, k) {
      assert RecordGrows(a, b, k) && RecordGrows(b, c, k);
    }
    forall h ensures LogGrows(Log(a, h), Head(a, h), Log(c, h), Head(c, h)) {
      assert LogGrows(Log(a, h), Head(a, h), Log(b, h), Head(b, h));
      assert LogGrows(Log(b, h), Head(b, h), Log(c, h), Head(c, h));
      var log := Log(c, h);
      forall i | 0 <= i < |log| && log[i].cursor <= Head(a, h) ensures log[i] in Log(a, h) {
        assert log[i] in Log(b, h);
      }
    }
  }

  lemma PublishKeeps(t: Tables, channel: string, k: Key, stamp: nat)
    requires WellKept(t) && k in t.stamps && t.stamps[k] == stamp
    ensures var t' := PublishAt(t, channel, k, stamp).value;
      WellKept(t') && Grows(t, t') && t'.stamps == t.stamps && t'.rows == t.rows
  {
    var t' := PublishAt(t, channel, k, stamp).value;
    forall c { PublishOne(t, channel, k, stamp, c); }
    forall j ensures RecordGrows(t, t', j) { }
  }

  lemma PublishOne(t: Tables, channel: string, k: Key, stamp: nat, c: string)
    requires WellKept(t) && k in t.stamps && t.stamps[k] == stamp
    ensures var t' := PublishAt(t, channel, k, stamp).value;
      WellLogged(Log(t', c), Head(t', c), t'.stamps) && LogGrows(Log(t, c), Head(t, c), Log(t', c), Head(t', c))
  {
    var t' := PublishAt(t, channel, k, stamp).value;
    var log, head := Log(t, c), Head(t, c);
    assert WellLogged(log, head, t.stamps);
    if c == channel {
      PublishLogs(log, head, t.stamps, k);
      assert Log(t', c) == Compacted(log, k) + [Invalidation(k, head + 1, stamp)] && Head(t', c) == head + 1;
    } else {
      assert Log(t', c) == log && Head(t', c) == head;
    }
  }

  lemma PublishLogs(log: seq<Invalidation>, head: nat, stamps: map<Key, nat>, k: Key)
    requires WellLogged(log, head, stamps) && k in stamps
    ensures var log' := Compacted(log, k) + [Invalidation(k, head + 1, stamps[k])];
      WellLogged(log', head + 1, stamps) && LogGrows(log, head, log', head + 1)
  {
    CompactedSorted(log, k);
    var kept := Compacted(log, k);
    forall row | row in kept
      ensures row in log && row.key != k && 1 <= row.cursor <= head && row.key in stamps && row.stamp <= stamps[row.key]
    {
      CompactedMembers(log, k, row);
      var j :| 0 <= j < |log| && log[j] == row;
    }
    SortedSnoc(kept, Invalidation(k, head + 1, stamps[k]));
    var log' := kept + [Invalidation(k, head + 1, stamps[k])];
    forall i | 0 <= i < |kept| ensures log'[i] in kept {
    }
  }

  lemma EnsureKeeps(t: Tables, k: Key)
    requires WellKept(t)
    ensures WellKept(Ensure(t, k)) && Grows(t, Ensure(t, k)) && k in Ensure(t, k).stamps
  {
    StampsKeep(t, Ensure(t, k));
  }

  /** Stamps may be given and raised without touching the logs. */
  lemma StampsKeep(t: Tables, t': Tables)
    requires WellKept(t) && t'.log == t.log && t'.heads == t.heads
    requires forall k :: k in t'.stamps ==> t'.stamps[k] >= 1
    requires forall k :: RecordGrows(t, t', k)
    ensures WellKept(t') && Grows(t, t')
  {
    forall c ensures WellLogged(Log(t', c), Head(t', c), t'.stamps) {
      assert WellLogged(Log(t, c), Head(t, c), t.stamps);
      var log := Log(t, c);
      forall i | 0 <= i < |log| ensures log[i].key in t'.stamps && log[i].stamp <= t'.stamps[log[i].key] {
        assert RecordGrows(t, t', log[i].key);
      }
    }
    forall c ensures LogGrows(Log(t, c), Head(t, c), Log(t', c), Head(t', c)) {
    }
  }

  /** A business change: rows change, and the records it names get their next stamps. If it names every
      record it changed, content changed only with stamps. */
  lemma ChangeKeeps(t: Tables, rows: Table, changes: set<Key>)
    requires WellKept(t)
    ensures var t' := AdvanceAll(t.(rows := rows), changes);
      && WellKept(t') && Grows(t, t')
      && ((forall k :: At(rows, k) != At(t.rows, k) ==> k in changes) ==> Tells(t, t'))
  {
    var t' := AdvanceAll(t.(rows := rows), changes);
    forall k | k in t'.stamps ensures t'.stamps[k] >= 1 {
      assert StampOf(t', k) >= 1;
    }
    forall k ensures RecordGrows(t, t', k) {
      assert StampOf(t', k) == StampOf(t, k) + if k in changes then 1 else 0;
    }
    StampsKeep(t, t');
    if forall k :: At(rows, k) != At(t.rows, k) ==> k in changes {
      forall k ensures RecordTells(t, t', k) {
        assert StampOf(t', k) == StampOf(t, k) + if k in changes then 1 else 0;
      }
    }
  }
}
