/** What the client shows: for every record with pending operations the replay of those operations
    over its before image. Each step of the engine is described here on values. */
module Optimism {
  import opened Options
  import opened Records
  import opened Queue

  datatype Db = Db(main: Table, before: Table, queue: seq<Queued>)

  /** The last known server state of a record. `stray` records have lost their operations but not
      yet their before image: they wait to be rebuilt. */
  function Base(db: Db, stray: set<Key>, k: Key): Row {
    if Dirty(db.queue, k) || k in stray then At(db.before, k) else At(db.main, k)
  }

  /** If the pending operations replay over the before image, the visible row is that replay. */
  predicate Shown(db: Db, k: Key) {
    Dirty(db.queue, k) && Replay(At(db.before, k), OpsFor(db.queue, k)).Done? ==>
      At(db.main, k) == Replay(At(db.before, k), OpsFor(db.queue, k)).row
  }

  predicate Backed(db: Db, stray: set<Key>, k: Key) {
    k in db.before ==> Dirty(db.queue, k) || k in stray
  }

  /** Before images exist only for dirty records, and all but the `loose` records show their replay. */
  ghost predicate Consistent(db: Db, loose: set<Key>, stray: set<Key>) {
    && (forall k :: Backed(db, stray, k))
    && (forall k :: k !in loose ==> Shown(db, k))
  }

  /** Copying a row aside never overwrites an image and does nothing for a dirty record. */
  function HeldAside(db: Db, k: Key): (r: Db)
    ensures r == db.(before := r.before)
    ensures forall j :: j != k ==> At(r.before, j) == At(db.before, j)
    ensures At(r.before, k) ==
      if !Dirty(db.queue, k) && At(db.before, k).None? then At(db.main, k) else At(db.before, k)
  {
    if Dirty(db.queue, k) || k in db.before || k !in db.main then db
    else db.(before := db.before[k := db.main[k]])
  }

  /** The row a rebuild shows: the replay, or the base when the replay fails. */
  function Rebuilt(db: Db, k: Key): Row {
    match Replay(At(db.before, k), OpsFor(db.queue, k))
    case Done(row) => row
    case Failed => At(db.before, k)
  }

  function RebuildOne(db: Db, k: Key): (r: Db)
    ensures r == db.(main := r.main, before := r.before)
    ensures forall j :: At(r.main, j) == if j == k then Rebuilt(db, k) else At(db.main, j)
    ensures forall j :: At(r.before, j) == if j == k && !Dirty(db.queue, k) then None else At(db.before, j)
  {
    db.(main := Put(db.main, k, Rebuilt(db, k)),
        before := if Dirty(db.queue, k) then db.before else Put(db.before, k, None))
  }

  lemma RebuildKeeps(db: Db, loose: set<Key>, stray: set<Key>, k: Key)
    requires Consistent(db, loose, stray) && (Dirty(db.queue, k) || k in stray)
    ensures Consistent(RebuildOne(db, k), loose - {k}, stray - {k})
    ensures forall j :: Base(RebuildOne(db, k), stray - {k}, j) == Base(db, stray, j)
  {
    var r := RebuildOne(db, k);
    forall j ensures Backed(r, stray - {k}, j) {
      assert Backed(db, stray, j);
      assert j in r.before ==> At(r.before, j).Some?;
    }
    forall j | j !in loose - {k} ensures Shown(r, j) {
      assert j != k ==> Shown(db, j);
    }
  }

  /** The staged base of one record: under its operations when dirty, in the visible row when clean. */
  function StageOne(db: Db, k: Key, row: Row): Db {
    if Dirty(db.queue, k) then db.(before := Put(db.before, k, row)) else db.(main := Put(db.main, k, row))
  }

  lemma StageKeeps(db: Db, loose: set<Key>, stray: set<Key>, k: Key, row: Row)
    requires Consistent(db, loose, stray)
    requires k in stray && !Dirty(db.queue, k) ==> At(db.before, k) == row
    ensures Consistent(StageOne(db, k, row), if Dirty(db.queue, k) then loose + {k} else loose, stray)
    ensures forall j :: Base(StageOne(db, k, row), stray, j) == if j == k then row else Base(db, stray, j)
  {
    var r := StageOne(db, k, row);
    forall j ensures Backed(r, stray, j) {
      assert Backed(db, stray, j);
      assert j in r.before ==> At(r.before, j).Some?;
    }
    forall j | j !in if Dirty(db.queue, k) then loose + {k} else loose ensures Shown(r, j) {
      assert Shown(db, j);
    }
  }

  /** Fold one accepted local operation into the base of its record, if it applies. */
  function FoldOne(db: Db, op: Op): Db {
    match Apply(At(db.before, op.key), op)
    case Failed => db
    case Done(row) => db.(before := Put(db.before, op.key, row))
  }

  /** The base after folding: operations that do not apply are skipped. */
  function Settle(row: Row, ops: seq<Op>): Row
    decreases |ops|
  {
    if ops == [] then row
    else Settle(match Apply(row, ops[0]) case Failed => row case Done(next) => next, ops[1..])
  }

  lemma FoldKeeps(db: Db, loose: set<Key>, stray: set<Key>, op: Op)
    requires Consistent(db, loose, stray)
    requires Dirty(db.queue, op.key) || op.kind == Delete
    requires op.key in stray && !Dirty(db.queue, op.key) ==> op.key !in db.before
    ensures Consistent(FoldOne(db, op), loose + {op.key}, stray + {op.key})
    ensures forall j :: j != op.key ==> Base(FoldOne(db, op), stray + {op.key}, j) == Base(db, stray, j)
    ensures Base(FoldOne(db, op), stray + {op.key}, op.key) == Settle(Base(db, stray, op.key), [op])
    ensures !Dirty(db.queue, op.key) ==> op.key !in FoldOne(db, op).before
  {
    var r := FoldOne(db, op);
    assert [op][1..] == [];
    forall j ensures Backed(r, stray + {op.key}, j) {
      assert Backed(db, stray, j);
      assert j in r.before ==> At(r.before, j).Some?;
    }
    forall j | j !in loose + {op.key} ensures Shown(r, j) {
      assert Shown(db, j);
    }
  }

  function Drop(db: Db, ids: set<nat>): Db {
    db.(queue := Without(db.queue, ids))
  }

  /** The records the given mutations touch. */
  function TouchedKeys(queue: seq<Queued>, ids: set<nat>): (r: set<Key>)
    ensures forall k :: k in r <==> TouchedBy(queue, ids, k)
  {
    if queue == [] then {}
    else
      var rest := TouchedKeys(queue[1..], ids);
      var own := if queue[0].ordinal in ids then KeysOf(OpsOf(queue[0])) else {};
      TouchedCons(queue, ids);
      own + rest
  }

  function KeysOf(ops: seq<Op>): (r: set<Key>)
    ensures forall k :: k in r <==> Touching(ops, k) != []
  {
    if ops == [] then {} else {ops[0].key} + KeysOf(ops[1..])
  }

  lemma TouchedCons(queue: seq<Queued>, ids: set<nat>)
    requires queue != []
    ensures forall k :: TouchedBy(queue, ids, k) <==>
      (queue[0].ordinal in ids && Touching(OpsOf(queue[0]), k) != []) || TouchedBy(queue[1..], ids, k)
  {
    forall k ensures TouchedBy(queue, ids, k) <==>
      (queue[0].ordinal in ids && Touching(OpsOf(queue[0]), k) != []) || TouchedBy(queue[1..], ids, k)
    {
      if TouchedBy(queue, ids, k) {
        var i :| 0 <= i < |queue| && queue[i].ordinal in ids && Touching(OpsOf(queue[i]), k) != [];
        if i > 0 { assert queue[1..][i - 1] == queue[i]; }
      }
      if TouchedBy(queue[1..], ids, k) {
        var i :| 0 <= i < |queue[1..]| && queue[1..][i].ordinal in ids && Touching(OpsOf(queue[1..][i]), k) != [];
        assert queue[1..][i] == queue[i + 1];
      }
    }
  }

  lemma {:induction false} TouchedIsDirty(queue: seq<Queued>, ids: set<nat>, k: Key)
    requires TouchedBy(queue, ids, k)
    ensures Dirty(queue, k)
  {
    TouchedCons(queue, ids);
    if !(queue[0].ordinal in ids && Touching(OpsOf(queue[0]), k) != []) {
      TouchedIsDirty(queue[1..], ids, k);
    }
  }

  /** Removing mutations leaves every base where it is; the records they touched wait for a rebuild. */
  lemma DropKeeps(db: Db, loose: set<Key>, stray: set<Key>, ids: set<nat>)
    requires Consistent(db, loose, stray)
    ensures var touched := TouchedKeys(db.queue, ids);
      && Consistent(Drop(db, ids), loose + touched, stray + touched)
      && forall j :: Base(Drop(db, ids), stray + touched, j) == Base(db, stray, j)
  {
    var touched, r := TouchedKeys(db.queue, ids), Drop(db, ids);
    forall j ensures j in touched || OpsFor(r.queue, j) == OpsFor(db.queue, j) {
      if j !in touched { WithoutUntouched(db.queue, ids, j); }
    }
    forall j ensures Backed(r, stray + touched, j) {
      assert Backed(db, stray, j);
    }
    forall j | j !in loose + touched ensures Shown(r, j) {
      assert Shown(db, j);
    }
    forall j ensures Base(r, stray + touched, j) == Base(db, stray, j) {
      if j in touched { TouchedIsDirty(db.queue, ids, j); }
    }
  }

  lemma EffectOps(queue: seq<Queued>, i: nat, q: Queued, k: Key)
    requires i < |queue| && Touching(OpsOf(q), k) != []
    requires forall j :: j != k ==> Touching(OpsOf(q), j) == Touching(OpsOf(queue[i]), j)
    ensures Dirty(queue[i := q], k)
    ensures forall j :: j != k ==> OpsFor(queue[i := q], j) == OpsFor(queue, j)
  {
    OpsForUpdate(queue, i, q, k);
    forall j | j != k ensures OpsFor(queue[i := q], j) == OpsFor(queue, j) {
      OpsForSame(queue, i, q, j);
    }
  }

  /** A clean record is held aside, then gets its first operation: its base stays where it was. */
  lemma EffectKeeps(db: Db, loose: set<Key>, k: Key, queue: seq<Queued>)
    requires Consistent(db, loose, {}) && Dirty(queue, k)
    requires forall j :: j != k ==> OpsFor(queue, j) == OpsFor(db.queue, j)
    ensures Consistent(HeldAside(db, k).(queue := queue), loose + {k}, {})
    ensures forall j :: Base(HeldAside(db, k).(queue := queue), {}, j) == Base(db, {}, j)
  {
    var r := HeldAside(db, k).(queue := queue);
    forall j ensures Backed(r, {}, j) {
      assert Backed(db, {}, j);
      assert j in r.before ==> At(r.before, j).Some?;
    }
    forall j | j !in loose + {k} ensures Shown(r, j) {
      assert Shown(db, j);
    }
    forall j ensures Base(r, {}, j) == Base(db, {}, j) {
      assert Backed(db, {}, j);
    }
  }

  /** A change of the queue that leaves the operations alone leaves everything shown alone. */
  lemma SameOperations(db: Db, loose: set<Key>, stray: set<Key>, queue: seq<Queued>)
    requires Consistent(db, loose, stray) && forall k :: OpsFor(queue, k) == OpsFor(db.queue, k)
    ensures Consistent(db.(queue := queue), loose, stray)
    ensures forall k :: Base(db.(queue := queue), stray, k) == Base(db, stray, k)
  {
    var r := db.(queue := queue);
    forall k ensures Backed(r, stray, k) { assert Backed(db, stray, k); }
    forall k | k !in loose ensures Shown(r, k) { assert Shown(db, k); }
  }
}
