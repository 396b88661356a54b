/** What enqueueing a mutation does to a record: operations are applied to the visible rows one by
    one, each record held aside before each touch, cascade effects before the delete that causes
    them; but they are stored wire and companion operations first, effects last. */
module Enqueueing {
  import opened Options
  import opened Records
  import opened Queue
  import opened Optimism

  /** The order the operations are applied in: each after its own cascade effects. */
  function Interleave(ops: seq<Op>, cascades: seq<seq<Op>>): seq<Op>
    requires |ops| == |cascades|
  {
    if ops == [] then [] else cascades[0] + [ops[0]] + Interleave(ops[1..], cascades[1..])
  }

  function Flatten(cascades: seq<seq<Op>>): seq<Op> {
    if cascades == [] then [] else cascades[0] + Flatten(cascades[1..])
  }

  predicate AllDeletes(ops: seq<Op>) {
    forall i :: 0 <= i < |ops| ==> ops[i].kind == Delete
  }

  lemma {:induction false} InterleaveSnoc(ops: seq<Op>, cascades: seq<seq<Op>>, op: Op, effects: seq<Op>)
    requires |ops| == |cascades|
    ensures Interleave(ops + [op], cascades + [effects]) == Interleave(ops, cascades) + effects + [op]
    ensures Flatten(cascades + [effects]) == Flatten(cascades) + effects
  {
    if ops == [] {
      assert ops + [op] == [op] && cascades + [effects] == [effects];
      assert [op][1..] == [] && [effects][1..] == [];
    } else {
      assert (ops + [op])[1..] == ops[1..] + [op] && (cascades + [effects])[1..] == cascades[1..] + [effects];
      InterleaveSnoc(ops[1..], cascades[1..], op, effects);
      var first, rest := cascades[0] + [ops[0]], Interleave(ops[1..], cascades[1..]);
      assert first + (rest + effects + [op]) == first + rest + effects + [op];
    }
  }

  lemma InterleaveFirst(ops: seq<Op>, cascades: seq<seq<Op>>, k: Key)
    requires |ops| == |cascades| > 0
    ensures Touching(Interleave(ops, cascades), k) ==
      Touching(cascades[0], k) + Touching([ops[0]], k) + Touching(Interleave(ops[1..], cascades[1..]), k)
    ensures Touching(Flatten(cascades), k) == Touching(cascades[0], k) + Touching(Flatten(cascades[1..]), k)
    ensures Touching(ops, k) == Touching([ops[0]], k) + Touching(ops[1..], k)
  {
    assert ops == [ops[0]] + ops[1..];
    TouchingConcat([ops[0]], ops[1..], k);
    TouchingConcat(cascades[0], Flatten(cascades[1..]), k);
    TouchingConcat(cascades[0], [ops[0]], k);
    TouchingConcat(cascades[0] + [ops[0]], Interleave(ops[1..], cascades[1..]), k);
  }

  /** A record is applied to exactly when it is stored. */
  lemma {:induction false} InterleaveTouches(ops: seq<Op>, cascades: seq<seq<Op>>, k: Key)
    requires |ops| == |cascades|
    ensures Touching(Interleave(ops, cascades), k) == [] <==>
      Touching(ops, k) == [] && Touching(Flatten(cascades), k) == []
  {
    if ops != [] {
      InterleaveFirst(ops, cascades, k);
      InterleaveTouches(ops[1..], cascades[1..], k);
    }
  }

  /** Without effects the orders agree. */
  lemma {:induction false} InterleaveAlone(ops: seq<Op>, cascades: seq<seq<Op>>, k: Key)
    requires |ops| == |cascades| && Touching(Flatten(cascades), k) == []
    ensures Touching(Interleave(ops, cascades), k) == Touching(ops, k)
  {
    if ops != [] {
      InterleaveFirst(ops, cascades, k);
      InterleaveAlone(ops[1..], cascades[1..], k);
      assert Touching(cascades[0], k) == [];
      assert [] + Touching([ops[0]], k) == Touching([ops[0]], k);
    }
  }

  /** Half-way through: `applied` reached the visible rows, `waiting` records are held aside too. */
  predicate Halfway(db0: Db, db: Db, applied: seq<Op>, waiting: seq<Op>, k: Key) {
    && Replay(At(db0.main, k), Touching(applied, k)) == Done(At(db.main, k))
    && At(db.before, k) == (
      if Dirty(db0.queue, k) then At(db0.before, k)
      else Held(At(db0.main, k), Touching(applied, k) + Touching(waiting, k)))
  }

  ghost predicate Enqueuing(db0: Db, db: Db, applied: seq<Op>, waiting: seq<Op>) {
    db.queue == db0.queue && forall k :: Halfway(db0, db, applied, waiting, k)
  }

  lemma EnqueuingStart(db: Db, loose: set<Key>)
    requires Consistent(db, loose, {})
    ensures Enqueuing(db, db, [], [])
  {
    forall k ensures Halfway(db, db, [], [], k) {
      assert Backed(db, {}, k);
    }
  }

  lemma TouchingSnoc(ops: seq<Op>, op: Op, k: Key)
    ensures Touching(ops + [op], k) == if op.key == k then Touching(ops, k) + [op] else Touching(ops, k)
  {
    TouchingConcat(ops, [op], k);
    assert [op][1..] == [];
    assert Touching(ops, k) + [] == Touching(ops, k);
    assert [op] + [] == [op];
  }

  lemma HoldOwn(db0: Db, db: Db, applied: seq<Op>, waiting: seq<Op>, op: Op)
    requires db.queue == db0.queue && Halfway(db0, db, applied, waiting, op.key) && Touching(waiting, op.key) == []
    ensures Halfway(db0, HeldAside(db, op.key), applied, waiting + [op], op.key)
  {
    var k := op.key;
    var t := Touching(applied, k);
    TouchingSnoc(waiting, op, k);
    HeldAppend(At(db0.main, k), t, op);
    assert t + [] == t && [] + [op] == [op];
  }

  lemma HoldStep(db0: Db, db: Db, applied: seq<Op>, waiting: seq<Op>, op: Op)
    requires Enqueuing(db0, db, applied, waiting) && Touching(waiting, op.key) == []
    ensures Enqueuing(db0, HeldAside(db, op.key), applied, waiting + [op])
  {
    forall k ensures Halfway(db0, HeldAside(db, op.key), applied, waiting + [op], k) {
      assert Halfway(db0, db, applied, waiting, k);
      if k == op.key { HoldOwn(db0, db, applied, waiting, op); } else { TouchingSnoc(waiting, op, k); }
    }
  }

  lemma ApplyOwn(db0: Db, db: Db, main: Table, applied: seq<Op>, waiting: seq<Op>, op: Op)
    requires db.queue == db0.queue && Halfway(db0, db, applied, waiting + [op], op.key)
    requires Touching(waiting, op.key) == []
    requires Apply(At(db.main, op.key), op) == Done(At(main, op.key))
    ensures Halfway(db0, db.(main := main), applied + [op], waiting, op.key)
  {
    var k := op.key;
    var t := Touching(applied, k);
    TouchingSnoc(waiting, op, k);
    TouchingSnoc(applied, op, k);
    ReplayConcat(At(db0.main, k), t, [op]);
    assert [op][1..] == [];
    assert Replay(At(db.main, k), [op]) == Apply(At(db.main, k), op);
    assert [] + [op] == [op] && (t + [op]) + [] == t + [op];
  }

  lemma ApplyStep(db0: Db, db: Db, main: Table, applied: seq<Op>, waiting: seq<Op>, op: Op)
    requires Enqueuing(db0, db, applied, waiting + [op]) && Touching(waiting, op.key) == []
    requires Apply(At(db.main, op.key), op) == Done(At(main, op.key))
    requires forall k :: k != op.key ==> At(main, k) == At(db.main, k)
    ensures Enqueuing(db0, db.(main := main), applied + [op], waiting)
  {
    forall k ensures Halfway(db0, db.(main := main), applied + [op], waiting, k) {
      assert Halfway(db0, db, applied, waiting + [op], k);
      if k == op.key {
        ApplyOwn(db0, db, main, applied, waiting, op);
      } else {
        TouchingSnoc(waiting, op, k);
        TouchingSnoc(applied, op, k);
      }
    }
  }

  predicate Stored(q: Queued, ops: seq<Op>, cascades: seq<seq<Op>>) {
    |ops| == |cascades| && q.wire + q.companion == ops && q.effects == Flatten(cascades) && AllDeletes(q.effects)
  }

  lemma StoredTouching(q: Queued, ops: seq<Op>, cascades: seq<seq<Op>>, k: Key)
    requires Stored(q, ops, cascades)
    ensures Touching(OpsOf(q), k) == Touching(ops, k) + Touching(q.effects, k)
    ensures Touching(OpsOf(q), k) == [] <==> Touching(Interleave(ops, cascades), k) == []
    ensures Touching(q.effects, k) == [] ==> Touching(Interleave(ops, cascades), k) == Touching(OpsOf(q), k)
  {
    TouchingConcat(ops, q.effects, k);
    InterleaveTouches(ops, cascades, k);
    if Touching(q.effects, k) == [] {
      InterleaveAlone(ops, cascades, k);
      assert Touching(ops, k) + [] == Touching(ops, k);
    }
  }

  lemma AppendOps(queue: seq<Queued>, q: Queued, k: Key)
    ensures OpsFor(queue + [q], k) == OpsFor(queue, k) + Touching(OpsOf(q), k)
  {
    OpsForConcat(queue, [q], k);
    OpsForOne(q, k);
  }

  lemma EnqueuedOps(db: Db, q: Queued, ops: seq<Op>, cascades: seq<seq<Op>>, k: Key)
    requires Stored(q, ops, cascades)
    ensures Dirty(db.queue + [q], k) <==> Dirty(db.queue, k) || Touching(Interleave(ops, cascades), k) != []
  {
    AppendOps(db.queue, q, k);
    StoredTouching(q, ops, cascades, k);
  }

  /** A clean and absent record is created and touched again. */
  predicate Leaks(db: Db, applied: seq<Op>, k: Key) {
    !Dirty(db.queue, k) && At(db.main, k).None? && CreatedThenTouched(Touching(applied, k))
  }

  /** Optimism reaches the truth of exactly the records that were clean and absent and that the
      mutation creates and then touches again. */
  lemma EnqueueTruth(db0: Db, db: Db, loose: set<Key>, q: Queued, ops: seq<Op>, cascades: seq<seq<Op>>, k: Key)
    requires Consistent(db0, loose, {}) && Stored(q, ops, cascades)
    requires Enqueuing(db0, db, Interleave(ops, cascades), [])
    ensures Base(db.(queue := db.queue + [q]), {}, k) == Base(db0, {}, k) <==> !Leaks(db0, Interleave(ops, cascades), k)
  {
    var t := Touching(Interleave(ops, cascades), k);
    assert Halfway(db0, db, Interleave(ops, cascades), [], k);
    assert t + [] == t;
    EnqueuedOps(db, q, ops, cascades, k);
    if At(db0.main, k).None? {
      HeldAbsent(t);
    }
  }

  /** A cascade effect on `k` was applied before a later create or update of `k` but is stored after it. */
  predicate Misordered(ops: seq<Op>, cascades: seq<seq<Op>>, k: Key)
    requires |ops| == |cascades|
  {
    var t := Touching(Interleave(ops, cascades), k);
    Touching(Flatten(cascades), k) != [] && t != [] && t[|t| - 1].kind != Delete
  }

  lemma ShownInOrder(db0: Db, db: Db, q: Queued, t: seq<Op>, k: Key)
    requires Shown(db0, k) && db.queue == db0.queue && Touching(OpsOf(q), k) == t
    requires Replay(At(db0.main, k), t) == Done(At(db.main, k))
    requires At(db.before, k) == if Dirty(db0.queue, k) then At(db0.before, k) else Held(At(db0.main, k), t)
    ensures Shown(db.(queue := db.queue + [q]), k)
  {
    AppendOps(db.queue, q, k);
    ReplayConcat(At(db.before, k), OpsFor(db.queue, k), t);
    if t == [] {
      assert OpsFor(db.queue, k) + [] == OpsFor(db.queue, k);
    } else if !Dirty(db0.queue, k) {
      HeldReplay(At(db0.main, k), t);
    }
  }

  lemma ShownOutOfOrder(db0: Db, db: Db, q: Queued, t: seq<Op>, k: Key)
    requires db.queue == db0.queue && t != []
    requires var s := Touching(OpsOf(q), k); s != [] && s[|s| - 1].kind == Delete
    requires Replay(At(db0.main, k), t) == Done(At(db.main, k))
    ensures var r := db.(queue := db.queue + [q]);
      Shown(r, k) <==> t[|t| - 1].kind == Delete || Replay(At(r.before, k), OpsFor(r.queue, k)).Failed?
  {
    AppendOps(db.queue, q, k);
    var s, all := Touching(OpsOf(q), k), OpsFor(db.queue + [q], k);
    assert all[|all| - 1] == s[|s| - 1];
    if Replay(At(db.before, k), all).Done? { ReplayLast(At(db.before, k), all); }
    ReplayLast(At(db0.main, k), t);
  }

  /** A shown record stays shown unless the stored order puts an effect after its last create or update;
      then it is shown only if its replay fails. */
  lemma EnqueueShown(db0: Db, db: Db, q: Queued, ops: seq<Op>, cascades: seq<seq<Op>>, k: Key)
    requires Stored(q, ops, cascades) && Shown(db0, k)
    requires Enqueuing(db0, db, Interleave(ops, cascades), [])
    ensures var r := db.(queue := db.queue + [q]);
      Shown(r, k) <==> !Misordered(ops, cascades, k) || Replay(At(r.before, k), OpsFor(r.queue, k)).Failed?
  {
    var t := Touching(Interleave(ops, cascades), k);
    assert Halfway(db0, db, Interleave(ops, cascades), [], k);
    assert t + [] == t;
    StoredTouching(q, ops, cascades, k);
    if Touching(q.effects, k) == [] {
      ShownInOrder(db0, db, q, t, k);
    } else {
      LastIsEffect(q, ops, cascades, k);
      ShownOutOfOrder(db0, db, q, t, k);
    }
  }

  lemma LastIsEffect(q: Queued, ops: seq<Op>, cascades: seq<seq<Op>>, k: Key)
    requires Stored(q, ops, cascades) && Touching(q.effects, k) != []
    ensures var s := Touching(OpsOf(q), k); s != [] && s[|s| - 1].kind == Delete
  {
    StoredTouching(q, ops, cascades, k);
    TouchingDeletes(q.effects, k);
    var s, e := Touching(OpsOf(q), k), Touching(q.effects, k);
    assert s[|s| - 1] == e[|e| - 1];
  }

  lemma {:induction false} TouchingDeletes(ops: seq<Op>, k: Key)
    requires AllDeletes(ops)
    ensures AllDeletes(Touching(ops, k))
  {
    if ops != [] {
      TouchingDeletes(ops[1..], k);
    }
  }

  /** The new mutation keeps every record consistent but the misordered ones. */
  lemma EnqueueKeeps(db0: Db, db: Db, loose: set<Key>, q: Queued, ops: seq<Op>, cascades: seq<seq<Op>>)
    requires Consistent(db0, loose, {}) && Stored(q, ops, cascades)
    requires Enqueuing(db0, db, Interleave(ops, cascades), [])
    ensures Consistent(db.(queue := db.queue + [q]), loose + MisorderedKeys(ops, cascades), {})
  {
    var applied := Interleave(ops, cascades);
    var r := db.(queue := db.queue + [q]);
    forall k ensures Backed(r, {}, k) {
      assert Halfway(db0, db, applied, [], k);
      assert Touching(applied, k) + [] == Touching(applied, k);
      EnqueuedOps(db, q, ops, cascades, k);
      assert Backed(db0, {}, k);
      assert k in r.before ==> At(r.before, k).Some?;
    }
    forall k | k !in loose + MisorderedKeys(ops, cascades) ensures Shown(r, k) {
      assert Shown(db0, k);
      EnqueueShown(db0, db, q, ops, cascades, k);
    }
  }

  function MisorderedKeys(ops: seq<Op>, cascades: seq<seq<Op>>): (r: set<Key>)
    requires |ops| == |cascades|
    ensures forall k :: k in r <==> Misordered(ops, cascades, k)
  {
    set k | k in KeysOf(Flatten(cascades)) && Misordered(ops, cascades, k)
  }

  lemma ReplayTwo(row: Row, a: Op, b: Op)
    ensures Replay(row, [a, b]) == match Apply(row, a) case Failed => Failed case Done(next) => Apply(next, b)
    ensures Held(row, [a, b]) ==
      if row.Some? then row else match Apply(row, a) case Failed => None case Done(next) => next
  {
    assert [a, b][1..] == [b] && [b][1..] == [];
    match Apply(row, a) {
      case Failed =>
      case Done(next) =>
        assert Replay(next, [b]) == Apply(next, b);
        assert next.None? ==> Held(next, [b]).None?;
    }
  }

  /** Creating and updating one record in one mutation copies the optimistic row aside: when the
      mutation is dropped the created row stays. */
  lemma CreateThenUpdateLeaks(k: Key, values: Fields, patch: Fields)
    ensures var ops := [Op(k, Create, Some(values)), Op(k, Update, Some(patch))];
      Replay(None, ops).Done? && Held(None, ops) == Some(k.identity + values)
  {
    ReplayTwo(None, Op(k, Create, Some(values)), Op(k, Update, Some(patch)));
  }

  lemma InterleaveTwo(a: Op, b: Op, first: seq<Op>)
    ensures Interleave([a, b], [first, []]) == first + [a] + [b]
    ensures Flatten([first, []]) == first
  {
    var nothing: seq<seq<Op>> := [];
    InterleaveSnoc([], nothing, a, first);
    InterleaveSnoc([a], [first], b, []);
    assert [] + [a] == [a] && nothing + [first] == [first] && [a] + [b] == [a, b];
    assert [first] + [[]] == [first, []];
    assert Interleave([], nothing) + first + [a] == first + [a] && first + [a] + [] == first + [a];
    assert Flatten(nothing) + first == first && first + [] == first;
  }

  lemma TouchingSingle(op: Op, k: Key)
    ensures Touching([op], k) == if op.key == k then [op] else []
  {
    TouchingSnoc([], op, k);
    assert [] + [op] == [op];
  }

  lemma TouchingThree(a: Op, b: Op, c: Op, k: Key)
    requires a.key == k != b.key && c.key == k
    ensures Touching([a] + [b] + [c], k) == [a] + [c] && Touching([b] + [c] + [a], k) == [c] + [a]
  {
    TouchingSingle(a, k);
    TouchingSnoc([a], b, k);
    TouchingSnoc([a] + [b], c, k);
    TouchingSingle(b, k);
    TouchingSnoc([b], c, k);
    TouchingSnoc([b] + [c], a, k);
    assert [] + [c] == [c];
  }

  /** A child deleted earlier, then cascaded over and created again by one mutation: the visible row is
      the new one, but the stored order deletes it last. */
  lemma DeleteParentThenCreateChildDiffers(parent: Key, child: Key, values: Fields)
    requires parent != child
    ensures var ops := [Op(parent, Delete, None), Op(child, Create, Some(values))];
      var cascades := [[Op(child, Delete, None)], []];
      && Misordered(ops, cascades, child)
      && Replay(None, Touching(Interleave(ops, cascades), child)) == Done(Some(child.identity + values))
      && Replay(None, Touching(ops + Flatten(cascades), child)) == Done(None)
  {
    var d, p, c := Op(child, Delete, None), Op(parent, Delete, None), Op(child, Create, Some(values));
    InterleaveTwo(p, c, [d]);
    TouchingThree(d, p, c, child);
    assert [d] + [c] == [d, c] && [c] + [d] == [c, d];
    assert [p, c] + [d] == [p] + [c] + [d];
    ReplayTwo(None, d, c);
    ReplayTwo(None, c, d);
    TouchingSnoc([], d, child);
    assert [] + [d] == [d];
  }
}
