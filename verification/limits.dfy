/** A place where the code does less than one would state: one walk over queued deletions, with the inputs and the
    exact extent. */
module Limits {
  import opened Options
  import opened Records
  import opened Graphs
  import opened Cascades
  import opened Queue
  import opened Optimism
  import opened Upkeep
  import opened Enqueueing
  import opened Extending
  import opened Authorities
  import opened Landings

  function Identity(relation: Relation, text: string): Fields {
    map name | name in relation.targetFields :: Text(text)
  }

  function Pointing(relation: Relation, text: string): Fields {
    map name | name in relation.fields :: Text(text)
  }

  function Parent(relation: Relation, text: string): Key {
    Key(relation.target, Identity(relation, text))
  }

  /** The row of a child that points at the parent named by `text`. */
  function ChildRow(relation: Relation, child: Key, text: string): Fields {
    child.identity + Pointing(relation, text)
  }

  lemma Points(relation: Relation, child: Key, text: string)
    ensures PointsAt(relation, ChildRow(relation, child, text), Parent(relation, text))
  {
    forall i | 0 <= i < |relation.fields| && i < |relation.targetFields|
      ensures Get(ChildRow(relation, child, text), relation.fields[i]) ==
              Get(Parent(relation, text).identity, relation.targetFields[i])
    {
      assert relation.fields[i] in Pointing(relation, text);
      assert relation.targetFields[i] in relation.targetFields;
    }
  }

  /** How often a walk over queued deletions meets a record at a stop of one mutation. */
  function Meets(stops: seq<Stop>, lists: seq<seq<Key>>, i: nat, k: Key): nat {
    if stops == [] || lists == [] then 0
    else
      Meets(stops[..|stops| - 1], lists[..|lists| - 1], i, k)
      + if stops[|stops| - 1].i == i && k in lists[|lists| - 1] then 1 else 0
  }

  lemma MarkedEffects(queue: seq<Queued>, ordinal: nat, i: nat)
    requires i < |queue|
    ensures Marked(queue, ordinal)[i].effects == queue[i].effects
  {
  }

  lemma ExtendedCounts(db: Db, n: nat, child: Key, effects: seq<Op>, i: nat, k: Key)
    requires n < |db.queue| && i < |db.queue|
    ensures |Touching(Extended(db, n, child, effects).queue[i].effects, k)| ==
      |Touching(db.queue[i].effects, k)| + if n == i && k == child && Touching(effects, k) == [] then 1 else 0
  {
    if Touching(effects, child) == [] {
      var queue := Effected(db.queue, n, child);
      TouchingSnoc(db.queue[n].effects, Op(child, Delete, None), k);
      var failed := FailingFor(HeldAside(db, child).(queue := queue), child);
      if failed.Some? { MarkedEffects(queue, failed.value, i); }
    }
  }

  lemma {:induction false} ExtendedEachCounts(db: Db, n: nat, children: seq<Key>, effects: seq<Op>, i: nat, k: Key)
    requires n < |db.queue| && i < |db.queue| && NoDuplicates(children)
    ensures |Touching(ExtendedEach(db, n, children, effects).queue[i].effects, k)| ==
      |Touching(db.queue[i].effects, k)| + if n == i && k in children && Touching(effects, k) == [] then 1 else 0
  {
    if children != [] {
      var front, child := children[..|children| - 1], children[|children| - 1];
      assert children == front + [child] && child !in front;
      ExtendedEachCounts(db, n, front, effects, i, k);
      ExtendedCounts(ExtendedEach(db, n, front, effects), n, child, effects, i, k);
    }
  }

  /** A walk stores one effect on a record for each stop of a mutation that meets it, unless the mutation
      had one when the walk began: twice exactly when two of its deletions reach the record. */
  lemma {:induction false} WalkCounts(relations: seq<Relation>, queued: seq<Queued>, stops: seq<Stop>,
                                      lists: seq<seq<Key>>,
                                      from: Db, i: nat, k: Key)
    requires Walk(relations, queued, stops, lists, from).Some? && i < |queued| == |from.queue|
    ensures var to := Walk(relations, queued, stops, lists, from).value;
      && |to.queue| == |from.queue|
      && |Touching(to.queue[i].effects, k)| == |Touching(from.queue[i].effects, k)|
           + if Touching(queued[i].effects, k) == [] then Meets(stops, lists, i, k) else 0
    decreases |stops|
  {
    if stops != [] && lists != [] {
      var stop, list, before := stops[|stops| - 1], lists[|lists| - 1], stops[..|stops| - 1];
      WalkCounts(relations, queued, before, lists[..|lists| - 1], from, i, k);
      var db := Walk(relations, queued, before, lists[..|lists| - 1], from).value;
      ExtendedEachCounts(db, stop.i, list, queued[stop.i].effects, i, k);
    }
  }

  /** A second effect on a record replays to nothing new. */
  lemma SecondEffectIsSilent(queue: seq<Queued>, i: nat, child: Key, row: Row)
    requires i < |queue| && Touching(OpsOf(queue[i]), child) != []
    requires var t := Touching(OpsOf(queue[i]), child); t[|t| - 1].kind == Delete
    ensures Replay(row, OpsFor(Effected(queue, i, child), child)) == Replay(row, OpsFor(queue, child))
  {
    var effect := Op(child, Delete, None);
    var before, t, after := OpsFor(queue[..i], child), Touching(OpsOf(queue[i]), child),
                            OpsFor(queue[i + 1..], child);
    assert OpsFor(Effected(queue, i, child), child) == before + (t + [effect]) + after by {
      var q := Effected(queue, i, child)[i];
      assert OpsOf(q) == OpsOf(queue[i]) + [effect];
      TouchingSnoc(OpsOf(queue[i]), effect, child);
      OpsForUpdate(queue, i, q, child);
    }
    assert OpsFor(queue, child) == before + t + after by {
      OpsForUpdate(queue, i, queue[i], child);
      assert queue[i := queue[i]] == queue;
    }
    SecondDelete(row, before, t, effect, after);
  }

  lemma SecondDelete(row: Row, before: seq<Op>, t: seq<Op>, effect: Op, after: seq<Op>)
    requires t != [] && t[|t| - 1].kind == Delete && effect.kind == Delete
    ensures Replay(row, before + (t + [effect]) + after) == Replay(row, before + t + after)
  {
    ReplayConcat(row, before + (t + [effect]), after);
    ReplayConcat(row, before + t, after);
    ReplayConcat(row, before, t + [effect]);
    ReplayConcat(row, before, t);
    if Replay(row, before).Done? { DeletedTwice(Replay(row, before).row, t, effect); }
  }

  lemma DeletedTwice(row: Row, ops: seq<Op>, effect: Op)
    requires ops != [] && ops[|ops| - 1].kind == Delete && effect.kind == Delete
    ensures Replay(row, ops + [effect]) == Replay(row, ops)
  {
    ReplayConcat(row, ops, [effect]);
    assert [effect][1..] == [];
    if Replay(row, ops).Done? {
      ReplayLast(row, ops);
      assert Replay(Replay(row, ops).row, [effect]) == Apply(Replay(row, ops).row, effect);
    }
  }

  /** A parent and one record that hangs under it. */
  predicate Hangs(relation: Relation, rows: Rows, parent: Key, child: Key) {
    && relation.cascades && relation.target == parent.model && relation.model == child.model
    && parent.model != child.model
    && rows.main.Keys + rows.before.Keys <= {child}
    && (ChildThrough(relation, At(rows.main, child), parent, child)
        || ChildThrough(relation, At(rows.before, child), parent, child))
  }

  lemma OnlyChild(relation: Relation, rows: Rows, parent: Key, child: Key)
    requires Hangs(relation, rows, parent, child)
    ensures forall k :: Under([relation], rows, parent, k) <==> k == parent || k == child
  {
    var step := Step([relation], rows);
    assert [relation][0] == relation && IsChild([relation], rows, parent, child);
    assert Links(step, [parent], parent, parent);
    ReachableStep(step, parent, parent, child);
    forall k | Under([relation], rows, parent, k) ensures k in {parent, child} {
      var path :| Links(step, path, parent, k);
      PathStays(step, {parent, child}, path, |path| - 1);
    }
  }

  lemma ListsChild(relation: Relation, db: Db, parent: Key, child: Key)
    requires Hangs(relation, RowsOf(db), parent, child)
    ensures Lists([relation], db, parent, [child])
  {
    OnlyChild(relation, RowsOf(db), parent, child);
  }

  /** A mutation that deletes a record twice, queued before a child of the record appeared. */
  function Deleting(parent: Key): Queued {
    var delete := Op(parent, Delete, None);
    Queued(1, "remove", 1, None, false, [delete, delete], [], [], {}, {}, {})
  }

  function Appeared(relation: Relation, parent: Key, child: Key): Db {
    Db(map[child := ChildRow(relation, child, "p")], map[], [Deleting(parent)])
  }

  /** One walk stores the effect on the child twice. */
  lemma {:induction false} WalkStoresTwice(relation: Relation, child: Key)
    requires relation.cascades && relation.model == child.model && relation.target != child.model
    requires forall name :: name in relation.fields ==> name !in child.identity
    ensures var db := Appeared(relation, Parent(relation, "p"), child);
      var r := Walk([relation], db.queue, Stops(db.queue, 1), [[child], [child]], db);
      r.Some? && |r.value.queue| == 1 && |Touching(r.value.queue[0].effects, child)| == 2
  {
    var parent := Parent(relation, "p");
    var db := Appeared(relation, parent, child);
    Points(relation, child, "p");
    ListsChild(relation, db, parent, child);
    FirstStop(relation, parent, child);
    ListsChild(relation, ExtendedEach(db, 0, [child], []), parent, child);
    TwoStops(parent);
    WalkTwo([relation], db.queue, db, Stop(0, parent), [child], Stop(0, parent), [child]);
    WalkCounts([relation], db.queue, [Stop(0, parent), Stop(0, parent)], [[child], [child]], db, 0, child);
    MeetsTwice(Stop(0, parent), [child], child);
  }

  lemma {:induction false} WalkTwo(relations: seq<Relation>, queued: seq<Queued>, db: Db, a: Stop, first: seq<Key>,
                                   b: Stop, second: seq<Key>)
    requires a.i < |queued| && b.i < |queued| == |db.queue| && Lists(relations, db, a.parent, first)
    requires Lists(relations, ExtendedEach(db, a.i, first, queued[a.i].effects), b.parent, second)
    ensures Walk(relations, queued, [a, b], [first, second], db) ==
      Some(ExtendedEach(ExtendedEach(db, a.i, first, queued[a.i].effects), b.i, second, queued[b.i].effects))
  {
    assert Walk(relations, queued, [], [], db) == Some(db);
    WalkOn(relations, queued, [], [], db, a, first);
    assert [] + [a] == [a] && [] + [first] == [first];
    WalkOn(relations, queued, [a], [first], db, b, second);
    assert [a] + [b] == [a, b] && [first] + [second] == [first, second];
  }

  lemma TwoStops(parent: Key)
    ensures Stops([Deleting(parent)], 1) == [Stop(0, parent), Stop(0, parent)]
  {
    var delete := Op(parent, Delete, None);
    assert [delete, delete] + [] == [delete, delete] && [delete, delete][1..] == [delete] && [delete][1..] == [];
    assert DeletesOf([]) == [] && DeletesOf([delete]) == [delete] && DeletesOf([delete, delete]) == [delete, delete];
    assert Stops([Deleting(parent)], 0) == [];
  }

  lemma MeetsTwice(stop: Stop, list: seq<Key>, k: Key)
    requires k in list
    ensures Meets([stop, stop], [list, list], stop.i, k) == 2
  {
    assert [stop, stop][..1] == [stop] && [list, list][..1] == [list];
    assert [stop][..0] == [] && [list][..0] == [];
    assert Meets([], [], stop.i, k) == 0;
    assert Meets([stop], [list], stop.i, k) == 1;
  }

  lemma DeletingOps(parent: Key, child: Key)
    requires parent != child
    ensures OpsFor([Deleting(parent)], child) == []
    ensures OpsFor(Effected([Deleting(parent)], 0, child), child) == [Op(child, Delete, None)]
  {
    var effect, delete := Op(child, Delete, None), Op(parent, Delete, None);
    var q := Deleting(parent);
    var q' := q.(effects := q.effects + [effect]);
    assert Effected([q], 0, child) == [q'];
    assert OpsOf(q) == [delete] + [delete] && OpsOf(q') == ([delete] + [delete]) + [effect];
    TouchingSingle(delete, child);
    TouchingSnoc([delete], delete, child);
    TouchingSnoc([delete] + [delete], effect, child);
    OpsForOne(q, child);
    OpsForOne(q', child);
  }

  /** A record with one pending deletion is rebuilt to nothing over an untouched image. */
  lemma RebuiltAway(db: Db, child: Key)
    requires OpsFor(db.queue, child) == [Op(child, Delete, None)]
    ensures Remade(db, child).before == db.before && Remade(db, child).main == db.main - {child}
  {
    var ops := OpsFor(db.queue, child);
    assert ops[1..] == [] && Replay(None, []) == Done(None);
    assert Rebuilt(db, child) == None;
  }

  /** The first stop holds the child aside and deletes it; its before image still hangs under the parent. */
  lemma FirstStop(relation: Relation, parent: Key, child: Key)
    requires relation.target == parent.model && child.model != parent.model
    ensures var db1 := ExtendedEach(Appeared(relation, parent, child), 0, [child], []);
      db1.main == map[] && db1.before == map[child := ChildRow(relation, child, "p")]
  {
    var db := Appeared(relation, parent, child);
    DeletingOps(parent, child);
    assert [child][..0] == [] && ExtendedEach(db, 0, [], []) == db;
    var held := HeldAside(db, child).(queue := Effected(db.queue, 0, child));
    assert held.before == map[child := ChildRow(relation, child, "p")];
    RebuiltAway(held, child);
    assert held.main - {child} == map[];
  }

  /** After a walk a mutation has an effect on exactly the records it had one on before, or that one of its
      deletions reached at its stop. */
  lemma WalkCovers(relations: seq<Relation>, queued: seq<Queued>, stops: seq<Stop>, lists: seq<seq<Key>>, from: Db,
                   i: nat, k: Key)
    requires Walk(relations, queued, stops, lists, from).Some? && i < |queued| && from.queue == queued
    ensures var to := Walk(relations, queued, stops, lists, from).value;
      |to.queue| == |queued| && (Touching(to.queue[i].effects, k) != [] <==>
        Touching(queued[i].effects, k) != [] || Meets(stops, lists, i, k) > 0)
  {
    WalkCounts(relations, queued, stops, lists, from, i, k);
    var to := Walk(relations, queued, stops, lists, from).value;
    assert Touching(to.queue[i].effects, k) == [] <==> |Touching(to.queue[i].effects, k)| == 0;
    assert Touching(queued[i].effects, k) == [] <==> |Touching(queued[i].effects, k)| == 0;
  }

  function Named(ordinal: nat, op: Op): Queued {
    Queued(ordinal, "one", 1, None, false, [op], [], [], {}, {}, {})
  }

  /** The truth of a record hangs under the second deleted parent; a later creation of it, which does not
      replay yet, would hang under the first. */
  function Returning(relation: Relation, child: Key): Db {
    var first, second := Op(Parent(relation, "p"), Delete, None), Op(Parent(relation, "q"), Delete, None);
    Db(map[child := ChildRow(relation, child, "q")], map[child := ChildRow(relation, child, "q")],
       [Named(1, first), Named(2, second), Named(3, Op(child, Create, Some(Pointing(relation, "p"))))])
  }

  predicate Refers(relation: Relation, child: Key) {
    && relation.cascades && relation.model == child.model && relation.target != child.model
    && relation.fields != [] && relation.targetFields != []
    && forall name :: name in relation.fields ==> name !in child.identity
  }

  lemma PointsElsewhere(relation: Relation, child: Key, text: string, other: string)
    requires relation.fields != [] && relation.targetFields != [] && text != other
    ensures !PointsAt(relation, ChildRow(relation, child, text), Parent(relation, other))
  {
    assert relation.fields[0] in relation.fields;
    assert relation.targetFields[0] in relation.targetFields;
    assert Get(ChildRow(relation, child, text), relation.fields[0]) == Text(text);
    assert Get(Parent(relation, other).identity, relation.targetFields[0]) == Text(other);
  }

  lemma NothingUnder(relation: Relation, db: Db, parent: Key, child: Key)
    requires RowsOf(db).main.Keys + RowsOf(db).before.Keys <= {child}
    requires !IsChild([relation], RowsOf(db), parent, child)
    ensures Lists([relation], db, parent, [])
  {
    var step := Step([relation], RowsOf(db));
    forall k | Under([relation], RowsOf(db), parent, k) ensures k == parent {
      var path :| Links(step, path, parent, k);
      assert step(parent) == {};
      PathStays(step, {parent}, path, |path| - 1);
    }
  }

  lemma OpsForThree(a: Queued, b: Queued, c: Queued, k: Key)
    ensures OpsFor([a, b, c], k) == Touching(OpsOf(a), k) + (Touching(OpsOf(b), k) + Touching(OpsOf(c), k))
  {
    assert [a, b, c] == [a] + ([b] + [c]);
    OpsForConcat([a], [b] + [c], k);
    OpsForConcat([b], [c], k);
    OpsForOne(a, k);
    OpsForOne(b, k);
    OpsForOne(c, k);
  }

  lemma NamedTouches(ordinal: nat, op: Op, k: Key)
    ensures Touching(OpsOf(Named(ordinal, op)), k) == if op.key == k then [op] else []
  {
    assert OpsOf(Named(ordinal, op)) == [op];
    TouchingSingle(op, k);
  }

  /** An effect of the second of three mutations comes before the third one's creation. */
  lemma MiddleEffect(a: Queued, b: Queued, c: Queued, child: Key, create: Op)
    requires Touching(OpsOf(a), child) == [] && Touching(OpsOf(b), child) == []
    requires Touching(OpsOf(c), child) == [create]
    ensures OpsFor([a, b, c], child) == [create]
    ensures OpsFor(Effected([a, b, c], 1, child), child) == [Op(child, Delete, None), create]
  {
    var b' := b.(effects := b.effects + [Op(child, Delete, None)]);
    assert [a, b, c][1 := b'] == [a, b', c];
    EffectTouches(b, child);
    OpsForThree(a, b, c, child);
    OpsForThree(a, b', c, child);
    assert [] + ([] + [create]) == [create];
    assert [] + ([Op(child, Delete, None)] + [create]) == [Op(child, Delete, None), create];
  }

  lemma EffectTouches(q: Queued, child: Key)
    requires Touching(OpsOf(q), child) == []
    ensures var effect := Op(child, Delete, None);
      Touching(OpsOf(q.(effects := q.effects + [effect])), child) == [effect]
  {
    var effect := Op(child, Delete, None);
    assert OpsOf(q.(effects := q.effects + [effect])) == OpsOf(q) + [effect];
    TouchingSnoc(OpsOf(q), effect, child);
  }

  lemma ReturningOps(relation: Relation, child: Key)
    requires relation.target != child.model
    ensures var q, create := Returning(relation, child).queue, Op(child, Create, Some(Pointing(relation, "p")));
      OpsFor(q, child) == [create] && OpsFor(Effected(q, 1, child), child) == [Op(child, Delete, None), create]
  {
    var first, second := Op(Parent(relation, "p"), Delete, None), Op(Parent(relation, "q"), Delete, None);
    var create := Op(child, Create, Some(Pointing(relation, "p")));
    NamedTouches(1, first, child);
    NamedTouches(2, second, child);
    NamedTouches(3, create, child);
    MiddleEffect(Named(1, first), Named(2, second), Named(3, create), child, create);
  }

  /** A deletion and the creation after it bring the record back over any image. */
  lemma Recreated(db: Db, child: Key, values: Fields)
    requires OpsFor(db.queue, child) == [Op(child, Delete, None), Op(child, Create, Some(values))]
    ensures Remade(db, child).main == db.main[child := child.identity + values]
    ensures Remade(db, child).queue == db.queue
  {
    ReplayTwo(At(db.before, child), Op(child, Delete, None), Op(child, Create, Some(values)));
    assert Rebuilt(db, child) == Some(child.identity + values);
  }

  lemma OneExtended(db: Db, i: nat, child: Key)
    requires i < |db.queue|
    ensures ExtendedEach(db, i, [child], []) == Extended(db, i, child, [])
  {
    assert [child][..0] == [] && ExtendedEach(db, i, [], []) == db;
  }

  /** The second stop deletes the record under the creation, which replays from then on. */
  lemma {:induction false} SecondStop(relation: Relation, child: Key)
    requires Refers(relation, child)
    ensures var to := ExtendedEach(Returning(relation, child), 1, [child], []);
      && to.main == map[child := ChildRow(relation, child, "p")]
      && to.queue[0] == Returning(relation, child).queue[0]
  {
    var db := Returning(relation, child);
    var effected := db.(queue := Effected(db.queue, 1, child));
    ReturningOps(relation, child);
    Recreated(effected, child, Pointing(relation, "p"));
    assert HeldAside(db, child) == db;
    assert Extended(db, 1, child, []) == Remade(effected, child);
    OneExtended(db, 1, child);
  }

  /** One walk may leave a record under a queued deletion without an effect of it: extending a later deletion
      brings the record back under an earlier one. */
  lemma {:induction false} LateDescendant(relation: Relation, child: Key)
    requires Refers(relation, child)
    ensures var db, parent := Returning(relation, child), Parent(relation, "p");
      var r := Walk([relation], db.queue, [Stop(0, parent), Stop(1, Parent(relation, "q"))], [[], [child]], db);
      r.Some? && Under([relation], RowsOf(r.value), parent, child)
      && |r.value.queue| == 3 && Touching(r.value.queue[0].effects, child) == []
  {
    var db, parent, other := Returning(relation, child), Parent(relation, "p"), Parent(relation, "q");
    FirstFindsNothing(relation, child);
    SecondFindsChild(relation, child);
    assert ExtendedEach(db, 0, [], []) == db;
    WalkTwo([relation], db.queue, db, Stop(0, parent), [], Stop(1, other), [child]);
    SecondStop(relation, child);
    BackUnder(relation, ExtendedEach(db, 1, [child], []), child);
  }

  lemma FirstFindsNothing(relation: Relation, child: Key)
    requires Refers(relation, child)
    ensures Lists([relation], Returning(relation, child), Parent(relation, "p"), [])
  {
    PointsElsewhere(relation, child, "q", "p");
    NothingUnder(relation, Returning(relation, child), Parent(relation, "p"), child);
  }

  lemma SecondFindsChild(relation: Relation, child: Key)
    requires Refers(relation, child)
    ensures Lists([relation], Returning(relation, child), Parent(relation, "q"), [child])
  {
    Points(relation, child, "q");
    ListsChild(relation, Returning(relation, child), Parent(relation, "q"), child);
  }

  lemma BackUnder(relation: Relation, db: Db, child: Key)
    requires Refers(relation, child) && db.main == map[child := ChildRow(relation, child, "p")]
    ensures Under([relation], RowsOf(db), Parent(relation, "p"), child)
  {
    Points(relation, child, "p");
    ChildIsUnder([relation], 0, RowsOf(db), Parent(relation, "p"), child);
  }
}
