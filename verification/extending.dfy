/** Rebuilding a record to the letter, and extending queued deletes to descendants that appeared. */
module Extending {
  import opened Options
  import opened Records
  import opened Graphs
  import opened Cascades
  import opened Queue
  import opened Optimism
  import opened Upkeep
  import opened Writing

  /** The owners of the queued operations on one record, operation by operation. */
  function Owners(queue: seq<Queued>, k: Key): (r: seq<nat>)
    ensures |r| == |OpsFor(queue, k)|
  {
    if queue == [] then []
    else seq(|Touching(OpsOf(queue[0]), k)|, i => queue[0].ordinal) + Owners(queue[1..], k)
  }

  /** The owner of the first operation that does not replay. */
  function Failing(row: Row, ops: seq<Op>, owners: seq<nat>): (r: Option<nat>)
    requires |owners| == |ops|
    ensures r.None? <==> Replay(row, ops).Done?
    decreases |ops|
  {
    if ops == [] then None
    else
      match Apply(row, ops[0])
      case Failed => Some(owners[0])
      case Done(next) => Failing(next, ops[1..], owners[1..])
  }

  function FailingFor(db: Db, k: Key): Option<nat> {
    Failing(At(db.before, k), OpsFor(db.queue, k), Owners(db.queue, k))
  }

  lemma {:induction false} FailingIsFirst(row: Row, ops: seq<Op>, owners: seq<nat>, n: nat)
    requires |owners| == |ops| && n < |ops|
    requires Replay(row, ops[..n]).Done? && Apply(Replay(row, ops[..n]).row, ops[n]).Failed?
    ensures Failing(row, ops, owners) == Some(owners[n])
    decreases n
  {
    if n > 0 {
      assert ops[..n][1..] == ops[1..][..n - 1];
      FailingIsFirst(Apply(row, ops[0]).row, ops[1..], owners[1..], n - 1);
    }
  }

  /** The `n`th operation on the record is one of the `i`th mutation's. */
  predicate OwnedBy(queue: seq<Queued>, k: Key, n: nat, i: nat)
    requires i < |queue|
  {
    |OpsFor(queue[..i], k)| <= n < |OpsFor(queue[..i + 1], k)|
  }

  lemma {:induction false} OwnersAre(queue: seq<Queued>, k: Key, n: nat, i: nat)
    requires i < |queue| && OwnedBy(queue, k, n, i)
    ensures n < |OpsFor(queue, k)| && Owners(queue, k)[n] == queue[i].ordinal
  {
    var first := Touching(OpsOf(queue[0]), k);
    if i == 0 {
      OpsForOne(queue[0], k);
      assert queue[..1] == [queue[0]];
    } else {
      assert queue[..i][1..] == queue[1..][..i - 1] && queue[..i + 1][1..] == queue[1..][..i];
      OwnersAre(queue[1..], k, n - |first|, i - 1);
    }
  }

  /** How a rebuild ends: the record shows what its operations leave over its before image; or one of them cannot
      work, the first such names the mutation to mark, and the record shows the before image. */
  ghost predicate RebuiltAs(db: Db, k: Key, failed: Option<nat>, row: Row) {
    var image, ops := At(db.before, k), OpsFor(db.queue, k);
    && (failed.Some? <==> exists n: nat :: n < |ops| && FirstMisfit(image, ops, n))
    && (failed.None? ==> Shows(image, ops, row))
    && (failed.Some? ==> row == image)
    && forall n: nat, i: nat ::
         n < |ops| && i < |db.queue| && FirstMisfit(image, ops, n) && OwnedBy(db.queue, k, n, i) ==>
         failed == Some(db.queue[i].ordinal)
  }

  lemma ReplaysAs(db: Db, k: Key)
    ensures RebuiltAs(db, k, FailingFor(db, k), Rebuilt(db, k))
  {
    var image, ops := At(db.before, k), OpsFor(db.queue, k);
    ReplayFailsExactly(image, ops);
    if Replay(image, ops).Done? { ReplayShows(image, ops); }
    forall n: nat, i: nat | n < |ops| && i < |db.queue| && FirstMisfit(image, ops, n) && OwnedBy(db.queue, k, n, i)
      ensures FailingFor(db, k) == Some(db.queue[i].ordinal)
    {
      MisfitFails(image, ops, n);
      FailingIsFirst(image, ops, Owners(db.queue, k), n);
      OwnersAre(db.queue, k, n, i);
    }
  }

  /** A rebuild with its mark on the mutation that does not replay. */
  function Remade(db: Db, k: Key): (r: Db)
    ensures |r.queue| == |db.queue|
  {
    var failed := FailingFor(db, k);
    RebuildOne(db, k).(queue := if failed.Some? then Marked(db.queue, failed.value) else db.queue)
  }

  function Effected(queue: seq<Queued>, i: nat, child: Key): (r: seq<Queued>)
    requires i < |queue|
    ensures |r| == |queue|
  {
    queue[i := queue[i].(effects := queue[i].effects + [Op(child, Delete, None)])]
  }

  /** One child: held aside, deleted by one more effect, rebuilt; unless it had an effect already. */
  function Extended(db: Db, i: nat, child: Key, effects: seq<Op>): (r: Db)
    requires i < |db.queue|
    ensures |r.queue| == |db.queue|
  {
    if Touching(effects, child) != [] then db
    else Remade(HeldAside(db, child).(queue := Effected(db.queue, i, child)), child)
  }

  function ExtendedEach(db: Db, i: nat, children: seq<Key>, effects: seq<Op>): (r: Db)
    requires i < |db.queue|
    ensures |r.queue| == |db.queue|
  {
    if children == [] then db
    else
      var last := |children| - 1;
      Extended(ExtendedEach(db, i, children[..last], effects), i, children[last], effects)
  }

  function DeletesOf(ops: seq<Op>): seq<Op> {
    if ops == [] then [] else (if ops[0].kind == Delete then [ops[0]] else []) + DeletesOf(ops[1..])
  }

  /** `children` lists every record under a queued deletion, each once. */
  ghost predicate Lists(relations: seq<Relation>, db: Db, parent: Key, children: seq<Key>) {
    && NoDuplicates(children)
    && forall k :: k in children <==> k != parent && Under(relations, Rows(db.main, db.before), parent, k)
  }

  datatype Stop = Stop(i: nat, parent: Key)

  /** Every queued deletion of the first `n` mutations, in order. */
  function Stops(queued: seq<Queued>, n: nat): seq<Stop>
    requires n <= |queued|
  {
    if n == 0 then []
    else Stops(queued, n - 1) + StopsAt(n - 1, DeletesOf(queued[n - 1].wire + queued[n - 1].companion))
  }

  function StopsAt(i: nat, deletes: seq<Op>): (r: seq<Stop>)
    ensures |r| == |deletes|
  {
    seq(|deletes|, j requires 0 <= j < |deletes| => Stop(i, deletes[j].key))
  }

  /** The `m`th operation of the mutation, companions after the wire, deletes the record. */
  predicate DeletesAt(q: Queued, m: int, k: Key)
    requires 0 <= m < |q.wire + q.companion|
  {
    var op := if m < |q.wire| then q.wire[m] else q.companion[m - |q.wire|];
    op.kind == Delete && op.key == k
  }

  lemma {:induction false} DeletesAre(ops: seq<Op>, d: Op)
    ensures d in DeletesOf(ops) <==> d in ops && d.kind == Delete
  {
    if ops != [] { DeletesAre(ops[1..], d); }
  }

  lemma DeletionStops(q: Queued, k: Key)
    ensures (exists d :: d in q.wire + q.companion && d.kind == Delete && d.key == k) <==>
      exists m :: 0 <= m < |q.wire + q.companion| && DeletesAt(q, m, k)
  {
    var ops := q.wire + q.companion;
    if d :| d in ops && d.kind == Delete && d.key == k {
      var m :| 0 <= m < |ops| && ops[m] == d;
      assert DeletesAt(q, m, k);
    }
    if m :| 0 <= m < |ops| && DeletesAt(q, m, k) {
      assert ops[m] in ops && ops[m].kind == Delete;
    }
  }

  lemma OwnStops(i: nat, deletes: seq<Op>, stop: Stop)
    ensures stop in StopsAt(i, deletes) <==> stop.i == i && exists d :: d in deletes && d.key == stop.parent
  {
    var own := StopsAt(i, deletes);
    if stop in own {
      var j :| 0 <= j < |own| && own[j] == stop;
      assert deletes[j] in deletes;
    }
    if d :| stop.i == i && d in deletes && d.key == stop.parent {
      var j :| 0 <= j < |own| && deletes[j] == d;
      assert own[j] == stop;
    }
  }

  ghost predicate DeletesSome(q: Queued, k: Key) {
    exists m :: 0 <= m < |q.wire + q.companion| && DeletesAt(q, m, k)
  }

  lemma MutationStops(i: nat, q: Queued, stop: Stop)
    ensures stop in StopsAt(i, DeletesOf(q.wire + q.companion)) <==> stop.i == i && DeletesSome(q, stop.parent)
  {
    OwnStops(i, DeletesOf(q.wire + q.companion), stop);
    forall d { DeletesAre(q.wire + q.companion, d); }
    DeletionStops(q, stop.parent);
  }

  /** A walk stops exactly at the deletions a mutation has on the wire and among its companions. */
  lemma {:induction false} StopsExactly(queued: seq<Queued>, n: nat, stop: Stop)
    requires n <= |queued|
    ensures stop in Stops(queued, n) <==> stop.i < n && DeletesSome(queued[stop.i], stop.parent)
  {
    if n > 0 {
      StopsExactly(queued, n - 1, stop);
      MutationStops(n - 1, queued[n - 1], stop);
    }
  }

  /** Where a walk over queued deletions leads: at each stop every record under the deletion, as the tables
      are by then, gets its effect; none if a list is not exactly those records. */
  ghost function Walk(relations: seq<Relation>, queued: seq<Queued>, stops: seq<Stop>, lists: seq<seq<Key>>,
                      from: Db): Option<Db>
  {
    if stops == [] || lists == [] then (if stops == [] && lists == [] then Some(from) else None)
    else
      var stop, list := stops[|stops| - 1], lists[|lists| - 1];
      match Walk(relations, queued, stops[..|stops| - 1], lists[..|lists| - 1], from)
      case None => None
      case Some(db) =>
        if stop.i < |db.queue| && stop.i < |queued| && Lists(relations, db, stop.parent, list)
        then Some(ExtendedEach(db, stop.i, list, queued[stop.i].effects))
        else None
  }

  lemma WalkOn(relations: seq<Relation>, queued: seq<Queued>, stops: seq<Stop>, lists: seq<seq<Key>>, from: Db,
               stop: Stop, list: seq<Key>)
    requires Walk(relations, queued, stops, lists, from).Some?
    requires var db := Walk(relations, queued, stops, lists, from).value;
      stop.i < |db.queue| && stop.i < |queued| && Lists(relations, db, stop.parent, list)
    ensures var db := Walk(relations, queued, stops, lists, from).value;
      Walk(relations, queued, stops + [stop], lists + [list], from) ==
        Some(ExtendedEach(db, stop.i, list, queued[stop.i].effects))
  {
    var s, l := stops + [stop], lists + [list];
    assert s[..|s| - 1] == stops && l[..|l| - 1] == lists && s[|s| - 1] == stop && l[|l| - 1] == list;
  }

  /** One more deletion of one mutation. */
  lemma WalkNext(relations: seq<Relation>, queued: seq<Queued>, i: nat, deletes: seq<Op>, n: nat, lists: seq<seq<Key>>,
                 from: Db, db: Db, list: seq<Key>)
    requires i < |queued| == |db.queue| && n < |deletes| && Lists(relations, db, deletes[n].key, list)
    requires Walk(relations, queued, Stops(queued, i) + StopsAt(i, deletes)[..n], lists, from) == Some(db)
    ensures Walk(relations, queued, Stops(queued, i) + StopsAt(i, deletes)[..n + 1], lists + [list], from) ==
      Some(ExtendedEach(db, i, list, queued[i].effects))
  {
    var before, stops := Stops(queued, i), StopsAt(i, deletes);
    PrefixNext(before, stops, n);
    WalkOn(relations, queued, before + stops[..n], lists, from, stops[n], list);
  }

  lemma PrefixNext<T>(before: seq<T>, s: seq<T>, n: nat)
    requires n < |s|
    ensures before + s[..n] + [s[n]] == before + s[..n + 1]
  {
  }
}
