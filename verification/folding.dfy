/** What accepting a mutation does to the records its companions touched: operations that never went on
    the wire settle in the bases of records the receipt is silent about. */
module Foldings {
  import opened Options
  import opened Records
  import opened Cascades
  import opened Queue
  import opened Optimism
  import opened Enqueueing
  import opened Enacting
  import opened Authorities
  import opened Landings

  /** The records the given mutations have wire operations on. */
  function WireKeys(mutations: seq<Queued>): set<Key> {
    if mutations == [] then {} else KeysOf(mutations[0].wire) + WireKeys(mutations[1..])
  }

  function Companions(mutations: seq<Queued>): seq<Op> {
    if mutations == [] then [] else mutations[0].companion + Companions(mutations[1..])
  }

  lemma {:induction false} CompanionsSnoc(a: seq<Queued>, q: Queued)
    ensures Companions(a + [q]) == Companions(a) + q.companion
  {
    if a == [] {
      assert [] + [q] == [q] && [q][1..] == [];
    } else {
      assert (a + [q])[1..] == a[1..] + [q];
      CompanionsSnoc(a[1..], q);
    }
  }

  lemma {:induction false} CompanionsPart(a: seq<Queued>, n: nat)
    requires n <= |a|
    ensures Companions(a) == Companions(a[..n]) + Companions(a[n..])
  {
    if n > 0 {
      assert a[1..][..n - 1] == a[1..n] && a[..n][1..] == a[1..n] && a[1..][n - 1..] == a[n..];
      CompanionsPart(a[1..], n - 1);
    }
  }

  lemma {:induction false} SettleConcat(row: Row, a: seq<Op>, b: seq<Op>)
    ensures Settle(row, a + b) == Settle(Settle(row, a), b)
    decreases |a|
  {
    if a == [] {
      assert a + b == b;
    } else {
      assert (a + b)[1..] == a[1..] + b;
      SettleConcat(match Apply(row, a[0]) case Failed => row case Done(next) => next, a[1..], b);
    }
  }

  lemma SettleOne(row: Row, op: Op)
    ensures Settle(row, [op]) == match Apply(row, op) case Failed => row case Done(next) => next
  {
    assert [op][1..] == [];
  }

  /** The base a record the receipt does not cover has once these operations settled. */
  function Settled(v: Version, ops: seq<Op>, covered: set<Key>, k: Key): Version {
    if k in covered then v else Version(Settle(v.row, Touching(ops, k)), v.stamp)
  }

  lemma SettledConcat(v: Version, a: seq<Op>, b: seq<Op>, covered: set<Key>, k: Key)
    ensures Settled(v, a + b, covered, k) == Settled(Settled(v, a, covered, k), b, covered, k)
  {
    TouchingConcat(a, b, k);
    SettleConcat(v.row, Touching(a, k), Touching(b, k));
  }

  /** Operations of queued mutations, or deletions. */
  predicate Foldable(queue: seq<Queued>, op: Op) {
    Dirty(queue, op.key) || op.kind == Delete
  }

  lemma {:induction false} MemberIsDirty(queue: seq<Queued>, q: Queued, k: Key)
    requires q in queue && Touching(OpsOf(q), k) != []
    ensures Dirty(queue, k)
  {
    if queue[0] != q { MemberIsDirty(queue[1..], q, k); }
  }

  lemma CompanionsFold(queue: seq<Queued>, q: Queued)
    requires q in queue
    ensures forall i :: 0 <= i < |q.companion| ==> Foldable(queue, q.companion[i])
  {
    forall i | 0 <= i < |q.companion| ensures Foldable(queue, q.companion[i]) {
      var k := q.companion[i].key;
      assert OpsOf(q)[|q.wire| + i] == q.companion[i];
      MemberIsDirty(queue, q, k);
    }
  }

  /** One operation folded into the base of its record, unless the receipt covers it. */
  function FoldNext(h: Holding, op: Op, covered: set<Key>): Holding {
    if op.key in covered then h else h.(db := FoldOne(h.db, op), stray := h.stray + {op.key})
  }

  function FoldOps(h: Holding, ops: seq<Op>, covered: set<Key>): Holding {
    if ops == [] then h else FoldNext(FoldOps(h, ops[..|ops| - 1], covered), ops[|ops| - 1], covered)
  }

  lemma FoldSnoc(h: Holding, ops: seq<Op>, op: Op, covered: set<Key>)
    ensures FoldOps(h, ops + [op], covered) == FoldNext(FoldOps(h, ops, covered), op, covered)
  {
    assert (ops + [op])[..|ops|] == ops;
  }

  /** The bases of these records are gone. */
  function FoldNone(h: Holding, gone: set<Key>): Holding {
    h.(db := h.db.(before := h.db.before - gone), stray := h.stray + gone)
  }

  lemma FoldNoneMore(h: Holding, gone: set<Key>, k: Key, covered: set<Key>)
    ensures FoldNext(FoldNone(h, gone - covered), Op(k, Delete, None), covered) == FoldNone(h, gone + {k} - covered)
  {
    if k in covered {
      assert gone + {k} - covered == gone - covered;
    } else {
      assert gone + {k} - covered == (gone - covered) + {k};
      assert h.db.before - (gone - covered) - {k} == h.db.before - ((gone - covered) + {k});
    }
  }

  lemma {:induction false} FoldDeletions(h: Holding, ops: seq<Op>, children: seq<Key>, covered: set<Key>)
    ensures FoldOps(h, ops + Deletions(children), covered) ==
      FoldNone(FoldOps(h, ops, covered), KeysIn(children) - covered)
  {
    var h1 := FoldOps(h, ops, covered);
    if children == [] {
      assert ops + Deletions(children) == ops;
      assert h1.db.before - (KeysIn(children) - covered) == h1.db.before;
    } else {
      var front, k := children[..|children| - 1], children[|children| - 1];
      FoldDeletions(h, ops, front, covered);
      assert ops + Deletions(children) == (ops + Deletions(front)) + [Op(k, Delete, None)];
      FoldSnoc(h, ops + Deletions(front), Op(k, Delete, None), covered);
      FoldNoneMore(h1, KeysIn(front), k, covered);
      assert children == front + [k];
      assert KeysIn(children) == KeysIn(front) + {k};
    }
  }

  /** What hangs under the companion deletions the server does not answer for. */
  ghost function Dragged(relations: seq<Relation>, db: Db, ops: seq<Op>, wired: set<Key>): set<Key> {
    if ops == [] then {}
    else
      var op := ops[|ops| - 1];
      Dragged(relations, db, ops[..|ops| - 1], wired)
      + if op.kind == Delete && op.key !in wired then Below(relations, db, op.key) else {}
  }

  /** One accepted mutation: its companions, then deletions of what hung under theirs when it began. */
  ghost function FoldMutation(relations: seq<Relation>, h: Holding, q: Queued, wired: set<Key>,
                              covered: set<Key>): Holding
  {
    FoldNone(FoldOps(h, q.companion, covered), Dragged(relations, h.db, q.companion, wired) - covered)
  }

  ghost function FoldEach(relations: seq<Relation>, h: Holding, accepted: seq<Queued>, wired: set<Key>,
                          covered: set<Key>): Holding
  {
    if accepted == [] then h
    else
      var last := |accepted| - 1;
      FoldMutation(relations, FoldEach(relations, h, accepted[..last], wired, covered), accepted[last], wired, covered)
  }

  lemma DraggedNext(relations: seq<Relation>, db: Db, ops: seq<Op>, i: nat, wired: set<Key>)
    requires i < |ops|
    ensures Dragged(relations, db, ops[..i + 1], wired) == Dragged(relations, db, ops[..i], wired)
            + if ops[i].kind == Delete && ops[i].key !in wired then Below(relations, db, ops[i].key) else {}
  {
    assert ops[..i + 1][..i] == ops[..i];
  }

  lemma DeletionsConcat(ops: seq<Op>, a: seq<Key>, b: seq<Key>)
    ensures ops + Deletions(a) + Deletions(b) == ops + Deletions(a + b)
    ensures KeysIn(a + b) == KeysIn(a) + KeysIn(b)
  {
    assert Deletions(a + b) == Deletions(a) + Deletions(b);
  }

  /** Folding the companions of one more mutation, then the deletions they drag along. */
  lemma FoldEachNext(relations: seq<Relation>, h: Holding, accepted: seq<Queued>, n: nat, wired: set<Key>,
                     covered: set<Key>,
                     h1: Holding, ops: seq<Op>, children: seq<Key>)
    requires n < |accepted| && h1 == FoldEach(relations, h, accepted[..n], wired, covered)
    requires ops == accepted[n].companion + Deletions(children)
    requires KeysIn(children) == Dragged(relations, h1.db, accepted[n].companion, wired)
    ensures FoldOps(h1, ops, covered) == FoldEach(relations, h, accepted[..n + 1], wired, covered)
  {
    FoldDeletions(h1, accepted[n].companion, children, covered);
    assert accepted[..n + 1][..n] == accepted[..n];
  }

  /** Everything folded waits to be rebuilt, outside the receipt. */
  ghost predicate Folds(h: Holding, h': Holding, covered: set<Key>) {
    && Sound(h') && h'.stamps == h.stamps && h'.db.queue == h.db.queue
    && h.stray <= h'.stray && h'.stray - h.stray !! covered
  }

  lemma FoldNextSound(h: Holding, op: Op, covered: set<Key>)
    requires Sound(h) && Foldable(h.db.queue, op)
    ensures Folds(h, FoldNext(h, op, covered), covered)
  {
    var h' := FoldNext(h, op, covered);
    forall k ensures Backed(h'.db, h'.stray, k) && (k in h'.stray && !Dirty(h'.db.queue, k) ==> k !in h'.db.before) {
      assert Backed(h.db, h.stray, k);
      assert k in h'.db.before ==> At(h'.db.before, k).Some?;
    }
  }

  lemma FoldNextSettles(h: Holding, op: Op, covered: set<Key>, k: Key)
    requires Sound(h) && Foldable(h.db.queue, op)
    ensures HeldIn(FoldNext(h, op, covered), k) == Settled(HeldIn(h, k), [op], covered, k)
  {
    assert Backed(h.db, h.stray, k);
    TouchingSingle(op, k);
    SettleOne(HeldIn(h, k).row, op);
    assert Settle(HeldIn(h, k).row, []) == HeldIn(h, k).row;
  }

  lemma {:induction false} FoldOpsSettles(h: Holding, ops: seq<Op>, covered: set<Key>)
    requires Sound(h) && forall i :: 0 <= i < |ops| ==> Foldable(h.db.queue, ops[i])
    ensures Folds(h, FoldOps(h, ops, covered), covered)
    ensures forall k :: HeldIn(FoldOps(h, ops, covered), k) == Settled(HeldIn(h, k), ops, covered, k)
  {
    if ops != [] {
      var front, op := ops[..|ops| - 1], ops[|ops| - 1];
      FoldOpsSettles(h, front, covered);
      var h1 := FoldOps(h, front, covered);
      FoldNextSound(h1, op, covered);
      assert ops == front + [op];
      forall k ensures HeldIn(FoldOps(h, ops, covered), k) == Settled(HeldIn(h, k), ops, covered, k) {
        FoldNextSettles(h1, op, covered, k);
        SettledConcat(HeldIn(h, k), front, [op], covered, k);
      }
    }
  }

  lemma FoldNoneBases(h: Holding, gone: set<Key>, covered: set<Key>)
    requires Sound(h) && gone !! covered
    ensures Folds(h, FoldNone(h, gone), covered)
    ensures forall k :: HeldIn(FoldNone(h, gone), k) == if k in gone then HeldIn(h, k).(row := None) else HeldIn(h, k)
  {
    var h' := FoldNone(h, gone);
    forall k ensures Backed(h'.db, h'.stray, k) && (k in h'.stray && !Dirty(h'.db.queue, k) ==> k !in h'.db.before) {
      assert Backed(h.db, h.stray, k);
    }
    forall k ensures HeldIn(h', k) == if k in gone then HeldIn(h, k).(row := None) else HeldIn(h, k) {
      assert Backed(h.db, h.stray, k);
    }
  }

  predicate Deletes(ops: seq<Op>, wired: set<Key>) {
    exists i :: 0 <= i < |ops| && ops[i].kind == Delete && ops[i].key !in wired
  }

  /** Only a record a deletion can reach is dragged, and only by a companion deletion. */
  lemma {:induction false} DraggedReach(relations: seq<Relation>, db: Db, ops: seq<Op>, wired: set<Key>, k: Key)
    requires k in Dragged(relations, db, ops, wired)
    ensures !Lone(relations, k) && Deletes(ops, wired)
  {
    var front, op := ops[..|ops| - 1], ops[|ops| - 1];
    if op.kind == Delete && op.key !in wired && k in Below(relations, db, op.key) {
      LoneIsNotUnder(relations, RowsOf(db), op.key, k);
    } else {
      DraggedReach(relations, db, front, wired, k);
      var i :| 0 <= i < |front| && front[i].kind == Delete && front[i].key !in wired;
      assert ops[i] == front[i];
    }
  }

  /** The mutation at `n` drags the record along when its turn comes. */
  ghost predicate DraggedAt(relations: seq<Relation>, h: Holding, accepted: seq<Queued>, wired: set<Key>,
                            covered: set<Key>, n: nat, k: Key)
    requires n < |accepted|
  {
    && k !in covered
    && k in Dragged(relations, FoldEach(relations, h, accepted[..n], wired, covered).db, accepted[n].companion, wired)
  }

  /** No mutation from `n` on drags the record along. */
  ghost predicate LeftAloneFrom(relations: seq<Relation>, h: Holding, accepted: seq<Queued>, wired: set<Key>,
                                covered: set<Key>, n: nat, k: Key)
  {
    forall m :: n <= m < |accepted| ==> !DraggedAt(relations, h, accepted, wired, covered, m, k)
  }

  /** The record is dragged along by the mutation at `n` for the last time, and the companions after it
      settle on nothing. */
  ghost predicate Emptied(relations: seq<Relation>, h: Holding, accepted: seq<Queued>, wired: set<Key>,
                          covered: set<Key>, n: nat, k: Key, row: Row)
  {
    && n < |accepted| && DraggedAt(relations, h, accepted, wired, covered, n, k)
    && LeftAloneFrom(relations, h, accepted, wired, covered, n + 1, k)
    && row == Settle(None, Touching(Companions(accepted[n + 1..]), k))
  }

  /** Exactly what folding does to one base: the companions on it settle, from nothing if a companion deletion
      dragged the record along. */
  ghost predicate FoldedTo(relations: seq<Relation>, h: Holding, accepted: seq<Queued>, wired: set<Key>,
                           covered: set<Key>, k: Key, v': Version)
  {
    && v'.stamp == HeldIn(h, k).stamp
    && if LeftAloneFrom(relations, h, accepted, wired, covered, 0, k)
       then v' == Settled(HeldIn(h, k), Companions(accepted), covered, k)
       else exists n :: Emptied(relations, h, accepted, wired, covered, n, k, v'.row)
  }

  lemma FoldMutationBase(relations: seq<Relation>, h: Holding, q: Queued, wired: set<Key>, covered: set<Key>, k: Key)
    requires Sound(h) && q in h.db.queue
    ensures Folds(h, FoldMutation(relations, h, q, wired, covered), covered)
    ensures var v, v' := HeldIn(h, k), HeldIn(FoldMutation(relations, h, q, wired, covered), k);
      v' == if k !in covered && k in Dragged(relations, h.db, q.companion, wired) then Version(None, v.stamp)
            else Settled(v, q.companion, covered, k)
  {
    CompanionsFold(h.db.queue, q);
    FoldOpsSettles(h, q.companion, covered);
    var h1, gone := FoldOps(h, q.companion, covered), Dragged(relations, h.db, q.companion, wired) - covered;
    FoldNoneBases(h1, gone, covered);
    assert HeldIn(h1, k) == Settled(HeldIn(h, k), q.companion, covered, k);
  }

  lemma {:induction false} FoldEachFolds(relations: seq<Relation>, h: Holding, accepted: seq<Queued>, wired: set<Key>,
                                         covered: set<Key>)
    requires Sound(h) && forall q :: q in accepted ==> q in h.db.queue
    ensures Folds(h, FoldEach(relations, h, accepted, wired, covered), covered)
  {
    if accepted != [] {
      var front, q := accepted[..|accepted| - 1], accepted[|accepted| - 1];
      FoldEachFolds(relations, h, front, wired, covered);
      FoldMutationBase(relations, FoldEach(relations, h, front, wired, covered), q, wired, covered, Key("", map[]));
    }
  }

  lemma FoldedAfter(relations: seq<Relation>, h: Holding, front: seq<Queued>, q: Queued, wired: set<Key>,
                    covered: set<Key>, k: Key)
    requires Sound(h) && q in h.db.queue && forall p :: p in front ==> p in h.db.queue
    requires FoldedTo(relations, h, front, wired, covered, k,
                      HeldIn(FoldEach(relations, h, front, wired, covered), k))
    ensures FoldedTo(relations, h, front + [q], wired, covered, k,
                     HeldIn(FoldEach(relations, h, front + [q], wired, covered), k))
  {
    var v1, v2 := HeldIn(FoldEach(relations, h, front, wired, covered), k),
                  HeldIn(FoldEach(relations, h, front + [q], wired, covered), k);
    FoldEachFolds(relations, h, front, wired, covered);
    LastFolded(relations, h, front, q, wired, covered, k);
    FoldedMore(relations, h, front, q, wired, covered, k, v1, v2);
  }

  /** Folding settles the companions in every base the receipt is silent about, and a companion deletion
      empties the bases of what it drags along. */
  lemma {:induction false} FoldEachBase(relations: seq<Relation>, h: Holding, accepted: seq<Queued>, wired: set<Key>,
                                        covered: set<Key>, k: Key)
    requires Sound(h) && forall q :: q in accepted ==> q in h.db.queue
    ensures FoldedTo(relations, h, accepted, wired, covered, k,
                     HeldIn(FoldEach(relations, h, accepted, wired, covered), k))
  {
    if accepted != [] {
      var front, q := accepted[..|accepted| - 1], accepted[|accepted| - 1];
      assert accepted == front + [q];
      FoldEachBase(relations, h, front, wired, covered, k);
      FoldedAfter(relations, h, front, q, wired, covered, k);
    }
  }

  lemma LastFolded(relations: seq<Relation>, h: Holding, front: seq<Queued>, q: Queued, wired: set<Key>,
                   covered: set<Key>, k: Key)
    requires Folds(h, FoldEach(relations, h, front, wired, covered), covered) && q in h.db.queue
    ensures var v := HeldIn(FoldEach(relations, h, front, wired, covered), k);
      HeldIn(FoldEach(relations, h, front + [q], wired, covered), k) ==
        if DraggedAt(relations, h, front + [q], wired, covered, |front|, k) then Version(None, v.stamp)
        else Settled(v, q.companion, covered, k)
  {
    assert (front + [q])[..|front|] == front;
    FoldMutationBase(relations, FoldEach(relations, h, front, wired, covered), q, wired, covered, k);
  }

  lemma DraggedAtFront(relations: seq<Relation>, h: Holding, front: seq<Queued>, q: Queued, wired: set<Key>,
                       covered: set<Key>, n: nat, k: Key)
    requires n < |front|
    ensures DraggedAt(relations, h, front + [q], wired, covered, n, k) <==>
            DraggedAt(relations, h, front, wired, covered, n, k)
  {
    assert (front + [q])[..n] == front[..n];
  }

  lemma AloneMore(relations: seq<Relation>, h: Holding, front: seq<Queued>, q: Queued, wired: set<Key>,
                  covered: set<Key>, n: nat, k: Key)
    requires n <= |front| && !DraggedAt(relations, h, front + [q], wired, covered, |front|, k)
    ensures LeftAloneFrom(relations, h, front + [q], wired, covered, n, k) <==>
            LeftAloneFrom(relations, h, front, wired, covered, n, k)
  {
    forall m: nat | m < |front|
      ensures DraggedAt(relations, h, front + [q], wired, covered, m, k) <==>
              DraggedAt(relations, h, front, wired, covered, m, k)
    {
      DraggedAtFront(relations, h, front, q, wired, covered, m, k);
    }
  }

  lemma EmptiedMore(relations: seq<Relation>, h: Holding, front: seq<Queued>, q: Queued, wired: set<Key>,
                    covered: set<Key>, n: nat, k: Key, row: Row)
    requires Emptied(relations, h, front, wired, covered, n, k, row)
    requires !DraggedAt(relations, h, front + [q], wired, covered, |front|, k)
    ensures Emptied(relations, h, front + [q], wired, covered, n, k, Settle(row, Touching(q.companion, k)))
  {
    var after := front[n + 1..];
    assert (front + [q])[n + 1..] == after + [q];
    CompanionsSnoc(after, q);
    TouchingConcat(Companions(after), q.companion, k);
    SettleConcat(None, Touching(Companions(after), k), Touching(q.companion, k));
    DraggedAtFront(relations, h, front, q, wired, covered, n, k);
    AloneMore(relations, h, front, q, wired, covered, n + 1, k);
  }

  lemma EmptiedLast(relations: seq<Relation>, h: Holding, front: seq<Queued>, q: Queued, wired: set<Key>,
                    covered: set<Key>, k: Key)
    requires DraggedAt(relations, h, front + [q], wired, covered, |front|, k)
    ensures Emptied(relations, h, front + [q], wired, covered, |front|, k, None)
  {
    assert (front + [q])[|front| + 1..] == [];
  }

  lemma FoldedMore(relations: seq<Relation>, h: Holding, front: seq<Queued>, q: Queued, wired: set<Key>,
                   covered: set<Key>, k: Key, v1: Version, v2: Version)
    requires FoldedTo(relations, h, front, wired, covered, k, v1)
    requires v2 == if DraggedAt(relations, h, front + [q], wired, covered, |front|, k) then Version(None, v1.stamp)
                   else Settled(v1, q.companion, covered, k)
    ensures FoldedTo(relations, h, front + [q], wired, covered, k, v2)
  {
    if DraggedAt(relations, h, front + [q], wired, covered, |front|, k) {
      EmptiedLast(relations, h, front, q, wired, covered, k);
    } else {
      AloneMore(relations, h, front, q, wired, covered, 0, k);
      if LeftAloneFrom(relations, h, front, wired, covered, 0, k) {
        CompanionsSnoc(front, q);
        SettledConcat(HeldIn(h, k), Companions(front), q.companion, covered, k);
      } else {
        var n: nat :| Emptied(relations, h, front, wired, covered, n, k, v1.row);
        EmptiedMore(relations, h, front, q, wired, covered, n, k, v1.row);
      }
    }
  }

  lemma DragsDelete(relations: seq<Relation>, db: Db, accepted: seq<Queued>, n: nat, wired: set<Key>, k: Key)
    requires n < |accepted| && k in Dragged(relations, db, accepted[n].companion, wired)
    ensures !Lone(relations, k) && Deletes(Companions(accepted), wired)
  {
    var ops, before, after := accepted[n].companion, Companions(accepted[..n]), Companions(accepted[n + 1..]);
    DraggedReach(relations, db, ops, wired, k);
    var i :| 0 <= i < |ops| && ops[i].kind == Delete && ops[i].key !in wired;
    CompanionsPart(accepted, n);
    assert accepted[n..][0] == accepted[n] && accepted[n..][1..] == accepted[n + 1..];
    assert Companions(accepted) == before + (ops + after);
    assert Companions(accepted)[|before| + i] == ops[i];
  }

  lemma LaterTouches(accepted: seq<Queued>, n: nat, k: Key)
    requires n <= |accepted| && Touching(Companions(accepted[n..]), k) != []
    ensures Touching(Companions(accepted), k) != []
  {
    CompanionsPart(accepted, n);
    TouchingConcat(Companions(accepted[..n]), Companions(accepted[n..]), k);
  }

  /** Short of the exact row: the companions settle, or a companion deletion reached the record. */
  lemma FoldedMoves(relations: seq<Relation>, h: Holding, accepted: seq<Queued>, wired: set<Key>, covered: set<Key>,
                    k: Key, v': Version)
    requires FoldedTo(relations, h, accepted, wired, covered, k, v')
    ensures v' == Settled(HeldIn(h, k), Companions(accepted), covered, k)
            || (k !in covered && !Lone(relations, k) && Deletes(Companions(accepted), wired)
                && (v'.row == None || Touching(Companions(accepted), k) != []))
  {
    if !LeftAloneFrom(relations, h, accepted, wired, covered, 0, k) {
      var n: nat :| Emptied(relations, h, accepted, wired, covered, n, k, v'.row);
      DragsDelete(relations, FoldEach(relations, h, accepted[..n], wired, covered).db, accepted, n, wired, k);
      if Touching(Companions(accepted[n + 1..]), k) != [] { LaterTouches(accepted, n + 1, k); }
    }
  }

  /** Everything a receipt does to bases and stamps: accepted companions settle where it is silent, then
      its records land. */
  ghost function Receive(relations: seq<Relation>, accepts: (Key, Fields) -> bool, h: Holding, accepted: seq<Queued>,
                         records: seq<Authority>): Holding
  {
    LandAll(relations, accepts, FoldEach(relations, h, accepted, WireKeys(accepted), CoveredKeys(records)), records)
  }

  lemma FoldEachSound(relations: seq<Relation>, h: Holding, accepted: seq<Queued>, records: seq<Authority>)
    requires Sound(h) && h.stray == {} && forall q :: q in accepted ==> q in h.db.queue
    ensures var h1 := FoldEach(relations, h, accepted, WireKeys(accepted), CoveredKeys(records));
      Folds(h, h1, CoveredKeys(records)) && Landable(h1, records)
  {
    FoldEachFolds(relations, h, accepted, WireKeys(accepted), CoveredKeys(records));
  }

  lemma FoldsMoved(relations: seq<Relation>, h: Holding, accepted: seq<Queued>, records: seq<Authority>, k: Key)
    requires Sound(h) && h.stray == {} && forall q :: q in accepted ==> q in h.db.queue
    ensures var v := HeldIn(h, k);
      var v' := HeldIn(FoldEach(relations, h, accepted, WireKeys(accepted), CoveredKeys(records)), k);
      && v'.stamp == v.stamp
      && (v' == Settled(v, Companions(accepted), CoveredKeys(records), k)
          || (k !in CoveredKeys(records) && !Lone(relations, k) && Deletes(Companions(accepted), WireKeys(accepted))
              && (v'.row == None || Touching(Companions(accepted), k) != [])))
  {
    FoldEachBase(relations, h, accepted, WireKeys(accepted), CoveredKeys(records), k);
    FoldedMoves(relations, h, accepted, WireKeys(accepted), CoveredKeys(records), k,
                HeldIn(FoldEach(relations, h, accepted, WireKeys(accepted), CoveredKeys(records)), k));
  }

  /** Truth isolation for receipts: every stamp ends at the highest usable one, and a base moved only with
      a newer usable record of its own, under a usable deletion, by an accepted companion on its record,
      or under an accepted companion deletion; by deletions of others only if one can reach it. */
  lemma ReceiveMoves(relations: seq<Relation>, accepts: (Key, Fields) -> bool, h: Holding, accepted: seq<Queued>,
                     records: seq<Authority>, k: Key)
    requires Sound(h) && h.stray == {} && forall q :: q in accepted ==> q in h.db.queue
    ensures var v, v' := HeldIn(h, k), HeldIn(Receive(relations, accepts, h, accepted, records), k);
      && v'.stamp == Highest(accepts, v.stamp, records, k)
      && (v'.row == v.row || Explained(relations, accepts, records, v.stamp, k, v'.row)
          || (k !in CoveredKeys(records) && Touching(Companions(accepted), k) != [])
          || (k !in CoveredKeys(records) && v'.row == None && !Lone(relations, k)
              && Deletes(Companions(accepted), WireKeys(accepted))))
  {
    FoldEachSound(relations, h, accepted, records);
    FoldsMoved(relations, h, accepted, records, k);
    LandAllMoves(relations, accepts, FoldEach(relations, h, accepted, WireKeys(accepted), CoveredKeys(records)),
                 records, k);
  }

  /** A record no deletion can reach: its companions settle if the receipt is silent about it, then it
      evolves by itself. */
  lemma LoneReceives(relations: seq<Relation>, accepts: (Key, Fields) -> bool, h: Holding, accepted: seq<Queued>,
                     records: seq<Authority>, k: Key)
    requires Sound(h) && h.stray == {} && Lone(relations, k) && forall q :: q in accepted ==> q in h.db.queue
    ensures HeldIn(Receive(relations, accepts, h, accepted, records), k) ==
      Evolve(accepts, Settled(HeldIn(h, k), Companions(accepted), CoveredKeys(records), k), records, k)
  {
    FoldEachSound(relations, h, accepted, records);
    FoldsMoved(relations, h, accepted, records, k);
    LoneEvolves(relations, accepts, FoldEach(relations, h, accepted, WireKeys(accepted), CoveredKeys(records)), records,
                k);
  }
}
