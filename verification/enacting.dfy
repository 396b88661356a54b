/** Enqueueing step by step: what each operation of a draft does to the tables, cascade included, and
    where a draft gets stuck. */
module Enacting {
  import opened Options
  import opened Records
  import opened Graphs
  import opened Cascades
  import opened Optimism
  import opened Enqueueing

  predicate WellFormed(op: Op) {
    op.kind == Delete <==> op.values.None?
  }

  function Deletions(children: seq<Key>): (r: seq<Op>)
    ensures AllDeletes(r) && |r| == |children|
  {
    seq(|children|, i requires 0 <= i < |children| => Op(children[i], Delete, None))
  }

  /** Hold a descendant aside, then delete its visible row. */
  function HoldDelete(db: Db, child: Key): (r: Db)
    ensures r.queue == db.queue
  {
    var held := HeldAside(db, child);
    held.(main := Put(held.main, child, None))
  }

  function Swept(db: Db, children: seq<Key>): (r: Db)
    ensures r.queue == db.queue
  {
    if children == [] then db
    else HoldDelete(Swept(db, children[..|children| - 1]), children[|children| - 1])
  }

  /** One operation: its record is held, what hangs under a deletion swept, then it is applied. */
  function Enacted(db: Db, op: Op, children: seq<Key>): Option<Db> {
    var swept := Swept(HeldAside(db, op.key), children);
    match Apply(At(swept.main, op.key), op)
    case Failed => None
    case Done(row) => Some(swept.(main := Put(swept.main, op.key, row)))
  }

  /** `children` are what a deletion sweeps: every record under it, once; nothing for other operations. */
  ghost predicate Sweeps(relations: seq<Relation>, db: Db, op: Op, children: seq<Key>) {
    if op.kind != Delete then children == []
    else
      var held := HeldAside(db, op.key);
      && NoDuplicates(children)
      && forall k :: k in children <==> k != op.key && Under(relations, Rows(held.main, held.before), op.key, k)
  }

  /** The sweeps of the operations enacted so far, and the tables before each and at the end. */
  datatype Trace = Trace(sweeps: seq<seq<Key>>, dbs: seq<Db>)

  ghost predicate Enacts(relations: seq<Relation>, db: Db, ops: seq<Op>, t: Trace) {
    && |t.sweeps| <= |ops| && |t.dbs| == |t.sweeps| + 1 && t.dbs[0] == db
    && forall i :: 0 <= i < |t.sweeps| ==> Enacting(relations, ops[i], t.sweeps[i], t.dbs[i], t.dbs[i + 1])
  }

  ghost predicate Enacting(relations: seq<Relation>, op: Op, children: seq<Key>, db: Db, db': Db) {
    WellFormed(op) && Sweeps(relations, db, op, children) && Enacted(db, op, children) == Some(db')
  }

  function Last(t: Trace): Db
    requires t.dbs != []
  {
    t.dbs[|t.dbs| - 1]
  }

  /** An operation that cannot be enacted: malformed, or a create or update its record does not allow. */
  predicate Stuck(db: Db, op: Op) {
    !WellFormed(op) || (op.kind != Delete && Apply(At(db.main, op.key), op).Failed?)
  }

  lemma StuckExactly(relations: seq<Relation>, db: Db, op: Op, children: seq<Key>)
    requires Sweeps(relations, db, op, children)
    ensures Stuck(db, op) <==> !WellFormed(op) || Enacted(db, op, children).None?
  {
  }

  function EffectsOf(sweeps: seq<seq<Key>>): (r: seq<seq<Op>>)
    ensures |r| == |sweeps|
  {
    seq(|sweeps|, i requires 0 <= i < |sweeps| => Deletions(sweeps[i]))
  }

  lemma EnactsOn(relations: seq<Relation>, db: Db, ops: seq<Op>, t: Trace, children: seq<Key>, db': Db)
    requires Enacts(relations, db, ops, t) && |t.sweeps| < |ops|
    requires Enacting(relations, ops[|t.sweeps|], children, Last(t), db')
    ensures Enacts(relations, db, ops, Trace(t.sweeps + [children], t.dbs + [db']))
    ensures EffectsOf(t.sweeps + [children]) == EffectsOf(t.sweeps) + [Deletions(children)]
  {
    var next := Trace(t.sweeps + [children], t.dbs + [db']);
    forall i | 0 <= i < |next.sweeps|
      ensures Enacting(relations, ops[i], next.sweeps[i], next.dbs[i], next.dbs[i + 1])
    {
      if i < |t.sweeps| {
        assert next.sweeps[i] == t.sweeps[i] && next.dbs[i] == t.dbs[i] && next.dbs[i + 1] == t.dbs[i + 1];
      }
    }
  }
}
