/** The lifecycle dependencies of a draft, derived from the rows and the queue. */
module Deriving {
  import opened Options
  import opened Records
  import opened Cascades
  import opened Queue
  import opened Optimism
  import opened Schedule

  /** How many pairs of referring and identity fields a relation has. */
  function Pairs(relation: Relation): (n: nat)
    ensures n <= |relation.fields| && n <= |relation.targetFields|
  {
    if |relation.fields| < |relation.targetFields| then |relation.fields| else |relation.targetFields|
  }

  /** The identity the first `n` referring fields give. */
  function IdentityOf(relation: Relation, n: nat, row: Fields): Fields
    requires n <= Pairs(relation)
  {
    if n == 0 then map[]
    else IdentityOf(relation, n - 1, row)[relation.targetFields[n - 1] := Get(row, relation.fields[n - 1])]
  }

  /** The record a row refers to; none when a referring field is null. */
  function Reference(relation: Relation, row: Fields): Option<Key> {
    if exists i :: 0 <= i < Pairs(relation) && Get(row, relation.fields[i]) == Null then None
    else Some(Key(relation.target, IdentityOf(relation, Pairs(relation), row)))
  }

  /** An operation on a record waits for the creation of that record or of one it refers to, and a
      create waits for an earlier deletion. */
  predicate Needs(relations: seq<Relation>, row: Row, op: Op, prior: Op) {
    || (prior.kind == Create && (prior.key == op.key || RefersTo(relations, row, op.key, prior.key)))
    || (prior.kind == Delete && op.kind == Create && prior.key == op.key)
  }

  predicate RefersTo(relations: seq<Relation>, row: Row, k: Key, target: Key) {
    row.Some? && exists i ::
      0 <= i < |relations| && relations[i].model == k.model && Reference(relations[i], row.value) == Some(target)
  }

  predicate NeedsOne(relations: seq<Relation>, row: Row, op: Op, prior: Queued) {
    exists i :: 0 <= i < |prior.wire| && Needs(relations, row, op, prior.wire[i])
  }

  /** What a record looks like to dependency derivation: the visible row, else its base. */
  function Seen(db: Db, k: Key): Row {
    if At(db.main, k).Some? then At(db.main, k) else if Dirty(db.queue, k) then At(db.before, k) else None
  }

  /** The queued mutations one operation waits for. */
  function WaitsFor(relations: seq<Relation>, db: Db, op: Op): (r: set<nat>)
    ensures forall o :: o in r <==>
      exists i :: 0 <= i < |db.queue| && db.queue[i].ordinal == o
                  && NeedsOne(relations, Seen(db, op.key), op, db.queue[i])
  {
    set i | 0 <= i < |db.queue| && NeedsOne(relations, Seen(db, op.key), op, db.queue[i]) :: db.queue[i].ordinal
  }

  function Derived(relations: seq<Relation>, db: Db, operations: seq<Op>): set<nat> {
    if operations == [] then {} else WaitsFor(relations, db, operations[0]) + Derived(relations, db, operations[1..])
  }

  lemma {:induction false} DerivedQueued(relations: seq<Relation>, db: Db, operations: seq<Op>)
    ensures Derived(relations, db, operations) <= Ordinals(db.queue)
  {
    if operations != [] { DerivedQueued(relations, db, operations[1..]); }
  }

  /** The last pair that names this identity field. */
  predicate Naming(relation: Relation, i: int) {
    0 <= i < Pairs(relation)
    && forall j :: i < j < Pairs(relation) ==> relation.targetFields[j] != relation.targetFields[i]
  }

  /** Through this relation the row names `p`: every referring field is there and not null, and together they
      are the identity of `p`. */
  ghost predicate NamesThrough(relation: Relation, row: Fields, p: Key) {
    && p.model == relation.target
    && (forall i :: 0 <= i < Pairs(relation) ==> relation.fields[i] in row && row[relation.fields[i]] != Null)
    && (forall field :: field in p.identity <==> exists i :: Naming(relation, i) && relation.targetFields[i] == field)
    && forall i :: Naming(relation, i) ==>
         relation.targetFields[i] in p.identity && p.identity[relation.targetFields[i]] == row[relation.fields[i]]
  }

  /** The last of the first `n` pairs that names this identity field. */
  predicate NamingIn(relation: Relation, n: nat, i: int)
    requires n <= Pairs(relation)
  {
    0 <= i < n && forall j :: i < j < n ==> relation.targetFields[j] != relation.targetFields[i]
  }

  lemma {:induction false} IdentityKeys(relation: Relation, n: nat, row: Fields, field: string)
    requires n <= Pairs(relation)
    ensures field in IdentityOf(relation, n, row) <==>
      exists i :: NamingIn(relation, n, i) && relation.targetFields[i] == field
  {
    if n > 0 {
      IdentityKeys(relation, n - 1, row, field);
      assert NamingIn(relation, n, n - 1);
      if i :| NamingIn(relation, n - 1, i) && relation.targetFields[i] == field {
        assert field != relation.targetFields[n - 1] ==> NamingIn(relation, n, i);
      }
      if i :| NamingIn(relation, n, i) && relation.targetFields[i] == field {
        assert i < n - 1 ==> NamingIn(relation, n - 1, i);
      }
    }
  }

  lemma {:induction false} IdentityValue(relation: Relation, n: nat, row: Fields, i: int)
    requires n <= Pairs(relation) && NamingIn(relation, n, i)
    ensures relation.targetFields[i] in IdentityOf(relation, n, row)
    ensures IdentityOf(relation, n, row)[relation.targetFields[i]] == Get(row, relation.fields[i])
  {
    if i < n - 1 {
      assert relation.targetFields[n - 1] != relation.targetFields[i];
      IdentityValue(relation, n - 1, row, i);
    }
  }

  lemma ReferenceNames(relation: Relation, row: Fields, p: Key)
    ensures Reference(relation, row) == Some(p) <==> NamesThrough(relation, row, p)
  {
    var n := Pairs(relation);
    var identity := IdentityOf(relation, n, row);
    assert forall i :: Naming(relation, i) <==> NamingIn(relation, n, i);
    forall i | Naming(relation, i)
      ensures relation.targetFields[i] in identity
      ensures identity[relation.targetFields[i]] == Get(row, relation.fields[i])
    {
      IdentityValue(relation, n, row, i);
    }
    forall field: string
      ensures field in identity <==> exists i :: Naming(relation, i) && relation.targetFields[i] == field
    {
      IdentityKeys(relation, n, row, field);
    }
    if NamesThrough(relation, row, p) { SameIdentity(relation, row, p, identity); }
  }

  lemma SameIdentity(relation: Relation, row: Fields, p: Key, identity: Fields)
    requires NamesThrough(relation, row, p)
    requires forall field :: field in identity <==> exists i :: Naming(relation, i) && relation.targetFields[i] == field
    requires forall i :: Naming(relation, i) ==>
      (relation.targetFields[i] in identity && identity[relation.targetFields[i]] == Get(row, relation.fields[i]))
    ensures identity == p.identity
  {
    forall field | field in identity ensures field in p.identity && identity[field] == p.identity[field] {
      var i :| Naming(relation, i) && relation.targetFields[i] == field;
    }
    assert identity.Keys == p.identity.Keys;
  }

  /** A relation of its model leads from the row of `k` to `p`. */
  ghost predicate LeadsTo(relations: seq<Relation>, row: Row, k: Key, p: Key) {
    row.Some? && exists i :: 0 <= i < |relations| && relations[i].model == k.model
                             && NamesThrough(relations[i], row.value, p)
  }

  lemma LeadsToExactly(relations: seq<Relation>, row: Row, k: Key, p: Key)
    ensures RefersTo(relations, row, k, p) <==> LeadsTo(relations, row, k, p)
  {
    if row.Some? {
      forall i | 0 <= i < |relations|
        ensures Reference(relations[i], row.value) == Some(p) <==> NamesThrough(relations[i], row.value, p)
      {
        ReferenceNames(relations[i], row.value, p);
      }
    }
  }

  /** The row a client has of a record: the visible one, else the before image of a pending one. */
  function RowOf(db: Db, k: Key): Row {
    if k in db.main then Some(db.main[k])
    else if k in db.before && Dirty(db.queue, k) then Some(db.before[k])
    else None
  }

  predicate Deletes(q: Queued, k: Key) {
    exists n :: 0 <= n < |q.wire| && q.wire[n].key == k && q.wire[n].kind == Delete
  }

  /** The mutation creates the record operated on, or a record that one refers to, or deletes what the operation
      creates again. */
  ghost predicate Precedes(relations: seq<Relation>, db: Db, q: Queued, op: Op) {
    || Creates(q, op.key)
    || (exists p :: Creates(q, p) && LeadsTo(relations, RowOf(db, op.key), op.key, p))
    || (op.kind == Create && Deletes(q, op.key))
  }

  lemma NeedsExactly(relations: seq<Relation>, db: Db, q: Queued, op: Op)
    ensures NeedsOne(relations, Seen(db, op.key), op, q) <==> Precedes(relations, db, q, op)
  {
    var row := Seen(db, op.key);
    assert row == RowOf(db, op.key);
    if NeedsOne(relations, row, op, q) {
      var n :| 0 <= n < |q.wire| && Needs(relations, row, op, q.wire[n]);
      LeadsToExactly(relations, row, op.key, q.wire[n].key);
    }
    if Precedes(relations, db, q, op) {
      if Creates(q, op.key) {
        var n :| 0 <= n < |q.wire| && q.wire[n].key == op.key && q.wire[n].kind == Create;
        assert Needs(relations, row, op, q.wire[n]);
      } else if p :| Creates(q, p) && LeadsTo(relations, row, op.key, p) {
        var n :| 0 <= n < |q.wire| && q.wire[n].key == p && q.wire[n].kind == Create;
        LeadsToExactly(relations, row, op.key, p);
        assert Needs(relations, row, op, q.wire[n]);
      } else {
        var n :| 0 <= n < |q.wire| && q.wire[n].key == op.key && q.wire[n].kind == Delete;
        assert Needs(relations, row, op, q.wire[n]);
      }
    }
  }

  ghost predicate PrecedesSome(relations: seq<Relation>, db: Db, operations: seq<Op>, i: nat)
    requires i < |db.queue|
  {
    exists n :: 0 <= n < |operations| && Precedes(relations, db, db.queue[i], operations[n])
  }

  /** A draft waits for exactly the queued mutations that create a record it operates on or refers to, or delete
      one it creates. */
  lemma {:induction false} DerivedExactly(relations: seq<Relation>, db: Db, operations: seq<Op>, o: nat)
    ensures o in Derived(relations, db, operations) <==>
      exists i: nat :: i < |db.queue| && db.queue[i].ordinal == o && PrecedesSome(relations, db, operations, i)
  {
    if operations != [] {
      var op, rest := operations[0], operations[1..];
      DerivedExactly(relations, db, rest, o);
      forall i | 0 <= i < |db.queue|
        ensures NeedsOne(relations, Seen(db, op.key), op, db.queue[i]) <==> Precedes(relations, db, db.queue[i], op)
      {
        NeedsExactly(relations, db, db.queue[i], op);
      }
      forall i: nat | i < |db.queue|
        ensures PrecedesSome(relations, db, operations, i) <==>
          Precedes(relations, db, db.queue[i], op) || PrecedesSome(relations, db, rest, i)
      {
        PrecedesCons(relations, db, operations, i);
      }
    }
  }

  lemma PrecedesCons(relations: seq<Relation>, db: Db, operations: seq<Op>, i: nat)
    requires operations != [] && i < |db.queue|
    ensures PrecedesSome(relations, db, operations, i) <==>
      Precedes(relations, db, db.queue[i], operations[0]) || PrecedesSome(relations, db, operations[1..], i)
  {
    var rest := operations[1..];
    if PrecedesSome(relations, db, operations, i) {
      var n :| 0 <= n < |operations| && Precedes(relations, db, db.queue[i], operations[n]);
      if n > 0 { assert rest[n - 1] == operations[n]; }
    }
    if PrecedesSome(relations, db, rest, i) {
      var n :| 0 <= n < |rest| && Precedes(relations, db, db.queue[i], rest[n]);
      assert operations[n + 1] == rest[n];
    }
  }

  lemma {:induction false} DerivedHasCreates(relations: seq<Relation>, db: Db, operations: seq<Op>, i: nat, k: Key)
    requires i < |db.queue| && Creates(db.queue[i], k) && Touching(operations, k) != []
    ensures db.queue[i].ordinal in Derived(relations, db, operations)
  {
    if operations[0].key == k {
      var n :| 0 <= n < |db.queue[i].wire| && db.queue[i].wire[n].key == k && db.queue[i].wire[n].kind == Create;
      assert Needs(relations, Seen(db, k), operations[0], db.queue[i].wire[n]);
    } else {
      DerivedHasCreates(relations, db, operations[1..], i, k);
    }
  }
}
