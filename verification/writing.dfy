/** What a row holds after a list of operations, field by field and independently of how they are applied:
    for every field the last operation that says something about it decides. */
module Writing {
  import opened Options
  import opened Records

  /** What one operation says of a field. */
  datatype Saying = Nothing | Unset | Set(value: Value)

  /** A create says everything of its record, its identity fields included; an update speaks of the fields of
      its patch only; a deletion unsets every field. */
  function Says(op: Op, field: string): Saying {
    match op.kind
    case Delete => Unset
    case Update =>
      if op.values.Some? && field in op.values.value then Set(op.values.value[field]) else Nothing
    case Create =>
      if op.values.Some? && field in op.values.value then Set(op.values.value[field])
      else if field in op.key.identity then Set(op.key.identity[field])
      else Unset
  }

  /** Nothing from the `n`th operation on speaks of the field. */
  predicate Silent(ops: seq<Op>, n: int, field: string) {
    forall i :: 0 <= i < |ops| && n <= i ==> Says(ops[i], field) == Nothing
  }

  /** The row says the same of the field. */
  predicate SameField(row: Row, row': Row, field: string) {
    (Holds(row', field) <==> Holds(row, field)) && (Holds(row, field) ==> row'.value[field] == row.value[field])
  }

  predicate Holds(row: Row, field: string) {
    row.Some? && field in row.value
  }

  predicate HoldsAs(row: Row, field: string, saying: Saying) {
    match saying
    case Nothing => true
    case Unset => !Holds(row, field)
    case Set(value) => Holds(row, field) && row.value[field] == value
  }

  /** The last word on the field is kept; without one the field is as it was. */
  predicate FieldWritten(row: Row, ops: seq<Op>, row': Row, field: string) {
    && (Silent(ops, 0, field) ==> SameField(row, row', field))
    && forall n :: 0 <= n < |ops| && Says(ops[n], field) != Nothing && Silent(ops, n + 1, field) ==>
         HoldsAs(row', field, Says(ops[n], field))
  }

  /** The row the operations on a record leave: absent exactly after a deletion, and every field as its last
      writer left it. */
  ghost predicate Wrote(row: Row, ops: seq<Op>, row': Row) {
    && (ops == [] ==> row' == row)
    && (ops != [] ==> (row'.None? <==> ops[|ops| - 1].kind == Delete))
    && forall field :: FieldWritten(row, ops, row', field)
  }

  lemma AppliedField(row: Row, op: Op, field: string)
    requires Apply(row, op).Done?
    ensures if Says(op, field) == Nothing then SameField(row, Apply(row, op).row, field)
            else HoldsAs(Apply(row, op).row, field, Says(op, field))
  {
  }

  lemma {:induction false} ReplayedField(row: Row, ops: seq<Op>, field: string)
    requires Replay(row, ops).Done?
    ensures FieldWritten(row, ops, Replay(row, ops).row, field)
    decreases |ops|
  {
    if ops != [] {
      var front, last, op := ops[..|ops| - 1], |ops| - 1, ops[|ops| - 1];
      assert ops == front + [op];
      ReplayConcat(row, front, [op]);
      var mid := Replay(row, front).row;
      assert Replay(mid, [op]) == Apply(mid, op);
      ReplayedField(row, front, field);
      AppliedField(mid, op, field);
      forall n | 0 <= n < |ops| && Says(ops[n], field) != Nothing && Silent(ops, n + 1, field)
        ensures HoldsAs(Replay(row, ops).row, field, Says(ops[n], field))
      {
        if n < last {
          assert Says(ops[last], field) == Nothing;
          assert Says(front[n], field) != Nothing && Silent(front, n + 1, field);
        }
      }
      if Silent(ops, 0, field) {
        assert Says(ops[last], field) == Nothing && Silent(front, 0, field);
      }
    }
  }

  /** Last writer wins: operations that replay leave every field as its last writer left it. */
  lemma LastWriterWins(row: Row, ops: seq<Op>)
    requires Replay(row, ops).Done?
    ensures Wrote(row, ops, Replay(row, ops).row)
  {
    if ops != [] { ReplayLast(row, ops); }
    forall field { ReplayedField(row, ops, field); }
  }

  /** Whether the record exists when its `n`th operation comes, as long as the ones before it worked. */
  predicate Exists(row: Row, ops: seq<Op>, n: nat)
    requires n <= |ops|
  {
    if n == 0 then row.Some? else ops[n - 1].kind != Delete
  }

  /** The `n`th operation cannot work: a create of a record that exists, an update of one that does not, or
      either without values. */
  predicate Misfits(row: Row, ops: seq<Op>, n: nat)
    requires n < |ops|
  {
    match ops[n].kind
    case Create => Exists(row, ops, n) || ops[n].values.None?
    case Update => !Exists(row, ops, n) || ops[n].values.None?
    case Delete => false
  }

  predicate FirstMisfit(row: Row, ops: seq<Op>, n: nat)
    requires n < |ops|
  {
    Misfits(row, ops, n) && forall m: nat :: m < n ==> !Misfits(row, ops, m)
  }

  lemma {:induction false} ReplaysBeforeMisfits(row: Row, ops: seq<Op>, n: nat)
    requires n <= |ops| && forall m: nat :: m < n ==> !Misfits(row, ops, m)
    ensures Replay(row, ops[..n]).Done?
    ensures Replay(row, ops[..n]).row.Some? <==> Exists(row, ops, n)
  {
    if n > 0 {
      ReplaysBeforeMisfits(row, ops, n - 1);
      assert ops[..n] == ops[..n - 1] + [ops[n - 1]] && !Misfits(row, ops, n - 1);
      ReplayConcat(row, ops[..n - 1], [ops[n - 1]]);
      var mid := Replay(row, ops[..n - 1]).row;
      assert Replay(mid, [ops[n - 1]]) == Apply(mid, ops[n - 1]);
    }
  }

  lemma MisfitFails(row: Row, ops: seq<Op>, n: nat)
    requires n < |ops| && FirstMisfit(row, ops, n)
    ensures Replay(row, ops[..n]).Done? && Apply(Replay(row, ops[..n]).row, ops[n]).Failed?
  {
    ReplaysBeforeMisfits(row, ops, n);
  }

  /** Operations fail to replay exactly when one of them cannot work. */
  lemma ReplayFailsExactly(row: Row, ops: seq<Op>)
    ensures Replay(row, ops).Failed? <==> exists n: nat :: n < |ops| && FirstMisfit(row, ops, n)
  {
    if n: nat :| n < |ops| && FirstMisfit(row, ops, n) {
      ReplaysBeforeMisfits(row, ops, n);
      assert ops == ops[..n] + ops[n..];
      ReplayConcat(row, ops[..n], ops[n..]);
    } else {
      NoMisfits(row, ops, |ops|);
      ReplaysBeforeMisfits(row, ops, |ops|);
      assert ops[..|ops|] == ops;
    }
  }

  lemma {:induction false} NoMisfits(row: Row, ops: seq<Op>, n: nat)
    requires n <= |ops| && forall m: nat :: m < |ops| ==> !FirstMisfit(row, ops, m)
    ensures forall m: nat :: m < n ==> !Misfits(row, ops, m)
  {
    if n > 0 { NoMisfits(row, ops, n - 1); assert !FirstMisfit(row, ops, n - 1); }
  }

  /** The row a patch leaves: its fields as the patch says, all others as they were. */
  predicate Patched(row: Fields, patch: Fields, row': Fields) {
    && row'.Keys == row.Keys + patch.Keys
    && (forall field :: field in patch ==> row'[field] == patch[field])
    && forall field :: field in row && field !in patch ==> row'[field] == row[field]
  }

  /** The row a creation leaves: its values and the identity fields. */
  predicate Born(k: Key, values: Fields, row: Fields) {
    && row.Keys == k.identity.Keys + values.Keys
    && (forall field :: field in values ==> row[field] == values[field])
    && forall field :: field in k.identity && field !in values ==> row[field] == k.identity[field]
  }

  /** What a single operation leaves. */
  predicate WroteOne(row: Row, op: Op, row': Row) {
    match op.kind
    case Create => row'.Some? && op.values.Some? && Born(op.key, op.values.value, row'.value)
    case Update => row.Some? && row'.Some? && op.values.Some? && Patched(row.value, op.values.value, row'.value)
    case Delete => row'.None?
  }

  lemma SingleField(row: Row, op: Op, row': Row, field: string)
    requires Wrote(row, [op], row')
    ensures Says(op, field) == Nothing ==> SameField(row, row', field)
    ensures HoldsAs(row', field, Says(op, field))
  {
    assert FieldWritten(row, [op], row', field);
    assert [op][0] == op && Silent([op], 0 + 1, field);
    assert Says(op, field) == Nothing ==> Silent([op], 0, field);
  }

  lemma SingleWrite(row: Row, op: Op, row': Row)
    requires Wrote(row, [op], row')
    requires (op.kind == Update ==> row.Some?) && (op.kind != Delete ==> op.values.Some?)
    ensures WroteOne(row, op, row')
  {
    assert [op][|[op]| - 1] == op;
    if op.kind != Delete {
      var values, base := op.values.value, if op.kind == Update then row.value else op.key.identity;
      forall field: string
        ensures field in row'.value <==> field in base || field in values
        ensures field in values ==> row'.value[field] == values[field]
        ensures field in base && field !in values ==> row'.value[field] == base[field]
      {
        SingleField(row, op, row', field);
        assert Holds(row', field) <==> field in row'.value;
      }
      assert row'.value.Keys == base.Keys + values.Keys;
    }
  }

  /** The row shown after the operations, each field as its last writer left it; spelled out for one operation. */
  ghost predicate Shows(row: Row, ops: seq<Op>, row': Row) {
    Wrote(row, ops, row') && (|ops| == 1 ==> WroteOne(row, ops[0], row'))
  }

  lemma ReplayShows(row: Row, ops: seq<Op>)
    requires Replay(row, ops).Done?
    ensures Shows(row, ops, Replay(row, ops).row)
  {
    LastWriterWins(row, ops);
    if |ops| == 1 {
      assert ops == [ops[0]] && ops[1..] == [];
      SingleWrite(row, ops[0], Replay(row, ops).row);
    }
  }
}
