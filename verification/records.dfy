/** Records, the operations a mutation carries, and replaying operations over a row. */
module Records {
  import opened Options

  datatype Value = Null | Text(text: string)

  type Fields = map<string, Value>

  datatype Key = Key(model: string, identity: Fields)

  /** A row that may be absent. */
  type Row = Option<Fields>

  type Table = map<Key, Fields>

  datatype Kind = Create | Update | Delete

  datatype Op = Op(key: Key, kind: Kind, values: Option<Fields>)

  datatype Replayed = Done(row: Row) | Failed

  function At(t: Table, k: Key): Row {
    if k in t then Some(t[k]) else None
  }

  function Put(t: Table, k: Key, row: Row): (r: Table)
    ensures At(r, k) == row
    ensures forall j :: j != k ==> At(r, j) == At(t, j)
  {
    match row
    case None => t - {k}
    case Some(fields) => t[k := fields]
  }

  /** A create needs an absent row and values; an update needs a row and a patch; a delete always works. */
  function Apply(row: Row, op: Op): Replayed {
    match op.kind
    case Create =>
      if row.Some? || op.values.None? then Failed else Done(Some(op.key.identity + op.values.value))
    case Update =>
      if row.None? || op.values.None? then Failed else Done(Some(row.value + op.values.value))
    case Delete => Done(None)
  }

  function Replay(row: Row, ops: seq<Op>): Replayed
    decreases |ops|
  {
    if ops == [] then Done(row)
    else
      match Apply(row, ops[0])
      case Failed => Failed
      case Done(next) => Replay(next, ops[1..])
  }

  lemma {:induction false} ReplayConcat(row: Row, a: seq<Op>, b: seq<Op>)
    ensures Replay(row, a + b) == match Replay(row, a) case Failed => Failed case Done(mid) => Replay(mid, b)
    decreases |a|
  {
    if a == [] {
      assert a + b == b;
    } else {
      assert (a + b)[1..] == a[1..] + b;
      match Apply(row, a[0]) {
        case Failed =>
        case Done(next) => ReplayConcat(next, a[1..], b);
      }
    }
  }

  /** The operations on one record, in order. */
  function Touching(ops: seq<Op>, k: Key): (r: seq<Op>)
    ensures forall i :: 0 <= i < |r| ==> r[i].key == k
    ensures r != [] <==> exists i :: 0 <= i < |ops| && ops[i].key == k
    ensures |r| <= |ops|
  {
    if ops == [] then []
    else (if ops[0].key == k then [ops[0]] else []) + Touching(ops[1..], k)
  }

  lemma {:induction false} TouchingConcat(a: seq<Op>, b: seq<Op>, k: Key)
    ensures Touching(a + b, k) == Touching(a, k) + Touching(b, k)
  {
    if a == [] {
      assert a + b == b;
    } else {
      assert (a + b)[1..] == a[1..] + b;
      TouchingConcat(a[1..], b, k);
    }
  }

  /** What holding a record aside before each of these touches leaves as its before image, when no
      earlier mutation holds it: the row as it stood at the first touch that found one. */
  function Held(row: Row, touches: seq<Op>): Row
    decreases |touches|
  {
    if touches == [] then None
    else if row.Some? then row
    else
      match Apply(row, touches[0])
      case Failed => None
      case Done(next) => Held(next, touches[1..])
  }

  lemma {:induction false} HeldAppend(row: Row, touches: seq<Op>, op: Op)
    requires Replay(row, touches).Done?
    ensures Held(row, touches + [op]) ==
      if Held(row, touches).Some? then Held(row, touches) else Replay(row, touches).row
    decreases |touches|
  {
    if touches != [] && row.None? {
      assert (touches + [op])[1..] == touches[1..] + [op];
      HeldAppend(Apply(row, touches[0]).row, touches[1..], op);
    }
  }

  /** Some create among the touches is followed by another touch. */
  predicate CreatedThenTouched(touches: seq<Op>) {
    exists i :: 0 <= i < |touches| - 1 && touches[i].kind == Create
  }

  /** For a record that starts absent the before image stays absent exactly when no touch follows a create. */
  lemma {:induction false} HeldAbsent(touches: seq<Op>)
    requires Replay(None, touches).Done?
    ensures Held(None, touches).None? <==> !CreatedThenTouched(touches)
  {
    if touches != [] {
      var next := Apply(None, touches[0]).row;
      if next.Some? {
        assert touches[0].kind == Create;
      } else {
        HeldAbsent(touches[1..]);
        if CreatedThenTouched(touches) {
          var i :| 0 <= i < |touches| - 1 && touches[i].kind == Create;
          assert touches[1..][i - 1].kind == Create;
        }
        if CreatedThenTouched(touches[1..]) {
          var i :| 0 <= i < |touches[1..]| - 1 && touches[1..][i].kind == Create;
          assert touches[i + 1].kind == Create;
        }
      }
    }
  }

  /** Replaying over the held image either fails or shows what applying the touches showed. */
  lemma HeldReplay(row: Row, touches: seq<Op>)
    requires touches != [] && Replay(row, touches).Done?
    ensures Replay(Held(row, touches), touches).Done? ==> Replay(Held(row, touches), touches) == Replay(row, touches)
  {
  }

  lemma ReplayLast(row: Row, ops: seq<Op>)
    requires ops != [] && Replay(row, ops).Done?
    ensures Replay(row, ops).row.None? <==> ops[|ops| - 1].kind == Delete
  {
    var front, last := ops[..|ops| - 1], ops[|ops| - 1];
    assert ops == front + [last];
    ReplayConcat(row, front, [last]);
    assert Replay(Replay(row, front).row, [last]) == Apply(Replay(row, front).row, last);
  }
}
