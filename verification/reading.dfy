/** How a page answers each changed record, loader call by loader call. */
module Reading {
  import opened Options
  import opened Records
  import opened Graphs
  import opened Authorities
  import opened Storage
  import opened Pages
  import opened Pushing
  import opened Batches
  import opened Paging

  /** The answer a loaded state gives: itself if there is none or the declared contract accepts it. */
  predicate AnswersWith(b: Backend, version: nat, a: Authority, state: Row) {
    if state.Some? && !b.accepts(a.key.model, version, a.key, state.value)
    then a.state.None? && a.error == Some("loader.invalid")
    else a.state == state && a.error.None?
  }

  /** One record read by itself. */
  predicate ReadAlone(b: Backend, version: nat, rows: Table, a: Authority) {
    match b.load(a.key.model, version, [a.key], rows)
    case Rows(states) =>
      if |states| == 1 then AnswersWith(b, version, a, states[0])
      else a.state.None? && a.error == Some("loader.invalid")
    case Unwilling(code) => a.state.None? && a.error == Some(code)
    case Thrown => a.state.None? && a.error == Some("loader.failed")
  }

  /** A record of a model is read with all changed records of the model in one call; when that does not answer them
      all, by itself. */
  predicate ReadWith(b: Backend, version: nat, group: seq<Key>, rows: Table, n: nat, a: Authority)
    requires n < |group|
  {
    var whole := b.load(a.key.model, version, group, rows);
    if whole.Rows? && |whole.states| == |group| then AnswersWith(b, version, a, whole.states[n])
    else ReadAlone(b, version, rows, a)
  }

  /** What the loaders say of a record, as an answer of a page. */
  function AsAnswer(k: Key, stamp: nat, one: One): Authority {
    match one
    case Found(state) => Authority(k, stamp, state, None)
    case Missing(code) => Authority(k, stamp, None, Some(code))
  }

  lemma GroupReads(b: Backend, version: nat, model: string, group: seq<Key>, rows: Table, n: nat, stamp: nat)
    requires n < |group| && group[n].model == model
    ensures ReadWith(b, version, group, rows, n,
                     AsAnswer(group[n], stamp, LoadGroupFor(b, version, model, group, rows)[n]))
  {
  }

  lemma {:induction false} ZippedAt(keys: seq<Key>, ones: seq<One>, n: nat)
    requires |ones| == |keys| && NoDuplicates(keys) && n < |keys|
    ensures keys[n] in Zipped(keys, ones) && Zipped(keys, ones)[keys[n]] == ones[n]
  {
    if n > 0 {
      assert keys[1..][n - 1] == keys[n] && ones[1..][n - 1] == ones[n] && keys[0] != keys[n];
      forall i, j | 0 <= i < j < |keys[1..]| ensures keys[1..][i] != keys[1..][j] {
        assert keys[1..][i] == keys[i + 1] && keys[1..][j] == keys[j + 1];
      }
      ZippedAt(keys[1..], ones[1..], n - 1);
    }
  }

  lemma {:induction false} ZippedKeys(keys: seq<Key>, ones: seq<One>)
    requires |ones| == |keys|
    ensures forall k :: k in Zipped(keys, ones) <==> k in keys
  {
    if keys != [] { ZippedKeys(keys[1..], ones[1..]); }
  }

  lemma {:induction false} GroupDistinct(keys: seq<Key>, model: string)
    requires NoDuplicates(keys)
    ensures NoDuplicates(Group(keys, model))
  {
    if keys != [] {
      forall i, j | 0 <= i < j < |keys[1..]| ensures keys[1..][i] != keys[1..][j] {
        assert keys[1..][i] == keys[i + 1] && keys[1..][j] == keys[j + 1];
      }
      GroupDistinct(keys[1..], model);
      forall k | k in Group(keys[1..], model) ensures k != keys[0] {
        GroupMembers(keys[1..], model, k);
        var i :| 0 <= i < |keys[1..]| && keys[1..][i] == k;
        assert keys[i + 1] == k;
      }
      var group, rest := Group(keys, model), Group(keys[1..], model);
      forall i, j | 0 <= i < j < |group| ensures group[i] != group[j] {
        assert keys[0].model == model ==> group[j] == rest[j - 1] && rest[j - 1] in rest;
      }
    }
  }

  /** The models whose records are read hold exactly these records, each as its group is answered. */
  lemma {:induction false} StatesRead(b: Backend, declared: map<string, nat>, models: seq<string>, keys: seq<Key>,
                                      rows: Table, n: nat, model: string)
    requires NoDuplicates(keys) && model in models && n < |Group(keys, model)|
    requires forall m :: m in models ==> m in declared
    ensures var k, states := Group(keys, model)[n], States(b, declared, models, keys, rows);
      k in states && states[k] == LoadGroupFor(b, declared[model], model, Group(keys, model), rows)[n]
  {
    var front, last := models[..|models| - 1], models[|models| - 1];
    var group, ones := Group(keys, last), LoadGroupFor(b, declared[last], last, Group(keys, last), rows);
    assert models == front + [last];
    ZippedKeys(group, ones);
    var k := Group(keys, model)[n];
    GroupMembers(keys, model, k);
    if model == last {
      GroupDistinct(keys, model);
      ZippedAt(group, ones, n);
    } else {
      GroupMembers(keys, last, k);
      StatesRead(b, declared, front, keys, rows, n, model);
    }
  }

  lemma {:induction false} GroupPlace(keys: seq<Key>, k: Key) returns (n: nat)
    requires k in keys
    ensures n < |Group(keys, k.model)| && Group(keys, k.model)[n] == k
  {
    GroupMembers(keys, k.model, k);
    n :| 0 <= n < |Group(keys, k.model)| && Group(keys, k.model)[n] == k;
  }

  /** The record's place among the changed records of its model, which are read together. */
  predicate AtPlace(keys: seq<Key>, k: Key, n: nat) {
    n < |Group(keys, k.model)| && Group(keys, k.model)[n] == k
  }

  /** The answer is what the loader says of its record, read with the changed records of its model. */
  ghost predicate ReadIn(b: Backend, declared: map<string, nat>, keys: seq<Key>, rows: Table, a: Authority) {
    && a.key.model in declared
    && (exists n :: AtPlace(keys, a.key, n))
    && forall n :: AtPlace(keys, a.key, n) ==>
         ReadWith(b, declared[a.key.model], Group(keys, a.key.model), rows, n, a)
  }

  lemma ChangeReads(b: Backend, declared: map<string, nat>, keys: seq<Key>, t: Tables, k: Key, n: nat)
    requires NoDuplicates(keys) && k in keys && AtPlace(keys, k, n) && forall m :: m in Models(keys) ==> m in declared
    ensures k.model in declared
    ensures ReadWith(b, declared[k.model], Group(keys, k.model), t.rows, n,
                     Change(t, k, States(b, declared, Models(keys), keys, t.rows)))
  {
    ModelsMembers(keys, k);
    StatesRead(b, declared, Models(keys), keys, t.rows, n, k.model);
    GroupReads(b, declared[k.model], k.model, Group(keys, k.model), t.rows, n, StampOf(t, k));
  }

  lemma AnyChangeReads(b: Backend, declared: map<string, nat>, keys: seq<Key>, t: Tables, k: Key)
    requires NoDuplicates(keys) && k in keys && forall m :: m in Models(keys) ==> m in declared
    ensures ReadIn(b, declared, keys, t.rows, Change(t, k, States(b, declared, Models(keys), keys, t.rows)))
  {
    ModelsMembers(keys, k);
    var place := GroupPlace(keys, k);
    assert AtPlace(keys, k, place);
    forall n | AtPlace(keys, k, n)
      ensures ReadWith(b, declared[k.model], Group(keys, k.model), t.rows, n,
                       Change(t, k, States(b, declared, Models(keys), keys, t.rows)))
    {
      ChangeReads(b, declared, keys, t, k, n);
    }
  }

  /** Every changed record is answered as its loader answers it, and no other. */
  lemma PageReads(b: Backend, declared: map<string, nat>, cursors: map<string, nat>, t: Tables, i: nat)
    requires Lists(b) && forall m :: m in Models(b.order(AllChanged(t, cursors))) ==> m in declared
    requires i < |b.order(AllChanged(t, cursors))|
    ensures var keys, changes := b.order(AllChanged(t, cursors)), PageOf(b, declared, cursors, t).changes;
      |changes| == |keys| && changes[i].key == keys[i] && ReadIn(b, declared, keys, t.rows, changes[i])
  {
    var keys := b.order(AllChanged(t, cursors));
    assert keys[i] in keys;
    AnyChangeReads(b, declared, keys, t, keys[i]);
  }

  /** A scan is short of 50 rows only when it reaches the head. */
  lemma WindowIsFull(t: Tables, channel: string, from: nat)
    ensures var rows, range := Window(t, channel, from), RangeOf(t, channel, from);
      |rows| <= 50 && (|rows| < 50 ==> range.to == Head(t, channel))
  {
  }
}
