/** What publishing does: which rows appear on which channels, at which cursors and stamps. */
module Publishing {
  import opened Options
  import opened Records
  import opened Queue
  import opened Optimism
  import opened Graphs
  import opened Storage
  import opened Pushing
  import opened Batches

  /** The records an intent publishes: those it names, or the whole change set. */
  function MembersOf(changes: set<Key>, intent: Intent): set<Key> {
    if intent.records.None? then changes else intent.records.value
  }

  /** The one row of the record on the channel. */
  ghost predicate OnlyRow(t: Tables, channel: string, row: Invalidation) {
    forall other :: other in Log(t, channel) && other.key == row.key <==> other == row
  }

  /** The records got the next cursors of the channel in order, each one row at its current stamp; the rows of other
      records there are as they were. */
  ghost predicate AppendedOn(t: Tables, channel: string, keys: seq<Key>, t': Tables) {
    && Head(t', channel) == Head(t, channel) + |keys|
    && (forall n :: 0 <= n < |keys| ==>
          OnlyRow(t', channel, Invalidation(keys[n], Head(t, channel) + 1 + n, StampOf(t', keys[n]))))
    && SameRows(t, channel, keys, t')
  }

  /** And every other channel is as it was. */
  ghost predicate Appended(t: Tables, channel: string, keys: seq<Key>, t': Tables) {
    AppendedOn(t, channel, keys, t') && forall c :: c != channel ==> SameChannel(t, c, t')
  }

  ghost predicate SameRows(t: Tables, channel: string, keys: seq<Key>, t': Tables) {
    forall row: Invalidation :: row.key !in keys ==> (row in Log(t', channel) <==> row in Log(t, channel))
  }

  predicate SameChannel(t: Tables, c: string, t': Tables) {
    Head(t', c) == Head(t, c) && Log(t', c) == Log(t, c)
  }

  /** A published record keeps its stamp, or gets its first; no other record is touched. */
  ghost predicate FirstStamps(t: Tables, keys: set<Key>, t': Tables) {
    && t'.rows == t.rows
    && forall k :: StampOf(t', k) == if StampOf(t, k) == 0 && k in keys then 1 else StampOf(t, k)
  }

  lemma PublishedRow(t: Tables, channel: string, k: Key, other: Invalidation)
    requires k in t.stamps
    ensures var t' := PublishAt(t, channel, k, StampOf(t, k)).value;
      other in Log(t', channel) <==>
        (other in Log(t, channel) && other.key != k) || other == Invalidation(k, Head(t, channel) + 1, StampOf(t, k))
  {
    CompactedMembers(Log(t, channel), k, other);
  }

  lemma PublishedOne(t: Tables, channel: string, k: Key)
    requires k in t.stamps
    ensures var t' := PublishAt(t, channel, k, StampOf(t, k)).value;
      && Appended(t, channel, [k], t') && t'.rows == t.rows && t'.stamps == t.stamps
  {
    var t' := PublishAt(t, channel, k, StampOf(t, k)).value;
    var row := Invalidation(k, Head(t, channel) + 1, StampOf(t, k));
    forall other ensures other in Log(t', channel) && other.key == row.key <==> other == row {
      PublishedRow(t, channel, k, other);
    }
    assert OnlyRow(t', channel, row);
    forall other: Invalidation | other.key !in [k] ensures other in Log(t', channel) <==> other in Log(t, channel) {
      PublishedRow(t, channel, k, other);
      assert k in [k];
    }
  }

  lemma EnsuredFirst(t: Tables, k: Key)
    requires WellKept(t)
    ensures FirstStamps(t, {k}, Ensure(t, k)) && forall c :: SameChannel(t, c, Ensure(t, k))
  {
  }

  lemma StampsTwice(a: Tables, x: set<Key>, b: Tables, y: set<Key>, c: Tables)
    requires FirstStamps(a, x, b) && FirstStamps(b, y, c)
    ensures FirstStamps(a, x + y, c)
  {
  }

  lemma AppendedTwice(a: Tables, channel: string, k: Key, keys: seq<Key>, b: Tables, c: Tables)
    requires Appended(a, channel, [k], b) && Appended(b, channel, keys, c) && k !in keys
    requires StampOf(c, k) == StampOf(b, k)
    ensures Appended(a, channel, [k] + keys, c)
  {
    var all := [k] + keys;
    forall n | 0 <= n < |all|
      ensures OnlyRow(c, channel, Invalidation(all[n], Head(a, channel) + 1 + n, StampOf(c, all[n])))
    {
      if n == 0 {
        var row := Invalidation([k][0], Head(a, channel) + 1 + 0, StampOf(b, k));
        assert OnlyRow(b, channel, row);
        assert SameRows(b, channel, keys, c);
      } else {
        assert all[n] == keys[n - 1];
      }
    }
    forall row: Invalidation | row.key !in all ensures row in Log(c, channel) <==> row in Log(a, channel) {
      assert k in all && row.key !in [k] && row.key !in keys;
    }
    forall other | other != channel ensures SameChannel(a, other, c) {
      assert SameChannel(a, other, b) && SameChannel(b, other, c);
    }
  }

  lemma MovedBefore(a: Tables, channel: string, keys: seq<Key>, b: Tables, c: Tables)
    requires (forall h :: SameChannel(a, h, b)) && Appended(b, channel, keys, c)
    ensures Appended(a, channel, keys, c)
  {
    assert SameChannel(a, channel, b);
    forall other | other != channel ensures SameChannel(a, other, c) {
      assert SameChannel(a, other, b) && SameChannel(b, other, c);
    }
  }

  lemma MemberAppears(t: Tables, channel: string, k: Key, rest: seq<Key>, t3: Tables)
    requires WellKept(t) && k !in rest
    requires var t1 := Ensure(t, k);
      var t2 := PublishAt(t1, channel, k, StampOf(t1, k)).value;
      Appended(t2, channel, rest, t3) && FirstStamps(t2, (set j | j in rest), t3)
    ensures Appended(t, channel, [k] + rest, t3)
    ensures FirstStamps(t, (set j | j in [k] + rest), t3)
  {
    var t1 := Ensure(t, k);
    var t2 := PublishAt(t1, channel, k, StampOf(t1, k)).value;
    EnsuredFirst(t, k);
    PublishedOne(t1, channel, k);
    StampsTwice(t, {k}, t1, {}, t2);
    StampsTwice(t, {k} + {}, t2, (set j | j in rest), t3);
    assert {k} + {} + (set j | j in rest) == (set j | j in [k] + rest);
    AppendedTwice(t1, channel, k, rest, t2, t3);
    MovedBefore(t, channel, [k] + rest, t1, t3);
  }

  /** Publishing distinct records on one channel publishes each of them. */
  lemma {:induction false} MembersAppear(t: Tables, channel: string, keys: seq<Key>)
    requires WellKept(t) && NoDuplicates(keys)
    ensures var r := PublishMembers(t, channel, keys);
      r.Some? && Appended(t, channel, keys, r.value) && FirstStamps(t, (set k | k in keys), r.value)
    decreases |keys|
  {
    if keys != [] {
      var k, rest := keys[0], keys[1..];
      var t1 := Ensure(t, k);
      EnsureKeeps(t, k);
      PublishKeeps(t1, channel, k, StampOf(t1, k));
      RestDistinct(keys);
      MembersAppear(PublishAt(t1, channel, k, StampOf(t1, k)).value, channel, rest);
      assert [k] + rest == keys;
      MemberAppears(t, channel, k, rest, PublishMembers(t, channel, keys).value);
    }
  }

  lemma RestDistinct(keys: seq<Key>)
    requires NoDuplicates(keys) && keys != []
    ensures NoDuplicates(keys[1..]) && keys[0] !in keys[1..]
  {
    forall i, j | 0 <= i < j < |keys[1..]| ensures keys[1..][i] != keys[1..][j] {
      assert keys[1..][i] == keys[i + 1] && keys[1..][j] == keys[j + 1];
    }
  }

  predicate NamesChannel(intents: seq<Intent>, c: string) {
    exists i :: 0 <= i < |intents| && intents[i].channel == c
  }

  /** Some intent publishes the record on the channel. */
  predicate Publishes(changes: set<Key>, intents: seq<Intent>, c: string, k: Key) {
    exists i :: 0 <= i < |intents| && intents[i].channel == c && k in MembersOf(changes, intents[i])
  }

  lemma PublishesCons(changes: set<Key>, intents: seq<Intent>, c: string, k: Key)
    requires intents != []
    ensures Publishes(changes, intents, c, k) <==>
      (intents[0].channel == c && k in MembersOf(changes, intents[0])) || Publishes(changes, intents[1..], c, k)
    ensures NamesChannel(intents, c) <==> intents[0].channel == c || NamesChannel(intents[1..], c)
  {
    var rest := intents[1..];
    if i :| 0 <= i < |rest| && rest[i].channel == c && k in MembersOf(changes, rest[i]) {
      assert intents[i + 1] == rest[i];
    }
    if i :| 0 <= i < |rest| && rest[i].channel == c { assert intents[i + 1] == rest[i]; }
    if i :| 0 <= i < |intents| && intents[i].channel == c && k in MembersOf(changes, intents[i]) {
      assert i > 0 ==> rest[i - 1] == intents[i];
    }
    if i :| 0 <= i < |intents| && intents[i].channel == c { assert i > 0 ==> rest[i - 1] == intents[i]; }
  }

  /** The record has exactly one row on the channel, above the cursor and at its current stamp. */
  ghost predicate RowAbove(t: Tables, c: string, k: Key, cursor: nat) {
    exists row: Invalidation :: row.key == k && row.cursor > cursor && row.stamp == StampOf(t, k) && OnlyRow(t, c, row)
  }

  /** What some publications leave of one record on one channel. */
  ghost predicate RecordPublished(t: Tables, changes: set<Key>, intents: seq<Intent>, t': Tables, c: string, k: Key) {
    if Publishes(changes, intents, c, k) then RowAbove(t', c, k, Head(t, c))
    else forall row: Invalidation :: row.key == k ==> (row in Log(t', c) <==> row in Log(t, c))
  }

  /** What some publications leave of one channel: untouched when none names it; when exactly one does, its members
      in canonical order on the next cursors. */
  ghost predicate ChannelPublished(b: Backend, t: Tables, changes: set<Key>, intents: seq<Intent>, t': Tables,
                                   c: string)
  {
    && (!NamesChannel(intents, c) ==> SameChannel(t, c, t'))
    && Head(t, c) <= Head(t', c)
    && forall i :: NamedOnce(intents, c, i) ==> AppendedOn(t, c, b.order(MembersOf(changes, intents[i])), t')
  }

  predicate NamedOnce(intents: seq<Intent>, c: string, i: int) {
    && 0 <= i < |intents| && intents[i].channel == c
    && forall j :: 0 <= j < |intents| && intents[j].channel == c ==> j == i
  }

  /** Everything publications do. */
  ghost predicate AllPublished(b: Backend, t: Tables, changes: set<Key>, intents: seq<Intent>, t': Tables) {
    && (forall c :: ChannelPublished(b, t, changes, intents, t', c))
    && (forall c, k :: RecordPublished(t, changes, intents, t', c, k))
    && t'.rows == t.rows
    && forall k :: StampPublished(t, changes, intents, t', k)
  }

  ghost predicate StampPublished(t: Tables, changes: set<Key>, intents: seq<Intent>, t': Tables, k: Key) {
    StampOf(t', k) ==
      if StampOf(t, k) == 0 && exists c :: Publishes(changes, intents, c, k) then 1 else StampOf(t, k)
  }

  lemma RecordNext(b: Backend, t: Tables, t1: Tables, t2: Tables, changes: set<Key>, intents: seq<Intent>, c: string,
                   k: Key)
    requires Lists(b) && intents != [] && AllPublished(b, t1, changes, intents[1..], t2)
    requires Appended(t, intents[0].channel, b.order(MembersOf(changes, intents[0])), t1)
    requires forall j :: StampOf(t1, j) > 0 ==> StampOf(t2, j) == StampOf(t1, j)
    requires forall j :: j in MembersOf(changes, intents[0]) ==> StampOf(t1, j) > 0
    ensures RecordPublished(t, changes, intents, t2, c, k)
  {
    var first, keys, rest := intents[0], b.order(MembersOf(changes, intents[0])), intents[1..];
    PublishesCons(changes, intents, c, k);
    assert RecordPublished(t1, changes, rest, t2, c, k) && ChannelPublished(b, t1, changes, rest, t2, c);
    assert c != first.channel ==> SameChannel(t, c, t1);
    if Publishes(changes, rest, c, k) {
      assert RowAbove(t2, c, k, Head(t1, c)) && Head(t, c) <= Head(t1, c);
    } else if c == first.channel && k in MembersOf(changes, first) {
      var n :| 0 <= n < |keys| && keys[n] == k;
      var row := Invalidation(k, Head(t, c) + 1 + n, StampOf(t1, k));
      assert OnlyRow(t1, c, row);
      forall other ensures other in Log(t2, c) && other.key == row.key <==> other == row {
      }
      assert OnlyRow(t2, c, row);
    } else if c == first.channel {
      assert k !in keys && SameRows(t, c, keys, t1);
    }
  }

  lemma OnceLater(intents: seq<Intent>, c: string, i: int)
    requires intents != [] && NamedOnce(intents, c, i)
    ensures i == 0 ==> !NamesChannel(intents[1..], c)
    ensures i > 0 ==> intents[0].channel != c && NamedOnce(intents[1..], c, i - 1)
  {
    var rest := intents[1..];
    forall j | 0 <= j < |rest| && rest[j].channel == c ensures j + 1 == i {
      assert intents[j + 1] == rest[j];
    }
  }

  lemma ChannelNext(b: Backend, t: Tables, t1: Tables, t2: Tables, changes: set<Key>, intents: seq<Intent>, c: string)
    requires intents != [] && AllPublished(b, t1, changes, intents[1..], t2)
    requires Appended(t, intents[0].channel, b.order(MembersOf(changes, intents[0])), t1)
    requires forall j :: StampOf(t1, j) > 0 ==> StampOf(t2, j) == StampOf(t1, j)
    requires forall j :: j in b.order(MembersOf(changes, intents[0])) ==> StampOf(t1, j) > 0
    ensures ChannelPublished(b, t, changes, intents, t2, c)
  {
    var first, keys, rest := intents[0], b.order(MembersOf(changes, intents[0])), intents[1..];
    PublishesCons(changes, intents, c, Key("", map[]));
    assert ChannelPublished(b, t1, changes, rest, t2, c);
    assert c != first.channel ==> SameChannel(t, c, t1);
    forall i | NamedOnce(intents, c, i) ensures AppendedOn(t, c, b.order(MembersOf(changes, intents[i])), t2) {
      OnceLater(intents, c, i);
      if i == 0 {
        assert SameChannel(t1, c, t2);
        forall n | 0 <= n < |keys|
          ensures OnlyRow(t2, c, Invalidation(keys[n], Head(t, c) + 1 + n, StampOf(t2, keys[n])))
        {
          assert OnlyRow(t1, c, Invalidation(keys[n], Head(t, c) + 1 + n, StampOf(t1, keys[n])));
        }
      } else {
        assert rest[i - 1] == intents[i];
        assert AppendedOn(t1, c, b.order(MembersOf(changes, rest[i - 1])), t2);
        assert SameChannel(t, c, t1);
      }
    }
  }

  lemma StampNext(b: Backend, t: Tables, t1: Tables, t2: Tables, changes: set<Key>, intents: seq<Intent>, k: Key)
    requires intents != [] && AllPublished(b, t1, changes, intents[1..], t2)
    requires FirstStamps(t, MembersOf(changes, intents[0]), t1)
    ensures StampPublished(t, changes, intents, t2, k)
  {
    assert StampPublished(t1, changes, intents[1..], t2, k);
    forall c { PublishesCons(changes, intents, c, k); }
    if k in MembersOf(changes, intents[0]) { assert Publishes(changes, intents, intents[0].channel, k); }
    if c :| Publishes(changes, intents[1..], c, k) { assert Publishes(changes, intents, c, k); }
    if c :| Publishes(changes, intents, c, k) {
      assert k in MembersOf(changes, intents[0]) || Publishes(changes, intents[1..], c, k);
    }
  }

  lemma PublishedNext(b: Backend, t: Tables, t1: Tables, t2: Tables, changes: set<Key>, intents: seq<Intent>)
    requires Lists(b) && intents != [] && AllPublished(b, t1, changes, intents[1..], t2)
    requires Appended(t, intents[0].channel, b.order(MembersOf(changes, intents[0])), t1)
    requires FirstStamps(t, MembersOf(changes, intents[0]), t1)
    ensures AllPublished(b, t, changes, intents, t2)
  {
    var members := MembersOf(changes, intents[0]);
    forall j | StampOf(t1, j) > 0 ensures StampOf(t2, j) == StampOf(t1, j) {
      assert StampPublished(t1, changes, intents[1..], t2, j);
    }
    forall c ensures ChannelPublished(b, t, changes, intents, t2, c) {
      ChannelNext(b, t, t1, t2, changes, intents, c);
    }
    forall c, k ensures RecordPublished(t, changes, intents, t2, c, k) {
      RecordNext(b, t, t1, t2, changes, intents, c, k);
    }
    forall k ensures StampPublished(t, changes, intents, t2, k) { StampNext(b, t, t1, t2, changes, intents, k); }
  }

  lemma NothingPublished(b: Backend, t: Tables, changes: set<Key>)
    ensures AllPublished(b, t, changes, [], t)
  {
  }

  /** Publications publish: every record they name has its row, and nothing else happened. */
  lemma {:induction false} IntentsAppear(b: Backend, t: Tables, changes: set<Key>, intents: seq<Intent>)
    requires Lists(b) && WellKept(t) && PublishIntents(b, t, changes, intents).Some?
    ensures AllPublished(b, t, changes, intents, PublishIntents(b, t, changes, intents).value)
    decreases |intents|
  {
    if intents == [] {
      NothingPublished(b, t, changes);
    } else {
      var members := MembersOf(changes, intents[0]);
      var keys := b.order(members);
      MembersAppear(t, intents[0].channel, keys);
      MembersKeep(t, intents[0].channel, keys);
      var t1 := PublishMembers(t, intents[0].channel, keys).value;
      assert (set k | k in keys) == members;
      IntentsAppear(b, t1, changes, intents[1..]);
      PublishedNext(b, t, t1, PublishIntents(b, t, changes, intents).value, changes, intents);
    }
  }

  /** What a handler asks to publish, and the change set it publishes from. */
  ghost predicate Asks(b: Backend, act: Act, rows: Table, changes: set<Key>, intents: seq<Intent>) {
    match b.handle(act, rows)
    case Settled(_, named, publications) => changes == KeysOf(act.operations) + named && intents == publications
    case _ => false
  }

  /** What an accepted mutation did to channels and stamps. */
  ghost predicate Published(b: Backend, t: Tables, changes: set<Key>, intents: seq<Intent>, t': Tables) {
    && (forall c :: ChannelPublished(b, t, changes, intents, t', c))
    && (forall c, k :: RecordPublished(t, changes, intents, t', c, k))
    && forall k :: StampMoved(t, changes, intents, t', k)
  }

  /** A changed record gets its next stamp, one only published its first or none, no other any. */
  ghost predicate StampMoved(t: Tables, changes: set<Key>, intents: seq<Intent>, t': Tables, k: Key) {
    StampOf(t', k) ==
      if k in changes then StampOf(t, k) + 1
      else if StampOf(t, k) == 0 && exists c :: Publishes(changes, intents, c, k) then 1
      else StampOf(t, k)
  }

  lemma PublishedSince(b: Backend, t: Tables, rows: Table, changes: set<Key>, intents: seq<Intent>, t': Tables)
    requires AllPublished(b, AdvanceAll(t.(rows := rows), changes), changes, intents, t')
    ensures Published(b, t, changes, intents, t')
  {
    var t1 := AdvanceAll(t.(rows := rows), changes);
    assert forall c :: SameChannel(t, c, t1);
    forall c ensures ChannelPublished(b, t, changes, intents, t', c) {
      assert ChannelPublished(b, t1, changes, intents, t', c);
      forall i | NamedOnce(intents, c, i) ensures AppendedOn(t, c, b.order(MembersOf(changes, intents[i])), t') {
        assert AppendedOn(t1, c, b.order(MembersOf(changes, intents[i])), t');
      }
    }
    forall c, k ensures RecordPublished(t, changes, intents, t', c, k) {
      assert RecordPublished(t1, changes, intents, t', c, k);
    }
    forall k ensures StampMoved(t, changes, intents, t', k) {
      assert StampPublished(t1, changes, intents, t', k);
      assert StampOf(t1, k) == StampOf(t, k) + if k in changes then 1 else 0;
    }
  }

  /** An accepted mutation publishes: on every channel its handler names, every record it names there has exactly one
      row, above the old head and at the record's stamp. */
  lemma MutatePublishes(b: Backend, declared: map<string, nat>, act: Act, t: Tables, changes: set<Key>,
                        intents: seq<Intent>)
    requires Lists(b) && WellKept(t) && Mutate(b, declared, act, t).Kept? && Asks(b, act, t.rows, changes, intents)
    ensures Published(b, t, changes, intents, Mutate(b, declared, act, t).tables)
  {
    var rows := b.handle(act, t.rows).rows;
    var t1 := AdvanceAll(t.(rows := rows), changes);
    ChangeKeeps(t, rows, changes);
    IntentsAppear(b, t1, changes, intents);
    PublishedSince(b, t, rows, changes, intents, Mutate(b, declared, act, t).tables);
  }

  /** The record has a row on the channel above the cursor. */
  predicate HasRow(t: Tables, c: string, k: Key, cursor: nat) {
    exists i :: 0 <= i < |Log(t, c)| && Log(t, c)[i].key == k && Log(t, c)[i].cursor > cursor
  }

  lemma RowAboveIsRow(t: Tables, c: string, k: Key, cursor: nat)
    requires RowAbove(t, c, k, cursor)
    ensures HasRow(t, c, k, cursor)
  {
    var row: Invalidation :| row.key == k && row.cursor > cursor && row.stamp == StampOf(t, k) && OnlyRow(t, c, row);
    assert row in Log(t, c);
    var i :| 0 <= i < |Log(t, c)| && Log(t, c)[i] == row;
  }

  /** A row of a record is only ever replaced by a newer one. */
  lemma RowStays(b: Backend, declared: map<string, nat>, act: Act, t: Tables, c: string, k: Key, cursor: nat)
    requires Lists(b) && WellKept(t) && Mutate(b, declared, act, t).Kept? && HasRow(t, c, k, cursor)
    ensures HasRow(Mutate(b, declared, act, t).tables, c, k, cursor)
  {
    match b.handle(act, t.rows)
    case Settled(_, named, intents) =>
      var changes, t' := KeysOf(act.operations) + named, Mutate(b, declared, act, t).tables;
      MutatePublishes(b, declared, act, t, changes, intents);
      assert RecordPublished(t, changes, intents, t', c, k);
      var i :| 0 <= i < |Log(t, c)| && Log(t, c)[i].key == k && Log(t, c)[i].cursor > cursor;
      assert WellLogged(Log(t, c), Head(t, c), t.stamps);
      if Publishes(changes, intents, c, k) {
        RowAboveIsRow(t', c, k, Head(t, c));
      } else {
        assert Log(t, c)[i] in Log(t', c);
        var j :| 0 <= j < |Log(t', c)| && Log(t', c)[j] == Log(t, c)[i];
      }
  }

  lemma {:induction false} RowsStay(b: Backend, declared: map<string, nat>, acts: seq<Act>, s: Batch, c: string, k: Key,
                                    cursor: nat)
    requires Lists(b) && WellKept(s.tables) && RunBatch(b, declared, acts, s).Some? && HasRow(s.tables, c, k, cursor)
    ensures HasRow(RunBatch(b, declared, acts, s).value.tables, c, k, cursor)
    decreases |acts|
  {
    if acts != [] {
      match Mutate(b, declared, acts[0], s.tables) {
        case Turned(code) =>
          RowsStay(b, declared, acts[1..], s.(rejections := s.rejections[acts[0].ordinal := code]), c, k, cursor);
        case Kept(records, t) =>
          MutateSettles(b, declared, acts[0], s.tables);
          RowStays(b, declared, acts[0], s.tables, c, k, cursor);
          RowsStay(b, declared, acts[1..], s.(tables := t, results := Gather(s.results, records)), c, k, cursor);
      }
    }
  }

  /** When its turn comes the `i`th mutation of the batch is accepted and publishes the record on the channel. */
  ghost predicate PublishesAt(b: Backend, declared: map<string, nat>, acts: seq<Act>, s: Batch, i: nat, c: string,
                              k: Key)
    requires i < |acts|
  {
    var before := RunBatch(b, declared, acts[..i], s);
    && before.Some? && Mutate(b, declared, acts[i], before.value.tables).Kept?
    && exists changes, intents ::
         Asks(b, acts[i], before.value.tables.rows, changes, intents) && Publishes(changes, intents, c, k)
  }

  lemma HeadGrows(b: Backend, declared: map<string, nat>, act: Act, t: Tables, c: string)
    requires Lists(b) && WellKept(t) && Mutate(b, declared, act, t).Kept?
    ensures Head(t, c) <= Head(Mutate(b, declared, act, t).tables, c)
  {
    MutateSettles(b, declared, act, t);
    var t' := Mutate(b, declared, act, t).tables;
    assert LogGrows(Log(t, c), Head(t, c), Log(t', c), Head(t', c));
  }

  /** Every record an accepted mutation of a batch published on a channel has a row there at commit, above where the
      channel was before the batch. */
  lemma {:induction false} BatchPublishes(b: Backend, declared: map<string, nat>, acts: seq<Act>, s: Batch, i: nat,
                                          c: string, k: Key)
    requires Lists(b) && WellKept(s.tables) && RunBatch(b, declared, acts, s).Some?
    requires i < |acts| && PublishesAt(b, declared, acts, s, i, c, k)
    ensures HasRow(RunBatch(b, declared, acts, s).value.tables, c, k, Head(s.tables, c))
    decreases |acts|
  {
    var next := match Mutate(b, declared, acts[0], s.tables)
      case Turned(code) => s.(rejections := s.rejections[acts[0].ordinal := code])
      case Kept(records, t) => s.(tables := t, results := Gather(s.results, records));
    if Mutate(b, declared, acts[0], s.tables).Kept? { MutateSettles(b, declared, acts[0], s.tables); }
    if i == 0 {
      var changes, intents :| Asks(b, acts[0], s.tables.rows, changes, intents) && Publishes(changes, intents, c, k);
      MutatePublishes(b, declared, acts[0], s.tables, changes, intents);
      assert RecordPublished(s.tables, changes, intents, next.tables, c, k);
      RowAboveIsRow(next.tables, c, k, Head(s.tables, c));
      RowsStay(b, declared, acts[1..], next, c, k, Head(s.tables, c));
    } else {
      assert acts[..i][1..] == acts[1..][..i - 1] && acts[1..][i - 1] == acts[i];
      assert RunBatch(b, declared, acts[..i], s) == RunBatch(b, declared, acts[1..][..i - 1], next);
      BatchPublishes(b, declared, acts[1..], next, i - 1, c, k);
      if Mutate(b, declared, acts[0], s.tables).Kept? { HeadGrows(b, declared, acts[0], s.tables, c); }
      RowHigher(RunBatch(b, declared, acts, s).value.tables, c, k, Head(next.tables, c), Head(s.tables, c));
    }
  }

  lemma RowHigher(t: Tables, c: string, k: Key, high: nat, low: nat)
    requires HasRow(t, c, k, high) && low <= high
    ensures HasRow(t, c, k, low)
  {
    var i :| 0 <= i < |Log(t, c)| && Log(t, c)[i].key == k && Log(t, c)[i].cursor > high;
  }
}
