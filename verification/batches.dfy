/** What a committed batch keeps and carries. */
module Batches {
  import opened Options
  import opened Records
  import opened Queue
  import opened Optimism
  import opened Authorities
  import opened Storage
  import opened Pushing
  import opened Graphs

  /** `order` lists every set of records, each once. */
  ghost predicate Lists(b: Backend) {
    forall s :: NoDuplicates(b.order(s)) && forall k :: k in b.order(s) <==> k in s
  }

  ghost predicate HonestAbout(b: Backend, act: Act, rows: Table) {
    match b.handle(act, rows)
    case Settled(rows', changes, _) => forall k :: At(rows', k) != At(rows, k) ==> k in KeysOf(act.operations) + changes
    case _ => true
  }

  /** Handlers report every record they change beyond the uploaded ones. */
  ghost predicate Honest(b: Backend) {
    forall act, rows :: HonestAbout(b, act, rows)
  }

  function StateContent(k: Key, state: Row): Row {
    match state
    case None => None
    case Some(fields) => Some(k.identity + fields)
  }

  ghost predicate FaithfulTo(b: Backend, model: string, version: nat, keys: seq<Key>, rows: Table) {
    match b.load(model, version, keys, rows)
    case Rows(states) =>
      |states| == |keys| ==> forall i :: 0 <= i < |keys| ==> StateContent(keys[i], states[i]) == At(rows, keys[i])
    case _ => true
  }

  /** Loaders answer with the rows as they are. */
  ghost predicate Faithful(b: Backend) {
    forall model, version, keys, rows :: FaithfulTo(b, model, version, keys, rows)
  }

  lemma {:induction false} MembersKeep(t: Tables, channel: string, members: seq<Key>)
    requires WellKept(t)
    ensures var r := PublishMembers(t, channel, members);
      r.Some? && WellKept(r.value) && Grows(t, r.value) && SameChanges(t, r.value)
    decreases |members|
  {
    if members == [] {
      GrowsSelf(t);
    } else {
      var t1 := Ensure(t, members[0]);
      EnsureKeeps(t, members[0]);
      PublishKeeps(t1, channel, members[0], StampOf(t1, members[0]));
      var t2 := PublishAt(t1, channel, members[0], StampOf(t1, members[0])).value;
      MembersKeep(t2, channel, members[1..]);
      GrowsTwice(t, t1, t2);
      GrowsTwice(t, t2, PublishMembers(t, channel, members).value);
    }
  }

  lemma GrowsSelf(t: Tables)
    ensures Grows(t, t)
  {
  }

  /** Distribution moves no row and raises no stamp. */
  predicate SameChanges(t: Tables, t': Tables) {
    t'.rows == t.rows && forall k :: k in t.stamps ==> k in t'.stamps && t'.stamps[k] == t.stamps[k]
  }

  /** A publication fails only for a channel without a name or a record nothing loads; never because a
      stamp went stale. */
  lemma {:induction false} IntentsKeep(b: Backend, t: Tables, changes: set<Key>, intents: seq<Intent>)
    requires WellKept(t)
    ensures PublishIntents(b, t, changes, intents).None? <==>
      exists i :: 0 <= i < |intents| && BadIntent(b, intents[i])
    ensures var r := PublishIntents(b, t, changes, intents);
      r.Some? ==> WellKept(r.value) && Grows(t, r.value) && SameChanges(t, r.value)
    decreases |intents|
  {
    if intents == [] {
      GrowsSelf(t);
    } else if BadIntent(b, intents[0]) {
    } else {
      var members := b.order(if intents[0].records.None? then changes else intents[0].records.value);
      MembersKeep(t, intents[0].channel, members);
      var t1 := PublishMembers(t, intents[0].channel, members).value;
      IntentsKeep(b, t1, changes, intents[1..]);
      BadTail(b, intents);
      if PublishIntents(b, t, changes, intents).Some? {
        GrowsTwice(t, t1, PublishIntents(b, t, changes, intents).value);
      }
    }
  }

  predicate BadIntent(b: Backend, intent: Intent) {
    intent.channel == "" || (intent.records.Some? && Unloadable(b, intent.records.value))
  }

  lemma BadTail(b: Backend, intents: seq<Intent>)
    requires intents != [] && !BadIntent(b, intents[0])
    ensures (exists i :: 0 <= i < |intents| && BadIntent(b, intents[i])) <==>
      exists i :: 0 <= i < |intents[1..]| && BadIntent(b, intents[1..][i])
  {
    if exists i :: 0 <= i < |intents| && BadIntent(b, intents[i]) {
      var i :| 0 <= i < |intents| && BadIntent(b, intents[i]);
      assert intents[1..][i - 1] == intents[i];
    }
    if exists i :: 0 <= i < |intents[1..]| && BadIntent(b, intents[1..][i]) {
      var i :| 0 <= i < |intents[1..]| && BadIntent(b, intents[1..][i]);
      assert intents[i + 1] == intents[1..][i];
    }
  }

  /** An answer at the stamp the tables have. */
  predicate AsStamped(t: Tables, a: Authority) {
    a.error == None && a.key in t.stamps && a.stamp == t.stamps[a.key]
  }

  predicate AllStamped(t: Tables, records: seq<Authority>) {
    forall i :: 0 <= i < |records| ==> AsStamped(t, records[i])
  }

  /** A record as the tables have it. */
  predicate AsStored(t: Tables, a: Authority) {
    AsStamped(t, a) && Content(a) == At(t.rows, a.key)
  }

  predicate AllStored(t: Tables, records: seq<Authority>) {
    forall i :: 0 <= i < |records| ==> AsStored(t, records[i])
  }

  predicate Names(records: seq<Authority>, k: Key) {
    exists i :: 0 <= i < |records| && records[i].key == k
  }

  lemma {:induction false} AnswersStored(b: Backend, version: nat, keys: seq<Key>, states: seq<Row>, t: Tables)
    requires |states| == |keys| && Answers(b, version, keys, states, t).Good?
    requires forall i :: 0 <= i < |keys| ==>
      keys[i] in t.stamps && StateContent(keys[i], states[i]) == At(t.rows, keys[i])
    ensures AllStored(t, Answers(b, version, keys, states, t).records)
  {
    if keys != [] {
      forall i | 0 <= i < |keys[1..]|
        ensures keys[1..][i] in t.stamps && StateContent(keys[1..][i], states[1..][i]) == At(t.rows, keys[1..][i])
      {
        assert keys[1..][i] == keys[i + 1] && states[1..][i] == states[i + 1];
      }
      AnswersStored(b, version, keys[1..], states[1..], t);
    }
  }

  lemma {:induction false} AnswersNames(b: Backend, version: nat, keys: seq<Key>, states: seq<Row>, t: Tables)
    requires |states| == |keys| && Answers(b, version, keys, states, t).Good? && forall k :: k in keys ==> k in t.stamps
    ensures var records := Answers(b, version, keys, states, t).records;
      AllStamped(t, records) && forall k :: Names(records, k) <==> k in keys
  {
    if keys != [] {
      AnswersNames(b, version, keys[1..], states[1..], t);
      var rest := Answers(b, version, keys[1..], states[1..], t).records;
      var first := [Authority(keys[0], StampOf(t, keys[0]), states[0], None)];
      assert first[0].key == keys[0];
      forall k ensures Names(first + rest, k) <==> k in keys {
        NamesConcat(first, rest, k);
      }
    }
  }

  lemma NamesConcat(a: seq<Authority>, b: seq<Authority>, k: Key)
    ensures Names(a + b, k) <==> Names(a, k) || Names(b, k)
  {
    if Names(a, k) {
      var i :| 0 <= i < |a| && a[i].key == k;
      assert (a + b)[i].key == k;
    }
    if Names(b, k) {
      var i :| 0 <= i < |b| && b[i].key == k;
      assert (a + b)[|a| + i].key == k;
    }
    if Names(a + b, k) {
      var i :| 0 <= i < |a + b| && (a + b)[i].key == k;
      assert i < |a| ==> a[i].key == k;
      assert i >= |a| ==> b[i - |a|].key == k;
    }
  }

  lemma {:induction false} GroupMembers(keys: seq<Key>, model: string, k: Key)
    ensures k in Group(keys, model) <==> k in keys && k.model == model
  {
    if keys != [] { GroupMembers(keys[1..], model, k); }
  }

  lemma {:induction false} ModelsMembers(keys: seq<Key>, k: Key)
    requires k in keys
    ensures k.model in Models(keys)
  {
    if keys[0] != k { ModelsMembers(keys[1..], k); }
  }

  /** Every record of the read models is answered at its stamp, whatever the loaders say. */
  lemma {:induction false} LoadAllNames(b: Backend, declared: map<string, nat>, models: seq<string>, keys: seq<Key>,
                                        t: Tables)
    requires (forall m :: m in models ==> m in declared) && forall k :: k in keys ==> k in t.stamps
    requires LoadAll(b, declared, models, keys, t).Good?
    ensures var records := LoadAll(b, declared, models, keys, t).records;
      AllStamped(t, records) && forall k :: Names(records, k) <==> k in keys && k.model in models
  {
    if models != [] {
      LoadGroupNames(b, declared[models[0]], models[0], keys, t);
      LoadAllNames(b, declared, models[1..], keys, t);
      var first := LoadGroup(b, declared[models[0]], models[0], Group(keys, models[0]), t).records;
      var rest := LoadAll(b, declared, models[1..], keys, t).records;
      forall k ensures Names(first + rest, k) <==> k in keys && k.model in models {
        NamesConcat(first, rest, k);
      }
    }
  }

  lemma LoadGroupNames(b: Backend, version: nat, model: string, keys: seq<Key>, t: Tables)
    requires forall k :: k in keys ==> k in t.stamps
    requires LoadGroup(b, version, model, Group(keys, model), t).Good?
    ensures var records := LoadGroup(b, version, model, Group(keys, model), t).records;
      AllStamped(t, records) && forall k :: Names(records, k) <==> k in keys && k.model == model
  {
    var group := Group(keys, model);
    forall k ensures k in group <==> k in keys && k.model == model { GroupMembers(keys, model, k); }
    AnswersNames(b, version, group, b.load(model, version, group, t.rows).states, t);
  }

  /** A loader that answers with the rows as they are answers every record as it is stored. */
  lemma {:induction false} LoadAllReads(b: Backend, declared: map<string, nat>, models: seq<string>, keys: seq<Key>,
                                        t: Tables)
    requires Faithful(b) && (forall m :: m in models ==> m in declared) && forall k :: k in keys ==> k in t.stamps
    requires LoadAll(b, declared, models, keys, t).Good?
    ensures AllStored(t, LoadAll(b, declared, models, keys, t).records)
  {
    if models != [] {
      LoadGroupReads(b, declared[models[0]], models[0], keys, t);
      LoadAllReads(b, declared, models[1..], keys, t);
    }
  }

  lemma LoadGroupReads(b: Backend, version: nat, model: string, keys: seq<Key>, t: Tables)
    requires Faithful(b) && forall k :: k in keys ==> k in t.stamps
    requires LoadGroup(b, version, model, Group(keys, model), t).Good?
    ensures AllStored(t, LoadGroup(b, version, model, Group(keys, model), t).records)
  {
    var group := Group(keys, model);
    assert FaithfulTo(b, model, version, group, t.rows);
    forall i | 0 <= i < |group| ensures group[i] in t.stamps { GroupMembers(keys, model, group[i]); }
    AnswersStored(b, version, group, b.load(model, version, group, t.rows).states, t);
  }

  /** An accepted mutation, whatever its handler and loaders do: it grows the tables, stamps what it
      changed, and answers every record of it at its new stamp. */
  ghost predicate Settles(act: Act, t: Tables, t': Tables, records: seq<Authority>, changes: set<Key>) {
    && WellKept(t') && Grows(t, t')
    && AllStamped(t', records)
    && KeysOf(act.operations) <= changes
    && (forall k :: Names(records, k) <==> k in changes)
    && (forall k :: StampOf(t, k) > 0 ==> StampOf(t', k) == StampOf(t, k) + if k in changes then 1 else 0)
  }

  /** An accepted mutation of an honest handler, read back faithfully: content changed only with stamps,
      and every record is answered as the mutation left it. */
  ghost predicate SettlesTruly(t: Tables, t': Tables, records: seq<Authority>, changes: set<Key>) {
    && Tells(t, t') && AllStored(t', records)
    && forall k :: k !in changes ==> At(t'.rows, k) == At(t.rows, k)
  }

  ghost predicate ChangesOnly(t: Tables, rows: Table, changes: set<Key>) {
    forall k :: At(rows, k) != At(t.rows, k) ==> k in changes
  }

  lemma ReadBackSettles(b: Backend, declared: map<string, nat>, act: Act, changes: set<Key>, intents: seq<Intent>,
                        t: Tables,
                        rows: Table)
    requires Lists(b) && WellKept(t) && KeysOf(act.operations) <= changes
    requires ReadBack(b, declared, changes, intents, t.(rows := rows)).Kept?
    ensures var r := ReadBack(b, declared, changes, intents, t.(rows := rows));
      Settles(act, t, r.tables, r.records, changes)
  {
    var keys := b.order(changes);
    var t1 := AdvanceAll(t.(rows := rows), changes);
    UndeclaredNot(b, declared, keys);
    assert forall k :: k in keys <==> k in changes;
    LoadAllNames(b, declared, Models(keys), keys, t1);
    var records := LoadAll(b, declared, Models(keys), keys, t1).records;
    ChangeKeeps(t, rows, changes);
    IntentsKeep(b, t1, changes, intents);
    var t2 := PublishIntents(b, t1, changes, intents).value;
    GrowsTwice(t, t1, t2);
    forall i | 0 <= i < |records| ensures AsStamped(t2, records[i]) {
      assert AsStamped(t1, records[i]);
    }
    forall k ensures Names(records, k) <==> k in changes {
      if k in keys { ModelsMembers(keys, k); }
    }
    forall k | StampOf(t, k) > 0 ensures StampOf(t2, k) == StampOf(t, k) + if k in changes then 1 else 0 {
      assert StampOf(t1, k) == StampOf(t, k) + if k in changes then 1 else 0;
    }
  }

  lemma ReadBackTells(b: Backend, declared: map<string, nat>, changes: set<Key>, intents: seq<Intent>, t: Tables,
                      rows: Table)
    requires Lists(b) && Faithful(b) && WellKept(t) && ChangesOnly(t, rows, changes)
    requires ReadBack(b, declared, changes, intents, t.(rows := rows)).Kept?
    ensures var r := ReadBack(b, declared, changes, intents, t.(rows := rows));
      SettlesTruly(t, r.tables, r.records, changes)
  {
    var keys := b.order(changes);
    var t1 := AdvanceAll(t.(rows := rows), changes);
    UndeclaredNot(b, declared, keys);
    assert forall k :: k in keys <==> k in changes;
    LoadAllReads(b, declared, Models(keys), keys, t1);
    ChangeKeeps(t, rows, changes);
    IntentsKeep(b, t1, changes, intents);
    var t2 := PublishIntents(b, t1, changes, intents).value;
    StoredLater(t1, t2, LoadAll(b, declared, Models(keys), keys, t1).records);
    forall k ensures RecordTells(t1, t2, k) {
    }
    TellsTwice(t, t1, t2);
  }

  lemma StoredLater(t: Tables, t': Tables, records: seq<Authority>)
    requires AllStored(t, records) && SameChanges(t, t')
    ensures AllStored(t', records)
  {
    forall i | 0 <= i < |records| ensures AsStored(t', records[i]) {
      assert AsStored(t, records[i]);
    }
  }

  /** The records an accepted mutation changed: the uploaded ones and those its handler named. */
  function ChangesOf(b: Backend, act: Act, t: Tables): set<Key> {
    match b.handle(act, t.rows)
    case Settled(_, changes, _) => KeysOf(act.operations) + changes
    case _ => {}
  }

  lemma MutateSettles(b: Backend, declared: map<string, nat>, act: Act, t: Tables)
    requires Lists(b) && WellKept(t) && Mutate(b, declared, act, t).Kept?
    ensures var r := Mutate(b, declared, act, t); Settles(act, t, r.tables, r.records, ChangesOf(b, act, t))
  {
    match b.handle(act, t.rows)
    case Settled(rows, changes, intents) =>
      ReadBackSettles(b, declared, act, KeysOf(act.operations) + changes, intents, t, rows);
  }

  lemma MutateTells(b: Backend, declared: map<string, nat>, act: Act, t: Tables)
    requires Lists(b) && Faithful(b) && Honest(b) && WellKept(t) && Mutate(b, declared, act, t).Kept?
    ensures var r := Mutate(b, declared, act, t); SettlesTruly(t, r.tables, r.records, ChangesOf(b, act, t))
  {
    assert HonestAbout(b, act, t.rows);
    match b.handle(act, t.rows)
    case Settled(rows, changes, intents) =>
      ReadBackTells(b, declared, KeysOf(act.operations) + changes, intents, t, rows);
  }

  /** The last record of each key, at its current stamp. */
  ghost predicate Current(s: Batch) {
    forall k :: k in s.results ==> s.results[k].key == k && AsStamped(s.tables, s.results[k])
  }

  /** With the content it has now. */
  ghost predicate CurrentContent(s: Batch) {
    forall k :: k in s.results ==> Content(s.results[k]) == At(s.tables.rows, k)
  }

  lemma {:induction false} GatherLast(results: map<Key, Authority>, records: seq<Authority>, k: Key)
    ensures k in Gather(results, records) <==> k in results || Names(records, k)
    ensures Names(records, k) ==> Gather(results, records)[k] in records && Gather(results, records)[k].key == k
    ensures !Names(records, k) && k in results ==> Gather(results, records)[k] == results[k]
    decreases |records|
  {
    if records != [] {
      var next := results[records[0].key := records[0]];
      GatherLast(next, records[1..], k);
      assert [records[0]] + records[1..] == records && [records[0]][0].key == records[0].key;
      NamesConcat([records[0]], records[1..], k);
      assert Names([records[0]], k) <==> records[0].key == k;
    }
  }

  lemma GatherCurrent(s: Batch, act: Act, t: Tables, records: seq<Authority>, changes: set<Key>)
    requires WellKept(s.tables) && Current(s) && Settles(act, s.tables, t, records, changes)
    ensures Current(s.(tables := t, results := Gather(s.results, records)))
    ensures forall k :: k in Gather(s.results, records) <==> k in s.results || k in changes
  {
    forall k
      ensures k in Gather(s.results, records) <==> k in s.results || k in changes
    {
      GatherLast(s.results, records, k);
    }
    forall k | k in Gather(s.results, records)
      ensures Gather(s.results, records)[k].key == k && AsStamped(t, Gather(s.results, records)[k])
    {
      GatherLast(s.results, records, k);
      if Names(records, k) {
        var i :| 0 <= i < |records| && records[i] == Gather(s.results, records)[k];
        assert AsStamped(t, records[i]);
      } else {
        assert AsStamped(s.tables, s.results[k]) && RecordGrows(s.tables, t, k);
      }
    }
  }

  lemma GatherContent(s: Batch, t: Tables, records: seq<Authority>, changes: set<Key>)
    requires CurrentContent(s) && SettlesTruly(s.tables, t, records, changes)
    requires forall k :: Names(records, k) <==> k in changes
    ensures CurrentContent(s.(tables := t, results := Gather(s.results, records)))
  {
    forall k | k in Gather(s.results, records) ensures Content(Gather(s.results, records)[k]) == At(t.rows, k) {
      GatherLast(s.results, records, k);
      if Names(records, k) {
        var i :| 0 <= i < |records| && records[i] == Gather(s.results, records)[k];
        assert AsStored(t, records[i]);
      }
    }
  }

  predicate Ordinal(acts: seq<Act>, o: nat) {
    exists i :: 0 <= i < |acts| && acts[i].ordinal == o
  }

  predicate Distinct(acts: seq<Act>) {
    forall i, j :: 0 <= i < j < |acts| ==> acts[i].ordinal != acts[j].ordinal
  }

  /** Committed tables and receipt records belong together, whatever handlers and loaders do: the tables
      only grew, and every answer carries the stamp its record has at commit. */
  lemma {:induction false} BatchKeeps(b: Backend, declared: map<string, nat>, acts: seq<Act>, s: Batch)
    requires Lists(b) && WellKept(s.tables) && Current(s) && RunBatch(b, declared, acts, s).Some?
    ensures var r := RunBatch(b, declared, acts, s).value;
      WellKept(r.tables) && Grows(s.tables, r.tables) && Current(r) && s.results.Keys <= r.results.Keys
    decreases |acts|
  {
    if acts == [] {
      GrowsSelf(s.tables);
    } else {
      match Mutate(b, declared, acts[0], s.tables) {
        case Turned(code) =>
          BatchKeeps(b, declared, acts[1..], s.(rejections := s.rejections[acts[0].ordinal := code]));
        case Kept(records, t) =>
          var next := s.(tables := t, results := Gather(s.results, records));
          MutateSettles(b, declared, acts[0], s.tables);
          GatherCurrent(s, acts[0], t, records, ChangesOf(b, acts[0], s.tables));
          BatchKeeps(b, declared, acts[1..], next);
          GrowsTwice(s.tables, t, RunBatch(b, declared, acts, s).value.tables);
      }
    }
  }

  /** When handlers report what they change and loaders answer with the rows as they are, content changed
      only with stamps, and every answer carries the content its record has at commit. */
  lemma {:induction false} BatchTells(b: Backend, declared: map<string, nat>, acts: seq<Act>, s: Batch)
    requires Lists(b) && Faithful(b) && Honest(b) && WellKept(s.tables) && Current(s) && CurrentContent(s)
    requires RunBatch(b, declared, acts, s).Some?
    ensures var r := RunBatch(b, declared, acts, s).value; Tells(s.tables, r.tables) && CurrentContent(r)
    decreases |acts|
  {
    if acts != [] {
      match Mutate(b, declared, acts[0], s.tables) {
        case Turned(code) =>
          BatchTells(b, declared, acts[1..], s.(rejections := s.rejections[acts[0].ordinal := code]));
        case Kept(records, t) =>
          var next := s.(tables := t, results := Gather(s.results, records));
          MutateSettles(b, declared, acts[0], s.tables);
          MutateTells(b, declared, acts[0], s.tables);
          GatherCurrent(s, acts[0], t, records, ChangesOf(b, acts[0], s.tables));
          GatherContent(s, t, records, ChangesOf(b, acts[0], s.tables));
          BatchTells(b, declared, acts[1..], next);
          BatchKeeps(b, declared, acts[1..], next);
          TellsTwice(s.tables, t, RunBatch(b, declared, acts, s).value.tables);
      }
    }
  }

  /** Rejections name mutations of the batch; every record an accepted mutation uploaded is answered,
      whatever handlers and loaders do. */
  lemma {:induction false} BatchCovers(b: Backend, declared: map<string, nat>, acts: seq<Act>, s: Batch)
    requires Lists(b) && WellKept(s.tables) && Current(s)
    requires RunBatch(b, declared, acts, s).Some? && Distinct(acts)
    ensures var r := RunBatch(b, declared, acts, s).value;
      forall o :: o in r.rejections ==> o in s.rejections || Ordinal(acts, o)
    ensures var r := RunBatch(b, declared, acts, s).value; s.rejections.Keys <= r.rejections.Keys
    ensures var r := RunBatch(b, declared, acts, s).value;
      forall i :: 0 <= i < |acts| && acts[i].ordinal !in r.rejections ==> KeysOf(acts[i].operations) <= r.results.Keys
    decreases |acts|
  {
    if acts != [] {
      var rest := acts[1..];
      var r := RunBatch(b, declared, acts, s).value;
      var next := match Mutate(b, declared, acts[0], s.tables)
        case Turned(code) => s.(rejections := s.rejections[acts[0].ordinal := code])
        case Kept(records, t) => s.(tables := t, results := Gather(s.results, records));
      if Mutate(b, declared, acts[0], s.tables).Kept? {
        MutateSettles(b, declared, acts[0], s.tables);
        var m := Mutate(b, declared, acts[0], s.tables);
        GatherCurrent(s, acts[0], m.tables, m.records, ChangesOf(b, acts[0], s.tables));
        assert KeysOf(acts[0].operations) <= next.results.Keys;
      }
      BatchKeeps(b, declared, rest, next);
      BatchCovers(b, declared, rest, next);
      forall o | o in r.rejections ensures o in s.rejections || Ordinal(acts, o) {
        if Ordinal(rest, o) {
          var i :| 0 <= i < |rest| && rest[i].ordinal == o;
          assert acts[i + 1].ordinal == o;
        } else {
          assert o in next.rejections;
          assert o in s.rejections || acts[0].ordinal == o;
        }
      }
      forall i | 0 <= i < |acts| && acts[i].ordinal !in r.rejections
        ensures KeysOf(acts[i].operations) <= r.results.Keys
      {
        if i > 0 { assert acts[i] == rest[i - 1]; }
      }
    }
  }

  /** The mutations a batch accepts, run from the same state. */
  function Survivors(acts: seq<Act>, rejected: set<nat>): seq<Act> {
    if acts == [] then []
    else (if acts[0].ordinal in rejected then [] else [acts[0]]) + Survivors(acts[1..], rejected)
  }

  /** Batch meaning: what is committed is what the accepted mutations alone would have committed, with
      the same answers; a refused one leaves no trace in rows, stamps, heads or invalidations. */
  lemma {:induction false} OnlyAcceptedCount(b: Backend, declared: map<string, nat>, acts: seq<Act>, s: Batch,
                                             clean: Batch)
    requires RunBatch(b, declared, acts, s).Some? && Distinct(acts)
    requires clean.tables == s.tables && clean.results == s.results
    requires forall i :: 0 <= i < |acts| ==> acts[i].ordinal !in s.rejections
    ensures var r := RunBatch(b, declared, acts, s).value;
      RunBatch(b, declared, Survivors(acts, r.rejections.Keys), clean) ==
        Some(Batch(r.tables, clean.rejections, r.results))
    ensures var r := RunBatch(b, declared, acts, s).value;
      s.rejections.Keys <= r.rejections.Keys && forall o :: o in r.rejections ==> o in s.rejections || Ordinal(acts, o)
    decreases |acts|
  {
    if acts == [] {
    } else {
      var r, act, rest := RunBatch(b, declared, acts, s).value, acts[0], acts[1..];
      forall i | 0 <= i < |rest| ensures rest[i].ordinal !in s.rejections && rest[i].ordinal != act.ordinal {
        assert rest[i] == acts[i + 1];
      }
      assert Distinct(rest) by {
        forall i, j | 0 <= i < j < |rest| ensures rest[i].ordinal != rest[j].ordinal {
          assert rest[i] == acts[i + 1] && rest[j] == acts[j + 1];
        }
      }
      match Mutate(b, declared, act, s.tables) {
        case Turned(code) =>
          OnlyAcceptedCount(b, declared, rest, s.(rejections := s.rejections[act.ordinal := code]), clean);
          assert Survivors(acts, r.rejections.Keys) == Survivors(rest, r.rejections.Keys);
        case Kept(records, t) =>
          var next := s.(tables := t, results := Gather(s.results, records));
          var clean' := clean.(tables := t, results := Gather(s.results, records));
          OnlyAcceptedCount(b, declared, rest, next, clean');
          assert act.ordinal !in r.rejections;
          var left := Survivors(acts, r.rejections.Keys);
          assert left == [act] + Survivors(rest, r.rejections.Keys) && left[1..] == Survivors(rest, r.rejections.Keys);
      }
      OrdinalCons(acts);
    }
  }

  lemma OrdinalCons(acts: seq<Act>)
    requires acts != []
    ensures forall o :: Ordinal(acts, o) <==> acts[0].ordinal == o || Ordinal(acts[1..], o)
  {
    forall o ensures Ordinal(acts, o) <==> acts[0].ordinal == o || Ordinal(acts[1..], o) {
      if Ordinal(acts[1..], o) {
        var i :| 0 <= i < |acts[1..]| && acts[1..][i].ordinal == o;
        assert acts[i + 1].ordinal == o;
      }
      if Ordinal(acts, o) {
        var i :| 0 <= i < |acts| && acts[i].ordinal == o;
        assert i > 0 ==> acts[1..][i - 1].ordinal == o;
      }
    }
  }
}
