/** When the server accepts a mutation, and what it answers otherwise. */
module Verdicts {
  import opened Options
  import opened Texts
  import opened Records
  import opened Queue
  import opened Optimism
  import opened Authorities
  import opened Storage
  import opened Messages
  import opened Pushing
  import opened Batches
  import opened Servers

  /** The record's model has a loader, and the client declared a contract of it that is still retained. */
  predicate Served(b: Backend, declared: map<string, nat>, k: Key) {
    k.model in b.loaders && k.model in declared && b.contract(k.model, declared[k.model])
  }

  /** The state answers the record: none, or one the declared contract accepts. */
  predicate Valid(b: Backend, version: nat, k: Key, state: Row) {
    state.Some? ==> b.accepts(k.model, version, k, state.value)
  }

  /** The records of one model are read in one call, each with a valid answer. */
  predicate ReadsModel(b: Backend, version: nat, model: string, keys: seq<Key>, rows: Table) {
    var answer := b.load(model, version, Group(keys, model), rows);
    && answer.Rows? && |answer.states| == |Group(keys, model)|
    && forall i :: 0 <= i < |answer.states| ==> Valid(b, version, Group(keys, model)[i], answer.states[i])
  }

  lemma {:induction false} UndeclaredNone(b: Backend, declared: map<string, nat>, keys: seq<Key>)
    ensures Undeclared(b, declared, keys).None? <==> forall k :: k in keys ==> Served(b, declared, k)
  {
    if keys != [] {
      UndeclaredNone(b, declared, keys[1..]);
      assert keys[0] in keys && forall k :: k in keys <==> k == keys[0] || k in keys[1..];
    }
  }

  lemma {:induction false} AnswersGood(b: Backend, version: nat, keys: seq<Key>, states: seq<Row>, t: Tables)
    requires |states| == |keys|
    ensures Answers(b, version, keys, states, t).Good? <==>
      forall i :: 0 <= i < |keys| ==> Valid(b, version, keys[i], states[i])
    ensures Answers(b, version, keys, states, t).Bad? ==>
      Answers(b, version, keys, states, t).code == "loader.invalid"
  {
    if keys != [] {
      AnswersGood(b, version, keys[1..], states[1..], t);
      if forall i :: 0 <= i < |keys[1..]| ==> Valid(b, version, keys[1..][i], states[1..][i]) {
        forall i | 0 < i < |keys| ensures Valid(b, version, keys[i], states[i]) {
          assert keys[1..][i - 1] == keys[i] && states[1..][i - 1] == states[i];
        }
      }
      if forall i :: 0 <= i < |keys| ==> Valid(b, version, keys[i], states[i]) {
        forall i | 0 <= i < |keys[1..]| ensures Valid(b, version, keys[1..][i], states[1..][i]) {
          assert keys[1..][i] == keys[i + 1] && states[1..][i] == states[i + 1];
        }
      }
    }
  }

  /** Why a model could not be read. */
  predicate Unread(b: Backend, version: nat, model: string, keys: seq<Key>, rows: Table, code: string) {
    match b.load(model, version, Group(keys, model), rows)
    case Unwilling(own) => code == own
    case Thrown => code == "loader.failed"
    case Rows(_) => !ReadsModel(b, version, model, keys, rows) && code == "loader.invalid"
  }

  lemma GroupRead(b: Backend, version: nat, model: string, keys: seq<Key>, t: Tables)
    ensures LoadGroup(b, version, model, Group(keys, model), t).Good? <==> ReadsModel(b, version, model, keys, t.rows)
    ensures var r := LoadGroup(b, version, model, Group(keys, model), t);
      r.Bad? ==> Unread(b, version, model, keys, t.rows, r.code)
  {
    match b.load(model, version, Group(keys, model), t.rows)
    case Rows(states) =>
      if |states| == |Group(keys, model)| { AnswersGood(b, version, Group(keys, model), states, t); }
    case _ =>
  }

  lemma {:induction false} AllRead(b: Backend, declared: map<string, nat>, models: seq<string>, keys: seq<Key>,
                                   t: Tables)
    requires forall m :: m in models ==> m in declared
    ensures LoadAll(b, declared, models, keys, t).Good? <==>
      forall m :: m in models ==> ReadsModel(b, declared[m], m, keys, t.rows)
    ensures var r := LoadAll(b, declared, models, keys, t);
      r.Bad? ==> exists m :: m in models && Unread(b, declared[m], m, keys, t.rows, r.code)
  {
    if models != [] {
      GroupRead(b, declared[models[0]], models[0], keys, t);
      AllRead(b, declared, models[1..], keys, t);
      if LoadAll(b, declared, models, keys, t).Bad? && LoadGroup(b, declared[models[0]], models[0],
                                                                 Group(keys, models[0]), t).Good? {
        var code := LoadAll(b, declared, models[1..], keys, t).code;
        var m :| m in models[1..] && Unread(b, declared[m], m, keys, t.rows, code);
        assert m in models;
      }
    }
  }

  lemma {:induction false} ModelsAre(keys: seq<Key>, m: string)
    ensures m in Models(keys) <==> exists k :: k in keys && k.model == m
  {
    if keys != [] {
      ModelsAre(keys[1..], m);
      if k :| k in keys && k.model == m { assert k == keys[0] || k in keys[1..]; }
      if k :| k in keys[1..] && k.model == m { assert k in keys; }
    }
  }

  /** The publication names a channel, and records something loads. */
  predicate CanPublish(b: Backend, intent: Intent) {
    && intent.channel != ""
    && (intent.records.Some? ==> forall k :: k in intent.records.value ==> k.model in b.loaders)
  }

  predicate Publishable(b: Backend, intents: seq<Intent>) {
    forall i :: 0 <= i < |intents| ==> CanPublish(b, intents[i])
  }

  /** Every changed record is served and every changed model read. */
  ghost predicate ReadsBack(b: Backend, declared: map<string, nat>, changes: set<Key>, rows: Table) {
    && (forall k :: k in changes ==> Served(b, declared, k))
    && forall k :: k in changes ==>
         k.model in declared && ReadsModel(b, declared[k.model], k.model, b.order(changes), rows)
  }

  lemma PublishableExactly(b: Backend, t: Tables, changes: set<Key>, intents: seq<Intent>)
    requires WellKept(t)
    ensures PublishIntents(b, t, changes, intents).Some? <==> Publishable(b, intents)
  {
    IntentsKeep(b, t, changes, intents);
    forall i | 0 <= i < |intents| ensures BadIntent(b, intents[i]) <==> !CanPublish(b, intents[i]) {
    }
  }

  lemma ReadsBackExactly(b: Backend, declared: map<string, nat>, changes: set<Key>, t: Tables)
    requires Lists(b) && Undeclared(b, declared, b.order(changes)).None?
    ensures var keys := b.order(changes);
      && (forall m :: m in Models(keys) ==> m in declared)
      && (LoadAll(b, declared, Models(keys), keys, t).Good? <==> ReadsBack(b, declared, changes, t.rows))
  {
    var keys := b.order(changes);
    UndeclaredNot(b, declared, keys);
    UndeclaredNone(b, declared, keys);
    assert forall k :: k in keys <==> k in changes;
    AllRead(b, declared, Models(keys), keys, t);
    forall m { ModelsAre(keys, m); }
    if LoadAll(b, declared, Models(keys), keys, t).Good? {
      forall k | k in changes
        ensures k.model in declared && ReadsModel(b, declared[k.model], k.model, keys, t.rows)
      {
        assert k in keys && k.model in Models(keys);
      }
    }
    if ReadsBack(b, declared, changes, t.rows) {
      forall m | m in Models(keys) ensures ReadsModel(b, declared[m], m, keys, t.rows) {
        var k :| k in keys && k.model == m;
      }
    }
  }

  /** The uploaded records and those the handler names. */
  function ChangedBy(act: Act, named: set<Key>): set<Key> {
    KeysOf(act.operations) + named
  }

  /** A mutation is accepted exactly when it can be decoded, its handler settles it naming only loadable records, every
      changed record is served and reads back valid, and every publication can be carried out. */
  lemma KeptExactly(b: Backend, declared: map<string, nat>, act: Act, t: Tables)
    requires Lists(b) && WellKept(t)
    ensures Mutate(b, declared, act, t).Kept? <==>
      && b.refuses(act).None?
      && var h := b.handle(act, t.rows);
         && h.Settled? && (forall k :: k in h.changes ==> k.model in b.loaders)
         && ReadsBack(b, declared, ChangedBy(act, h.changes), h.rows)
         && Publishable(b, h.publications)
  {
    if b.refuses(act).None? && b.handle(act, t.rows).Settled? {
      var h := b.handle(act, t.rows);
      var changes := ChangedBy(act, h.changes);
      var keys, t1 := b.order(changes), AdvanceAll(t.(rows := h.rows), changes);
      assert Unloadable(b, h.changes) <==> !forall k :: k in h.changes ==> k.model in b.loaders;
      UndeclaredNone(b, declared, keys);
      assert forall k :: k in keys <==> k in changes;
      ChangeKeeps(t, h.rows, changes);
      PublishableExactly(b, t1, changes, h.publications);
      if Undeclared(b, declared, keys).None? { ReadsBackExactly(b, declared, changes, t1); }
    }
  }

  /** Why a mutation was turned down, with the code the client is told. */
  ghost predicate TurnedFor(b: Backend, declared: map<string, nat>, act: Act, t: Tables, code: string) {
    match b.refuses(act)
    case Some(own) => code == own
    case None =>
      match b.handle(act, t.rows)
      case Broken => false
      case Declined(_, own) => code == own
      case Crashed(_) => code == "handler.failed"
      case Settled(rows, named, _) =>
        var changes := ChangedBy(act, named);
        || (code == "model_version_unsupported"
            && exists k :: k in changes && k.model in b.loaders && !Served(b, declared, k))
        || ((forall k :: k in changes ==> Served(b, declared, k))
            && exists k :: k in changes && k.model in declared
                           && Unread(b, declared[k.model], k.model, b.order(changes), rows, code))
  }

  lemma {:induction false} UndeclaredTurns(b: Backend, declared: map<string, nat>, keys: seq<Key>)
    requires Undeclared(b, declared, keys).Some? && Undeclared(b, declared, keys).value.Turned?
    ensures Undeclared(b, declared, keys).value.code == "model_version_unsupported"
    ensures exists k :: k in keys && k.model in b.loaders && !Served(b, declared, k)
  {
    if keys[0].model in b.loaders && Served(b, declared, keys[0]) {
      UndeclaredTurns(b, declared, keys[1..]);
      var k :| k in keys[1..] && k.model in b.loaders && !Served(b, declared, k);
      assert k in keys;
    } else {
      assert keys[0] in keys;
    }
  }

  lemma TurnedWhy(b: Backend, declared: map<string, nat>, act: Act, t: Tables)
    requires Lists(b) && WellKept(t) && Mutate(b, declared, act, t).Turned?
    ensures TurnedFor(b, declared, act, t, Mutate(b, declared, act, t).code)
  {
    if b.refuses(act).None? && b.handle(act, t.rows).Settled? {
      var h, code := b.handle(act, t.rows), Mutate(b, declared, act, t).code;
      var changes := ChangedBy(act, h.changes);
      var keys, t1 := b.order(changes), AdvanceAll(t.(rows := h.rows), changes);
      assert forall k :: k in keys <==> k in changes;
      if Undeclared(b, declared, keys).Some? {
        UndeclaredTurns(b, declared, keys);
        var k :| k in keys && k.model in b.loaders && !Served(b, declared, k);
        assert k in changes;
      } else {
        UndeclaredNone(b, declared, keys);
        UndeclaredNot(b, declared, keys);
        AllRead(b, declared, Models(keys), keys, t1);
        var m :| m in Models(keys) && Unread(b, declared[m], m, keys, t1.rows, code);
        ModelsAre(keys, m);
        var k :| k in keys && k.model == m;
        assert k in changes;
      }
    }
  }

  /** What the batch has become of when the `i`th mutation's turn comes. */
  ghost predicate TurnedAt(b: Backend, declared: map<string, nat>, acts: seq<Act>, s: Batch, i: nat, code: string)
    requires i < |acts|
  {
    var before := RunBatch(b, declared, acts[..i], s);
    before.Some? && Mutate(b, declared, acts[i], before.value.tables) == Turned(code)
  }

  lemma {:induction false} RejectionsStay(b: Backend, declared: map<string, nat>, acts: seq<Act>, s: Batch, o: nat)
    requires RunBatch(b, declared, acts, s).Some? && forall i :: 0 <= i < |acts| ==> acts[i].ordinal != o
    ensures var r := RunBatch(b, declared, acts, s).value;
      (o in r.rejections <==> o in s.rejections) && (o in s.rejections ==> r.rejections[o] == s.rejections[o])
    decreases |acts|
  {
    if acts != [] {
      forall i | 0 <= i < |acts[1..]| ensures acts[1..][i].ordinal != o { assert acts[1..][i] == acts[i + 1]; }
      match Mutate(b, declared, acts[0], s.tables) {
        case Turned(code) =>
          RejectionsStay(b, declared, acts[1..], s.(rejections := s.rejections[acts[0].ordinal := code]), o);
        case Kept(records, t) =>
          RejectionsStay(b, declared, acts[1..], s.(tables := t, results := Gather(s.results, records)), o);
      }
    }
  }

  /** The receipt of a batch rejects exactly the mutations turned down when their turn came, with their codes. */
  lemma {:induction false} BatchRejects(b: Backend, declared: map<string, nat>, acts: seq<Act>, s: Batch, i: nat)
    requires RunBatch(b, declared, acts, s).Some? && Distinct(acts) && i < |acts| && acts[i].ordinal !in s.rejections
    ensures var r := RunBatch(b, declared, acts, s).value;
      forall code ::
        (acts[i].ordinal in r.rejections && r.rejections[acts[i].ordinal] == code) <==>
        TurnedAt(b, declared, acts, s, i, code)
    decreases |acts|
  {
    var rest := acts[1..];
    assert Distinct(rest) by {
      forall m, n | 0 <= m < n < |rest| ensures rest[m].ordinal != rest[n].ordinal {
        assert rest[m] == acts[m + 1] && rest[n] == acts[n + 1];
      }
    }
    var next := match Mutate(b, declared, acts[0], s.tables)
      case Turned(code) => s.(rejections := s.rejections[acts[0].ordinal := code])
      case Kept(records, t) => s.(tables := t, results := Gather(s.results, records));
    if i == 0 {
      forall m | 0 <= m < |rest| ensures rest[m].ordinal != acts[0].ordinal { assert rest[m] == acts[m + 1]; }
      RejectionsStay(b, declared, rest, next, acts[0].ordinal);
      assert acts[..0] == [];
    } else {
      assert acts[..i][1..] == rest[..i - 1] && rest[i - 1] == acts[i];
      assert RunBatch(b, declared, acts[..i], s) == RunBatch(b, declared, rest[..i - 1], next);
      BatchRejects(b, declared, rest, next, i - 1);
      forall code ensures TurnedAt(b, declared, acts, s, i, code) <==> TurnedAt(b, declared, rest, next, i - 1, code) {
      }
    }
  }

  /** A delivery is answered exactly when it comes from the client's owner and repeats the last batch or carries the
      next one, which no infrastructure error ends. */
  lemma AnsweredExactly(b: Backend, owner: string, request: Request, s: State)
    ensures Delivered(b, owner, request, s).0.Answered? <==>
      && !Blank(owner)
      && if request.clientId in s.clients then
           var claim := s.clients[request.clientId];
           && claim.owner == owner
           && ((request.sequence == claim.sequence && claim.receipt.Some?)
               || (request.sequence == claim.sequence + 1
                   && RunBatch(b, request.models, request.acts, Batch(s.tables, map[], map[])).Some?))
         else
           request.sequence == 1 && RunBatch(b, request.models, request.acts, Batch(s.tables, map[], map[])).Some?
  {
  }

  /** Otherwise the client is told why. */
  lemma ErredWhy(b: Backend, owner: string, request: Request, s: State)
    requires Delivered(b, owner, request, s).0.Erred?
    ensures var last := if request.clientId in s.clients then s.clients[request.clientId].sequence else 0;
      match Delivered(b, owner, request, s).0.why
      case PrincipalInvalid => Blank(owner)
      case OwnerMismatch => request.clientId in s.clients && s.clients[request.clientId].owner != owner
      case ReceiptMissing => request.sequence == last
      case Overlap => request.sequence < last
      case Gap => request.sequence > last + 1
      case Infrastructure => request.sequence == last + 1
  {
  }
}
