/** A leak that nothing heals: the code's own steps lead from a converged client to one that shows something else
    than the server with nothing pending. */
module Leaking {
  import opened Options
  import opened Texts
  import opened Records
  import opened Cascades
  import opened Queue
  import opened Optimism
  import opened Enqueueing
  import opened Enacting
  import opened Schedule
  import opened Upkeep
  import opened Landings
  import opened Engines
  import opened Storage
  import opened Protocol
  import opened Convergence
  import opened Replicas

  /** A draft that creates a record and updates it. */
  function CreateAndUpdate(k: Key, values: Fields, patch: Fields): Draft {
    Draft("note", 1, [Op(k, Create, Some(values)), Op(k, Update, Some(patch))], [], {}, {}, {})
  }

  lemma DraftSweepsNothing(relations: seq<Relation>, db: Db, k: Key, values: Fields, patch: Fields, t: Trace)
    requires Enacts(relations, db, CreateAndUpdate(k, values, patch).operations, t)
    ensures forall i :: 0 <= i < |t.sweeps| ==> t.sweeps[i] == []
    ensures |t.sweeps| == 2 ==> EffectsOf(t.sweeps) == [[], []]
  {
    var ops := CreateAndUpdate(k, values, patch).operations;
    forall i | 0 <= i < |t.sweeps| ensures t.sweeps[i] == [] {
      assert Enacting.Enacting(relations, ops[i], t.sweeps[i], t.dbs[i], t.dbs[i + 1]);
    }
  }

  /** Over an absent record neither operation is ever stuck. */
  lemma DraftGoesThrough(relations: seq<Relation>, db: Db, k: Key, values: Fields, patch: Fields, t: Trace)
    requires At(db.main, k) == None && Enacts(relations, db, CreateAndUpdate(k, values, patch).operations, t)
    requires |t.sweeps| < 2
    ensures !Stuck(Enacting.Last(t), CreateAndUpdate(k, values, patch).operations[|t.sweeps|])
  {
    var ops := CreateAndUpdate(k, values, patch).operations;
    if |t.sweeps| == 1 {
      DraftSweepsNothing(relations, db, k, values, patch, t);
      assert Enacting.Enacting(relations, ops[0], t.sweeps[0], t.dbs[0], t.dbs[0 + 1]);
    }
  }

  /** Its before image is the row the creation gave it. */
  lemma DraftCopiesAside(relations: seq<Relation>, h: Holding, loose: set<Key>, h': Holding, loose': set<Key>, k: Key,
                         values: Fields, patch: Fields, ordinal: nat)
    requires Enqueued(relations, h, loose, h', loose', CreateAndUpdate(k, values, patch), ordinal, [[], []])
    requires h.db.queue == [] && k !in h.db.main && k !in h.db.before
    ensures |h'.db.queue| == 1 && h'.db.queue[0].ordinal == ordinal && h'.db.queue[0].push == None
    ensures HeldIn(h', k).row == Some(k.identity + values)
  {
    var create, update := Op(k, Create, Some(values)), Op(k, Update, Some(patch));
    InterleaveTwo(create, update, []);
    assert [] + [create] + [update] == [create, update];
    assert [create, update] + [] == [create, update];
    CreateThenUpdateLeaks(k, values, patch);
    TouchingSingle(create, k);
    TouchingSnoc([create], update, k);
    assert [create] + [update] == [create, update];
    assert Halfway(h.db, h'.db.(queue := []), [create, update], [], k);
    var q := h'.db.queue[0];
    assert OpsOf(q) == [create, update];
    OpsForOne(q, k);
  }

  method EnqueueDraft(e: Engine, k: Key, values: Fields, patch: Fields) returns (ordinal: nat)
    requires e.Valid() && k !in e.main
    modifies e`main, e`before, e`queue, e`nextOrdinal, e`loose
    ensures e.Valid() && Flight(e.queue) == Flight(old(e.queue))
    ensures ordinal == old(e.nextOrdinal) && e.nextOrdinal == ordinal + 1
    ensures Enqueued(e.relations, old(e.Now()), old(e.loose), e.Now(), e.loose, CreateAndUpdate(k, values, patch),
                     ordinal, [[], []])
  {
    ghost var db := e.Db();
    var draft := CreateAndUpdate(k, values, patch);
    assert !Space(draft.name[0]) && OpsOfDraft(draft) == draft.operations;
    var r;
    ghost var t;
    r, t := e.Enqueue(draft);
    if StuckDraft(e.relations, db, draft, t) { DraftGoesThrough(e.relations, db, k, values, patch, t); }
    ordinal := r.value;
    DraftSweepsNothing(e.relations, db, k, values, patch, t);
  }

  /** The draft leaks its record. */
  method DraftLeaks(e: Engine, k: Key, values: Fields, patch: Fields, ghost leaked: iset<Key>,
                    ghost missed: map<Key, nat>)
    returns (ordinal: nat, ghost applied: seq<Op>, ghost leaked': iset<Key>)
    requires e.Valid() && e.queue == [] && k !in e.main
    modifies e
    ensures e.Valid() && LocalStep(old(View(e, leaked, missed)), View(e, leaked', missed), applied)
    ensures |e.queue| == 1 && e.queue[0].ordinal == ordinal && e.queue[0].push == None
    ensures HeldIn(e.Now(), k).row == Some(k.identity + values)
  {
    e.NothingPending();
    ghost var h, loose := e.Now(), e.loose;
    ordinal := EnqueueDraft(e, k, values, patch);
    DraftCopiesAside(e.relations, h, loose, e.Now(), e.loose, k, values, patch, ordinal);
    applied := Interleave(OpsOfDraft(CreateAndUpdate(k, values, patch)), [[], []]);
    leaked' := leaked + LeakedBy(h.db, applied);
  }

  lemma NothingLeft(queue: seq<Queued>, queue': seq<Queued>, ordinal: nat)
    requires |queue| == 1 && queue[0].ordinal == ordinal
    requires ExtendsAll(Without(queue, Fallen(queue, {ordinal})), queue')
    ensures queue' == []
  {
    FallenGrows(queue, {ordinal});
    assert queue[1..] == [] && Without(queue[1..], Fallen(queue, {ordinal})) == [];
  }

  /** A draft that creates and updates an absent record, then dropped before it was ever sent: nothing is pending
      again, no stamp and no cursor moved, and the client shows the record its draft created. */
  method LeakOutlivesDraft(e: Engine, k: Key, values: Fields, patch: Fields, ghost leaked: iset<Key>,
                           ghost missed: map<Key, nat>)
    returns (ghost middle: Replica, ghost applied: seq<Op>, ghost leaked': iset<Key>)
    requires e.Valid() && e.queue == [] && k !in e.main
    modifies e
    ensures LocalStep(old(View(e, leaked, missed)), middle, applied)
    ensures e.Valid() && LocalStep(middle, View(e, leaked', missed), [])
    ensures e.queue == [] && At(e.main, k) == Some(k.identity + values)
  {
    var ordinal;
    ordinal, applied, leaked' := DraftLeaks(e, k, values, patch, leaked, missed);
    middle := View(e, leaked', missed);
    ghost var queue := e.queue;
    var ok := DropSteps(e, ordinal, leaked', missed);
    NothingLeft(queue, e.queue, ordinal);
    e.NothingPending();
  }

  lemma RunOn(w: World, states: seq<System>, s: System)
    requires Run(w, states) && Next(w, states[|states| - 1], s)
    ensures Run(w, states + [s])
  {
    var longer := states + [s];
    forall i | 0 <= i < |longer| - 1 ensures Protocol.Follows(w, longer, i) {
      if i < |states| - 1 { assert Protocol.Follows(w, states, i); }
    }
  }

  lemma RunOnTwice(w: World, states: seq<System>, a: System, b: System)
    requires Run(w, states) && Next(w, states[|states| - 1], a) && Next(w, a, b)
    ensures Run(w, states + [a, b])
  {
    RunOn(w, states, a);
    RunOn(w, states + [a], b);
    assert states + [a] + [b] == states + [a, b];
  }

  function Moved(s: System, id: string, c: Replica): System {
    s.(clients := s.clients[id := c])
  }

  lemma MovedTwice(s: System, id: string, c: Replica, c': Replica)
    ensures Moved(Moved(s, id, c), id, c') == Moved(s, id, c')
  {
  }

  lemma LocalNext(w: World, s: System, id: string, c: Replica, applied: seq<Op>)
    requires id in s.clients && LocalStep(s.clients[id], c, applied)
    ensures Next(w, s, Moved(s, id, c))
  {
    assert ClientMoves(w, s, Moved(s, id, c), id);
  }

  /** What every client is after: at the head of the channel with nothing pending and nothing missed it shows the
      server's row. */
  ghost predicate ShowsServer(s: System, id: string, channel: string, row: Invalidation)
    requires AtHead(s, id, channel, row)
  {
    var c := s.clients[id];
    c.books.queue == [] && row.key !in c.missed ==> At(c.holding.db.main, row.key) == At(s.server.tables.rows, row.key)
  }

  /** It fails: any run that brings a client to the head of a record the server deleted goes on, by a draft and
      its dropping, to one where the client shows the record, without a way back until a newer stamp arrives. */
  lemma LeakedStaysAtHead(w: World, states: seq<System>, id: string, channel: string, row: Invalidation,
                          middle: Replica, applied: seq<Op>, last: Replica)
    requires Run(w, states) && AtHead(states[|states| - 1], id, channel, row)
    requires var s := states[|states| - 1];
      && row.key !in s.clients[id].missed && At(s.server.tables.rows, row.key) == None
      && LocalStep(s.clients[id], middle, applied) && LocalStep(middle, last, [])
    requires last.books.queue == [] && At(last.holding.db.main, row.key) != None
    ensures var s := states[|states| - 1];
      var s1, s2 := Moved(s, id, middle), Moved(s, id, last);
      && Run(w, states + [s1, s2])
      && AtHead(s2, id, channel, row) && !ShowsServer(s2, id, channel, row)
  {
    var s := states[|states| - 1];
    TwoLocalSteps(w, states, id, middle, applied, last);
    assert AtHead(Moved(s, id, last), id, channel, row);
  }

  lemma TwoLocalSteps(w: World, states: seq<System>, id: string, middle: Replica, applied: seq<Op>, last: Replica)
    requires Run(w, states) && id in states[|states| - 1].clients
    requires LocalStep(states[|states| - 1].clients[id], middle, applied) && LocalStep(middle, last, [])
    ensures var s := states[|states| - 1]; Run(w, states + [Moved(s, id, middle), Moved(s, id, last)])
  {
    var s := states[|states| - 1];
    LocalNext(w, s, id, middle, applied);
    LocalNext(w, Moved(s, id, middle), id, last, []);
    MovedTwice(s, id, middle, last);
    RunOnTwice(w, states, Moved(s, id, middle), Moved(s, id, last));
  }
}
