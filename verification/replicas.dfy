/** The engine's operations, the server's pulls and outside changes are steps of the protocol. */
module Replicas {
  import opened Options
  import opened Records
  import opened Queue
  import opened Enqueueing
  import opened Enacting
  import opened Schedule
  import opened Upkeep
  import opened Landings
  import opened Pages
  import opened Messages
  import opened Engines
  import Batches
  import opened Storage
  import opened Pushing
  import opened Paging
  import opened Protocol

  ghost function View(e: Engine, leaked: iset<Key>, missed: map<Key, nat>): Replica
    reads e
  {
    Replica(e.Books(), e.Now(), e.cursors, e.frozen, leaked, missed)
  }

  /** The world's schema is this client's. */
  ghost predicate Of(w: World, e: Engine) {
    w.accepts == e.accepts && w.relations == e.relations
  }

  /** A refused draft leaks nothing; an accepted one leaks exactly the records its operations, in the order
      they were applied, create and touch again. */
  method EnqueueSteps(e: Engine, draft: Draft, ghost leaked: iset<Key>, ghost missed: map<Key, nat>)
    returns (r: Option<nat>, ghost applied: seq<Op>, ghost leaked': iset<Key>)
    requires e.Valid()
    modifies e
    ensures e.Valid() && LocalStep(old(View(e, leaked, missed)), View(e, leaked', missed), applied)
    ensures r.None? ==> leaked' == leaked
    ensures forall k :: k in leaked' <==> k in leaked || HeldIn(e.Now(), k) != HeldIn(old(e.Now()), k)
  {
    ghost var h := e.Now();
    ghost var t;
    r, t := e.Enqueue(draft);
    applied := if r.Some? then Interleave(OpsOfDraft(draft), EffectsOf(t.sweeps)) else [];
    leaked' := leaked + LeakedBy(h.db, applied);
  }

  method DropSteps(e: Engine, ordinal: nat, ghost leaked: iset<Key>, ghost missed: map<Key, nat>) returns (ok: bool)
    requires e.Valid()
    modifies e
    ensures e.Valid() && LocalStep(old(View(e, leaked, missed)), View(e, leaked, missed), [])
    ensures ok <==> !SentAlready(old(e.queue), ordinal)
    ensures ok && ordinal in Ordinals(old(e.queue)) ==>
      ExtendsAll(Without(old(e.queue), Fallen(old(e.queue), {ordinal})), e.queue)
  {
    ghost var h := e.Now();
    ok := e.DropMutation(ordinal);
    NothingLeaks(h, e.Now(), leaked);
  }

  method ResolveSteps(e: Engine, name: string, ghost leaked: iset<Key>, ghost missed: map<Key, nat>)
    requires e.Valid()
    modifies e
    ensures e.Valid() && LocalStep(old(View(e, leaked, missed)), View(e, leaked, missed), [])
  {
    ghost var h := e.Now();
    e.ResolvePrerequisite(name);
    NothingLeaks(h, e.Now(), leaked);
  }

  lemma NothingLeaks(h: Holding, h': Holding, leaked: iset<Key>)
    requires SameHeld(h, h')
    ensures leaked + LeakedBy(h.db, []) == leaked
    ensures forall k :: HeldIn(h', k) == HeldIn(h, k) && !Leaks(h.db, [], k)
  {
  }

  method FreezeSteps(e: Engine, maxBytes: nat, size: (nat, map<string, nat>, seq<Act>) -> nat, ghost leaked: iset<Key>,
                     ghost missed: map<Key, nat>)
    returns (r: Option<Request>)
    requires e.Valid()
    modifies e
    ensures e.Valid()
    ensures r.Some? ==> e.frozen.Some? && r.value == Sends(e.clientId, View(e, leaked, missed))
    ensures View(e, leaked, missed) == old(View(e, leaked, missed))
            || FreezeStep(old(View(e, leaked, missed)), View(e, leaked, missed))
  {
    ghost var c := View(e, leaked, missed);
    ghost var measure := Sized(size, c.books.nextPush, e.models);
    ghost var batch;
    r, batch := e.Freeze(maxBytes, size);
    if c.declared.None? && r.Some? {
      assert Freezes(c.books, e.Books(), measure, maxBytes);
    }
  }

  /** What a receipt leaves leaked and missed is determined. */
  method ReceiptSteps(w: World, e: Engine, receipt: Receipt, ghost leaked: iset<Key>, ghost missed: map<Key, nat>)
    returns (r: Engines.Outcome, ghost leaked': iset<Key>, ghost missed': map<Key, nat>)
    requires e.Valid() && Of(w, e)
    modifies e
    ensures e.Valid() && ReceiptStep(w, e.clientId, old(View(e, leaked, missed)), View(e, leaked', missed'), receipt)
  {
    ghost var c := View(e, leaked, missed);
    r := e.Acknowledge(receipt.sequence, receipt);
    leaked', missed' := leaked, missed;
    if r.Completed? {
      leaked', missed' := AllAstray(w, c, e.Now(), receipt.records), StillMissed(w.accepts, missed, e.stamps, []);
    }
  }

  method PageSteps(w: World, e: Engine, page: Page, ghost leaked: iset<Key>, ghost missed: map<Key, nat>)
    returns (r: Engines.Applied, ghost leaked': iset<Key>, ghost missed': map<Key, nat>)
    requires e.Valid() && Of(w, e)
    modifies e
    ensures e.Valid() && PageStep(w, old(View(e, leaked, missed)), View(e, leaked', missed'), page)
  {
    ghost var c := View(e, leaked, missed);
    r := e.ApplyCurrentPage(page);
    leaked', missed' := leaked, missed;
    if r.Applied? {
      leaked' := AllAstray(w, c, e.Now(), page.changes);
      missed' := StillMissed(w.accepts, missed, e.stamps, page.changes);
    }
  }

  method SubscribeSteps(e: Engine, channel: string, subscribed: bool, ghost leaked: iset<Key>,
                        ghost missed: map<Key, nat>)
    returns (marked: bool)
    requires e.Valid()
    modifies e
    ensures e.Valid() && SubscribeStep(old(View(e, leaked, missed)), View(e, leaked, missed))
  {
    marked := e.SetChannel(channel, subscribed);
  }

  /** A served pull is a page the protocol may send. */
  method PullServes(w: World, b: Backend, owner: string, pull: Pull, t: Tables) returns (answer: PullAnswer)
    requires Batches.Lists(b) && (w.honest ==> Batches.Faithful(b)) && WellKept(t)
    ensures answer.Served? <==> Servable(b, owner, pull, t)
    ensures answer.Served? ==> ServedFrom(w, t, answer.page)
  {
    answer := ProcessPull(b, owner, pull, t);
    if answer.Served? {
      forall c | c in answer.page.cursors ensures answer.page.cursors[c].to <= Head(t, c) {
        WindowIsRange(t, c, pull.cursors[c]);
      }
    }
  }

  /** A business change made outside any push: stamps and publications, nothing read back. */
  function SettledOutside(b: Backend, t: Tables, rows: Table, changes: set<Key>, intents: seq<Intent>): Option<Tables> {
    if Unloadable(b, changes) then None else PublishIntents(b, AdvanceAll(t.(rows := rows), changes), changes, intents)
  }

  /** It is an outside step of the protocol; an honest one if it reports every record it changed. */
  lemma OutsideSteps(w: World, s: System, b: Backend, rows: Table, changes: set<Key>, intents: seq<Intent>)
    requires WellKept(s.server.tables)
    requires w.honest ==> Batches.ChangesOnly(s.server.tables, rows, changes)
    requires SettledOutside(b, s.server.tables, rows, changes, intents).Some?
    ensures var t := SettledOutside(b, s.server.tables, rows, changes, intents).value;
      ExternalStep(w, s, s.(server := s.server.(tables := t), history := Chronicled(s.history, t)))
  {
    var t1 := AdvanceAll(s.server.tables.(rows := rows), changes);
    var t2 := SettledOutside(b, s.server.tables, rows, changes, intents).value;
    ChangeKeeps(s.server.tables, rows, changes);
    Batches.IntentsKeep(b, t1, changes, intents);
    GrowsTwice(s.server.tables, t1, t2);
    if w.honest {
      forall k ensures RecordTells(t1, t2, k) {
      }
      TellsTwice(s.server.tables, t1, t2);
    }
  }
}
