/** The client's optimistic engine over its tables. */
module Engines {
  import opened Options
  import opened Texts
  import opened Records
  import opened Graphs
  import opened Cascades
  import opened Queue
  import opened Optimism
  import opened Enqueueing
  import opened Enacting
  import opened Authorities
  import opened Schedule
  import opened Writing
  import opened Deriving
  import opened Upkeep
  import opened Extending
  import opened Looseness
  import opened Landings
  import opened Foldings
  import opened Pages
  import opened Messages

  /** What the application asks to enqueue. Sequence dependencies and prerequisites come resolved
      from the schema's policies. */
  datatype Draft = Draft(name: string, version: nat, operations: seq<Op>, companion: seq<Op>,
                         lifecycle: set<nat>, sequence: set<nat>, prerequisites: set<string>)

  datatype Refusal = AnotherBatch | AnotherClient | UnknownBatch | NotInFlight | ForeignRejection | MissingAuthority

  datatype Outcome = Refused(why: Refusal) | Stale | Completed(reports: seq<Report>)

  lemma DraftAwaits(relations: seq<Relation>, db: Db, q: Queued)
    requires Derived(relations, db, q.wire) <= q.lifecycle
    ensures AwaitsCreates(db.queue, q)
  {
    forall i, k | 0 <= i < |db.queue| && Creates(db.queue[i], k) && Touching(q.wire, k) != []
      ensures db.queue[i].ordinal in q.lifecycle
    {
      DerivedHasCreates(relations, db, q.wire, i, k);
    }
  }

  lemma DraftJoins(relations: seq<Relation>, db: Db, b: Books, q: Queued)
    requires Steady(b) && db.queue == b.queue && q.ordinal == b.nextOrdinal && q.push.None?
    requires Deps(q) <= Ordinals(b.queue)
    requires Derived(relations, db, q.wire) <= q.lifecycle
    ensures Steady(b.(queue := b.queue + [q], nextOrdinal := q.ordinal + 1)) && Flight(b.queue + [q]) == Flight(b.queue)
  {
    DraftAwaits(relations, db, q);
    SteadyAppends(b, q);
  }

  function Drafted(draft: Draft, ordinal: nat, effects: seq<Op>, lifecycle: set<nat>): Queued {
    Queued(ordinal, draft.name, draft.version, None, false, draft.operations, draft.companion, effects,
           lifecycle, draft.sequence - lifecycle, draft.prerequisites)
  }

  lemma EffectLanded(queue: seq<Queued>, i: nat, effect: Op)
    requires i < |queue| && effect.kind == Delete
    ensures var q := queue[i].(effects := queue[i].effects + [effect]);
      && Touching(OpsOf(q), effect.key) != []
      && forall j :: j != effect.key ==> Touching(OpsOf(q), j) == Touching(OpsOf(queue[i]), j)
  {
    var q := queue[i].(effects := queue[i].effects + [effect]);
    assert OpsOf(q) == OpsOf(queue[i]) + [effect];
    forall j {
      TouchingSnoc(OpsOf(queue[i]), effect, j);
    }
  }

  lemma EffectExtends(queue: seq<Queued>, i: nat, effect: Op)
    requires i < |queue| && effect.kind == Delete
    ensures var q := queue[i].(effects := queue[i].effects + [effect]);
      ExtendsAll(queue, queue[i := q]) && effect in queue[i := q][i].effects
  {
    var q := queue[i].(effects := queue[i].effects + [effect]);
    assert q.effects[|q.effects| - 1] == effect;
  }

  lemma EffectsStay(queue: seq<Queued>, queue': seq<Queued>, i: nat)
    requires ExtendsAll(queue, queue') && i < |queue|
    ensures forall effect :: effect in queue[i].effects ==> effect in queue'[i].effects
  {
    assert Extends(queue[i], queue'[i]);
  }

  predicate Covers(q: Queued, effects: seq<Op>, k: Key) {
    Touching(effects, k) != [] || Op(k, Delete, None) in q.effects
  }

  predicate CoversAll(q: Queued, effects: seq<Op>, children: seq<Key>) {
    forall k :: k in children ==> Covers(q, effects, k)
  }

  lemma CoversStay(queue: seq<Queued>, queue': seq<Queued>, i: nat, effects: seq<Op>)
    requires ExtendsAll(queue, queue') && i < |queue|
    ensures forall k :: Covers(queue[i], effects, k) ==> Covers(queue'[i], effects, k)
  {
    EffectsStay(queue, queue', i);
  }

  predicate Names(reports: seq<Report>, k: Key) {
    exists i :: 0 <= i < |reports| && reports[i].key == k
  }

  predicate FailsReplay(db: Db, k: Key) {
    Replay(At(db.before, k), OpsFor(db.queue, k)).Failed?
  }

  /** After some rebuilds: those records show their replay or truth, all others are as they were. */
  ghost predicate RebuiltSome(db: Db, db': Db, done: set<Key>) {
    && (forall k :: OpsFor(db'.queue, k) == OpsFor(db.queue, k))
    && (forall k :: At(db'.main, k) == if k in done then Rebuilt(db, k) else At(db.main, k))
    && (forall k :: At(db'.before, k) == if k in done && !Dirty(db.queue, k) then None else At(db.before, k))
  }

  lemma RebuiltOneMore(db: Db, db': Db, db'': Db, done: set<Key>, k: Key)
    requires RebuiltSome(db, db', done) && k !in done
    requires db''.main == RebuildOne(db', k).main && db''.before == RebuildOne(db', k).before
    requires forall j :: OpsFor(db''.queue, j) == OpsFor(db'.queue, j)
    ensures RebuiltSome(db, db'', done + {k})
    ensures FailsReplay(db', k) == FailsReplay(db, k)
  {
  }

  /** Exactly the rebuilt records whose operations do not replay are reported. */
  ghost predicate Diverged(db: Db, held: set<Key>, reports: seq<Report>) {
    && (forall i :: 0 <= i < |reports| ==> reports[i].kind == Diverging)
    && forall k :: Names(reports, k) <==> k in held && FailsReplay(db, k)
  }

  /** The database once held records were rebuilt, and the walk over queued deletions from there. */
  datatype Aftermath = Aftermath(middle: Db, lists: seq<seq<Key>>)

  ghost predicate Settling(relations: seq<Relation>, db: Db, held: set<Key>, walk: Aftermath, db': Db) {
    var queued := walk.middle.queue;
    && RebuiltSome(db, walk.middle, held)
    && Walk(relations, queued, Stops(queued, |queued|), walk.lists, walk.middle) == Some(db')
  }

  /** Everything a delivery reports: first what its records call for, then which of the held records do
      not replay any more. */
  ghost predicate ReportedAll(staged: seq<Report>, db: Db, held: set<Key>, reports: seq<Report>) {
    |staged| <= |reports| && reports[..|staged|] == staged && Diverged(db, held, reports[|staged|..])
  }

  /** No report of a rebuild is a conflict. */
  lemma StagedConflicts(staged: seq<Report>, db: Db, held: set<Key>, reports: seq<Report>, k: Key)
    requires ReportedAll(staged, db, held, reports)
    ensures Conflicts(reports, k) <==> Conflicts(staged, k)
  {
    forall i | 0 <= i < |staged| ensures reports[i] == staged[i] {
      assert reports[..|staged|][i] == staged[i];
    }
    forall i | |staged| <= i < |reports| ensures reports[i].kind == Diverging {
      assert reports[|staged|..][i - |staged|] == reports[i];
    }
  }

  lemma NamesSnoc(reports: seq<Report>, reports': seq<Report>, k: Key, named: bool)
    requires reports' == reports
             || (|reports'| > 0 && reports'[..|reports'| - 1] == reports && reports'[|reports'| - 1].key == k)
    requires named <==> reports' != reports
    ensures forall j :: Names(reports', j) <==> Names(reports, j) || (named && j == k)
  {
    forall j ensures Names(reports', j) <==> Names(reports, j) || (named && j == k) {
      if Names(reports, j) {
        var i :| 0 <= i < |reports| && reports[i].key == j;
        assert reports'[i].key == j;
      }
      if Names(reports', j) {
        var i :| 0 <= i < |reports'| && reports'[i].key == j;
        assert i < |reports| ==> reports[i] == reports'[i];
      }
    }
  }

  function OpsOfDraft(draft: Draft): seq<Op> {
    draft.operations + draft.companion
  }

  predicate Presentable(draft: Draft, queue: seq<Queued>) {
    && !Blank(draft.name) && draft.version != 0 && draft.operations != []
    && draft.lifecycle + draft.sequence <= Ordinals(queue)
  }

  ghost predicate StuckDraft(relations: seq<Relation>, db: Db, draft: Draft, t: Trace) {
    var ops := OpsOfDraft(draft);
    Enacts(relations, db, ops, t) && |t.sweeps| < |ops| && Stuck(Last(t), ops[|t.sweeps|])
  }

  /** What an enqueue leaves: the operations applied one by one, the mutation at the end of the queue,
      the truth of every record kept unless it leaks, stamps untouched. */
  ghost predicate Enqueued(relations: seq<Relation>, h: Holding, loose: set<Key>, h': Holding, loose': set<Key>,
                           draft: Draft, ordinal: nat, cascades: seq<seq<Op>>)
  {
    var ops := draft.operations + draft.companion;
    var applied := h'.db.(queue := h.db.queue);
    && |cascades| == |ops|
    && Enqueuing(h.db, applied, Interleave(ops, cascades), [])
    && loose' == loose + MisorderedKeys(ops, cascades)
    && h'.db.queue == h.db.queue + [Drafted(draft, ordinal, Flatten(cascades),
                                            draft.lifecycle + Derived(relations, applied, draft.operations))]
    && h'.stamps == h.stamps && h'.stray == h.stray
    && forall k :: (HeldIn(h', k) == HeldIn(h, k) <==> !Leaks(h.db, Interleave(ops, cascades), k))
  }

  /** The encoded size of a request that carries these mutations. */
  function Sized(size: (nat, map<string, nat>, seq<Act>) -> nat, push: nat, models: map<string, nat>): seq<Act> -> nat {
    acts => size(push, models, acts)
  }

  /** Every visible row is as the operations on it, in the order they were applied, leave it. */
  ghost predicate Writes(main: Table, applied: seq<Op>, main': Table) {
    forall k :: Shows(At(main, k), Touching(applied, k), At(main', k))
  }

  /** The draft joined the end of the queue, unsent, with everything it came with. */
  ghost predicate Joined(queue: seq<Queued>, draft: Draft, ordinal: nat, effects: seq<Op>, queue': seq<Queued>) {
    && |queue'| == |queue| + 1 && queue'[..|queue|] == queue
    && var q := queue'[|queue|];
       && q.ordinal == ordinal && q.name == draft.name && q.version == draft.version
       && q.push.None? && !q.diverged
       && q.wire == draft.operations && q.companion == draft.companion && q.effects == effects
       && q.prerequisites == draft.prerequisites
       && draft.lifecycle <= q.lifecycle && q.sequence == draft.sequence - q.lifecycle
  }

  /** The draft waits for exactly what it names, and for every queued mutation that creates a record it operates on
      or refers to, or deletes one it creates. */
  ghost predicate Awaits(relations: seq<Relation>, db: Db, draft: Draft, queue': seq<Queued>)
    requires |queue'| == |db.queue| + 1
  {
    forall o :: o in queue'[|db.queue|].lifecycle <==>
      o in draft.lifecycle
      || exists i: nat :: i < |db.queue| && db.queue[i].ordinal == o
                          && PrecedesSome(relations, db, draft.operations, i)
  }

  lemma EnqueuedWrites(relations: seq<Relation>, h: Holding, loose: set<Key>, h': Holding, loose': set<Key>,
                       draft: Draft, ordinal: nat, cascades: seq<seq<Op>>)
    requires Enqueued(relations, h, loose, h', loose', draft, ordinal, cascades)
    ensures Writes(h.db.main, Interleave(OpsOfDraft(draft), cascades), h'.db.main)
  {
    var applied := Interleave(OpsOfDraft(draft), cascades);
    forall k ensures Shows(At(h.db.main, k), Touching(applied, k), At(h'.db.main, k)) {
      assert Halfway(h.db, h'.db.(queue := h.db.queue), applied, [], k);
      ReplayShows(At(h.db.main, k), Touching(applied, k));
    }
  }

  lemma EnqueuedJoins(relations: seq<Relation>, h: Holding, loose: set<Key>, h': Holding, loose': set<Key>,
                      draft: Draft, ordinal: nat, cascades: seq<seq<Op>>)
    requires Enqueued(relations, h, loose, h', loose', draft, ordinal, cascades)
    ensures Joined(h.db.queue, draft, ordinal, Flatten(cascades), h'.db.queue)
  {
  }

  lemma EnqueuedAwaits(relations: seq<Relation>, h: Holding, loose: set<Key>, h': Holding, loose': set<Key>,
                       draft: Draft, ordinal: nat, cascades: seq<seq<Op>>)
    requires Enqueued(relations, h, loose, h', loose', draft, ordinal, cascades)
    ensures Awaits(relations, h'.db.(queue := h.db.queue), draft, h'.db.queue)
  {
    forall o { DerivedExactly(relations, h'.db.(queue := h.db.queue), draft.operations, o); }
  }

  /** If what creates a record the draft operates on or refers to is rejected, or falls with something that is, so
      does the draft. */
  lemma CreatorDooms(relations: seq<Relation>, h: Holding, loose: set<Key>, h': Holding, loose': set<Key>,
                     draft: Draft, ordinal: nat, cascades: seq<seq<Op>>, ids: set<nat>, i: nat, op: Op, p: Key)
    requires Enqueued(relations, h, loose, h', loose', draft, ordinal, cascades) && Ordered(h.db.queue, ordinal)
    requires i < |h.db.queue| && Creates(h.db.queue[i], p) && op in draft.operations
    requires op.key == p || LeadsTo(relations, RowOf(h'.db.(queue := h.db.queue), op.key), op.key, p)
    requires Doomed(h'.db.queue, ids, h.db.queue[i].ordinal)
    ensures Doomed(h'.db.queue, ids, ordinal)
  {
    var db := h'.db.(queue := h.db.queue);
    assert Precedes(relations, db, db.queue[i], op);
    assert PrecedesSome(relations, db, draft.operations, i);
    DerivedExactly(relations, db, draft.operations, h.db.queue[i].ordinal);
    DoomedBy(h'.db.queue, ids, |h.db.queue|, h.db.queue[i].ordinal);
  }

  lemma EnqueueLands(relations: seq<Relation>, h: Holding, loose: set<Key>, db: Db, draft: Draft, q: Queued,
                     cascades: seq<seq<Op>>)
    requires Consistent(h.db, loose, {}) && h.stray == {} && |cascades| == |draft.operations + draft.companion|
    requires q == Drafted(draft, q.ordinal, Flatten(cascades),
                          draft.lifecycle + Derived(relations, db, draft.operations))
    requires AllDeletes(q.effects) && Enqueuing(h.db, db, Interleave(draft.operations + draft.companion, cascades), [])
    ensures var loose' := loose + MisorderedKeys(draft.operations + draft.companion, cascades);
      var h' := h.(db := db.(queue := db.queue + [q]));
      Consistent(h'.db, loose', {}) && Enqueued(relations, h, loose, h', loose', draft, q.ordinal, cascades)
  {
    var ops := draft.operations + draft.companion;
    var h' := h.(db := db.(queue := db.queue + [q]));
    EnqueueKeeps(h.db, db, loose, q, ops, cascades);
    assert h'.db.(queue := h.db.queue) == db;
    forall k ensures HeldIn(h', k) == HeldIn(h, k) <==> !Leaks(h.db, Interleave(ops, cascades), k) {
      EnqueueTruth(h.db, db, loose, q, ops, cascades, k);
    }
  }

  lemma DraftLands(relations: seq<Relation>, h: Holding, loose: set<Key>, db: Db, b: Books, draft: Draft, q: Queued,
                   cascades: seq<seq<Op>>)
    requires Consistent(h.db, loose, {}) && h.stray == {} && |cascades| == |draft.operations + draft.companion|
    requires q == Drafted(draft, b.nextOrdinal, Flatten(cascades),
                          draft.lifecycle + Derived(relations, db, draft.operations))
    requires AllDeletes(q.effects) && Enqueuing(h.db, db, Interleave(draft.operations + draft.companion, cascades), [])
    requires Steady(b) && db.queue == b.queue && draft.lifecycle + draft.sequence <= Ordinals(b.queue)
    ensures var misordered := MisorderedKeys(draft.operations + draft.companion, cascades);
      var h' := h.(db := db.(queue := b.queue + [q]));
      && Consistent(h'.db, loose + misordered, {})
      && Enqueued(relations, h, loose, h', loose + misordered, draft, q.ordinal, cascades)
    ensures Steady(b.(queue := b.queue + [q], nextOrdinal := q.ordinal + 1)) && Flight(b.queue + [q]) == Flight(b.queue)
  {
    EnqueueLands(relations, h, loose, db, draft, q, cascades);
    DerivedQueued(relations, db, draft.operations);
    DraftJoins(relations, db, b, q);
  }

  datatype Applied = Gapped | Covered | Applied(reports: seq<Report>)

  /** A record that may be rebuilt: it has operations, or lost them. */
  predicate Waits(queue: seq<Queued>, stray: set<Key>, k: Key) {
    Dirty(queue, k) || k in stray
  }

  /** Deleting mutations keeps who waits for a rebuild: a record that lost its operations is stray. */
  lemma StillWaits(queue: seq<Queued>, ids: set<nat>, stray: set<Key>, k: Key)
    requires Waits(queue, stray, k)
    ensures Waits(Without(queue, ids), stray + TouchedKeys(queue, ids), k)
  {
    if k !in TouchedKeys(queue, ids) { WithoutUntouched(queue, ids, k); }
  }

  function CodeOf(codes: map<nat, string>, ordinal: nat): string {
    if ordinal in codes then codes[ordinal] else "dependency.rejected"
  }

  function Dropping(ordinal: nat): (codes: map<nat, string>)
    ensures codes.Keys == {ordinal} && codes[ordinal] == "dropped"
  {
    map[ordinal := "dropped"]
  }

  /** The rejection table with the given mutations added. */
  function Recorded(rejections: map<nat, string>, gone: set<nat>, codes: map<nat, string>): (r: map<nat, string>)
    ensures r.Keys == rejections.Keys + gone
  {
    rejections + map o | o in gone :: CodeOf(codes, o)
  }

  /** The rejection table afterwards: what fell is recorded with its code, or as depending on what was rejected. */
  ghost predicate Recording(queue: seq<Queued>, rejections: map<nat, string>, codes: map<nat, string>,
                            rejections': map<nat, string>)
  {
    forall o ::
      if Doomed(queue, codes.Keys, o)
      then o in rejections' && rejections'[o] == if o in codes then codes[o] else "dependency.rejected"
      else (o in rejections' <==> o in rejections) && (o in rejections ==> rejections'[o] == rejections[o])
  }

  lemma RecordsCodes(queue: seq<Queued>, rejections: map<nat, string>, codes: map<nat, string>)
    requires DependsBack(queue)
    ensures Recording(queue, rejections, codes, Recorded(rejections, Fallen(queue, codes.Keys), codes))
  {
    forall o { FallenExactly(queue, codes.Keys, o); }
  }

  /** Why a receipt is not applied; none when it completes the push in flight. */
  function Judge(clientId: string, completed: nat, queue: seq<Queued>, sequence: nat,
                 receipt: Receipt): Option<Outcome>
  {
    if receipt.sequence != sequence then Some(Refused(AnotherBatch))
    else if receipt.clientId != clientId then Some(Refused(AnotherClient))
    else if sequence <= completed then Some(Stale)
    else if !Flying(queue) then Some(Refused(UnknownBatch))
    else if sequence != completed + 1 then Some(Refused(NotInFlight))
    else if !(receipt.rejections.Keys <= InPush(queue, sequence)) then Some(Refused(ForeignRejection))
    else if !(WireKeys(AcceptedBy(queue, receipt)) <= CoveredKeys(receipt.records)) then Some(Refused(MissingAuthority))
    else None
  }

  /** The mutations a receipt accepts. */
  function Taken(queue: seq<Queued>, receipt: Receipt): set<nat> {
    InPush(queue, receipt.sequence) - receipt.rejections.Keys
  }

  lemma TouchedWithout(queue: seq<Queued>, gone: set<nat>, took: set<nat>)
    ensures TouchedKeys(Without(queue, gone), took) <= TouchedKeys(queue, took)
  {
    var r := Without(queue, gone);
    forall k | k in TouchedKeys(r, took) ensures k in TouchedKeys(queue, took) {
      var n :| 0 <= n < |r| && r[n].ordinal in took && Touching(OpsOf(r[n]), k) != [];
      var i := Origin(queue, gone, n);
      assert OpsOf(r[n]) == OpsOf(queue[i]);
    }
  }

  lemma TouchedFewer(queue: seq<Queued>, some: set<nat>, all: set<nat>)
    requires some <= all
    ensures TouchedKeys(queue, some) <= TouchedKeys(queue, all)
  {
    forall k | k in TouchedKeys(queue, some) ensures k in TouchedKeys(queue, all) {
      var n :| 0 <= n < |queue| && queue[n].ordinal in some && Touching(OpsOf(queue[n]), k) != [];
      assert queue[n].ordinal in all;
    }
  }

  /** The books once a receipt completed the push in flight. */
  ghost function Completing(b: Books, receipt: Receipt): Books {
    var took, gone := Taken(b.queue, receipt), Fallen(b.queue, receipt.rejections.Keys);
    b.(queue := Without(b.queue, gone + took), completed := b.completed + 1, frozen := false,
       accepted := b.accepted + took, rejected := b.rejected + gone)
  }

  lemma CompletingIsSteady(b: Books, clientId: string, receipt: Receipt)
    requires Steady(b) && Judge(clientId, b.completed, b.queue, receipt.sequence, receipt) == None
    ensures Steady(Completing(b, receipt)) && Fallen(b.queue, receipt.rejections.Keys) <= Ordinals(b.queue)
    ensures Fallen(b.queue, receipt.rejections.Keys) !! Taken(b.queue, receipt)
  {
    SteadyReceipt(b, receipt.rejections.Keys);
  }

  /** The mutations a receipt removes: those it accepts, and the rejected ones with what falls with them. */
  ghost function Removed(queue: seq<Queued>, receipt: Receipt): set<nat> {
    Fallen(queue, receipt.rejections.Keys) + Taken(queue, receipt)
  }

  /** Everything an applied receipt leaves to be rebuilt: what the batch and what fell touched, what its
      companions settled, what its records reached. */
  ghost function Disturbed(relations: seq<Relation>, accepts: (Key, Fields) -> bool, h: Holding,
                           receipt: Receipt): set<Key>
  {
    var h1 := Accepting(relations, h, receipt);
    TouchedKeys(h.db.queue, InPush(h.db.queue, receipt.sequence)) + h1.stray
    + HitAll(relations, accepts, h1, receipt.records)
    + TouchedKeys(h.db.queue, Fallen(h.db.queue, receipt.rejections.Keys))
  }

  /** What the removed mutations touched is rebuilt. */
  lemma DisturbedCovers(relations: seq<Relation>, accepts: (Key, Fields) -> bool, h: Holding, receipt: Receipt)
    ensures TouchedKeys(h.db.queue, Removed(h.db.queue, receipt)) <= Disturbed(relations, accepts, h, receipt)
  {
    var queue, took, gone := h.db.queue, Taken(h.db.queue, receipt), Fallen(h.db.queue, receipt.rejections.Keys);
    TouchedFewer(queue, took, InPush(queue, receipt.sequence));
    forall k | k in TouchedKeys(queue, gone + took) ensures k in TouchedKeys(queue, gone) + TouchedKeys(queue, took) {
      var i :| 0 <= i < |queue| && queue[i].ordinal in gone + took && Touching(OpsOf(queue[i]), k) != [];
      assert queue[i].ordinal in gone || queue[i].ordinal in took;
    }
  }

  function AcceptedBy(queue: seq<Queued>, receipt: Receipt): seq<Queued> {
    Only(queue, Taken(queue, receipt))
  }

  /** The accepted companions settled. */
  ghost function Accepting(relations: seq<Relation>, h: Holding, receipt: Receipt): Holding {
    var accepted := AcceptedBy(h.db.queue, receipt);
    FoldEach(relations, h, accepted, WireKeys(accepted), CoveredKeys(receipt.records))
  }

  /** Then the records landed. */
  ghost function Receiving(relations: seq<Relation>, accepts: (Key, Fields) -> bool, h: Holding,
                           receipt: Receipt): Holding
  {
    LandAll(relations, accepts, Accepting(relations, h, receipt), receipt.records)
  }

  /** What an applied receipt did, to the letter: every base and stamp is where settling the accepted
      companions and landing the records leaves it, and the reports are those the records call for,
      then exactly the disturbed records whose remaining operations do not replay. */
  ghost predicate ReceiptLanded(relations: seq<Relation>, accepts: (Key, Fields) -> bool, h: Holding, h': Holding,
                                receipt: Receipt, reports: seq<Report>)
  {
    && SameHeld(Receiving(relations, accepts, h, receipt), h')
    && ReportedAll(AllReported(relations, accepts, Accepting(relations, h, receipt), receipt.records),
                   Drop(Receiving(relations, accepts, h, receipt).db, Removed(h.db.queue, receipt)),
                   Disturbed(relations, accepts, h, receipt), reports)
  }

  /** A receipt staged and settled and its batch removed, before anything is rebuilt. */
  ghost predicate BatchReceived(relations: seq<Relation>, accepts: (Key, Fields) -> bool, h: Holding, h': Holding,
                                receipt: Receipt, held: set<Key>, staged: seq<Report>)
  {
    && SameHeld(Receiving(relations, accepts, h, receipt), h')
    && h'.db == Drop(Receiving(relations, accepts, h, receipt).db, Removed(h.db.queue, receipt))
    && held == Disturbed(relations, accepts, h, receipt)
    && staged == AllReported(relations, accepts, Accepting(relations, h, receipt), receipt.records)
  }

  lemma ReceiptLands(relations: seq<Relation>, accepts: (Key, Fields) -> bool, h: Holding, h1: Holding, h2: Holding,
                     receipt: Receipt, held: set<Key>, staged: seq<Report>, diverged: seq<Report>)
    requires BatchReceived(relations, accepts, h, h1, receipt, held, staged)
    requires SameHeld(h1, h2) && Diverged(h1.db, held, diverged)
    ensures ReceiptLanded(relations, accepts, h, h2, receipt, staged + diverged)
  {
    SameHeldTwice(Receiving(relations, accepts, h, receipt), h1, h2);
    ReportsJoin(staged, h1.db, held, diverged);
  }

  lemma SameHeldTwice(h: Holding, h1: Holding, h2: Holding)
    requires SameHeld(h, h1) && SameHeld(h1, h2)
    ensures SameHeld(h, h2)
  {
    forall k ensures HeldIn(h2, k) == HeldIn(h, k) {
      assert HeldIn(h2, k) == HeldIn(h1, k);
    }
  }

  lemma ReportsJoin(staged: seq<Report>, db: Db, held: set<Key>, more: seq<Report>)
    requires Diverged(db, held, more)
    ensures ReportedAll(staged, db, held, staged + more)
  {
    assert (staged + more)[..|staged|] == staged && (staged + more)[|staged|..] == more;
  }

  class Engine {
    const clientId: string
    const models: map<string, nat>
    const relations: seq<Relation>
    /** Whether the schema accepts a delivered state. */
    const accepts: (Key, Fields) -> bool

    var main: Table
    var before: Table
    var queue: seq<Queued>
    var stamps: map<Key, nat>
    var cursors: map<string, nat>
    var nextOrdinal: nat
    var nextPush: nat
    var completed: nat
    var frozen: Option<map<string, nat>>
    var rejections: map<nat, string>
    /** Records whose visible row may differ from their replay until they are rebuilt. */
    ghost var loose: set<Key>
    /** Records that lost their operations and wait to be rebuilt. */
    ghost var stray: set<Key>
    /** Mutations a receipt completed. */
    ghost var accepted: set<nat>

    ghost function Db(): Db
      reads this`main, this`before, this`queue
    {
      Optimism.Db(main, before, queue)
    }

    ghost function Truth(k: Key): Row
      reads this`main, this`before, this`queue, this`stray
    {
      Base(Db(), stray, k)
    }

    ghost function Held(k: Key): Version
      reads this`main, this`before, this`queue, this`stray, this`stamps
    {
      Version(Truth(k), Stamp(stamps, k))
    }

    ghost function Now(): Holding
      reads this`main, this`before, this`queue, this`stray, this`stamps
    {
      Holding(Db(), stray, stamps)
    }

    ghost predicate Working()
      reads this`main, this`before, this`queue, this`loose, this`stray
    {
      Consistent(Db(), loose, stray)
    }

    ghost function Books(): Books
      reads this`queue, this`nextOrdinal, this`nextPush, this`completed, this`frozen, this`accepted, this`rejections
    {
      Upkeep.Books(queue, nextOrdinal, nextPush, completed, frozen.Some?, accepted, rejections.Keys)
    }

    ghost predicate Idle()
      reads this`main, this`before, this`queue, this`loose, this`stray
    {
      stray == {} && Working()
    }

    /** Between transactions nothing is stray. */
    ghost predicate Valid()
      reads this
    {
      Idle() && Steady(Books()) && AllHaveEffects(queue, loose)
    }

    /** The push in flight as it is encoded from the queue and the frozen declaration. */
    function Encoded(): (r: Option<Request>)
      reads this`queue, this`completed, this`frozen
    {
      if frozen.None? then None else Some(Request(clientId, completed + 1, frozen.value, Flight(queue)))
    }

    constructor (clientId: string, models: map<string, nat>, relations: seq<Relation>, accepts: (Key, Fields) -> bool)
      ensures Valid() && queue == [] && main == map[] && loose == {} && completed == 0
    {
      this.clientId, this.models, this.relations, this.accepts := clientId, models, relations, accepts;
      main, before, queue, stamps, cursors, rejections := map[], map[], [], map[], map[], map[];
      nextOrdinal, nextPush, completed, frozen := 1, 1, 0, None;
      loose, stray, accepted := {}, {}, {};
    }

    method HoldTruth(k: Key)
      modifies this`before
      ensures Db() == HeldAside(old(Db()), k)
    {
      if !Dirty(queue, k) && k !in before && k in main {
        before := before[k := main[k]];
      }
    }

    method ApplyMain(op: Op) returns (ok: bool)
      modifies this`main
      ensures ok <==> Apply(At(old(main), op.key), op).Done?
      ensures main == if ok then Put(old(main), op.key, Apply(At(old(main), op.key), op).row) else old(main)
    {
      match Apply(At(main, op.key), op) {
        case Failed => ok := false;
        case Done(row) => main := Put(main, op.key, row); ok := true;
      }
    }

    /** Hold and delete every cascade descendant of a deleted record. */
    method CascadeOver(op: Op, ghost db0: Db, ghost applied: seq<Op>)
      returns (effects: seq<Op>, ghost children: seq<Key>)
      requires Enqueuing(db0, Db(), applied, [op])
      modifies this`main, this`before
      ensures NoDuplicates(children)
      ensures forall k :: k in children <==> k != op.key && Under(relations, Rows(old(main), old(before)), op.key, k)
      ensures effects == Deletions(children) && Db() == Swept(old(Db()), children)
      ensures Enqueuing(db0, Db(), applied + effects, [op])
    {
      var found := Descendants(relations, Rows(main, before), op.key);
      children := found;
      ghost var db := Db();
      effects := [];
      var i := 0;
      assert applied + [] == applied;
      while i < |found|
        invariant 0 <= i <= |found| && effects == Deletions(found[..i]) && Db() == Swept(db, found[..i])
        invariant Enqueuing(db0, Db(), applied + effects, [op])
      {
        assert found[i] in found;
        effects := CascadeOne(found[i], effects, op, db0, applied);
        assert found[..i + 1] == found[..i] + [found[i]] && found[..i + 1][..i] == found[..i];
        i := i + 1;
      }
      assert found[..i] == found;
    }

    method CascadeOne(child: Key, effects: seq<Op>, ghost op: Op, ghost db0: Db, ghost applied: seq<Op>)
      returns (effects': seq<Op>)
      requires Enqueuing(db0, Db(), applied + effects, [op]) && child != op.key
      modifies this`main, this`before
      ensures effects' == effects + [Op(child, Delete, None)] && Db() == HoldDelete(old(Db()), child)
      ensures Enqueuing(db0, Db(), applied + effects', [op])
    {
      var effect := Op(child, Delete, None);
      TouchingSnoc([], op, child);
      assert [] + [op] == [op];
      HoldStep(db0, Db(), applied + effects, [op], effect);
      HoldTruth(child);
      ghost var held := Db();
      var _ := ApplyMain(effect);
      ApplyStep(db0, held, main, applied + effects, [op], effect);
      assert applied + effects + [effect] == applied + (effects + [effect]);
      effects' := effects + [effect];
    }

    /** One operation of an enqueue: hold, cascade, apply. */
    method EnqueueOne(op: Op, ghost db0: Db, ghost applied: seq<Op>)
      returns (ok: bool, effects: seq<Op>, ghost children: seq<Key>)
      requires Enqueuing(db0, Db(), applied, [])
      modifies this`main, this`before
      ensures Sweeps(relations, old(Db()), op, children) && effects == Deletions(children)
      ensures ok <==> Enacted(old(Db()), op, children).Some?
      ensures ok ==> Some(Db()) == Enacted(old(Db()), op, children)
      ensures ok ==> Enqueuing(db0, Db(), applied + effects + [op], [])
    {
      HoldStep(db0, Db(), applied, [], op);
      assert [] + [op] == [op];
      HoldTruth(op.key);
      effects, children := [], [];
      assert applied + [] == applied;
      if op.kind == Delete {
        effects, children := CascadeOver(op, db0, applied);
      }
      ghost var cascaded := Db();
      ok := ApplyMain(op);
      if ok {
        ApplyStep(db0, cascaded, main, applied + effects, [], op);
      }
    }

    method ApplyAll(ops: seq<Op>, ghost db0: Db) returns (ok: bool, effects: seq<Op>, ghost t: Trace)
      requires db0 == Db() && Enqueuing(db0, Db(), [], [])
      modifies this`main, this`before
      ensures Enacts(relations, db0, ops, t)
      ensures !ok ==> |t.sweeps| < |ops| && Stuck(Last(t), ops[|t.sweeps|])
      ensures ok ==>
        |t.sweeps| == |ops| && Db() == Last(t) && effects == Flatten(EffectsOf(t.sweeps)) && AllDeletes(effects)
      ensures ok ==> Enqueuing(db0, Db(), Interleave(ops, EffectsOf(t.sweeps)), [])
    {
      effects, t := [], Trace([], [db0]);
      var i := 0;
      assert ops[..0] == [];
      while i < |ops|
        invariant 0 <= i <= |ops| && |t.sweeps| == i && Enacts(relations, db0, ops, t) && Db() == Last(t)
        invariant effects == Flatten(EffectsOf(t.sweeps)) && AllDeletes(effects)
        invariant Enqueuing(db0, Db(), Interleave(ops[..i], EffectsOf(t.sweeps)), [])
      {
        if !WellFormed(ops[i]) {
          return false, effects, t;
        }
        var applied;
        applied, effects, t := ApplyNext(ops, i, effects, db0, t);
        if !applied {
          return false, effects, t;
        }
        i := i + 1;
      }
      assert ops[..i] == ops;
      ok := true;
    }

    method ApplyNext(ops: seq<Op>, i: nat, effects: seq<Op>, ghost db0: Db, ghost t: Trace)
      returns (ok: bool, effects': seq<Op>, ghost t': Trace)
      requires i < |ops| && |t.sweeps| == i && Enacts(relations, db0, ops, t) && Db() == Last(t) && WellFormed(ops[i])
      requires effects == Flatten(EffectsOf(t.sweeps)) && AllDeletes(effects)
      requires Enqueuing(db0, Db(), Interleave(ops[..i], EffectsOf(t.sweeps)), [])
      modifies this`main, this`before
      ensures !ok ==> t' == t && Stuck(Last(t), ops[i])
      ensures ok ==> |t'.sweeps| == i + 1 && Enacts(relations, db0, ops, t') && Db() == Last(t')
      ensures ok ==> effects' == Flatten(EffectsOf(t'.sweeps)) && AllDeletes(effects')
      ensures ok ==> Enqueuing(db0, Db(), Interleave(ops[..i + 1], EffectsOf(t'.sweeps)), [])
    {
      ghost var children;
      var own;
      ok, own, children := EnqueueOne(ops[i], db0, Interleave(ops[..i], EffectsOf(t.sweeps)));
      effects', t' := effects + own, t;
      StuckExactly(relations, Last(t), ops[i], children);
      if ok {
        t' := Trace(t.sweeps + [children], t.dbs + [Db()]);
        EnactsOn(relations, db0, ops, t, children, Db());
        InterleaveSnoc(ops[..i], EffectsOf(t.sweeps), ops[i], own);
        assert ops[..i + 1] == ops[..i] + [ops[i]];
      }
    }

    method Awaited(op: Op) returns (found: set<nat>)
      ensures found == WaitsFor(relations, Db(), op)
    {
      var row := if At(main, op.key).Some? then At(main, op.key)
                 else if Dirty(queue, op.key) then At(before, op.key)
                 else None;
      assert row == Seen(Db(), op.key);
      found := {};
      var p := 0;
      while p < |queue|
        invariant 0 <= p <= |queue|
        invariant forall o :: o in found <==>
          exists j :: 0 <= j < p && NeedsOne(relations, row, op, queue[j]) && queue[j].ordinal == o
      {
        if NeedsOne(relations, row, op, queue[p]) {
          found := found + {queue[p].ordinal};
        }
        p := p + 1;
      }
    }

    /** The lifecycle dependencies of wire operations, found by walking the queue. */
    method Derive(operations: seq<Op>) returns (lifecycle: set<nat>)
      ensures lifecycle == Derived(relations, Db(), operations)
    {
      lifecycle := {};
      var i := 0;
      assert operations[0..] == operations;
      while i < |operations|
        invariant 0 <= i <= |operations|
        invariant Derived(relations, Db(), operations) == lifecycle + Derived(relations, Db(), operations[i..])
      {
        var op := operations[i];
        assert operations[i..][1..] == operations[i + 1..];
        var found := Awaited(op);
        lifecycle := lifecycle + found;
        i := i + 1;
      }
    }

    /** Enqueue in a savepoint: on refusal nothing is left behind. A draft is refused when it is invalid,
        names a dependency that is not queued, or gets stuck at one of its operations. */
    method Enqueue(draft: Draft) returns (r: Option<nat>, ghost t: Trace)
      requires Valid()
      modifies this`main, this`before, this`queue, this`nextOrdinal, this`loose
      ensures Valid() && Flight(queue) == Flight(old(queue))
      ensures r.None? ==> Now() == old(Now()) && nextOrdinal == old(nextOrdinal) && loose == old(loose)
      ensures r.None? ==> !Presentable(draft, old(queue)) || StuckDraft(relations, old(Db()), draft, t)
      ensures r.Some? ==> Presentable(draft, old(queue)) && r.value == old(nextOrdinal) && nextOrdinal == r.value + 1
      ensures r.Some? ==> Enacts(relations, old(Db()), OpsOfDraft(draft), t) && |t.sweeps| == |OpsOfDraft(draft)|
      ensures r.Some? ==> Last(t) == Optimism.Db(main, before, old(queue))
      ensures r.Some? ==> Enqueued(relations, old(Now()), old(loose), Now(), loose, draft, r.value, EffectsOf(t.sweeps))
      ensures r.Some? ==> Writes(old(main), Interleave(OpsOfDraft(draft), EffectsOf(t.sweeps)), main)
      ensures r.Some? ==> Joined(old(queue), draft, r.value, Flatten(EffectsOf(t.sweeps)), queue)
      ensures r.Some? ==> Awaits(relations, Optimism.Db(main, before, old(queue)), draft, queue)
    {
      t := Trace([], [Db()]);
      if Blank(draft.name) || draft.version == 0 || draft.operations == [] {
        return None, t;
      }
      if !(draft.lifecycle + draft.sequence <= Ordinals(queue)) {
        return None, t;
      }
      var main0, before0 := main, before;
      ghost var h, loose0 := Now(), loose;
      EnqueuingStart(Db(), loose);
      var ok, effects;
      ok, effects, t := ApplyAll(OpsOfDraft(draft), Db());
      if !ok {
        main, before := main0, before0;
        return None, t;
      }
      r := Insert(draft, effects, h, EffectsOf(t.sweeps));
      EnqueuedWrites(relations, h, loose0, Now(), loose, draft, r.value, EffectsOf(t.sweeps));
      EnqueuedJoins(relations, h, loose0, Now(), loose, draft, r.value, EffectsOf(t.sweeps));
      EnqueuedAwaits(relations, h, loose0, Now(), loose, draft, r.value, EffectsOf(t.sweeps));
    }

    /** Derive the dependencies of an applied draft and store it. */
    method Insert(draft: Draft, effects: seq<Op>, ghost h: Holding, ghost cascades: seq<seq<Op>>)
      returns (r: Option<nat>)
      requires stray == {} && Consistent(h.db, loose, {}) && Steady(Books()) && h.stray == {} && h.stamps == stamps
      requires |cascades| == |draft.operations + draft.companion| && effects == Flatten(cascades) && AllDeletes(effects)
      requires Enqueuing(h.db, Db(), Interleave(draft.operations + draft.companion, cascades), [])
      requires draft.lifecycle + draft.sequence <= Ordinals(queue) && AllHaveEffects(queue, loose)
      modifies this`queue, this`nextOrdinal, this`loose
      ensures Valid() && Flight(queue) == Flight(old(queue))
      ensures r == Some(old(nextOrdinal)) && nextOrdinal == old(nextOrdinal) + 1
      ensures Enqueued(relations, h, old(loose), Now(), loose, draft, old(nextOrdinal), cascades)
    {
      var derived := Derive(draft.operations);
      var q := Drafted(draft, nextOrdinal, effects, draft.lifecycle + derived);
      DraftLands(relations, h, loose, Db(), Books(), draft, q, cascades);
      EffectsAppend(queue, q, loose, draft.operations + draft.companion, cascades);
      Append(q, MisorderedKeys(draft.operations + draft.companion, cascades));
      r := Some(q.ordinal);
    }

    /** Store a mutation that keeps the books steady and the rows consistent. */
    method Append(q: Queued, ghost misordered: set<Key>)
      requires Steady(Books().(queue := queue + [q], nextOrdinal := nextOrdinal + 1))
      requires Flight(queue + [q]) == Flight(queue)
      requires stray == {} && Consistent(Db().(queue := queue + [q]), loose + misordered, {})
      requires AllHaveEffects(queue + [q], loose + misordered)
      modifies this`queue, this`nextOrdinal, this`loose
      ensures Valid() && Flight(queue) == Flight(old(queue))
      ensures Now() == old(Now()).(db := old(Db()).(queue := old(queue) + [q]))
      ensures nextOrdinal == old(nextOrdinal) + 1 && loose == old(loose) + misordered
    {
      queue := queue + [q];
      loose := loose + misordered;
      nextOrdinal := nextOrdinal + 1;
    }

    /** Replay operations over a row; on a failure, the mutation whose operation failed. */
    method ReplayOps(truth: Row, ops: seq<Op>, owners: seq<nat>) returns (row: Row, failed: Option<nat>)
      requires |owners| == |ops|
      ensures failed == Failing(truth, ops, owners)
      ensures failed.None? ==> Replay(truth, ops) == Done(row)
    {
      row, failed := truth, None;
      var i := 0;
      assert ops[0..] == ops && owners[0..] == owners;
      while i < |ops|
        invariant 0 <= i <= |ops|
        invariant Failing(truth, ops, owners) == Failing(row, ops[i..], owners[i..])
        invariant Replay(truth, ops) == Replay(row, ops[i..])
      {
        assert ops[i..][0] == ops[i] && ops[i..][1..] == ops[i + 1..];
        assert owners[i..][0] == owners[i] && owners[i..][1..] == owners[i + 1..];
        match Apply(row, ops[i]) {
          case Failed => return row, Some(owners[i]);
          case Done(next) => row := next;
        }
        i := i + 1;
      }
    }

    /** Replay one record's operations over its held truth. A failed replay shows the truth and marks
        the mutation whose operation failed. */
    method Rebuild(k: Key) returns (failed: Option<nat>)
      requires Working() && Waits(queue, stray, k)
      modifies this`main, this`before, this`queue, this`loose, this`stray
      ensures Working() && loose == old(loose) - {k} && stray == old(stray) - {k}
      ensures Db() == Remade(old(Db()), k) && failed == FailingFor(old(Db()), k)
      ensures ExtendsAll(old(queue), queue)
      ensures forall j :: Truth(j) == old(Truth(j)) && OpsFor(queue, j) == OpsFor(old(queue), j)
      ensures RebuiltAs(old(Db()), k, failed, At(main, k)) && forall j :: j != k ==> At(main, j) == At(old(main), j)
    {
      ReplaysAs(Db(), k);
      var truth := At(before, k);
      var ops := OpsFor(queue, k);
      var row;
      row, failed := ReplayOps(truth, ops, Owners(queue, k));
      RebuildKeeps(Db(), loose, stray, k);
      main := Put(main, k, if failed.Some? then truth else row);
      if ops == [] {
        before := Put(before, k, None);
      }
      loose, stray := loose - {k}, stray - {k};
      if failed.Some? {
        MarkedSame(failed.value);
        MarkedExtends(queue, failed.value);
        queue := Marked(queue, failed.value);
      }
    }

    lemma MarkedSame(ordinal: nat)
      requires Working()
      ensures forall j :: OpsFor(Marked(queue, ordinal), j) == OpsFor(queue, j)
      ensures Consistent(Db().(queue := Marked(queue, ordinal)), loose, stray)
      ensures forall j :: Base(Db().(queue := Marked(queue, ordinal)), stray, j) == Truth(j)
    {
      forall j { SameOpsEach(queue, Marked(queue, ordinal), j); }
      SameOperations(Db(), loose, stray, Marked(queue, ordinal));
    }

    /** Every base is where it was. */
    ghost predicate SameTruth(h: Holding)
      reads this`main, this`before, this`queue, this`stray
    {
      forall k :: Truth(k) == HeldIn(h, k).row
    }

    /** Store a delete effect on a descendant that appeared, over its truth. */
    method AddEffect(i: nat, child: Key)
      requires Idle() && i < |queue|
      modifies this`before, this`queue, this`loose
      ensures Idle() && Dirty(queue, child) && loose == old(loose) + {child}
      ensures Db() == HeldAside(old(Db()), child).(queue := Effected(old(queue), i, child))
      ensures forall j :: Truth(j) == old(Truth(j))
    {
      var effect := Op(child, Delete, None);
      var q := queue[i].(effects := queue[i].effects + [effect]);
      EffectLanded(queue, i, effect);
      EffectOps(queue, i, q, child);
      EffectKeeps(Db(), loose, child, queue[i := q]);
      HoldTruth(child);
      queue := queue[i := q];
      loose := loose + {child};
    }

    /** Extend one queued delete to a descendant that appeared. */
    method ExtendEffect(i: nat, child: Key)
      requires Idle() && i < |queue|
      modifies this`main, this`before, this`queue, this`loose, this`stray
      ensures Idle() && loose <= old(loose) && ExtendsAll(old(queue), queue)
      ensures Db() == Remade(HeldAside(old(Db()), child).(queue := Effected(old(queue), i, child)), child)
      ensures Op(child, Delete, None) in queue[i].effects
      ensures forall j :: Truth(j) == old(Truth(j))
    {
      ghost var queue0 := queue;
      AddEffect(i, child);
      ghost var queue1 := queue;
      EffectExtends(queue0, i, Op(child, Delete, None));
      var _ := Rebuild(child);
      EffectsStay(queue1, queue, i);
      ExtendsTwice(queue0, queue1, queue);
    }

    method ExtendChild(i: nat, child: Key, effects: seq<Op>)
      requires Idle() && i < |queue|
      modifies this`main, this`before, this`queue, this`loose, this`stray
      ensures Idle() && loose <= old(loose) && ExtendsAll(old(queue), queue)
      ensures Db() == Extended(old(Db()), i, child, effects) && Covers(queue[i], effects, child)
      ensures forall j :: Truth(j) == old(Truth(j))
    {
      if Touching(effects, child) == [] {
        ExtendEffect(i, child);
      } else {
        ExtendsSelf(queue);
      }
    }

    method ExtendChildren(i: nat, children: seq<Key>, effects: seq<Op>)
      requires Idle() && i < |queue|
      modifies this`main, this`before, this`queue, this`loose, this`stray
      ensures Idle() && loose <= old(loose) && ExtendsAll(old(queue), queue)
      ensures Db() == ExtendedEach(old(Db()), i, children, effects)
      ensures CoversAll(queue[i], effects, children)
      ensures SameTruth(old(Now()))
    {
      ghost var h := Now();
      ExtendsSelf(queue);
      var n := 0;
      while n < |children|
        invariant 0 <= n <= |children|
        invariant Idle() && loose <= old(loose) && ExtendsAll(h.db.queue, queue)
        invariant Db() == ExtendedEach(h.db, i, children[..n], effects) && CoversAll(queue[i], effects, children[..n])
        invariant SameTruth(h)
      {
        ExtendNext(i, children, n, effects, h);
        n := n + 1;
      }
      assert children[..n] == children;
    }

    method ExtendNext(i: nat, children: seq<Key>, n: nat, effects: seq<Op>, ghost h: Holding)
      requires Idle() && i < |queue| && n < |children| && ExtendsAll(h.db.queue, queue) && SameTruth(h)
      requires Db() == ExtendedEach(h.db, i, children[..n], effects) && CoversAll(queue[i], effects, children[..n])
      modifies this`main, this`before, this`queue, this`loose, this`stray
      ensures Idle() && loose <= old(loose) && ExtendsAll(h.db.queue, queue) && SameTruth(h)
      ensures Db() == ExtendedEach(h.db, i, children[..n + 1], effects)
      ensures CoversAll(queue[i], effects, children[..n + 1])
    {
      ghost var queue1 := queue;
      ExtendChild(i, children[n], effects);
      ExtendsTwice(h.db.queue, queue1, queue);
      CoversStay(queue1, queue, i, effects);
      assert children[..n + 1] == children[..n] + [children[n]] && children[..n + 1][..n] == children[..n];
    }

    /** Extend one queued delete to everything under the deleted record, but not to what has an effect of
        that mutation already. */
    method ExtendDelete(queued: seq<Queued>, i: nat, parent: Key) returns (ghost children: seq<Key>)
      requires Idle() && i < |queued| == |queue|
      modifies this`main, this`before, this`queue, this`loose, this`stray
      ensures Idle() && loose <= old(loose) && ExtendsAll(old(queue), queue)
      ensures Lists(relations, old(Db()), parent, children)
      ensures Db() == ExtendedEach(old(Db()), i, children, queued[i].effects)
      ensures CoversAll(queue[i], queued[i].effects, children)
      ensures SameTruth(old(Now()))
    {
      var found := Descendants(relations, Rows(main, before), parent);
      ExtendChildren(i, found, queued[i].effects);
      children := found;
    }

    /** Extend queued deletes to descendants that appeared after they were queued. The effects looked
        at are those stored when the walk began. */
    method RefreshPending() returns (ghost lists: seq<seq<Key>>)
      requires Idle()
      modifies this`main, this`before, this`queue, this`loose, this`stray
      ensures Undisturbed(old(Now()), old(loose))
      ensures Walk(relations, old(queue), Stops(old(queue), |old(queue)|), lists, old(Db())) == Some(Db())
    {
      ExtendsSelf(queue);
      lists := RefreshQueued(queue, Now(), loose);
    }

    /** Only queued deletes were extended: no base moved. */
    ghost predicate Undisturbed(h: Holding, loose0: set<Key>)
      reads this`main, this`before, this`queue, this`loose, this`stray
    {
      Idle() && loose <= loose0 && ExtendsAll(h.db.queue, queue) && SameTruth(h)
    }

    method RefreshQueued(queued: seq<Queued>, ghost h: Holding, ghost loose0: set<Key>)
      returns (ghost lists: seq<seq<Key>>)
      requires Undisturbed(h, loose0) && h.db.queue == queued && Db() == h.db
      modifies this`main, this`before, this`queue, this`loose, this`stray
      ensures Undisturbed(h, loose0) && Walk(relations, queued, Stops(queued, |queued|), lists, h.db) == Some(Db())
    {
      lists := [];
      var i := 0;
      while i < |queued|
        invariant 0 <= i <= |queued|
        invariant Undisturbed(h, loose0) && Walk(relations, queued, Stops(queued, i), lists, h.db) == Some(Db())
      {
        lists := RefreshMutation(queued, i, h, loose0, lists);
        i := i + 1;
      }
    }

    method RefreshMutation(queued: seq<Queued>, i: nat, ghost h: Holding, ghost loose0: set<Key>,
                           ghost lists: seq<seq<Key>>)
      returns (ghost lists': seq<seq<Key>>)
      requires Undisturbed(h, loose0) && h.db.queue == queued && i < |queued|
      requires Walk(relations, queued, Stops(queued, i), lists, h.db) == Some(Db())
      modifies this`main, this`before, this`queue, this`loose, this`stray
      ensures Undisturbed(h, loose0) && Walk(relations, queued, Stops(queued, i + 1), lists', h.db) == Some(Db())
    {
      var deletes := DeletesOf(queued[i].wire + queued[i].companion);
      lists' := lists;
      var n := 0;
      assert Stops(queued, i) + StopsAt(i, deletes)[..0] == Stops(queued, i);
      while n < |deletes|
        invariant 0 <= n <= |deletes|
        invariant Undisturbed(h, loose0)
        invariant Walk(relations, queued, Stops(queued, i) + StopsAt(i, deletes)[..n], lists', h.db) == Some(Db())
      {
        lists' := RefreshStop(queued, i, deletes, n, h, loose0, lists');
        n := n + 1;
      }
      assert StopsAt(i, deletes)[..n] == StopsAt(i, deletes);
    }

    method RefreshStop(queued: seq<Queued>, i: nat, deletes: seq<Op>, n: nat, ghost h: Holding, ghost loose0: set<Key>,
                       ghost lists: seq<seq<Key>>)
      returns (ghost lists': seq<seq<Key>>)
      requires Undisturbed(h, loose0) && h.db.queue == queued && i < |queued| && n < |deletes|
      requires Walk(relations, queued, Stops(queued, i) + StopsAt(i, deletes)[..n], lists, h.db) == Some(Db())
      modifies this`main, this`before, this`queue, this`loose, this`stray
      ensures Undisturbed(h, loose0)
      ensures Walk(relations, queued, Stops(queued, i) + StopsAt(i, deletes)[..n + 1], lists', h.db) == Some(Db())
    {
      ghost var queue1, db := queue, Db();
      ghost var children := ExtendDelete(queued, i, deletes[n].key);
      ExtendsTwice(queued, queue1, queue);
      WalkNext(relations, queued, i, deletes, n, lists, h.db, db, children);
      lists' := lists + [children];
    }

    /** Records that lost their operations wait without a before image. */
    ghost predicate Folded()
      reads this`before, this`queue, this`stray
    {
      forall k :: k in stray && !Dirty(queue, k) ==> k !in before
    }

    /** What collects in `held` is dirty and covers what became loose. */
    ghost predicate Collects(loose0: set<Key>, held: set<Key>)
      reads this`queue, this`stray, this`loose
    {
      loose <= loose0 + held && forall k :: k in held ==> Waits(queue, stray, k)
    }

    /** Stage one base; a dirty record is held for a rebuild. */
    method Stage(k: Key, row: Row, held: set<Key>, ghost loose0: set<Key>) returns (r: set<Key>)
      requires Working() && Folded() && Collects(loose0, held)
      requires k in stray && !Dirty(queue, k) ==> row == None
      modifies this`main, this`before, this`loose
      ensures Working() && Folded() && Collects(loose0, r)
      ensures Db() == StageOne(old(Db()), k, row) && r == held + DirtyIn(queue, {k})
    {
      StageKeeps(Db(), loose, stray, k, row);
      r := held;
      if Dirty(queue, k) {
        before := Put(before, k, row);
        r := r + {k};
        loose := loose + {k};
      } else {
        main := Put(main, k, row);
      }
      assert r == held + DirtyIn(queue, {k});
    }

    /** Stage the deletion of every cascade descendant, stamps untouched. */
    method StageChildren(parent: Key, held: set<Key>, ghost loose0: set<Key>) returns (r: set<Key>)
      requires Working() && Folded() && Collects(loose0, held)
      modifies this`main, this`before, this`loose
      ensures Working() && Folded() && Collects(loose0, r)
      ensures Db() == StageNone(old(Db()), Below(relations, old(Db()), parent))
      ensures r == held + DirtyIn(queue, Below(relations, old(Db()), parent))
    {
      var children := Descendants(relations, Rows(main, before), parent);
      assert KeysIn(children) == Below(relations, Db(), parent);
      r := StageDeletions(children, held, loose0);
    }

    method StageDeletions(children: seq<Key>, held: set<Key>, ghost loose0: set<Key>) returns (r: set<Key>)
      requires Working() && Folded() && Collects(loose0, held)
      modifies this`main, this`before, this`loose
      ensures Working() && Folded() && Collects(loose0, r)
      ensures Db() == StageNone(old(Db()), KeysIn(children)) && r == held + DirtyIn(queue, KeysIn(children))
    {
      r := held;
      ghost var db := Db();
      var n := 0;
      StageNoneNone(db);
      assert KeysIn(children[..0]) == {} && DirtyIn(queue, {}) == {};
      while n < |children|
        invariant 0 <= n <= |children|
        invariant Working() && Folded() && Collects(loose0, r)
        invariant Db() == StageNone(db, KeysIn(children[..n])) && r == held + DirtyIn(queue, KeysIn(children[..n]))
      {
        r := StageDeletion(children, n, held, r, loose0, db);
        n := n + 1;
      }
      assert children[..n] == children;
    }

    method StageDeletion(children: seq<Key>, n: nat, ghost held0: set<Key>, held: set<Key>, ghost loose0: set<Key>,
                         ghost db: Db)
      returns (r: set<Key>)
      requires Working() && Folded() && Collects(loose0, held) && n < |children|
      requires Db() == StageNone(db, KeysIn(children[..n])) && held == held0 + DirtyIn(queue, KeysIn(children[..n]))
      modifies this`main, this`before, this`loose
      ensures Working() && Folded() && Collects(loose0, r)
      ensures Db() == StageNone(db, KeysIn(children[..n + 1])) && r == held0 + DirtyIn(queue, KeysIn(children[..n + 1]))
    {
      assert KeysIn(children[..n + 1]) == KeysIn(children[..n]) + {children[n]} by {
        assert children[..n + 1] == children[..n] + [children[n]];
      }
      StageNoneMore(db, KeysIn(children[..n]), children[n]);
      DirtyInUnion(queue, KeysIn(children[..n]), {children[n]});
      r := Stage(children[n], None, held, loose0);
    }

    /** One usable authoritative record, ordered by its stamp alone. A deletion takes its descendants with it. */
    method StageAuthority(a: Authority, held: set<Key>, ghost loose0: set<Key>) returns (d: Disposition, r: set<Key>)
      requires Working() && Folded() && Collects(loose0, held) && Usable(accepts, a)
      requires a.key in stray ==> Dirty(queue, a.key)
      modifies this`main, this`before, this`loose, this`stamps
      ensures Working() && Folded() && Collects(loose0, r)
      ensures d == Compare(old(Held(a.key)), a)
      ensures Now() == LandOne(relations, accepts, old(Now()), a)
      ensures r == held + Hit(relations, accepts, old(Now()), a)
    {
      r := held;
      if a.stamp < Stamp(stamps, a.key) {
        return Older, r;
      }
      if a.stamp == Stamp(stamps, a.key) {
        var truth := if Dirty(queue, a.key) then At(before, a.key) else At(main, a.key);
        return if truth == Content(a) then Same else Conflict, r;
      }
      ghost var db := Db();
      r := Stage(a.key, Content(a), r, loose0);
      ghost var staged := Db();
      if a.state.None? {
        r := StageChildren(a.key, r, loose0);
      }
      StageNoneNone(staged);
      DirtyInUnion(queue, {a.key}, Along(relations, db, a));
      stamps := stamps[a.key := a.stamp];
      d := Newer;
    }

    /** One delivered record in its own savepoint: refused ones are reported and leave nothing behind. */
    method StageIsolated(a: Authority, held: set<Key>, ghost loose0: set<Key>)
      returns (report: Option<Report>, r: set<Key>)
      requires Working() && Folded() && Collects(loose0, held)
      requires a.key in stray ==> Dirty(queue, a.key)
      modifies this`main, this`before, this`loose, this`stamps
      ensures Working() && Folded() && Collects(loose0, r)
      ensures report == Reported(accepts, HeldIn(old(Now()), a.key), a)
      ensures Now() == LandOne(relations, accepts, old(Now()), a)
      ensures r == held + Hit(relations, accepts, old(Now()), a)
    {
      r := held;
      if a.error.Some? {
        return Some(Report(ReadFailed, a.key, a.stamp, None)), r;
      }
      if !Usable(accepts, a) {
        return Some(Report(Skipped, a.key, a.stamp, None)), r;
      }
      var d;
      d, r := StageAuthority(a, held, loose0);
      report := if d == Conflict then Some(Report(Conflicting, a.key, a.stamp, None)) else None;
    }

    /** These records were staged over `h`, with these reports, holding these records. */
    ghost predicate Staged(h: Holding, records: seq<Authority>, reports: seq<Report>, held0: set<Key>, held: set<Key>)
      reads this`main, this`before, this`queue, this`stray, this`stamps
    {
      && Now() == LandAll(relations, accepts, h, records)
      && reports == AllReported(relations, accepts, h, records)
      && held == held0 + HitAll(relations, accepts, h, records)
    }

    method StageNext(ghost h: Holding, records: seq<Authority>, n: nat, reports: seq<Report>, held: set<Key>,
                     ghost loose0: set<Key>, ghost held0: set<Key>)
      returns (reports': seq<Report>, r: set<Key>)
      requires Working() && Folded() && Collects(loose0, held)
      requires n < |records| && (records[n].key in stray ==> Dirty(queue, records[n].key))
      requires Staged(h, records[..n], reports, held0, held)
      modifies this`main, this`before, this`loose, this`stamps
      ensures Working() && Folded() && Collects(loose0, r)
      ensures Staged(h, records[..n + 1], reports', held0, r)
    {
      LandNext(relations, accepts, h, records, n);
      var report;
      report, r := StageIsolated(records[n], held, loose0);
      reports' := reports + if report.Some? then [report.value] else [];
    }

    /** Every record of one delivery in turn. */
    method StageAll(records: seq<Authority>, held: set<Key>, ghost loose0: set<Key>)
      returns (reports: seq<Report>, r: set<Key>)
      requires Working() && Folded() && Collects(loose0, held)
      requires forall i :: 0 <= i < |records| ==> (records[i].key in stray ==> Dirty(queue, records[i].key))
      modifies this`main, this`before, this`loose, this`stamps
      ensures Working() && Folded() && Collects(loose0, r)
      ensures Now() == LandAll(relations, accepts, old(Now()), records)
      ensures reports == AllReported(relations, accepts, old(Now()), records)
      ensures r == held + HitAll(relations, accepts, old(Now()), records)
    {
      reports, r := [], held;
      ghost var h := Now();
      var i := 0;
      assert records[..0] == [];
      while i < |records|
        invariant 0 <= i <= |records|
        invariant Working() && Folded() && Collects(loose0, r)
        invariant Staged(h, records[..i], reports, held, r)
      {
        reports, r := StageNext(h, records, i, reports, r, loose0, held);
        i := i + 1;
      }
      assert records[..i] == records;
    }

    /** Rebuild every held record, reporting each whose replay failed, then extend queued deletes. */
    method RebuildHeld(held: set<Key>) returns (reports: seq<Report>, ghost walk: Aftermath)
      requires Working() && Steady(Books()) && stray <= held && forall k :: k in held ==> Waits(queue, stray, k)
      requires AllHaveEffects(queue, loose - held)
      modifies this`main, this`before, this`queue, this`loose, this`stray
      ensures Valid() && loose <= old(loose) - held && ExtendsAll(old(queue), queue)
      ensures Flight(queue) == Flight(old(queue))
      ensures SameHeld(old(Now()), Now())
      ensures Diverged(old(Db()), held, reports) && Settling(relations, old(Db()), held, walk, Db())
    {
      reports, walk := RebuildAndExtend(held);
      assert Books() == old(Books()).(queue := queue);
      SteadyExtends(old(Books()), queue);
      EffectsExtend(old(queue), queue, old(loose) - held, loose);
    }

    method RebuildAndExtend(held: set<Key>) returns (reports: seq<Report>, ghost walk: Aftermath)
      requires Working() && stray <= held && forall k :: k in held ==> Waits(queue, stray, k)
      modifies this`main, this`before, this`queue, this`loose, this`stray
      ensures Idle() && loose <= old(loose) - held && ExtendsAll(old(queue), queue)
      ensures SameHeld(old(Now()), Now())
      ensures Diverged(old(Db()), held, reports) && Settling(relations, old(Db()), held, walk, Db())
    {
      reports := RebuildAll(held);
      ghost var queue1, middle := queue, Db();
      ghost var lists := RefreshPending();
      ExtendsTwice(old(queue), queue1, queue);
      walk := Aftermath(middle, lists);
      forall k ensures HeldIn(Now(), k) == HeldIn(old(Now()), k) {
        assert HeldIn(Now(), k).row == Truth(k) && HeldIn(old(Now()), k).row == old(Truth(k));
      }
    }

    method RebuildAll(held: set<Key>) returns (reports: seq<Report>)
      requires Working() && forall k :: k in held ==> Waits(queue, stray, k)
      modifies this`main, this`before, this`queue, this`loose, this`stray
      ensures Working() && loose == old(loose) - held && stray == old(stray) - held && ExtendsAll(old(queue), queue)
      ensures forall k :: Truth(k) == old(Truth(k))
      ensures Diverged(old(Db()), held, reports)
      ensures RebuiltSome(old(Db()), Db(), held)
    {
      var list := Listed(held);
      ghost var done: set<Key> := {};
      ghost var db := Db();
      reports := [];
      var n := 0;
      ExtendsSelf(queue);
      while n < |list|
        invariant 0 <= n <= |list| && forall k :: k in done <==> k in list[..n]
        invariant Working() && loose == old(loose) - done && stray == old(stray) - done && ExtendsAll(old(queue), queue)
        invariant forall k :: Truth(k) == old(Truth(k))
        invariant Diverged(db, done, reports)
        invariant RebuiltSome(db, Db(), done)
      {
        var k := list[n];
        assert list[..n + 1] == list[..n] + [k] && k !in done;
        assert k in held && Waits(old(queue), old(stray), k);
        ghost var queue1 := queue;
        reports := RebuildNext(k, reports, db, done);
        ExtendsTwice(old(queue), queue1, queue);
        done := done + {k};
        n := n + 1;
      }
      assert list[..n] == list && done == held;
    }

    method RebuildNext(k: Key, reports: seq<Report>, ghost db: Db, ghost done: set<Key>) returns (reports': seq<Report>)
      requires Working() && Waits(queue, stray, k) && k !in done && Diverged(db, done, reports)
      requires RebuiltSome(db, Db(), done)
      modifies this`main, this`before, this`queue, this`loose, this`stray
      ensures Working() && loose == old(loose) - {k} && stray == old(stray) - {k} && ExtendsAll(old(queue), queue)
      ensures forall j :: Truth(j) == old(Truth(j))
      ensures Diverged(db, done + {k}, reports') && RebuiltSome(db, Db(), done + {k})
    {
      ghost var db' := Db();
      var failed := Rebuild(k);
      RebuiltOneMore(db, db', Db(), done, k);
      reports' := reports + if failed.Some? then [Report(Diverging, k, Stamp(stamps, k), failed)] else [];
      NamesSnoc(reports, reports', k, failed.Some?);
    }

    /** Stage every record of one delivery, then rebuild what was held. */
    method ApplyRecords(records: seq<Authority>) returns (reports: seq<Report>)
      requires Valid()
      modifies this`main, this`before, this`queue, this`loose, this`stray, this`stamps
      ensures Valid() && loose <= old(loose) && Flight(queue) == Flight(old(queue))
      ensures ExtendsAll(old(queue), queue)
      ensures SameHeld(LandAll(relations, accepts, old(Now()), records), Now())
      ensures ReportedAll(AllReported(relations, accepts, old(Now()), records),
                          LandAll(relations, accepts, old(Now()), records).db,
                          HitAll(relations, accepts, old(Now()), records), reports)
    {
      var held;
      reports, held := StageAll(records, {}, loose);
      ghost var h1 := Now();
      EffectsFewer(queue, old(loose), loose - held);
      var more, _ := RebuildHeld(held);
      ReportsJoin(reports, h1.db, held, more);
      reports := reports + more;
    }

    /** The channels of a page that move this client's cursors; none when the page leaves a gap. */
    method MovingChannels(page: Page) returns (r: Option<map<string, nat>>)
      ensures r == if HasGap(cursors, page) then None else Some(Moving(cursors, page))
    {
      var channels := Listed(page.cursors.Keys);
      var moving: map<string, nat> := map[];
      var n := 0;
      while n < |channels|
        invariant 0 <= n <= |channels|
        invariant forall m :: 0 <= m < n ==> !Gap(cursors, channels[m], page.cursors[channels[m]])
        invariant forall c :: c in moving <==> c in channels[..n] && Moves(cursors, c, page.cursors[c])
        invariant forall c :: c in moving ==> moving[c] == page.cursors[c].to
      {
        var c := channels[n];
        assert c in channels && channels[..n + 1] == channels[..n] + [c];
        var range := page.cursors[c];
        n := n + 1;
        if c !in cursors || range.to <= cursors[c] {
          continue;
        }
        if range.from > cursors[c] {
          assert Gap(cursors, c, page.cursors[c]);
          return None;
        }
        moving := moving[c := range.to];
      }
      assert channels[..n] == channels;
      forall c | c in page.cursors ensures !Gap(cursors, c, page.cursors[c]) {
        assert c in channels;
        var m :| 0 <= m < |channels| && channels[m] == c;
      }
      assert moving == Moving(cursors, page);
      r := Some(moving);
    }

    /** Apply one page: all changes, then all cursors, or nothing. */
    method ApplyCurrentPage(page: Page) returns (r: Applied)
      requires Valid()
      modifies this`main, this`before, this`queue, this`loose, this`stray, this`stamps, this`cursors
      ensures Valid() && loose <= old(loose) && Flight(queue) == Flight(old(queue))
      ensures ExtendsAll(old(queue), queue)
      ensures r == Gapped <==> HasGap(old(cursors), page)
      ensures r == Covered <==> !HasGap(old(cursors), page) && Moving(old(cursors), page) == map[]
      ensures !r.Applied? ==> Now() == old(Now()) && cursors == old(cursors)
      ensures r.Applied? ==> cursors == old(cursors) + Moving(old(cursors), page)
      ensures r == Gapped <==> LeavesGap(old(cursors), page)
      ensures r != Gapped ==> MovedTo(old(cursors), page, cursors) && (r.Applied? <==> cursors != old(cursors))
      ensures r.Applied? ==> SameHeld(LandAll(relations, accepts, old(Now()), page.changes), Now())
      ensures r.Applied? ==>
        ReportedAll(AllReported(relations, accepts, old(Now()), page.changes),
                    LandAll(relations, accepts, old(Now()), page.changes).db,
                    HitAll(relations, accepts, old(Now()), page.changes), r.reports)
    {
      ExtendsSelf(queue);
      MovingMoves(cursors, page);
      var moving := MovingChannels(page);
      if moving.None? {
        return Gapped;
      }
      if moving.value == map[] {
        return Covered;
      }
      var reports := ApplyRecords(page.changes);
      cursors := cursors + moving.value;
      r := Applied(reports);
    }

    /** Subscribe from the beginning unless subscribed already, or stop following a channel; records
        stay either way. Says whether answers to earlier pulls of the channel became stale. */
    method SetChannel(channel: string, subscribed: bool) returns (marked: bool)
      requires Valid()
      modifies this`cursors
      ensures Valid() && (marked <==> (channel in cursors) != (channel in old(cursors)))
      ensures channel in cursors <==> subscribed
      ensures marked && subscribed ==> cursors[channel] == 0
      ensures forall c :: c in cursors && (c != channel || !marked) ==>
        c in old(cursors) && cursors[c] == old(cursors)[c]
      ensures old(cursors).Keys - {channel} <= cursors.Keys
    {
      marked := (channel in cursors) != subscribed;
      if marked {
        cursors := if subscribed then cursors[channel := 0] else cursors - {channel};
      }
    }

    /** The push in flight as it was sent, or a new batch; none when nothing can be sent. */
    method Freeze(maxBytes: nat, size: (nat, map<string, nat>, seq<Act>) -> nat)
      returns (r: Option<Request>, ghost batch: seq<Queued>)
      requires Valid()
      modifies this`queue, this`nextPush, this`frozen
      ensures Valid() && Now() == old(Now()).(db := old(Db()).(queue := queue)) && SameHeld(old(Now()), Now())
      ensures r.Some? ==> r == Encoded()
      ensures old(frozen).Some? || r.None? ==> Books() == old(Books()) && frozen == old(frozen)
      ensures old(frozen).Some? ==> (r.None? <==> maxBytes == 0)
      ensures old(frozen).None? ==>
        (r.None? <==> maxBytes == 0 || Batch(old(queue), Sized(size, old(nextPush), models), maxBytes) == [])
      ensures old(frozen).None? && r.Some? ==>
        && Books() == Frozen(old(Books()), Sized(size, old(nextPush), models), maxBytes)
        && frozen == Some(models) && r.value.sequence == old(nextPush)
        && r.value.acts == Acts(Batch(old(queue), Sized(size, old(nextPush), models), maxBytes))
      ensures old(frozen).None? && maxBytes > 0 ==>
        && TakesAll(old(queue), batch, Sized(size, old(nextPush), models), maxBytes)
        && (r.None? <==> batch == [])
        && (r.Some? ==> Pushed(old(queue), batch, old(nextPush), queue) && Encodes(r.value.acts, batch))
    {
      batch := [];
      if maxBytes == 0 {
        return None, batch;
      }
      if frozen.Some? {
        return Encoded(), batch;
      }
      var measure := Sized(size, nextPush, models);
      var selected := Select(queue, measure, maxBytes);
      batch := selected;
      FreezeTakesAll(Books(), measure, maxBytes);
      if selected == [] {
        return None, batch;
      }
      Assign(selected, measure, maxBytes);
      r := Encoded();
    }

    /** The selected mutations become the push in flight. */
    method Assign(selected: seq<Queued>, ghost measure: seq<Act> -> nat, ghost maxBytes: nat)
      requires Valid() && frozen.None? && selected == Batch(queue, measure, maxBytes) && selected != []
      modifies this`queue, this`nextPush, this`frozen
      ensures Valid() && Now() == old(Now()).(db := old(Db()).(queue := queue)) && SameHeld(old(Now()), Now())
      ensures Books() == Frozen(old(Books()), measure, maxBytes) && frozen == Some(models)
      ensures Flight(queue) == Acts(selected) && old(nextPush) == completed + 1
    {
      var push := nextPush;
      SteadyFreezes(Books(), measure, maxBytes);
      FreezeKeeps(Ordinals(selected), push);
      ghost var b := Frozen(Books(), measure, maxBytes);
      queue := Assigned(queue, Ordinals(selected), push);
      nextPush := push + 1;
      frozen := Some(models);
      assert Books() == b;
    }

    lemma FreezeKeeps(ids: set<nat>, push: nat)
      requires Idle() && AllHaveEffects(queue, loose)
      ensures var db := Db().(queue := Assigned(queue, ids, push));
        Consistent(db, loose, {}) && SameHeld(Now(), Now().(db := db)) && AllHaveEffects(db.queue, loose)
    {
      EffectsSame(queue, Assigned(queue, ids, push), loose);
      forall j { SameOpsEach(queue, Assigned(queue, ids, push), j); }
      SameOperations(Db(), loose, stray, Assigned(queue, ids, push));
    }

    /** Remove mutations; the records they touched become stray until they are rebuilt. */
    method DeleteMutations(ids: set<nat>)
      requires Working()
      modifies this`queue, this`loose, this`stray
      ensures Working() && queue == Without(old(queue), ids)
      ensures stray == old(stray) + TouchedKeys(old(queue), ids) && loose == old(loose) + TouchedKeys(old(queue), ids)
      ensures SameHeld(old(Now()), Now())
      ensures forall k :: Waits(old(queue), old(stray), k) ==> Waits(queue, stray, k)
    {
      DropKeeps(Db(), loose, stray, ids);
      forall k | Waits(queue, stray, k) { StillWaits(queue, ids, stray, k); }
      ghost var touched := TouchedKeys(queue, ids);
      queue := Without(queue, ids);
      loose, stray := loose + touched, stray + touched;
      assert Db() == Drop(old(Db()), ids);
    }

    /** Record the rejections and remove their mutations with everything whose lifecycle depends on them. */
    method MarkRejected(codes: map<nat, string>) returns (affected: set<Key>, gone: set<nat>)
      requires Working()
      modifies this`queue, this`loose, this`stray, this`rejections
      ensures Working() && queue == Without(old(queue), gone) && affected == TouchedKeys(old(queue), gone)
      ensures stray == old(stray) + affected && loose == old(loose) + affected
      ensures SameHeld(old(Now()), Now())
      ensures forall k :: Waits(old(queue), old(stray), k) ==> Waits(queue, stray, k)
      ensures gone == Fallen(old(queue), codes.Keys)
      ensures rejections == Recorded(old(rejections), gone * Ordinals(old(queue)), codes)
    {
      gone := RecordRejections(codes);
      affected := TouchedKeys(queue, gone);
      DeleteMutations(gone);
    }

    method RecordRejections(codes: map<nat, string>) returns (gone: set<nat>)
      modifies this`rejections
      ensures gone == Fallen(queue, codes.Keys)
      ensures rejections == Recorded(old(rejections), gone * Ordinals(queue), codes)
    {
      gone := CloseRejections(queue, codes.Keys);
      rejections := Recorded(rejections, gone * Ordinals(queue), codes);
    }

    /** Drop an unsent mutation; one already sent is refused, one unknown is a no-op. */
    method DropMutation(ordinal: nat) returns (ok: bool)
      requires Valid()
      modifies this`main, this`before, this`queue, this`loose, this`stray, this`rejections
      ensures Valid() && loose <= old(loose) && Flight(queue) == Flight(old(queue))
      ensures SameHeld(old(Now()), Now())
      ensures ok <==> !SentAlready(old(queue), ordinal)
      ensures !ok || ordinal !in Ordinals(old(queue)) ==> Now() == old(Now()) && rejections == old(rejections)
      ensures ok && ordinal in Ordinals(old(queue)) ==>
        && Recording(old(queue), old(rejections), Dropping(ordinal), rejections)
        && rejections.Keys == old(rejections).Keys + Fallen(old(queue), {ordinal})
        && ExtendsAll(Without(old(queue), Fallen(old(queue), {ordinal})), queue)
    {
      ok := !SentAlready(queue, ordinal);
      if ok && ordinal in Ordinals(queue) {
        RemoveRejected(Dropping(ordinal));
      }
    }

    /** Remove unsent mutations and everything whose lifecycle depended on them, and rebuild what they touched. */
    method RemoveRejected(codes: map<nat, string>)
      requires Valid() && codes.Keys <= Ordinals(queue) && forall o :: o in codes ==> !SentAlready(queue, o)
      modifies this`main, this`before, this`queue, this`loose, this`stray, this`rejections
      ensures Valid() && loose <= old(loose) && Flight(queue) == Flight(old(queue))
      ensures SameHeld(old(Now()), Now())
      ensures rejections == Recorded(old(rejections), Fallen(old(queue), codes.Keys), codes)
      ensures Recording(old(queue), old(rejections), codes, rejections)
      ensures ExtendsAll(Without(old(queue), Fallen(old(queue), codes.Keys)), queue)
    {
      RecordsCodes(queue, rejections, codes);
      SteadyDropsFallen(Books(), codes.Keys);
      RemoveFallen(codes, Fallen(queue, codes.Keys));
    }

    method RemoveFallen(codes: map<nat, string>, ghost fallen: set<nat>)
      requires Idle() && AllHaveEffects(queue, loose)
      requires fallen == Fallen(queue, codes.Keys) && fallen <= Ordinals(queue)
      requires Steady(Books().(queue := Without(queue, fallen), rejected := rejections.Keys + fallen))
      modifies this`main, this`before, this`queue, this`loose, this`stray, this`rejections
      ensures Valid() && loose <= old(loose) && Flight(queue) == Flight(Without(old(queue), fallen))
      ensures SameHeld(old(Now()), Now())
      ensures rejections == Recorded(old(rejections), fallen, codes)
      ensures ExtendsAll(Without(old(queue), fallen), queue)
    {
      assert fallen * Ordinals(queue) == fallen;
      ghost var b := Books().(queue := Without(queue, fallen), rejected := rejections.Keys + fallen);
      var affected, gone := MarkRejected(codes);
      assert Books() == b;
      EffectsWithout(old(queue), gone, old(loose), loose - affected);
      var _, _ := RebuildHeld(affected);
    }

    /** A prerequisite came true. */
    method ResolvePrerequisite(name: string)
      requires Valid()
      modifies this`queue
      ensures Valid() && queue == Resolved(old(queue), name) && Flight(queue) == Flight(old(queue))
      ensures SameHeld(old(Now()), Now())
    {
      SteadyResolves(Books(), name);
      forall j { SameOpsEach(queue, Resolved(queue, name), j); }
      SameOperations(Db(), loose, stray, Resolved(queue, name));
      EffectsSame(queue, Resolved(queue, name), loose);
      ghost var b := Books().(queue := Resolved(queue, name));
      queue := Resolved(queue, name);
      assert Books() == b;
    }

    /** Folding in progress: what became stray waits in `held` and is nothing the receipt covers. */
    ghost predicate Folding(loose0: set<Key>, held: set<Key>, covered: set<Key>)
      reads this`main, this`before, this`queue, this`loose, this`stray
    {
      Working() && Folded() && Collects(loose0, held) && stray <= held && stray !! covered
    }

    /** Fold one accepted local operation into the base of its record, unless the receipt covers it. */
    method Fold(op: Op, covered: set<Key>, held: set<Key>, ghost loose0: set<Key>) returns (r: set<Key>)
      requires Folding(loose0, held, covered) && Foldable(queue, op)
      modifies this`before, this`loose, this`stray
      ensures Folding(loose0, r, covered)
      ensures Now() == Foldings.FoldNext(old(Now()), op, covered) && r == held + stray && old(stray) <= stray
    {
      r := held;
      if op.key in covered {
        return;
      }
      FoldKeeps(Db(), loose, stray, op);
      match Apply(At(before, op.key), op) {
        case Failed =>
        case Done(row) => before := Put(before, op.key, row);
      }
      loose, stray := loose + {op.key}, stray + {op.key};
      r := r + {op.key};
    }

    method FoldStep(ops: seq<Op>, n: nat, covered: set<Key>, ghost held0: set<Key>, held: set<Key>,
                    ghost loose0: set<Key>,
                    ghost h: Holding)
      returns (r: set<Key>)
      requires Folding(loose0, held, covered) && n < |ops| && Foldable(queue, ops[n])
      requires Now() == FoldOps(h, ops[..n], covered) && held == held0 + stray
      modifies this`before, this`loose, this`stray
      ensures Folding(loose0, r, covered)
      ensures Now() == FoldOps(h, ops[..n + 1], covered) && r == held0 + stray && old(stray) <= stray
    {
      assert ops[..n + 1] == ops[..n] + [ops[n]];
      FoldSnoc(h, ops[..n], ops[n], covered);
      r := Fold(ops[n], covered, held, loose0);
    }

    method FoldAll(ops: seq<Op>, covered: set<Key>, held: set<Key>, ghost loose0: set<Key>) returns (r: set<Key>)
      requires Folding(loose0, held, covered) && forall i :: 0 <= i < |ops| ==> Foldable(queue, ops[i])
      modifies this`before, this`loose, this`stray
      ensures Folding(loose0, r, covered)
      ensures Now() == FoldOps(old(Now()), ops, covered) && r == held + stray && old(stray) <= stray
    {
      r := held;
      ghost var h := Now();
      var i := 0;
      assert ops[..0] == [];
      while i < |ops|
        invariant 0 <= i <= |ops|
        invariant Folding(loose0, r, covered)
        invariant Now() == FoldOps(h, ops[..i], covered) && r == held + stray && old(stray) <= stray
      {
        r := FoldStep(ops, i, covered, held, r, loose0, h);
        i := i + 1;
      }
      assert ops[..i] == ops;
    }

    /** A mutation's companions, and a deletion for every descendant of a companion deletion that the
        server does not answer for. */
    method LocalOps(q: Queued, wired: set<Key>) returns (ops: seq<Op>, ghost children: seq<Key>)
      requires q in queue
      ensures ops == q.companion + Deletions(children)
      ensures KeysIn(children) == Dragged(relations, Db(), q.companion, wired)
      ensures forall i :: 0 <= i < |ops| ==> Foldable(queue, ops[i])
    {
      ops, children := q.companion, [];
      CompanionsFold(queue, q);
      var i := 0;
      assert q.companion[..0] == [] && q.companion + Deletions([]) == q.companion;
      while i < |q.companion|
        invariant 0 <= i <= |q.companion|
        invariant ops == q.companion + Deletions(children)
        invariant KeysIn(children) == Dragged(relations, Db(), q.companion[..i], wired)
      {
        var more;
        ghost var found;
        more, found := LocalNext(q.companion[i], wired);
        DraggedNext(relations, Db(), q.companion, i, wired);
        DeletionsConcat(q.companion, children, found);
        ops, children := ops + more, children + found;
        i := i + 1;
      }
      assert q.companion[..i] == q.companion;
    }

    method LocalNext(op: Op, wired: set<Key>) returns (more: seq<Op>, ghost found: seq<Key>)
      ensures more == Deletions(found)
      ensures KeysIn(found) == if op.kind == Delete && op.key !in wired then Below(relations, Db(), op.key) else {}
    {
      more, found := [], [];
      if op.kind == Delete && op.key !in wired {
        var children := Descendants(relations, Rows(main, before), op.key);
        more, found := Deletions(children), children;
      }
    }

    method FoldMutation(accepted: seq<Queued>, n: nat, wired: set<Key>, covered: set<Key>, ghost held0: set<Key>,
                        held: set<Key>,
                        ghost loose0: set<Key>, ghost h: Holding)
      returns (r: set<Key>)
      requires Folding(loose0, held, covered) && n < |accepted| && accepted[n] in queue
      requires Now() == FoldEach(relations, h, accepted[..n], wired, covered) && held == held0 + stray
      modifies this`before, this`loose, this`stray
      ensures Folding(loose0, r, covered)
      ensures Now() == FoldEach(relations, h, accepted[..n + 1], wired, covered) && r == held0 + stray
    {
      ghost var h1 := Now();
      var ops;
      ghost var children;
      ops, children := LocalOps(accepted[n], wired);
      FoldEachNext(relations, h, accepted, n, wired, covered, h1, ops, children);
      r := FoldAll(ops, covered, held, loose0);
    }

    /** Accepted companions settle in the bases of records the server did not report. */
    method FoldAccepted(accepted: seq<Queued>, covered: set<Key>, held: set<Key>, ghost loose0: set<Key>)
      returns (r: set<Key>)
      requires Folding(loose0, held, covered) && forall q :: q in accepted ==> q in queue
      modifies this`before, this`loose, this`stray
      ensures Folding(loose0, r, covered)
      ensures Now() == FoldEach(relations, old(Now()), accepted, WireKeys(accepted), covered) && r == held + stray
    {
      r := held;
      ghost var h := Now();
      var wired := WireKeys(accepted);
      var i := 0;
      assert accepted[..0] == [];
      while i < |accepted|
        invariant 0 <= i <= |accepted|
        invariant Folding(loose0, r, covered)
        invariant Now() == FoldEach(relations, h, accepted[..i], wired, covered) && r == held + stray
      {
        r := FoldMutation(accepted, i, wired, covered, held, r, loose0, h);
        i := i + 1;
      }
      assert accepted[..i] == accepted;
    }

    /** Settle the accepted companions and stage the receipt's records beneath the queue as it was sent. */
    method SettleReceipt(receipt: Receipt, accepted: seq<Queued>, batch: set<nat>)
      returns (reports: seq<Report>, held: set<Key>)
      requires Idle() && accepted == AcceptedBy(queue, receipt)
      modifies this`main, this`before, this`loose, this`stray, this`stamps
      ensures Working() && Folded() && Collects(old(loose), held)
      ensures stray <= held && TouchedKeys(queue, batch) <= held
      ensures Now() == Receiving(relations, accepts, old(Now()), receipt)
      ensures reports == AllReported(relations, accepts, Accepting(relations, old(Now()), receipt), receipt.records)
      ensures held == TouchedKeys(queue, batch) + Accepting(relations, old(Now()), receipt).stray
                      + HitAll(relations, accepts, Accepting(relations, old(Now()), receipt), receipt.records)
    {
      ghost var loose0 := loose;
      held := TouchedKeys(queue, batch);
      forall k | k in held ensures Dirty(queue, k) { TouchedIsDirty(queue, batch, k); }
      OnlyMembers(queue, Taken(queue, receipt));
      held := FoldAccepted(accepted, CoveredKeys(receipt.records), held, loose0);
      reports, held := StageAll(receipt.records, held, loose0);
    }

    /** Record the rejections and remove the batch. */
    method RemoveBatch(codes: map<nat, string>, took: set<nat>, held: set<Key>) returns (r: set<Key>)
      requires Working() && stray <= held && TouchedKeys(queue, took) <= held
      requires forall k :: k in held ==> Waits(queue, stray, k)
      modifies this`queue, this`loose, this`stray, this`rejections
      ensures Working() && queue == Without(old(queue), Fallen(old(queue), codes.Keys) + took)
      ensures stray <= r && loose <= old(loose) + r && forall k :: k in r ==> Waits(queue, stray, k)
      ensures r == held + TouchedKeys(old(queue), Fallen(old(queue), codes.Keys))
      ensures rejections == Recorded(old(rejections), Fallen(old(queue), codes.Keys) * Ordinals(old(queue)), codes)
      ensures SameHeld(old(Now()), Now())
    {
      var affected, gone := MarkRejected(codes);
      TouchedWithout(old(queue), gone, took);
      WithoutTwice(old(queue), gone, took);
      DeleteMutations(took);
      r := held + affected;
    }

    /** Complete the push in flight from its receipt. A refused or repeated receipt changes nothing. */
    method Acknowledge(sequence: nat, receipt: Receipt) returns (r: Outcome)
      requires Valid()
      modifies this`main, this`before, this`queue, this`loose, this`stray, this`stamps, this`rejections, this`completed
      modifies this`frozen, this`accepted
      ensures Valid() && loose <= old(loose)
      ensures r.Completed? <==> Judge(clientId, old(completed), old(queue), sequence, receipt) == None
      ensures !r.Completed? ==> Some(r) == Judge(clientId, old(completed), old(queue), sequence, receipt)
      ensures !r.Completed? ==>
        Now() == old(Now()) && Books() == old(Books()) && frozen == old(frozen) && rejections == old(rejections)
      ensures r.Completed? ==> completed == sequence && frozen == None
      ensures r.Completed? ==> Books() == Completing(old(Books()), receipt).(queue := queue)
      ensures r.Completed? ==> ExtendsAll(Completing(old(Books()), receipt).queue, queue)
      ensures r.Completed? ==>
        rejections == Recorded(old(rejections), Fallen(old(queue), receipt.rejections.Keys), receipt.rejections)
      ensures r.Completed? ==> Recording(old(queue), old(rejections), receipt.rejections, rejections)
      ensures r.Completed? ==> ReceiptLanded(relations, accepts, old(Now()), Now(), receipt, r.reports)
    {
      var verdict := Judge(clientId, completed, queue, sequence, receipt);
      if verdict.Some? {
        return verdict.value;
      }
      CompletingIsSteady(Books(), clientId, receipt);
      RecordsCodes(queue, rejections, receipt.rejections);
      var reports := Settle(receipt, Completing(Books(), receipt));
      r := Completed(reports);
    }

    method Settle(receipt: Receipt, ghost b: Books) returns (reports: seq<Report>)
      requires Idle() && Steady(b) && b == Completing(Books(), receipt) && receipt.sequence == completed + 1
      requires AllHaveEffects(queue, loose)
      requires Fallen(queue, receipt.rejections.Keys) <= Ordinals(queue)
      modifies this`main, this`before, this`queue, this`loose, this`stray, this`stamps, this`rejections, this`completed
      modifies this`frozen, this`accepted
      ensures Valid() && loose <= old(loose)
      ensures completed == receipt.sequence && frozen == None
      ensures Books() == b.(queue := queue) && ExtendsAll(b.queue, queue)
      ensures rejections == Recorded(old(rejections), Fallen(old(queue), receipt.rejections.Keys), receipt.rejections)
      ensures ReceiptLanded(relations, accepts, old(Now()), Now(), receipt, reports)
    {
      reports := Complete(receipt, Taken(queue, receipt));
      assert Books() == b.(queue := queue);
      SteadyExtends(b, queue);
      EffectsWithout(old(queue), Removed(old(queue), receipt), old(loose), loose);
      EffectsExtend(b.queue, queue, loose, loose);
    }

    method Complete(receipt: Receipt, took: set<nat>) returns (reports: seq<Report>)
      requires Idle() && took == Taken(queue, receipt) && Fallen(queue, receipt.rejections.Keys) <= Ordinals(queue)
      modifies this`main, this`before, this`queue, this`loose, this`stray, this`stamps, this`rejections, this`completed
      modifies this`frozen, this`accepted
      ensures Idle() && loose <= old(loose) - TouchedKeys(old(queue), Removed(old(queue), receipt))
      ensures completed == receipt.sequence && frozen == None && accepted == old(accepted) + took
      ensures ExtendsAll(Without(old(queue), Fallen(old(queue), receipt.rejections.Keys) + took), queue)
      ensures rejections == Recorded(old(rejections), Fallen(old(queue), receipt.rejections.Keys), receipt.rejections)
      ensures ReceiptLanded(relations, accepts, old(Now()), Now(), receipt, reports)
    {
      reports := ReceiveAndRebuild(receipt, took);
      Finish(receipt.sequence, took);
    }

    /** Remember the completion. */
    method Finish(sequence: nat, ghost took: set<nat>)
      requires Idle()
      modifies this`completed, this`frozen, this`accepted
      ensures Idle() && Now() == old(Now())
      ensures completed == sequence && frozen == None && accepted == old(accepted) + took
    {
      accepted := accepted + took;
      completed, frozen := sequence, None;
    }

    /** Everything a receipt does to rows, stamps and queue. */
    method ReceiveAndRebuild(receipt: Receipt, took: set<nat>) returns (reports: seq<Report>)
      requires Idle() && Fallen(queue, receipt.rejections.Keys) <= Ordinals(queue)
      requires took == Taken(queue, receipt)
      modifies this`main, this`before, this`queue, this`loose, this`stray, this`stamps, this`rejections
      ensures Idle() && loose <= old(loose) - TouchedKeys(old(queue), Removed(old(queue), receipt))
      ensures ExtendsAll(Without(old(queue), Fallen(old(queue), receipt.rejections.Keys) + took), queue)
      ensures rejections == Recorded(old(rejections), Fallen(old(queue), receipt.rejections.Keys), receipt.rejections)
      ensures ReceiptLanded(relations, accepts, old(Now()), Now(), receipt, reports)
    {
      ghost var h := Now();
      var staged, held := ReceiveBatch(receipt, took);
      ghost var h1 := Now();
      DisturbedCovers(relations, accepts, h, receipt);
      var diverged, _ := RebuildAndExtend(held);
      reports := staged + diverged;
      ReceiptLands(relations, accepts, h, h1, Now(), receipt, held, staged, diverged);
    }

    /** Stage and settle, then remove the batch; everything touched is left to be rebuilt. */
    method ReceiveBatch(receipt: Receipt, took: set<nat>) returns (reports: seq<Report>, held: set<Key>)
      requires Idle() && Fallen(queue, receipt.rejections.Keys) <= Ordinals(queue)
      requires took == Taken(queue, receipt)
      modifies this`main, this`before, this`queue, this`loose, this`stray, this`stamps, this`rejections
      ensures Working() && stray <= held && loose <= old(loose) + held
      ensures forall k :: k in held ==> Waits(queue, stray, k)
      ensures queue == Without(old(queue), Fallen(old(queue), receipt.rejections.Keys) + took)
      ensures rejections == Recorded(old(rejections), Fallen(old(queue), receipt.rejections.Keys), receipt.rejections)
      ensures BatchReceived(relations, accepts, old(Now()), Now(), receipt, held, reports)
    {
      ghost var fallen := Fallen(queue, receipt.rejections.Keys);
      assert fallen * Ordinals(queue) == fallen;
      TouchedFewer(queue, took, InPush(queue, receipt.sequence));
      reports, held := SettleReceipt(receipt, Only(queue, took), InPush(queue, receipt.sequence));
      held := RemoveBatch(receipt.rejections, took, held);
    }

    /** With nothing pending there are no before images and every visible row is the truth. */
    lemma NothingPending()
      requires Valid() && queue == []
      ensures before == map[] && forall k :: At(main, k) == Truth(k)
    {
      forall k ensures k !in before { assert Backed(Db(), {}, k); }
      assert before.Keys == {};
    }

    /** A dirty record whose operations replay over its truth shows exactly that replay, unless a cascade
        effect on it is pending that was stored out of order and not rebuilt since. */
    lemma VisibleIsReplay(k: Key)
      requires Valid() && Dirty(queue, k) && (k !in loose || !HasEffect(queue, k))
      ensures Replay(Truth(k), OpsFor(queue, k)).Done? ==> At(main, k) == Replay(Truth(k), OpsFor(queue, k)).row
    {
      assert Shown(Db(), k);
    }
  }
}
