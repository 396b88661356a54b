/** One server, many clients, and a network that loses, repeats, delays and reorders: whatever was ever
    sent may arrive any number of times, or never. */
module Protocol {
  import opened Options
  import opened Records
  import opened Queue
  import opened Optimism
  import opened Cascades
  import opened Enqueueing
  import opened Authorities
  import opened Landings
  import opened Upkeep
  import opened Pages
  import opened Messages
  import opened Engines
  import opened Storage
  import opened Pushing
  import Batches
  import opened Servers
  import opened Paging

  /** What the protocol sees of a client. `leaked` records are held with something else than their stamp
      says: optimism was copied aside, an accepted companion settled, or a deletion cascaded. `missed`
      ones have a delivery the client could not use, newer than what it holds: the highest such stamp. */
  datatype Replica = Replica(books: Books, holding: Holding, cursors: map<string, nat>,
                             declared: Option<map<string, nat>>, leaked: iset<Key>, missed: map<Key, nat>)

  datatype Message = Upload(request: Request) | Reply(receipt: Receipt) | Changes(page: Page)

  datatype Moment = Moment(key: Key, stamp: nat)

  /** `history` is the content each record had at each stamp it was left at; `commits` the mutations of
      each client that took effect, in order. */
  datatype System = System(server: State, clients: map<string, Replica>, network: set<Message>,
                           history: map<Moment, Row>, commits: map<string, seq<nat>>)

  /** `honest` when every handler and outside change reports what it changes and loaders answer with the
      rows as they are. */
  datatype World = World(owners: string -> string, accepts: (Key, Fields) -> bool, relations: seq<Relation>,
                         honest: bool)

  /** What the client would send, or send again. */
  function Sends(id: string, c: Replica): Request
    requires c.declared.Some?
  {
    Request(id, c.books.completed + 1, c.declared.value, Flight(c.books.queue))
  }

  /** Between transactions: nothing is stray, and before images are only those of pending records. */
  ghost predicate AtRest(c: Replica) {
    c.holding.stray == {} && c.holding.db.queue == c.books.queue && forall k :: Backed(c.holding.db, {}, k)
  }

  /** Enqueueing, dropping, resolving prerequisites, extending effects: the push in flight and every stamp
      stay, and exactly the records the applied operations leak move. */
  ghost predicate LocalStep(c: Replica, c': Replica, applied: seq<Op>) {
    && Steady(c'.books) && Flight(c'.books.queue) == Flight(c.books.queue) && AtRest(c')
    && c'.books == c.books.(queue := c'.books.queue, nextOrdinal := c'.books.nextOrdinal, rejected := c'.books.rejected)
    && c.books.rejected <= c'.books.rejected && c.books.nextOrdinal <= c'.books.nextOrdinal
    && c' == c.(books := c'.books, holding := c'.holding, leaked := c.leaked + LeakedBy(c.holding.db, applied))
    && c'.holding.stamps == c.holding.stamps
    && forall k :: (HeldIn(c'.holding, k) == HeldIn(c.holding, k) <==> !Leaks(c.holding.db, applied, k))
  }

  ghost function LeakedBy(db: Db, applied: seq<Op>): iset<Key> {
    iset k | Leaks(db, applied, k)
  }

  ghost predicate MovesLocally(c: Replica, c': Replica) {
    exists applied :: LocalStep(c, c', applied)
  }

  ghost predicate Freezes(b: Books, b': Books, size: seq<Act> -> nat, maxBytes: nat) {
    Upkeep.Batch(b.queue, size, maxBytes) != [] && b' == Frozen(b, size, maxBytes)
  }

  ghost predicate FreezeStep(c: Replica, c': Replica) {
    && c.declared.None? && c'.declared.Some?
    && (exists size, maxBytes :: Freezes(c.books, c'.books, size, maxBytes))
    && SameHeld(c.holding, c'.holding) && AtRest(c')
    && c' == c.(books := c'.books, holding := c'.holding, declared := c'.declared)
  }

  /** Held with something else than its own deliveries explain; whole again once a newer stamp lands. */
  ghost predicate Astray(w: World, c: Replica, h: Holding, records: seq<Authority>, k: Key) {
    var v, v' := HeldIn(c.holding, k), HeldIn(h, k);
    v' != Evolve(w.accepts, v, records, k) || (k in c.leaked && v'.stamp == v.stamp)
  }

  ghost function AllAstray(w: World, c: Replica, h: Holding, records: seq<Authority>): iset<Key> {
    iset k | Astray(w, c, h, records, k)
  }

  /** The highest stamp among `stamp` and the deliveries for `k` the client could not use. */
  function HighestUnusable(accepts: (Key, Fields) -> bool, stamp: nat, records: seq<Authority>, k: Key): nat {
    if records == [] then stamp
    else
      var front, a := HighestUnusable(accepts, stamp, records[..|records| - 1], k), records[|records| - 1];
      if a.key == k && !Usable(accepts, a) && a.stamp > front then a.stamp else front
  }

  function MissedStamp(missed: map<Key, nat>, k: Key): nat {
    if k in missed then missed[k] else 0
  }

  /** What is missed after a delivery: nothing the client holds as new by now. */
  function StillMissed(accepts: (Key, Fields) -> bool, missed: map<Key, nat>, stamps: map<Key, nat>,
                       records: seq<Authority>): map<Key, nat>
  {
    map k | k in missed.Keys + CoveredKeys(records)
          && HighestUnusable(accepts, MissedStamp(missed, k), records, k) > Stamp(stamps, k) ::
      HighestUnusable(accepts, MissedStamp(missed, k), records, k)
  }

  ghost predicate ReceiptStep(w: World, id: string, c: Replica, c': Replica, receipt: Receipt) {
    if Judge(id, c.books.completed, c.books.queue, receipt.sequence, receipt) != None then c' == c
    else
      && ExtendsAll(Completing(c.books, receipt).queue, c'.books.queue)
      && c'.books == Completing(c.books, receipt).(queue := c'.books.queue) && AtRest(c')
      && c' == c.(books := c'.books, holding := c'.holding, declared := None,
                  leaked := AllAstray(w, c, c'.holding, receipt.records),
                  missed := StillMissed(w.accepts, c.missed, c'.holding.stamps, []))
      && SameHeld(Receiving(w.relations, w.accepts, c.holding, receipt), c'.holding)
  }

  ghost predicate PageStep(w: World, c: Replica, c': Replica, page: Page) {
    if HasGap(c.cursors, page) || Moving(c.cursors, page) == map[] then c' == c
    else
      && ExtendsAll(c.books.queue, c'.books.queue) && c'.books == c.books.(queue := c'.books.queue) && AtRest(c')
      && c' == c.(books := c'.books, holding := c'.holding, cursors := c.cursors + Moving(c.cursors, page),
                  leaked := AllAstray(w, c, c'.holding, page.changes),
                  missed := StillMissed(w.accepts, c.missed, c'.holding.stamps, page.changes))
      && SameHeld(LandAll(w.relations, w.accepts, c.holding, page.changes), c'.holding)
  }

  ghost predicate SubscribeStep(c: Replica, c': Replica) {
    && c' == c.(cursors := c'.cursors)
    && forall h :: h in c'.cursors ==> c'.cursors[h] == 0 || (h in c.cursors && c'.cursors[h] == c.cursors[h])
  }

  /** What history records when the server's tables move on. */
  function Chronicled(history: map<Moment, Row>, t: Tables): (r: map<Moment, Row>)
    ensures forall k :: k in t.stamps ==> Moment(k, t.stamps[k]) in r && r[Moment(k, t.stamps[k])] == At(t.rows, k)
    ensures forall m :: m in r <==> m in history || (m.key in t.stamps && m.stamp == t.stamps[m.key])
    ensures forall m :: m in r && !(m.key in t.stamps && m.stamp == t.stamps[m.key]) ==> r[m] == history[m]
  {
    var fresher := map m | m in (set k | k in t.stamps :: Moment(k, t.stamps[k])) :: At(t.rows, m.key);
    history + fresher
  }

  function Effects(acts: seq<Act>, rejected: set<nat>): seq<nat> {
    if acts == [] then []
    else (if acts[0].ordinal in rejected then [] else [acts[0].ordinal]) + Effects(acts[1..], rejected)
  }

  function CommitsOf(s: System, id: string): seq<nat> {
    if id in s.commits then s.commits[id] else []
  }

  /** Deliver an upload once more, to any backend. A delivery may also break off at any point, which changes
      nothing. */
  ghost predicate DeliverStep(w: World, b: Backend, s: System, s': System, request: Request) {
    var r := Delivered(b, w.owners(request.clientId), request, s.server);
    var was := ClaimOf(s.server.clients, w.owners(request.clientId), request.clientId);
    && Upload(request) in s.network
    && Batches.Lists(b) && (w.honest ==> Batches.Honest(b) && Batches.Faithful(b))
    && s' == s.(server := r.1,
                network := s.network + (if r.0.Answered? then {Reply(r.0.receipt)} else {}),
                history := Chronicled(s.history, r.1.tables),
                commits := if r.0.Answered? && request.sequence == was.sequence + 1
                  then s.commits[request.clientId :=
                                   CommitsOf(s, request.clientId) + Effects(request.acts, r.0.receipt.rejections.Keys)]
                  else s.commits)
  }

  /** Answer any pull from the tables as they are. */
  ghost predicate PullStep(w: World, s: System, s': System) {
    exists page :: ServedFrom(w, s.server.tables, page) && s' == s.(network := s.network + {Changes(page)})
  }

  ghost predicate ServedFrom(w: World, t: Tables, page: Page) {
    && ValidPage(page) && Carries(t, page) && (w.honest ==> AllTruly(t, page.changes))
    && forall c :: c in page.cursors ==> page.cursors[c].to <= Head(t, c)
  }

  /** A business change outside any push, with its own stamps and publications. */
  ghost predicate ExternalStep(w: World, s: System, s': System) {
    var t := s'.server.tables;
    && WellKept(t) && Grows(s.server.tables, t) && (w.honest ==> Tells(s.server.tables, t))
    && s' == s.(server := s.server.(tables := t), history := Chronicled(s.history, t))
  }

  ghost predicate GetsReceipt(w: World, network: set<Message>, id: string, c: Replica, c': Replica) {
    exists receipt :: Reply(receipt) in network && ReceiptStep(w, id, c, c', receipt)
  }

  ghost predicate GetsPage(w: World, network: set<Message>, c: Replica, c': Replica) {
    exists page :: Changes(page) in network && PageStep(w, c, c', page)
  }

  ghost predicate ClientMoves(w: World, s: System, s': System, id: string) {
    && id in s.clients && id in s'.clients && s'.clients == s.clients[id := s'.clients[id]]
    && s'.server == s.server && s'.history == s.history && s'.commits == s.commits
    && var c, c' := s.clients[id], s'.clients[id];
       || (MovesLocally(c, c') && s'.network == s.network)
       || (FreezeStep(c, c') && s'.network == s.network + {Upload(Sends(id, c'))})
       || (c' == c && c.declared.Some? && s'.network == s.network + {Upload(Sends(id, c))})
       || (GetsReceipt(w, s.network, id, c, c') && s'.network == s.network)
       || (GetsPage(w, s.network, c, c') && s'.network == s.network)
       || (SubscribeStep(c, c') && s'.network == s.network)
  }

  function Newborn(): Replica {
    Replica(Books([], 1, 1, 0, false, {}, {}), Holding(Optimism.Db(map[], map[], []), {}, map[]), map[], None,
            iset{}, map[])
  }

  ghost predicate Joins(s: System, s': System, id: string) {
    id !in s.clients && id !in s.server.clients && s' == s.(clients := s.clients[id := Newborn()])
  }

  ghost predicate Next(w: World, s: System, s': System) {
    || s' == s
    || (exists id :: ClientMoves(w, s, s', id))
    || (exists id :: Joins(s, s', id))
    || (exists b, request :: DeliverStep(w, b, s, s', request))
    || PullStep(w, s, s')
    || ExternalStep(w, s, s')
  }

  ghost predicate Init(s: System) {
    s == System(State(Tables(map[], map[], map[], map[]), map[]), map[], {}, map[], map[])
  }

  ghost predicate Run(w: World, states: seq<System>) {
    && states != [] && Init(states[0])
    && forall i :: 0 <= i < |states| - 1 ==> Follows(w, states, i)
  }

  ghost predicate Follows(w: World, states: seq<System>, i: int)
    requires 0 <= i < |states| - 1
  {
    Next(w, states[i], states[i + 1])
  }
}
