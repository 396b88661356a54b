/** What clients hold is what the server had, and at the head what it has. */
module Convergence {
  import opened Options
  import opened Records
  import opened Queue
  import opened Enqueueing
  import opened Authorities
  import opened Landings
  import opened Foldings
  import opened Series
  import opened Upkeep
  import opened Pages
  import opened Messages
  import opened Engines
  import opened Batches
  import opened Storage
  import opened Servers
  import opened Pushing
  import opened Paging
  import opened Protocol
  import opened Delivery

  /** The content a record had at a stamp is known, and is this. */
  predicate Was(history: map<Moment, Row>, k: Key, stamp: nat, row: Row) {
    Moment(k, stamp) in history && history[Moment(k, stamp)] == row
  }

  ghost predicate HistoryOk(t: Tables, history: map<Moment, Row>) {
    && (forall k :: k in t.stamps ==> Was(history, k, t.stamps[k], At(t.rows, k)))
    && forall m :: m in history ==> m.key in t.stamps && m.stamp <= t.stamps[m.key]
  }

  /** Authority that tells what the server had at its stamp. */
  predicate Lawful(w: World, t: Tables, history: map<Moment, Row>, a: Authority) {
    1 <= a.stamp <= StampOf(t, a.key) && (w.honest && a.error.None? ==> Was(history, a.key, a.stamp, Content(a)))
  }

  ghost predicate AllLawful(w: World, t: Tables, history: map<Moment, Row>, records: seq<Authority>) {
    forall i :: 0 <= i < |records| ==> Lawful(w, t, history, records[i])
  }

  ghost predicate PageTrue(t: Tables, page: Page) {
    && (forall c, row :: row in Log(t, c) ==> CarriesRow(page, c, row))
    && forall c :: c in page.cursors ==> page.cursors[c].to <= Head(t, c)
  }

  ghost predicate MessageTrue(w: World, t: Tables, history: map<Moment, Row>, m: Message) {
    match m
    case Upload(_) => true
    case Reply(receipt) => AllLawful(w, t, history, receipt.records)
    case Changes(page) => AllLawful(w, t, history, page.changes) && PageTrue(t, page)
  }

  /** A record is held at a stamp the server gave, with that stamp's content unless it leaked; one never
      received is absent. */
  ghost predicate RecordTrue(w: World, t: Tables, history: map<Moment, Row>, c: Replica, k: Key) {
    var v := HeldIn(c.holding, k);
    && v.stamp <= StampOf(t, k)
    && (k !in c.leaked && v.stamp == 0 ==> v.row == None)
    && (w.honest && k !in c.leaked && v.stamp > 0 ==> Was(history, k, v.stamp, v.row))
  }

  /** Only deliveries newer than what is held are missed. */
  predicate MissedTrue(t: Tables, c: Replica, k: Key) {
    k in c.missed ==> Stamp(c.holding.stamps, k) < c.missed[k] <= StampOf(t, k)
  }

  /** At its cursor a client holds every row up to there, at least as new as the row says, or missed a
      delivery of it that was. */
  predicate RowHeld(c: Replica, channel: string, row: Invalidation) {
    channel in c.cursors && row.cursor <= c.cursors[channel] ==> Heard(c, row.key, row.stamp)
  }

  predicate Heard(c: Replica, k: Key, stamp: nat) {
    Stamp(c.holding.stamps, k) >= stamp || MissedStamp(c.missed, k) >= stamp
  }

  ghost predicate ReplicaTrue(w: World, t: Tables, history: map<Moment, Row>, c: Replica) {
    && AtRest(c)
    && (forall k :: RecordTrue(w, t, history, c, k))
    && (forall k :: MissedTrue(t, c, k))
    && (forall h :: h in c.cursors ==> c.cursors[h] <= Head(t, h))
    && forall h, row :: row in Log(t, h) ==> RowHeld(c, h, row)
  }

  ghost predicate Truth(w: World, s: System) {
    && (w.honest ==> HistoryOk(s.server.tables, s.history))
    && (forall id :: id in s.clients ==> ReplicaTrue(w, s.server.tables, s.history, s.clients[id]))
    && forall m :: m in s.network ==> MessageTrue(w, s.server.tables, s.history, m)
  }

  /** What was stays known as the server moves on. */
  ghost predicate Remembers(history: map<Moment, Row>, history': map<Moment, Row>) {
    forall m :: m in history ==> m in history' && history'[m] == history[m]
  }

  lemma RecordedKeeps(t: Tables, t': Tables, history: map<Moment, Row>)
    requires HistoryOk(t, history) && Grows(t, t') && Tells(t, t')
    ensures HistoryOk(t', Chronicled(history, t')) && Remembers(history, Chronicled(history, t'))
  {
    var history' := Chronicled(history, t');
    forall m | m in history ensures m in history' && history'[m] == history[m] {
      assert RecordGrows(t, t', m.key) && RecordTells(t, t', m.key);
      if m.key in t'.stamps && m.stamp == t'.stamps[m.key] {
        assert m == Moment(m.key, t'.stamps[m.key]);
        MomentKnown(t, t', history, m);
      }
    }
    forall k | k in t'.stamps ensures Was(history', k, t'.stamps[k], At(t'.rows, k)) {
    }
    forall m | m in history' ensures m.key in t'.stamps && m.stamp <= t'.stamps[m.key] {
      if m in history { assert RecordGrows(t, t', m.key); }
    }
  }

  lemma MomentKnown(t: Tables, t': Tables, history: map<Moment, Row>, m: Moment)
    requires HistoryOk(t, history) && RecordGrows(t, t', m.key) && RecordTells(t, t', m.key) && m in history
    requires m.key in t.stamps && m.key in t'.stamps && m.stamp == t'.stamps[m.key] && m.stamp <= t.stamps[m.key]
    ensures history[m] == At(t'.rows, m.key)
  {
    assert Was(history, m.key, t.stamps[m.key], At(t.rows, m.key));
    assert m == Moment(m.key, t.stamps[m.key]);
  }

  /** Rows up to the old head are old rows. */
  lemma OldRow(t: Tables, t': Tables, h: string, row: Invalidation)
    requires Grows(t, t') && row in Log(t', h) && row.cursor <= Head(t, h)
    ensures row in Log(t, h)
  {
    assert LogGrows(Log(t, h), Head(t, h), Log(t', h), Head(t', h));
    var i :| 0 <= i < |Log(t', h)| && Log(t', h)[i] == row;
  }

  lemma LawfulKeeps(w: World, t: Tables, t': Tables, history: map<Moment, Row>, history': map<Moment, Row>,
                    records: seq<Authority>)
    requires Grows(t, t') && (w.honest ==> Remembers(history, history')) && AllLawful(w, t, history, records)
    ensures AllLawful(w, t', history', records)
  {
    forall i | 0 <= i < |records| ensures Lawful(w, t', history', records[i]) {
      assert Lawful(w, t, history, records[i]) && RecordGrows(t, t', records[i].key);
    }
  }

  lemma MessageKeeps(w: World, t: Tables, t': Tables, history: map<Moment, Row>, history': map<Moment, Row>, m: Message)
    requires Grows(t, t') && (w.honest ==> Remembers(history, history')) && MessageTrue(w, t, history, m)
    ensures MessageTrue(w, t', history', m)
  {
    match m {
      case Upload(_) =>
      case Reply(receipt) => LawfulKeeps(w, t, t', history, history', receipt.records);
      case Changes(page) =>
        LawfulKeeps(w, t, t', history, history', page.changes);
        forall c, row | row in Log(t', c) ensures CarriesRow(page, c, row) {
          if c in page.cursors && row.cursor <= page.cursors[c].to { OldRow(t, t', c, row); }
        }
        forall c | c in page.cursors ensures page.cursors[c].to <= Head(t', c) {
          assert LogGrows(Log(t, c), Head(t, c), Log(t', c), Head(t', c));
        }
    }
  }

  lemma ReplicaKeeps(w: World, t: Tables, t': Tables, history: map<Moment, Row>, history': map<Moment, Row>, c: Replica)
    requires Grows(t, t') && (w.honest ==> Remembers(history, history')) && ReplicaTrue(w, t, history, c)
    ensures ReplicaTrue(w, t', history', c)
  {
    forall k ensures RecordTrue(w, t', history', c, k) && MissedTrue(t', c, k) {
      assert RecordTrue(w, t, history, c, k) && MissedTrue(t, c, k) && RecordGrows(t, t', k);
    }
    forall h | h in c.cursors ensures c.cursors[h] <= Head(t', h) {
      assert LogGrows(Log(t, h), Head(t, h), Log(t', h), Head(t', h));
    }
    forall h, row | row in Log(t', h) ensures RowHeld(c, h, row) {
      if h in c.cursors && row.cursor <= c.cursors[h] { OldRow(t, t', h, row); }
    }
  }

  /** One record of a delivery explains a raised stamp, content included. */
  predicate Tops(accepts: (Key, Fields) -> bool, a: Authority, stamp: nat, k: Key, e: Version) {
    a.key == k && Usable(accepts, a) && a.stamp > stamp && e == Version(Content(a), a.stamp)
  }

  lemma {:induction false} EvolveContent(accepts: (Key, Fields) -> bool, v: Version, records: seq<Authority>, k: Key)
    ensures var e := Evolve(accepts, v, records, k);
      e == v || exists i :: 0 <= i < |records| && Tops(accepts, records[i], v.stamp, k, e)
    decreases |records|
  {
    if records != [] {
      var a, tail := records[0], records[1..];
      var next := if a.key == k then Land(accepts, v, a) else v;
      EvolveContent(accepts, next, tail, k);
      var e := Evolve(accepts, v, records, k);
      if e == next {
        if next != v { assert Tops(accepts, records[0], v.stamp, k, e); }
      } else {
        var i :| 0 <= i < |tail| && Tops(accepts, tail[i], next.stamp, k, e);
        assert Tops(accepts, records[i + 1], v.stamp, k, e);
      }
    }
  }

  /** A delivery of lawful records keeps a record true. */
  lemma EvolveKeeps(w: World, t: Tables, history: map<Moment, Row>, v: Version, records: seq<Authority>, k: Key)
    requires AllLawful(w, t, history, records)
    ensures var e := Evolve(w.accepts, v, records, k);
      e == v || (e.stamp > v.stamp && (w.honest ==> Was(history, k, e.stamp, e.row)))
  {
    EvolveContent(w.accepts, v, records, k);
    var e := Evolve(w.accepts, v, records, k);
    if e != v {
      var i :| 0 <= i < |records| && Tops(w.accepts, records[i], v.stamp, k, e);
      assert Lawful(w, t, history, records[i]);
    }
  }

  lemma HighestKeeps(w: World, t: Tables, history: map<Moment, Row>, stamp: nat, records: seq<Authority>, k: Key)
    requires AllLawful(w, t, history, records) && stamp <= StampOf(t, k)
    ensures stamp <= Highest(w.accepts, stamp, records, k) <= StampOf(t, k)
  {
    HighestBound(w.accepts, stamp, records, k);
    if Highest(w.accepts, stamp, records, k) > stamp {
      var i :| 0 <= i < |records| && records[i].key == k && Usable(w.accepts, records[i])
               && records[i].stamp == Highest(w.accepts, stamp, records, k);
      assert Lawful(w, t, history, records[i]);
    }
  }

  predicate Unusable(accepts: (Key, Fields) -> bool, a: Authority, k: Key) {
    a.key == k && !Usable(accepts, a)
  }

  lemma {:induction false} UnusableBound(accepts: (Key, Fields) -> bool, stamp: nat, records: seq<Authority>, k: Key)
    ensures var floor := HighestUnusable(accepts, stamp, records, k);
      && floor >= stamp
      && (forall i :: 0 <= i < |records| && Unusable(accepts, records[i], k) ==> records[i].stamp <= floor)
      && (floor > stamp ==>
            exists i :: 0 <= i < |records| && Unusable(accepts, records[i], k) && records[i].stamp == floor)
  {
    if records != [] {
      var front, last := records[..|records| - 1], |records| - 1;
      UnusableBound(accepts, stamp, front, k);
      var floor := HighestUnusable(accepts, stamp, records, k);
      forall i | 0 <= i < |records| && Unusable(accepts, records[i], k) ensures records[i].stamp <= floor {
        assert i < last ==> Unusable(accepts, front[i], k);
      }
      if floor > stamp {
        if floor == HighestUnusable(accepts, stamp, front, k) {
          var i :| 0 <= i < |front| && Unusable(accepts, front[i], k) && front[i].stamp == floor;
          assert Unusable(accepts, records[i], k);
        } else {
          assert Unusable(accepts, records[last], k);
        }
      }
    }
  }

  /** What is missed after a delivery: the highest unusable stamp so far, while it is above the held one. */
  lemma MissingIs(accepts: (Key, Fields) -> bool, missed: map<Key, nat>, stamps: map<Key, nat>, records: seq<Authority>,
                  k: Key)
    ensures var missed' := StillMissed(accepts, missed, stamps, records);
      var floor := HighestUnusable(accepts, MissedStamp(missed, k), records, k);
      (k in missed' <==> floor > Stamp(stamps, k)) && (k in missed' ==> missed'[k] == floor)
  {
    UnusableBound(accepts, MissedStamp(missed, k), records, k);
  }

  /** What was heard stays heard, and what an unusable delivery names is heard. */
  lemma HeardKeeps(w: World, c: Replica, c': Replica, records: seq<Authority>, k: Key, stamp: nat)
    requires c'.missed == StillMissed(w.accepts, c.missed, c'.holding.stamps, records)
    requires Stamp(c'.holding.stamps, k) >= Stamp(c.holding.stamps, k)
    requires Heard(c, k, stamp) || exists i ::
      0 <= i < |records| && Unusable(w.accepts, records[i], k) && records[i].stamp >= stamp
    ensures Heard(c', k, stamp)
  {
    MissingIs(w.accepts, c.missed, c'.holding.stamps, records, k);
    UnusableBound(w.accepts, MissedStamp(c.missed, k), records, k);
  }

  lemma MissedKeeps(w: World, t: Tables, history: map<Moment, Row>, c: Replica, c': Replica, records: seq<Authority>,
                    k: Key)
    requires MissedTrue(t, c, k) && AllLawful(w, t, history, records)
    requires c'.missed == StillMissed(w.accepts, c.missed, c'.holding.stamps, records)
    ensures MissedTrue(t, c', k)
  {
    MissingIs(w.accepts, c.missed, c'.holding.stamps, records, k);
    UnusableBound(w.accepts, MissedStamp(c.missed, k), records, k);
    var floor := HighestUnusable(w.accepts, MissedStamp(c.missed, k), records, k);
    if floor > MissedStamp(c.missed, k) {
      var i :| 0 <= i < |records| && Unusable(w.accepts, records[i], k) && records[i].stamp == floor;
      assert Lawful(w, t, history, records[i]);
    }
  }

  lemma LocalTrue(w: World, t: Tables, history: map<Moment, Row>, c: Replica, c': Replica, applied: seq<Op>)
    requires ReplicaTrue(w, t, history, c) && LocalStep(c, c', applied)
    ensures ReplicaTrue(w, t, history, c')
  {
    forall k ensures RecordTrue(w, t, history, c', k) && MissedTrue(t, c', k) {
      assert RecordTrue(w, t, history, c, k) && MissedTrue(t, c, k);
      assert HeldIn(c'.holding, k) == HeldIn(c.holding, k) <==> !Leaks(c.holding.db, applied, k);
    }
    forall h, row | row in Log(t, h) ensures RowHeld(c', h, row) {
      assert RowHeld(c, h, row);
    }
  }

  lemma FreezeTrue(w: World, t: Tables, history: map<Moment, Row>, c: Replica, c': Replica)
    requires ReplicaTrue(w, t, history, c) && FreezeStep(c, c')
    ensures ReplicaTrue(w, t, history, c')
  {
    forall k ensures RecordTrue(w, t, history, c', k) && MissedTrue(t, c', k) {
      assert RecordTrue(w, t, history, c, k) && MissedTrue(t, c, k);
      assert HeldIn(c'.holding, k) == HeldIn(c.holding, k);
    }
    forall h, row | row in Log(t, h) ensures RowHeld(c', h, row) {
      assert RowHeld(c, h, row) && HeldIn(c'.holding, row.key) == HeldIn(c.holding, row.key);
    }
  }

  /** A delivery keeps one record true: what did not go astray is what its deliveries explain. */
  lemma DeliveryRecord(w: World, t: Tables, history: map<Moment, Row>, c: Replica, c': Replica, records: seq<Authority>,
                       k: Key)
    requires RecordTrue(w, t, history, c, k) && AllLawful(w, t, history, records)
    requires HeldIn(c'.holding, k).stamp == Highest(w.accepts, HeldIn(c.holding, k).stamp, records, k)
    requires k in c'.leaked <==> Astray(w, c, c'.holding, records, k)
    ensures RecordTrue(w, t, history, c', k) && Stamp(c'.holding.stamps, k) >= Stamp(c.holding.stamps, k)
  {
    HighestKeeps(w, t, history, HeldIn(c.holding, k).stamp, records, k);
    EvolveKeeps(w, t, history, HeldIn(c.holding, k), records, k);
  }

  lemma ReceiptStamp(w: World, c: Replica, h: Holding, receipt: Receipt, k: Key)
    requires AtRest(c) && SameHeld(Receiving(w.relations, w.accepts, c.holding, receipt), h)
    ensures HeldIn(h, k).stamp == Highest(w.accepts, HeldIn(c.holding, k).stamp, receipt.records, k)
  {
    var accepted := AcceptedBy(c.books.queue, receipt);
    OnlyMembers(c.books.queue, Taken(c.books.queue, receipt));
    RestIsSound(c);
    ReceiveMoves(w.relations, w.accepts, c.holding, accepted, receipt.records, k);
    assert HeldIn(h, k) == HeldIn(Receiving(w.relations, w.accepts, c.holding, receipt), k);
  }

  lemma RestIsSound(c: Replica)
    requires AtRest(c)
    ensures Sound(c.holding) && forall records :: Landable(c.holding, records)
  {
  }

  lemma ReceiptTrue(w: World, t: Tables, history: map<Moment, Row>, id: string, c: Replica, c': Replica,
                    receipt: Receipt)
    requires ReplicaTrue(w, t, history, c) && ReceiptStep(w, id, c, c', receipt)
    requires AllLawful(w, t, history, receipt.records)
    ensures ReplicaTrue(w, t, history, c')
  {
    if Judge(id, c.books.completed, c.books.queue, receipt.sequence, receipt) == None {
      forall k ensures RecordTrue(w, t, history, c', k) && Stamp(c'.holding.stamps, k) >= Stamp(c.holding.stamps, k) {
        assert RecordTrue(w, t, history, c, k);
        ReceiptStamp(w, c, c'.holding, receipt, k);
        DeliveryRecord(w, t, history, c, c', receipt.records, k);
      }
      forall k ensures MissedTrue(t, c', k) {
        assert MissedTrue(t, c, k);
        MissedKeeps(w, t, history, c, c', [], k);
      }
      forall h, row | row in Log(t, h) ensures RowHeld(c', h, row) {
        assert RowHeld(c, h, row);
        if Heard(c, row.key, row.stamp) { HeardKeeps(w, c, c', [], row.key, row.stamp); }
      }
    }
  }

  lemma PageRecord(w: World, t: Tables, history: map<Moment, Row>, c: Replica, c': Replica, page: Page, k: Key)
    requires ReplicaTrue(w, t, history, c) && AllLawful(w, t, history, page.changes) && PageStep(w, c, c', page)
    requires c' != c
    ensures RecordTrue(w, t, history, c', k) && MissedTrue(t, c', k)
    ensures Stamp(c'.holding.stamps, k) >= Stamp(c.holding.stamps, k)
    ensures Stamp(c'.holding.stamps, k) == Highest(w.accepts, Stamp(c.holding.stamps, k), page.changes, k)
  {
    assert RecordTrue(w, t, history, c, k) && MissedTrue(t, c, k);
    RestIsSound(c);
    LandAllMoves(w.relations, w.accepts, c.holding, page.changes, k);
    assert HeldIn(c'.holding, k) == HeldIn(LandAll(w.relations, w.accepts, c.holding, page.changes), k);
    DeliveryRecord(w, t, history, c, c', page.changes, k);
    MissedKeeps(w, t, history, c, c', page.changes, k);
  }

  lemma PageRow(w: World, t: Tables, history: map<Moment, Row>, c: Replica, c': Replica, page: Page, h: string,
                row: Invalidation)
    requires ReplicaTrue(w, t, history, c) && AllLawful(w, t, history, page.changes) && PageTrue(t, page)
    requires PageStep(w, c, c', page) && c' != c && row in Log(t, h)
    ensures RowHeld(c', h, row)
  {
    assert RowHeld(c, h, row) && CarriesRow(page, h, row);
    PageRecord(w, t, history, c, c', page, row.key);
    if h in c'.cursors && row.cursor <= c'.cursors[h] {
      if h in c.cursors && row.cursor <= c.cursors[h] {
        HeardKeeps(w, c, c', page.changes, row.key, row.stamp);
      } else {
        assert h in Moving(c.cursors, page);
        DeliveredHeard(w, c, c', page.changes, row.key, row.stamp);
      }
    }
  }

  /** A delivered record is held at its stamp or missed at it. */
  lemma DeliveredHeard(w: World, c: Replica, c': Replica, records: seq<Authority>, k: Key, stamp: nat)
    requires Paging.Delivers(records, k, stamp)
    requires c'.missed == StillMissed(w.accepts, c.missed, c'.holding.stamps, records)
    requires Stamp(c'.holding.stamps, k) == Highest(w.accepts, Stamp(c.holding.stamps, k), records, k)
    ensures Heard(c', k, stamp)
  {
    var i :| 0 <= i < |records| && records[i].key == k && records[i].stamp >= stamp;
    HighestBound(w.accepts, Stamp(c.holding.stamps, k), records, k);
    if !Usable(w.accepts, records[i]) {
      assert Unusable(w.accepts, records[i], k);
      HeardKeeps(w, c, c', records, k, stamp);
    }
  }

  lemma PageStepTrue(w: World, t: Tables, history: map<Moment, Row>, c: Replica, c': Replica, page: Page)
    requires ReplicaTrue(w, t, history, c) && AllLawful(w, t, history, page.changes) && PageTrue(t, page)
    requires PageStep(w, c, c', page)
    ensures ReplicaTrue(w, t, history, c')
  {
    if c' != c {
      forall k
        ensures RecordTrue(w, t, history, c', k) && MissedTrue(t, c', k)
      {
        PageRecord(w, t, history, c, c', page, k);
      }
      forall h, row | row in Log(t, h) ensures RowHeld(c', h, row) { PageRow(w, t, history, c, c', page, h, row); }
      forall h | h in c'.cursors ensures c'.cursors[h] <= Head(t, h) {
      }
    }
  }

  lemma SubscribeTrue(w: World, t: Tables, history: map<Moment, Row>, c: Replica, c': Replica)
    requires ReplicaTrue(w, t, history, c) && SubscribeStep(c, c') && WellKept(t)
    ensures ReplicaTrue(w, t, history, c')
  {
    forall k ensures RecordTrue(w, t, history, c', k) && MissedTrue(t, c', k) {
      assert RecordTrue(w, t, history, c, k) && MissedTrue(t, c, k);
    }
    forall h, row | row in Log(t, h) ensures RowHeld(c', h, row) {
      assert RowHeld(c, h, row) && WellLogged(Log(t, h), Head(t, h), t.stamps);
      var i :| 0 <= i < |Log(t, h)| && Log(t, h)[i] == row;
    }
  }

  lemma AnyReceiptTrue(w: World, t: Tables, history: map<Moment, Row>, network: set<Message>, id: string, c: Replica,
                       c': Replica)
    requires ReplicaTrue(w, t, history, c) && GetsReceipt(w, network, id, c, c')
    requires forall m :: m in network ==> MessageTrue(w, t, history, m)
    ensures ReplicaTrue(w, t, history, c')
  {
    var receipt :| Reply(receipt) in network && ReceiptStep(w, id, c, c', receipt);
    assert MessageTrue(w, t, history, Reply(receipt));
    ReceiptTrue(w, t, history, id, c, c', receipt);
  }

  lemma AnyPageTrue(w: World, t: Tables, history: map<Moment, Row>, network: set<Message>, c: Replica, c': Replica)
    requires ReplicaTrue(w, t, history, c) && GetsPage(w, network, c, c')
    requires forall m :: m in network ==> MessageTrue(w, t, history, m)
    ensures ReplicaTrue(w, t, history, c')
  {
    var page :| Changes(page) in network && PageStep(w, c, c', page);
    assert MessageTrue(w, t, history, Changes(page));
    PageStepTrue(w, t, history, c, c', page);
  }

  lemma ReplicaMoves(w: World, s: System, s': System, id: string)
    requires Truth(w, s) && ClientMoves(w, s, s', id) && WellKept(s.server.tables)
    ensures ReplicaTrue(w, s.server.tables, s.history, s'.clients[id])
  {
    var t, history, c, c' := s.server.tables, s.history, s.clients[id], s'.clients[id];
    assert ReplicaTrue(w, t, history, c);
    if MovesLocally(c, c') {
      var applied :| LocalStep(c, c', applied);
      LocalTrue(w, t, history, c, c', applied);
    } else if FreezeStep(c, c') {
      FreezeTrue(w, t, history, c, c');
    } else if c' == c {
    } else if GetsReceipt(w, s.network, id, c, c') {
      AnyReceiptTrue(w, t, history, s.network, id, c, c');
    } else if GetsPage(w, s.network, c, c') {
      AnyPageTrue(w, t, history, s.network, c, c');
    } else {
      SubscribeTrue(w, t, history, c, c');
    }
  }

  lemma ClientMoveTrue(w: World, s: System, s': System, id: string)
    requires Truth(w, s) && ClientMoves(w, s, s', id) && WellKept(s.server.tables)
    ensures Truth(w, s')
  {
    ReplicaMoves(w, s, s', id);
    OneClient(w, s, s', id);
  }

  lemma OneClient(w: World, s: System, s': System, id: string)
    requires Truth(w, s) && id in s.clients && id in s'.clients && s'.clients == s.clients[id := s'.clients[id]]
    requires s'.server == s.server && s'.history == s.history
    requires ReplicaTrue(w, s.server.tables, s.history, s'.clients[id])
    requires s.network <= s'.network && forall m :: m in s'.network && m !in s.network ==> m.Upload?
    ensures Truth(w, s')
  {
    forall m | m in s'.network ensures MessageTrue(w, s'.server.tables, s'.history, m) {
      if m in s.network { assert MessageTrue(w, s.server.tables, s.history, m); }
    }
  }

  /** The server moved on; whatever new was said is lawful. */
  lemma ServerMoves(w: World, s: System, s': System)
    requires Truth(w, s) && Grows(s.server.tables, s'.server.tables) && s'.clients == s.clients
    requires w.honest ==> Tells(s.server.tables, s'.server.tables)
    requires s'.history == Chronicled(s.history, s'.server.tables)
    requires forall m :: m in s'.network && m !in s.network ==> MessageTrue(w, s'.server.tables, s'.history, m)
    ensures Truth(w, s')
  {
    var t, t' := s.server.tables, s'.server.tables;
    if w.honest { RecordedKeeps(t, t', s.history); }
    forall id | id in s'.clients ensures ReplicaTrue(w, t', s'.history, s'.clients[id]) {
      ReplicaKeeps(w, t, t', s.history, s'.history, s.clients[id]);
    }
    forall m | m in s'.network ensures MessageTrue(w, t', s'.history, m) {
      if m in s.network { MessageKeeps(w, t, t', s.history, s'.history, m); }
    }
  }

  lemma StoredIsLawful(w: World, t: Tables, history: map<Moment, Row>, records: seq<Authority>)
    requires WellKept(t) && AllStamped(t, records) && (w.honest ==> AllStored(t, records))
    ensures AllLawful(w, t, Chronicled(history, t), records)
  {
    forall i | 0 <= i < |records| ensures Lawful(w, t, Chronicled(history, t), records[i]) {
      assert AsStamped(t, records[i]);
      assert w.honest ==> AsStored(t, records[i]);
    }
  }

  lemma DeliverTrue(w: World, b: Backend, s: System, s': System, request: Request)
    requires Truth(w, s) && DeliveryOk(w, s) && DeliverStep(w, b, s, s', request)
    ensures Truth(w, s')
  {
    var id := request.clientId;
    var owner, claimed := w.owners(id), Claim(w, s, id);
    var r := Delivered(b, owner, request, s.server);
    DeliveredKeeps(b, owner, request, s.server);
    if w.honest { DeliveredTells(b, owner, request, s.server); }
    NeverAGap(w, s, request);
    if r.0.Answered? && request.sequence == claimed.sequence + 1 {
      NewBatchIsFlight(w, s, request);
      assert IdOk(w, s, id);
      FlightDistinct(s.clients[id].books.queue);
      NextBatchCompletes(b, owner, request, s.server);
      if w.honest { NextBatchTells(b, owner, request, s.server); }
      StoredIsLawful(w, r.1.tables, s.history, r.0.receipt.records);
    } else if r.0.Answered? {
      StoredAnswer(w, b, s, request);
    }
    ServerMoves(w, s, s');
  }

  lemma StoredAnswer(w: World, b: Backend, s: System, request: Request)
    requires DeliveryOk(w, s) && Upload(request) in s.network
    requires var r := Delivered(b, w.owners(request.clientId), request, s.server);
      r.0.Answered? && request.sequence != Claim(w, s, request.clientId).sequence + 1
    ensures Reply(Delivered(b, w.owners(request.clientId), request, s.server).0.receipt) in s.network
  {
    assert MessageOk(w, s, Upload(request));
    assert IdOk(w, s, request.clientId);
  }

  lemma PullTrue(w: World, s: System, s': System)
    requires Truth(w, s) && PullStep(w, s, s') && WellKept(s.server.tables)
    ensures Truth(w, s')
  {
    var page :| ServedFrom(w, s.server.tables, page) && s' == s.(network := s.network + {Changes(page)});
    var t, history := s.server.tables, s.history;
    forall i | 0 <= i < |page.changes| ensures Lawful(w, t, history, page.changes[i]) {
      assert Stamped(t, page.changes[i]);
      assert w.honest ==> Truly(t, page.changes[i]);
    }
    forall c, row | row in Log(t, c) ensures CarriesRow(page, c, row) {
      var i :| 0 <= i < |Log(t, c)| && Log(t, c)[i] == row;
    }
    forall m | m in s'.network ensures MessageTrue(w, t, history, m) {
    }
  }

  lemma AnyClientTrue(w: World, s: System, s': System)
    requires Truth(w, s) && WellKept(s.server.tables) && exists id :: ClientMoves(w, s, s', id)
    ensures Truth(w, s')
  {
    var id :| ClientMoves(w, s, s', id);
    ClientMoveTrue(w, s, s', id);
  }

  lemma AnyDeliveryTrue(w: World, s: System, s': System)
    requires Truth(w, s) && DeliveryOk(w, s) && exists b, request :: DeliverStep(w, b, s, s', request)
    ensures Truth(w, s')
  {
    var b, request :| DeliverStep(w, b, s, s', request);
    DeliverTrue(w, b, s, s', request);
  }

  lemma JoinTrue(w: World, s: System, s': System)
    requires Truth(w, s) && exists id :: Joins(s, s', id)
    ensures Truth(w, s')
  {
    assert forall k :: HeldIn(Newborn().holding, k) == Version(None, 0);
  }

  lemma ExternalTrue(w: World, s: System, s': System)
    requires Truth(w, s) && ExternalStep(w, s, s')
    ensures Truth(w, s')
  {
    ServerMoves(w, s, s');
  }

  lemma NextTrue(w: World, s: System, s': System)
    requires Truth(w, s) && DeliveryOk(w, s) && Next(w, s, s')
    ensures Truth(w, s')
  {
    if s' == s {
    } else if exists id :: ClientMoves(w, s, s', id) {
      AnyClientTrue(w, s, s');
    } else if exists id :: Joins(s, s', id) {
      JoinTrue(w, s, s');
    } else if exists b, request :: DeliverStep(w, b, s, s', request) {
      AnyDeliveryTrue(w, s, s');
    } else if PullStep(w, s, s') {
      PullTrue(w, s, s');
    } else {
      ExternalTrue(w, s, s');
    }
  }

  lemma InitTrue(w: World, s: System)
    requires Init(s)
    ensures Truth(w, s)
  {
  }

  lemma TruthOn(w: World, states: seq<System>, n: nat)
    requires Run(w, states) && 0 < n < |states| && Truth(w, states[n - 1])
    ensures Truth(w, states[n])
  {
    DeliveryAlways(w, states, n - 1);
    Stepped(w, states, n);
    NextTrue(w, states[n - 1], states[n]);
  }

  lemma {:induction false} TruthAlways(w: World, states: seq<System>, n: nat)
    requires Run(w, states) && n < |states|
    ensures Truth(w, states[n])
  {
    if n == 0 {
      InitTrue(w, states[0]);
    } else {
      TruthAlways(w, states, n - 1);
      TruthOn(w, states, n);
    }
  }

  /** Convergence: over every run, whatever the network lost, repeated or reordered, and whatever handlers
      and loaders did, a client at a cursor holds every record with a row up to there at least as new as
      that row, unless it missed a delivery that was; and as the server had it at that stamp, unless it
      leaked or the server was not honest. */
  lemma AtTheCursor(w: World, states: seq<System>, n: nat, id: string, channel: string, row: Invalidation)
    requires Run(w, states) && n < |states| && id in states[n].clients && row in Log(states[n].server.tables, channel)
    requires var c := states[n].clients[id]; channel in c.cursors && row.cursor <= c.cursors[channel]
    ensures var c := states[n].clients[id];
      var v := HeldIn(c.holding, row.key);
      && v.stamp <= StampOf(states[n].server.tables, row.key)
      && (row.stamp <= v.stamp || (row.key in c.missed && row.stamp <= c.missed[row.key]))
      && (row.key !in c.leaked && v.stamp == 0 ==> v.row == None)
      && (w.honest && row.key !in c.leaked && v.stamp > 0 ==> Was(states[n].history, row.key, v.stamp, v.row))
  {
    TruthAlways(w, states, n);
    var s := states[n];
    assert ReplicaTrue(w, s.server.tables, s.history, s.clients[id]);
    assert RowHeld(s.clients[id], channel, row) && RecordTrue(w, s.server.tables, s.history, s.clients[id], row.key);
  }

  ghost predicate AtHead(s: System, id: string, channel: string, row: Invalidation) {
    && id in s.clients && row in Log(s.server.tables, channel)
    && channel in s.clients[id].cursors && s.clients[id].cursors[channel] == Head(s.server.tables, channel)
    && row.stamp == StampOf(s.server.tables, row.key)
  }

  /** At the head, a record published at its current stamp is held at that stamp exactly unless the client
      missed a delivery of it; and, unless it leaked, then exactly as the server has it. */
  lemma Converged(w: World, states: seq<System>, n: nat, id: string, channel: string, row: Invalidation)
    requires Run(w, states) && n < |states| && AtHead(states[n], id, channel, row)
    ensures var c, t := states[n].clients[id], states[n].server.tables;
      && (Stamp(c.holding.stamps, row.key) == StampOf(t, row.key) <==> row.key !in c.missed)
      && (w.honest && row.key !in c.leaked ==>
            (HeldIn(c.holding, row.key) == Version(At(t.rows, row.key), StampOf(t, row.key)) <==> row.key !in c.missed))
  {
    var s := states[n];
    TruthAlways(w, states, n);
    DeliveryAlways(w, states, n);
    HeldAsStored(w, s.server.tables, s.history, s.clients[id], channel, row);
  }

  /** With nothing pending the visible row itself is the server's. */
  lemma NoPendingMeansConverged(w: World, states: seq<System>, n: nat, id: string, channel: string, row: Invalidation)
    requires Run(w, states) && n < |states| && AtHead(states[n], id, channel, row) && w.honest
    requires var c := states[n].clients[id]; c.books.queue == [] && row.key !in c.missed && row.key !in c.leaked
    ensures At(states[n].clients[id].holding.db.main, row.key) == At(states[n].server.tables.rows, row.key)
  {
    TruthAlways(w, states, n);
    assert AtRest(states[n].clients[id]);
    Converged(w, states, n, id, channel, row);
  }

  lemma HeldAsStored(w: World, t: Tables, history: map<Moment, Row>, c: Replica, channel: string, row: Invalidation)
    requires WellKept(t) && (w.honest ==> HistoryOk(t, history)) && ReplicaTrue(w, t, history, c)
    requires row in Log(t, channel)
    requires channel in c.cursors && c.cursors[channel] == Head(t, channel) && row.stamp == StampOf(t, row.key)
    ensures Stamp(c.holding.stamps, row.key) == StampOf(t, row.key) <==> row.key !in c.missed
    ensures w.honest && row.key !in c.leaked ==>
      (HeldIn(c.holding, row.key) == Version(At(t.rows, row.key), StampOf(t, row.key)) <==> row.key !in c.missed)
  {
    RowInRange(t, channel, row);
    RecordIs(w, t, history, c, channel, row);
    if w.honest { HistoryHas(t, history, row.key); }
  }

  lemma RecordIs(w: World, t: Tables, history: map<Moment, Row>, c: Replica, channel: string, row: Invalidation)
    requires ReplicaTrue(w, t, history, c) && row in Log(t, channel)
    ensures RowHeld(c, channel, row) && RecordTrue(w, t, history, c, row.key) && MissedTrue(t, c, row.key)
  {
  }

  lemma HistoryHas(t: Tables, history: map<Moment, Row>, k: Key)
    requires HistoryOk(t, history) && k in t.stamps
    ensures Was(history, k, t.stamps[k], At(t.rows, k))
  {
  }

  lemma RowInRange(t: Tables, channel: string, row: Invalidation)
    requires WellKept(t) && row in Log(t, channel)
    ensures 1 <= row.cursor <= Head(t, channel) && row.key in t.stamps && t.stamps[row.key] >= 1
  {
    assert WellLogged(Log(t, channel), Head(t, channel), t.stamps);
    var i :| 0 <= i < |Log(t, channel)| && Log(t, channel)[i] == row;
  }

  /** No companion of a queued mutation touches the record. */
  predicate NoCompanion(queue: seq<Queued>, k: Key) {
    forall i :: 0 <= i < |queue| ==> Touching(queue[i].companion, k) == []
  }

  lemma {:induction false} CompanionsMiss(mutations: seq<Queued>, k: Key)
    requires NoCompanion(mutations, k)
    ensures Touching(Companions(mutations), k) == []
  {
    if mutations != [] {
      forall i | 0 <= i < |mutations[1..]| ensures Touching(mutations[1..][i].companion, k) == [] {
        assert mutations[1..][i] == mutations[i + 1];
      }
      CompanionsMiss(mutations[1..], k);
      TouchingConcat(mutations[0].companion, Companions(mutations[1..]), k);
    }
  }

  lemma AcceptedMiss(queue: seq<Queued>, receipt: Receipt, k: Key)
    requires NoCompanion(queue, k)
    ensures Touching(Companions(AcceptedBy(queue, receipt)), k) == []
    ensures forall q :: q in AcceptedBy(queue, receipt) ==> q in queue
  {
    var accepted := AcceptedBy(queue, receipt);
    OnlyMembers(queue, Taken(queue, receipt));
    forall i | 0 <= i < |accepted| ensures Touching(accepted[i].companion, k) == [] {
      assert accepted[i] in queue;
    }
    CompanionsMiss(accepted, k);
  }

  /** The client has no companion on the record pending and applies no draft that leaks it. */
  ghost predicate Quiet(s: System, s': System, id: string, k: Key) {
    id in s.clients && id in s'.clients ==>
      NoCompanion(s.clients[id].books.queue, k) && DraftsKeep(s.clients[id], s'.clients[id], k)
  }

  ghost predicate DraftsKeep(c: Replica, c': Replica, k: Key) {
    forall applied :: LocalStep(c, c', applied) ==> !Leaks(c.holding.db, applied, k)
  }

  ghost predicate QuietUntil(states: seq<System>, n: nat, id: string, k: Key)
    requires n < |states|
  {
    forall i :: 0 <= i < n ==> QuietStep(states, i, id, k)
  }

  ghost predicate QuietStep(states: seq<System>, i: int, id: string, k: Key)
    requires 0 <= i < |states| - 1
  {
    Quiet(states[i], states[i + 1], id, k)
  }

  lemma ReceiptQuiet(w: World, id: string, c: Replica, c': Replica, receipt: Receipt, k: Key)
    requires AtRest(c) && ReceiptStep(w, id, c, c', receipt) && Lone(w.relations, k) && NoCompanion(c.books.queue, k)
    requires k !in c.leaked
    ensures k !in c'.leaked
  {
    if Judge(id, c.books.completed, c.books.queue, receipt.sequence, receipt) == None {
      var accepted := AcceptedBy(c.books.queue, receipt);
      AcceptedMiss(c.books.queue, receipt, k);
      RestIsSound(c);
      LoneReceives(w.relations, w.accepts, c.holding, accepted, receipt.records, k);
      assert HeldIn(c'.holding, k) == HeldIn(Receiving(w.relations, w.accepts, c.holding, receipt), k);
    }
  }

  lemma PageQuiet(w: World, c: Replica, c': Replica, page: Page, k: Key)
    requires AtRest(c) && PageStep(w, c, c', page) && Lone(w.relations, k) && k !in c.leaked
    ensures k !in c'.leaked
  {
    if c' != c {
      RestIsSound(c);
      LoneEvolves(w.relations, w.accepts, c.holding, page.changes, k);
      assert HeldIn(c'.holding, k) == HeldIn(LandAll(w.relations, w.accepts, c.holding, page.changes), k);
    }
  }

  lemma QuietMove(w: World, s: System, s': System, id: string, k: Key)
    requires ClientMoves(w, s, s', id) && AtRest(s.clients[id]) && Quiet(s, s', id, k) && Lone(w.relations, k)
    requires k !in s.clients[id].leaked
    ensures k !in s'.clients[id].leaked
  {
    var c, c' := s.clients[id], s'.clients[id];
    if MovesLocally(c, c') {
      var applied :| LocalStep(c, c', applied);
    } else if FreezeStep(c, c') || c' == c || SubscribeStep(c, c') {
    } else if GetsReceipt(w, s.network, id, c, c') {
      var receipt :| Reply(receipt) in s.network && ReceiptStep(w, id, c, c', receipt);
      ReceiptQuiet(w, id, c, c', receipt, k);
    } else {
      var page :| Changes(page) in s.network && PageStep(w, c, c', page);
      PageQuiet(w, c, c', page, k);
    }
  }

  /** A client moves by itself, joins, or stays as it is. */
  lemma NextClients(w: World, s: System, s': System, id: string)
    requires Next(w, s, s') && id in s'.clients
    ensures ClientMoves(w, s, s', id)
            || s'.clients[id] == if id in s.clients then s.clients[id] else Newborn()
  {
  }

  lemma QuietNext(w: World, s: System, s': System, id: string, k: Key)
    requires Next(w, s, s') && Quiet(s, s', id, k) && Lone(w.relations, k) && id in s'.clients
    requires id in s.clients ==> AtRest(s.clients[id]) && k !in s.clients[id].leaked
    ensures k !in s'.clients[id].leaked
  {
    NextClients(w, s, s', id);
    if ClientMoves(w, s, s', id) { QuietMove(w, s, s', id, k); }
  }

  lemma RestsAlways(w: World, states: seq<System>, n: nat, id: string)
    requires Run(w, states) && n < |states| && id in states[n].clients
    ensures AtRest(states[n].clients[id])
  {
    TruthAlways(w, states, n);
    assert ReplicaTrue(w, states[n].server.tables, states[n].history, states[n].clients[id]);
  }

  /** One step of a run, from what holds before it. */
  lemma QuietlyOn(w: World, states: seq<System>, n: nat, id: string, k: Key)
    requires Run(w, states) && 0 < n < |states| && QuietUntil(states, n, id, k) && Lone(w.relations, k)
    requires id in states[n].clients && (id in states[n - 1].clients ==> k !in states[n - 1].clients[id].leaked)
    ensures k !in states[n].clients[id].leaked
  {
    if id in states[n - 1].clients { RestsAlways(w, states, n - 1, id); }
    Stepped(w, states, n);
    QuietAt(states, n, id, k);
    QuietNext(w, states[n - 1], states[n], id, k);
  }

  /** A record no deletion can reach never leaks, unless a draft of this client creates and touches it
      again or a companion of it is pending. */
  lemma {:induction false} NeverLeaks(w: World, states: seq<System>, n: nat, id: string, k: Key)
    requires Run(w, states) && n < |states| && id in states[n].clients && Lone(w.relations, k)
    requires QuietUntil(states, n, id, k)
    ensures k !in states[n].clients[id].leaked
  {
    if n > 0 {
      if id in states[n - 1].clients { NeverLeaks(w, states, n - 1, id, k); }
      QuietlyOn(w, states, n, id, k);
    }
  }

  lemma QuietAt(states: seq<System>, n: nat, id: string, k: Key)
    requires 0 < n < |states| && QuietUntil(states, n, id, k)
    ensures Quiet(states[n - 1], states[n], id, k)
  {
    assert QuietStep(states, n - 1, id, k);
  }

  /** The delivery came over the network. */
  ghost predicate CameFrom(network: set<Message>, d: Arrival) {
    match d
    case Paged(records) => exists page :: Changes(page) in network && records == page.changes
    case Receipted(_, records) => exists receipt :: Reply(receipt) in network && records == receipt.records
    case Meanwhile => true
  }

  ghost predicate Arrives(w: World, network: set<Message>, c: Replica, c': Replica, d: Arrival, k: Key) {
    CameFrom(network, d) && Goes(w.relations, w.accepts, c.holding, d, c'.holding, k)
  }

  lemma ReceiptGoes(w: World, c: Replica, c': Replica, receipt: Receipt, k: Key)
    requires AtRest(c) && NoCompanion(c.books.queue, k)
    requires SameHeld(Receiving(w.relations, w.accepts, c.holding, receipt), c'.holding)
    ensures Goes(w.relations, w.accepts, c.holding, Receipted(AcceptedBy(c.books.queue, receipt), receipt.records),
                 c'.holding, k)
  {
    RestIsSound(c);
    AcceptedMiss(c.books.queue, receipt, k);
    assert HeldIn(c'.holding, k) == HeldIn(Receiving(w.relations, w.accepts, c.holding, receipt), k);
  }

  lemma ReceiptArrives(w: World, network: set<Message>, id: string, c: Replica, c': Replica, receipt: Receipt, k: Key)
    requires AtRest(c) && ReceiptStep(w, id, c, c', receipt) && NoCompanion(c.books.queue, k)
    requires Reply(receipt) in network
    ensures exists d :: Arrives(w, network, c, c', d, k)
  {
    if Judge(id, c.books.completed, c.books.queue, receipt.sequence, receipt) == None {
      ReceiptGoes(w, c, c', receipt, k);
      assert Arrives(w, network, c, c', Receipted(AcceptedBy(c.books.queue, receipt), receipt.records), k);
    } else {
      NothingArrives(w, network, c, c', k);
    }
  }

  lemma PageArrives(w: World, network: set<Message>, c: Replica, c': Replica, page: Page, k: Key)
    requires AtRest(c) && PageStep(w, c, c', page) && Changes(page) in network
    ensures exists d :: Arrives(w, network, c, c', d, k)
  {
    RestIsSound(c);
    if c' == c {
      assert Arrives(w, network, c, c', Meanwhile, k);
    } else {
      assert HeldIn(c'.holding, k) == HeldIn(LandAll(w.relations, w.accepts, c.holding, page.changes), k);
      assert Arrives(w, network, c, c', Paged(page.changes), k);
    }
  }

  lemma NothingArrives(w: World, network: set<Message>, c: Replica, c': Replica, k: Key)
    requires AtRest(c) && HeldIn(c'.holding, k) == HeldIn(c.holding, k)
    ensures exists d :: Arrives(w, network, c, c', d, k)
  {
    RestIsSound(c);
    assert Arrives(w, network, c, c', Meanwhile, k);
  }

  /** Every step of a client that is quiet on a record is a step of a course of deliveries. */
  lemma StepArrives(w: World, s: System, s': System, id: string, k: Key)
    requires ClientMoves(w, s, s', id) && AtRest(s.clients[id]) && Quiet(s, s', id, k)
    ensures exists d :: Arrives(w, s.network, s.clients[id], s'.clients[id], d, k)
  {
    var c, c' := s.clients[id], s'.clients[id];
    if MovesLocally(c, c') {
      var applied :| LocalStep(c, c', applied);
      NothingArrives(w, s.network, c, c', k);
    } else if FreezeStep(c, c') || c' == c || SubscribeStep(c, c') {
      NothingArrives(w, s.network, c, c', k);
    } else if GetsReceipt(w, s.network, id, c, c') {
      var receipt :| Reply(receipt) in s.network && ReceiptStep(w, id, c, c', receipt);
      ReceiptArrives(w, s.network, id, c, c', receipt, k);
    } else {
      var page :| Changes(page) in s.network && PageStep(w, c, c', page);
      PageArrives(w, s.network, c, c', page, k);
    }
  }

  /** Whatever happens in a run, a client quiet on the record takes one step of a course. */
  lemma NextArrives(w: World, s: System, s': System, id: string, k: Key)
    requires Next(w, s, s') && id in s.clients && AtRest(s.clients[id]) && Quiet(s, s', id, k)
    ensures id in s'.clients && exists d :: Arrives(w, s.network, s.clients[id], s'.clients[id], d, k)
  {
    NextClients(w, s, s', id);
    if ClientMoves(w, s, s', id) {
      StepArrives(w, s, s', id, k);
    } else {
      NothingArrives(w, s.network, s.clients[id], s'.clients[id], k);
    }
  }

  /** A course of deliveries leads from one holding to the other. */
  ghost predicate CourseLeads(w: World, c: Course, h: Holding, h': Holding, k: Key) {
    Series.Follows(w.relations, w.accepts, c, k) && First(c) == h && Series.Last(c) == h'
  }

  ghost predicate Leads(w: World, h: Holding, h': Holding, k: Key) {
    exists c :: CourseLeads(w, c, h, h', k)
  }

  lemma LeadsNowhere(w: World, h: Holding, k: Key)
    ensures Leads(w, h, h, k)
  {
    assert CourseLeads(w, Course([h], []), h, h, k);
  }

  lemma LeadsBy(w: World, h: Holding, h1: Holding, d: Arrival, h2: Holding, k: Key)
    requires Leads(w, h, h1, k) && Goes(w.relations, w.accepts, h1, d, h2, k)
    ensures Leads(w, h, h2, k)
  {
    var c :| CourseLeads(w, c, h, h1, k);
    FollowsOn(w.relations, w.accepts, c, d, h2, k);
    assert CourseLeads(w, Course(c.holdings + [h2], c.deliveries + [d]), h, h2, k);
  }

  lemma LeadsOn(w: World, s: System, s': System, id: string, h: Holding, k: Key)
    requires Next(w, s, s') && id in s.clients && AtRest(s.clients[id]) && Quiet(s, s', id, k)
    requires Leads(w, h, s.clients[id].holding, k)
    ensures id in s'.clients && Leads(w, h, s'.clients[id].holding, k)
  {
    NextArrives(w, s, s', id, k);
    var d :| Arrives(w, s.network, s.clients[id], s'.clients[id], d, k);
    LeadsBy(w, h, s.clients[id].holding, d, s'.clients[id].holding, k);
  }

  /** In any run the life of a client that is quiet on the record is a course of deliveries. */
  lemma {:induction false} RunIsCourse(w: World, states: seq<System>, m: nat, n: nat, id: string, k: Key)
    requires Run(w, states) && m <= n < |states| && id in states[m].clients && QuietUntil(states, n, id, k)
    ensures id in states[n].clients && Leads(w, states[m].clients[id].holding, states[n].clients[id].holding, k)
  {
    if n == m {
      LeadsNowhere(w, states[m].clients[id].holding, k);
    } else {
      RunIsCourse(w, states, m, n - 1, id, k);
      RestsAlways(w, states, n - 1, id);
      Stepped(w, states, n);
      QuietAt(states, n, id, k);
      LeadsOn(w, states[n - 1], states[n], id, states[m].clients[id].holding, k);
    }
  }

  /** What history says, as a function. */
  function Recorded(history: map<Moment, Row>): (Key, nat) -> Row {
    (k: Key, n: nat) => if Moment(k, n) in history then history[Moment(k, n)] else None
  }

  lemma LawfulTells(w: World, t: Tables, history: map<Moment, Row>, records: seq<Authority>, k: Key)
    requires AllLawful(w, t, history, records) && w.honest
    ensures TellsOf(Recorded(history), records, k)
  {
    forall i | 0 <= i < |records| && records[i].key == k ensures Truthful(Recorded(history), records[i]) {
      assert Lawful(w, t, history, records[i]);
    }
  }

  lemma PageAgrees(w: World, t: Tables, history: map<Moment, Row>, c: Replica, page: Page, k: Key)
    requires ReplicaTrue(w, t, history, c) && AllLawful(w, t, history, page.changes) && w.honest
    requires Lone(w.relations, k) && k !in c.leaked
    ensures !Conflicts(AllReported(w.relations, w.accepts, c.holding, page.changes), k)
  {
    assert RecordTrue(w, t, history, c, k);
    RestIsSound(c);
    LawfulTells(w, t, history, page.changes, k);
    NeverReportsConflict(w.relations, w.accepts, Recorded(history), c.holding, page.changes, k);
  }

  lemma ReceiptAgrees(w: World, t: Tables, history: map<Moment, Row>, c: Replica, receipt: Receipt, k: Key)
    requires ReplicaTrue(w, t, history, c) && AllLawful(w, t, history, receipt.records) && w.honest
    requires Lone(w.relations, k) && k !in c.leaked
    ensures !Conflicts(AllReported(w.relations, w.accepts, Accepting(w.relations, c.holding, receipt),
                                   receipt.records), k)
  {
    var h := Accepting(w.relations, c.holding, receipt);
    if k in CoveredKeys(receipt.records) {
      var accepted := AcceptedBy(c.books.queue, receipt);
      OnlyMembers(c.books.queue, Taken(c.books.queue, receipt));
      assert RecordTrue(w, t, history, c, k);
      RestIsSound(c);
      FoldEachSound(w.relations, c.holding, accepted, receipt.records);
      FoldsMoved(w.relations, c.holding, accepted, receipt.records, k);
      LawfulTells(w, t, history, receipt.records, k);
      NeverReportsConflict(w.relations, w.accepts, Recorded(history), h, receipt.records, k);
    } else {
      OnlyDelivered(w.relations, w.accepts, h, receipt.records, k);
    }
  }

  /** What the records of a message call for when it arrives. */
  ghost function StagedBy(w: World, h: Holding, m: Message): seq<Report> {
    match m
    case Upload(_) => []
    case Reply(receipt) =>
      AllReported(w.relations, w.accepts, Accepting(w.relations, h, receipt), receipt.records)
    case Changes(page) => AllReported(w.relations, w.accepts, h, page.changes)
  }

  lemma NothingStagedConflicts(w: World, s: System, id: string, m: Message, k: Key)
    requires Truth(w, s) && id in s.clients && w.honest && m in s.network
    requires Lone(w.relations, k) && k !in s.clients[id].leaked
    ensures !Conflicts(StagedBy(w, s.clients[id].holding, m), k)
  {
    assert MessageTrue(w, s.server.tables, s.history, m);
    match m {
      case Upload(_) =>
      case Reply(receipt) => ReceiptAgrees(w, s.server.tables, s.history, s.clients[id], receipt, k);
      case Changes(page) => PageAgrees(w, s.server.tables, s.history, s.clients[id], page, k);
    }
  }

  /** In every run with an honest server, nothing in the network makes a client report a conflict on a record
      no deletion can reach, unless the record leaked. */
  lemma NothingConflicts(w: World, states: seq<System>, n: nat, id: string, m: Message, k: Key)
    requires Run(w, states) && n < |states| && id in states[n].clients && w.honest && m in states[n].network
    requires Lone(w.relations, k) && k !in states[n].clients[id].leaked
    ensures forall db, held, reports ::
      ReportedAll(StagedBy(w, states[n].clients[id].holding, m), db, held, reports) ==> !Conflicts(reports, k)
  {
    var staged := StagedBy(w, states[n].clients[id].holding, m);
    TruthAlways(w, states, n);
    NothingStagedConflicts(w, states[n], id, m, k);
    forall db, held, reports | ReportedAll(staged, db, held, reports) ensures !Conflicts(reports, k) {
      StagedConflicts(staged, db, held, reports, k);
    }
  }

  /** So in such runs a client at the head holds it exactly as the server has it, unless it missed it. */
  lemma QuietlyConverged(w: World, states: seq<System>, n: nat, id: string, channel: string, row: Invalidation)
    requires Run(w, states) && n < |states| && AtHead(states[n], id, channel, row) && w.honest
    requires Lone(w.relations, row.key)
    requires QuietUntil(states, n, id, row.key)
    ensures var c, t := states[n].clients[id], states[n].server.tables;
      HeldIn(c.holding, row.key) == Version(At(t.rows, row.key), StampOf(t, row.key)) <==> row.key !in c.missed
  {
    NeverLeaks(w, states, n, id, row.key);
    Converged(w, states, n, id, channel, row);
  }
}
