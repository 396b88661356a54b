/** What receipts and deliveries do, said without the functions that specify how. */
module Receipts {
  import opened Options
  import opened Records
  import opened Writing
  import opened Cascades
  import opened Queue
  import opened Optimism
  import opened Upkeep
  import opened Authorities
  import opened Landings
  import opened Foldings
  import opened Messages
  import opened Engines

  /** The receipt accepts this mutation: it is in the push the receipt answers, and not rejected. */
  predicate Accepts(q: Queued, receipt: Receipt) {
    q.push == Some(receipt.sequence) && q.ordinal !in receipt.rejections
  }

  predicate Answers(records: seq<Authority>, k: Key) {
    exists i :: 0 <= i < |records| && records[i].key == k
  }

  /** Every record the mutation uploaded is answered. */
  predicate Answered(q: Queued, records: seq<Authority>) {
    forall n :: 0 <= n < |q.wire| ==> Answers(records, q.wire[n].key)
  }

  /** Every rejection is of a mutation in the push, and every upload of an accepted one is answered. */
  predicate FitsPush(queue: seq<Queued>, receipt: Receipt) {
    && (forall o :: o in receipt.rejections ==>
          exists i :: 0 <= i < |queue| && queue[i].ordinal == o && queue[i].push == Some(receipt.sequence))
    && forall i :: 0 <= i < |queue| && Accepts(queue[i], receipt) ==> Answered(queue[i], receipt.records)
  }

  lemma {:induction false} WireKeysAre(mutations: seq<Queued>, k: Key)
    ensures k in WireKeys(mutations) <==> exists i :: 0 <= i < |mutations| && k in KeysOf(mutations[i].wire)
  {
    if mutations != [] {
      WireKeysAre(mutations[1..], k);
      if i :| 0 <= i < |mutations[1..]| && k in KeysOf(mutations[1..][i].wire) {
        assert mutations[i + 1] == mutations[1..][i];
      }
      if i :| 0 <= i < |mutations| && k in KeysOf(mutations[i].wire) {
        assert i > 0 ==> mutations[1..][i - 1] == mutations[i];
      }
    }
  }

  lemma {:induction false} OnlyAre(queue: seq<Queued>, ids: set<nat>, q: Queued)
    ensures q in Only(queue, ids) <==> q in queue && q.ordinal in ids
  {
    if queue != [] { OnlyAre(queue[1..], ids, q); }
  }

  lemma AcceptedAre(queue: seq<Queued>, receipt: Receipt, q: Queued)
    requires Increasing(queue)
    ensures q in AcceptedBy(queue, receipt) <==> q in queue && Accepts(q, receipt)
  {
    OnlyAre(queue, Taken(queue, receipt), q);
    if q in queue && q.ordinal in Taken(queue, receipt) {
      var i :| 0 <= i < |queue| && queue[i] == q;
      var j :| 0 <= j < |queue| && queue[j].push == Some(receipt.sequence) && queue[j].ordinal == q.ordinal;
      SameOrdinal(queue, i, j);
    }
  }

  lemma CoversExactly(queue: seq<Queued>, receipt: Receipt)
    requires Increasing(queue)
    ensures WireKeys(AcceptedBy(queue, receipt)) <= CoveredKeys(receipt.records) <==>
      forall i :: 0 <= i < |queue| && Accepts(queue[i], receipt) ==> Answered(queue[i], receipt.records)
  {
    var accepted := AcceptedBy(queue, receipt);
    if WireKeys(accepted) <= CoveredKeys(receipt.records) {
      forall i, n | 0 <= i < |queue| && Accepts(queue[i], receipt) && 0 <= n < |queue[i].wire|
        ensures Answers(receipt.records, queue[i].wire[n].key)
      {
        AcceptedAre(queue, receipt, queue[i]);
        var j :| 0 <= j < |accepted| && accepted[j] == queue[i];
        assert queue[i].wire[n].key in KeysOf(accepted[j].wire);
        WireKeysAre(accepted, queue[i].wire[n].key);
      }
    }
    if forall i :: 0 <= i < |queue| && Accepts(queue[i], receipt) ==> Answered(queue[i], receipt.records) {
      forall k | k in WireKeys(accepted) ensures k in CoveredKeys(receipt.records) {
        WireKeysAre(accepted, k);
        var j :| 0 <= j < |accepted| && k in KeysOf(accepted[j].wire);
        AcceptedAre(queue, receipt, accepted[j]);
        var i :| 0 <= i < |queue| && queue[i] == accepted[j];
        var n :| 0 <= n < |queue[i].wire| && queue[i].wire[n].key == k;
        assert Answers(receipt.records, queue[i].wire[n].key);
      }
    }
  }

  /** A receipt completes exactly the push in flight it fits. */
  lemma CompletesExactly(id: string, b: Books, sequence: nat, receipt: Receipt)
    requires Steady(b)
    ensures Judge(id, b.completed, b.queue, sequence, receipt) == None <==>
      && receipt.sequence == sequence == b.completed + 1 && receipt.clientId == id
      && (exists i :: 0 <= i < |b.queue| && b.queue[i].push.Some?)
      && FitsPush(b.queue, receipt)
  {
    CoversExactly(b.queue, receipt);
  }

  /** One that repeats a completed push is stale and nothing else is. */
  lemma StaleExactly(id: string, b: Books, sequence: nat, receipt: Receipt)
    ensures Judge(id, b.completed, b.queue, sequence, receipt) == Some(Stale) <==>
      receipt.sequence == sequence <= b.completed && receipt.clientId == id
  {
  }

  /** The uploads of an accepted mutation aside, what hangs under a deletion among its companions is dragged along. */
  lemma {:induction false} DraggedExactly(relations: seq<Relation>, db: Db, ops: seq<Op>, wired: set<Key>, k: Key)
    ensures k in Dragged(relations, db, ops, wired) <==>
      exists n :: 0 <= n < |ops| && ops[n].kind == Delete && ops[n].key !in wired && k != ops[n].key
                  && Under(relations, RowsOf(db), ops[n].key, k)
  {
    if ops != [] {
      var front, last := ops[..|ops| - 1], |ops| - 1;
      DraggedExactly(relations, db, front, wired, k);
      if n :| 0 <= n < |front| && front[n].kind == Delete && front[n].key !in wired && k != front[n].key
              && Under(relations, RowsOf(db), front[n].key, k) {
        assert ops[n] == front[n];
      }
      if n :| 0 <= n < |ops| && ops[n].kind == Delete && ops[n].key !in wired && k != ops[n].key
              && Under(relations, RowsOf(db), ops[n].key, k) {
        assert n < last ==> front[n] == ops[n];
      }
    }
  }

  lemma {:induction false} SettlesAsReplay(row: Row, ops: seq<Op>)
    requires Replay(row, ops).Done?
    ensures Settle(row, ops) == Replay(row, ops).row
    decreases |ops|
  {
    if ops != [] { SettlesAsReplay(Apply(row, ops[0]).row, ops[1..]); }
  }

  /** Companions that work leave the base as their last writers say; one that cannot work is skipped. */
  lemma SettleShows(row: Row, ops: seq<Op>)
    ensures (forall n: nat :: n < |ops| ==> !Misfits(row, ops, n)) ==> Shows(row, ops, Settle(row, ops))
    ensures forall n: nat :: n < |ops| && FirstMisfit(row, ops, n) ==>
      Settle(row, ops) == Settle(Settle(row, ops[..n]), ops[n + 1..])
  {
    if forall n: nat :: n < |ops| ==> !Misfits(row, ops, n) {
      ReplayFailsExactly(row, ops);
      SettlesAsReplay(row, ops);
      ReplayShows(row, ops);
    }
    forall n: nat | n < |ops| && FirstMisfit(row, ops, n)
      ensures Settle(row, ops) == Settle(Settle(row, ops[..n]), ops[n + 1..])
    {
      MisfitFails(row, ops, n);
      SettlesAsReplay(row, ops[..n]);
      assert ops == ops[..n] + ops[n..] && ops[n..][1..] == ops[n + 1..];
      SettleConcat(row, ops[..n], ops[n..]);
    }
  }

  /** The companions of accepted mutations on a record the receipt is silent about, and no deletion reaches, end in
      its base as their last writers say. */
  lemma CompanionsSettle(relations: seq<Relation>, accepts: (Key, Fields) -> bool, h: Holding, receipt: Receipt, k: Key)
    requires Sound(h) && h.stray == {} && Increasing(h.db.queue) && Lone(relations, k)
    requires !Answers(receipt.records, k)
    ensures var row, ops := HeldIn(h, k).row, Touching(Companions(AcceptedBy(h.db.queue, receipt)), k);
      var v' := HeldIn(Receiving(relations, accepts, h, receipt), k);
      && v'.stamp == HeldIn(h, k).stamp
      && ((forall n: nat :: n < |ops| ==> !Misfits(row, ops, n)) ==> Shows(row, ops, v'.row))
  {
    var accepted := AcceptedBy(h.db.queue, receipt);
    forall q | q in accepted ensures q in h.db.queue { AcceptedAre(h.db.queue, receipt, q); }
    LoneReceives(relations, accepts, h, accepted, receipt.records, k);
    EvolvesSilently(accepts, Settled(HeldIn(h, k), Companions(accepted), CoveredKeys(receipt.records), k),
                    receipt.records, k);
    SettleShows(HeldIn(h, k).row, Touching(Companions(accepted), k));
  }

  lemma {:induction false} EvolvesSilently(accepts: (Key, Fields) -> bool, v: Version, records: seq<Authority>, k: Key)
    requires !Answers(records, k)
    ensures Evolve(accepts, v, records, k) == v
    decreases |records|
  {
    if records != [] {
      assert records[0].key != k;
      forall i | 0 <= i < |records[1..]| ensures records[1..][i].key != k { assert records[1..][i] == records[i + 1]; }
      EvolvesSilently(accepts, v, records[1..], k);
    }
  }

  /** What the `n`th record of a delivery calls for: it could not be read, the schema refuses its state, or it tells
      other content at the stamp the client holds when its turn comes. */
  ghost predicate CallsFor(relations: seq<Relation>, accepts: (Key, Fields) -> bool, h: Holding,
                           records: seq<Authority>, n: nat, report: Report)
    requires n < |records|
  {
    var a := records[n];
    var v := HeldIn(LandAll(relations, accepts, h, records[..n]), a.key);
    var refused := a.state.Some? && !accepts(a.key, a.state.value);
    && report.key == a.key && report.stamp == a.stamp && report.ordinal == None
    && match report.kind
       case ReadFailed => a.error.Some?
       case Skipped => a.error.None? && refused
       case Conflicting => a.error.None? && !refused && a.stamp == v.stamp && v.row != Content(a)
       case Diverging => false
  }

  lemma CallsExactly(relations: seq<Relation>, accepts: (Key, Fields) -> bool, h: Holding, records: seq<Authority>,
                     n: nat, report: Report)
    requires n < |records|
    ensures CallsFor(relations, accepts, h, records, n, report) <==>
      Reported(accepts, HeldIn(LandAll(relations, accepts, h, records[..n]), records[n].key), records[n]) ==
        Some(report)
  {
  }

  lemma ReportsNext(relations: seq<Relation>, accepts: (Key, Fields) -> bool, h: Holding, records: seq<Authority>,
                    n: nat, report: Report)
    requires n < |records|
    ensures report in AllReported(relations, accepts, h, records[..n + 1]) <==>
      report in AllReported(relations, accepts, h, records[..n]) || CallsFor(relations, accepts, h, records, n, report)
  {
    LandNext(relations, accepts, h, records, n);
    CallsExactly(relations, accepts, h, records, n, report);
    ReportsMore(AllReported(relations, accepts, h, records[..n]),
                Reported(accepts, HeldIn(LandAll(relations, accepts, h, records[..n]), records[n].key), records[n]),
                report);
  }

  /** Nothing is reported before the first record. */
  lemma NoReports(relations: seq<Relation>, accepts: (Key, Fields) -> bool, h: Holding, records: seq<Authority>)
    ensures AllReported(relations, accepts, h, records[..0]) == []
  {
  }

  lemma {:induction false} ReportedWhy(relations: seq<Relation>, accepts: (Key, Fields) -> bool, h: Holding,
                                       records: seq<Authority>, report: Report, last: nat) returns (n: nat)
    requires last <= |records| && report in AllReported(relations, accepts, h, records[..last])
    ensures n < last && CallsFor(relations, accepts, h, records, n, report)
    decreases last
  {
    NoReports(relations, accepts, h, records);
    n := last - 1;
    ReportsNext(relations, accepts, h, records, n, report);
    if !CallsFor(relations, accepts, h, records, n, report) {
      n := ReportedWhy(relations, accepts, h, records, report, last - 1);
    }
  }

  lemma {:induction false} StaysIn(f: nat -> seq<Report>, n: nat, last: nat, report: Report)
    requires n <= last && report in f(n) && forall m: nat :: n <= m < last ==> f(m) <= f(m + 1)
    ensures report in f(last)
  {
    if n < last {
      StaysIn(f, n, last - 1, report);
      assert f(last - 1) <= f(last - 1 + 1);
    }
  }

  lemma ReportsGrow(relations: seq<Relation>, accepts: (Key, Fields) -> bool, h: Holding, records: seq<Authority>,
                    n: nat)
    requires n < |records|
    ensures AllReported(relations, accepts, h, records[..n]) <= AllReported(relations, accepts, h, records[..n + 1])
  {
    LandNext(relations, accepts, h, records, n);
  }

  lemma CalledIsReported(relations: seq<Relation>, accepts: (Key, Fields) -> bool, h: Holding,
                         records: seq<Authority>, report: Report, n: nat)
    requires n < |records| && report in AllReported(relations, accepts, h, records[..n + 1])
    ensures report in AllReported(relations, accepts, h, records[..|records|])
  {
    var f := (m: nat) => if m <= |records| then AllReported(relations, accepts, h, records[..m]) else [];
    forall m: nat | m < |records| ensures f(m) <= f(m + 1) {
      ReportsGrow(relations, accepts, h, records, m);
    }
    StaysIn(f, n + 1, |records|, report);
  }

  /** A delivery reports exactly that. */
  lemma ReportsExactly(relations: seq<Relation>, accepts: (Key, Fields) -> bool, h: Holding, records: seq<Authority>,
                       report: Report)
    ensures report in AllReported(relations, accepts, h, records) <==>
      exists n: nat :: n < |records| && CallsFor(relations, accepts, h, records, n, report)
  {
    assert records[..|records|] == records;
    if report in AllReported(relations, accepts, h, records) {
      var n := ReportedWhy(relations, accepts, h, records, report, |records|);
    }
    if n: nat :| n < |records| && CallsFor(relations, accepts, h, records, n, report) {
      ReportsNext(relations, accepts, h, records, n, report);
      CalledIsReported(relations, accepts, h, records, report, n);
    }
  }

  lemma ReportsMore(reports: seq<Report>, called: Option<Report>, report: Report)
    ensures report in reports + (if called.Some? then [called.value] else []) <==>
      report in reports || called == Some(report)
  {
  }

  /** What delivered authority says a record holds: nothing when it was deleted, else its state and its identity. */
  lemma ContentTells(a: Authority)
    ensures Content(a).None? <==> a.state.None?
    ensures a.state.Some? ==> Born(a.key, a.state.value, Content(a).value)
  {
  }
}
