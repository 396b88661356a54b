/** The queue of pending mutations: its operations per record, its dependencies, the batch in flight. */
module Queue {
  import opened Options
  import opened Records

  /** Dependencies and prerequisites are rows that disappear with what they refer to. */
  datatype Queued = Queued(
    ordinal: nat, name: string, version: nat, push: Option<nat>, diverged: bool,
    wire: seq<Op>, companion: seq<Op>, effects: seq<Op>,
    lifecycle: set<nat>, sequence: set<nat>, prerequisites: set<string>)

  /** Operations in stored position order. */
  function OpsOf(q: Queued): seq<Op> {
    q.wire + q.companion + q.effects
  }

  /** Every queued operation on one record, by ordinal then position. */
  function OpsFor(queue: seq<Queued>, k: Key): (ops: seq<Op>)
    ensures forall i :: 0 <= i < |ops| ==> ops[i].key == k
  {
    if queue == [] then [] else Touching(OpsOf(queue[0]), k) + OpsFor(queue[1..], k)
  }

  predicate Dirty(queue: seq<Queued>, k: Key) {
    OpsFor(queue, k) != []
  }

  function Ordinals(queue: seq<Queued>): (r: set<nat>)
    ensures forall o :: o in r <==> exists i :: 0 <= i < |queue| && queue[i].ordinal == o
  {
    set i | 0 <= i < |queue| :: queue[i].ordinal
  }

  lemma {:induction false} OpsForConcat(a: seq<Queued>, b: seq<Queued>, k: Key)
    ensures OpsFor(a + b, k) == OpsFor(a, k) + OpsFor(b, k)
  {
    if a == [] {
      assert a + b == b;
    } else {
      assert (a + b)[1..] == a[1..] + b;
      OpsForConcat(a[1..], b, k);
    }
  }

  lemma OpsForOne(q: Queued, k: Key)
    ensures OpsFor([q], k) == Touching(OpsOf(q), k)
  {
    assert [q][1..] == [];
  }

  lemma OpsForUpdate(queue: seq<Queued>, i: nat, q: Queued, k: Key)
    requires i < |queue|
    ensures OpsFor(queue[i := q], k) == OpsFor(queue[..i], k) + Touching(OpsOf(q), k) + OpsFor(queue[i + 1..], k)
  {
    assert queue[i := q] == queue[..i] + ([q] + queue[i + 1..]);
    OpsForConcat(queue[..i], [q] + queue[i + 1..], k);
    OpsForConcat([q], queue[i + 1..], k);
    OpsForOne(q, k);
  }

  /** Updating a mutation without changing its operations on `k` changes nothing for `k`. */
  lemma OpsForSame(queue: seq<Queued>, i: nat, q: Queued, k: Key)
    requires i < |queue| && Touching(OpsOf(q), k) == Touching(OpsOf(queue[i]), k)
    ensures OpsFor(queue[i := q], k) == OpsFor(queue, k)
  {
    assert queue[i := queue[i]] == queue;
    OpsForUpdate(queue, i, q, k);
    OpsForUpdate(queue, i, queue[i], k);
  }

  /** The queue without the given mutations; dependency rows naming them go too. */
  function Without(queue: seq<Queued>, ids: set<nat>): seq<Queued> {
    if queue == [] then []
    else (if queue[0].ordinal in ids then [] else [Stripped(queue[0], ids)]) + Without(queue[1..], ids)
  }

  function Stripped(q: Queued, ids: set<nat>): Queued {
    q.(lifecycle := q.lifecycle - ids, sequence := q.sequence - ids)
  }

  predicate TouchedBy(queue: seq<Queued>, ids: set<nat>, k: Key) {
    exists i :: 0 <= i < |queue| && queue[i].ordinal in ids && Touching(OpsOf(queue[i]), k) != []
  }

  lemma {:induction false} WithoutUntouched(queue: seq<Queued>, ids: set<nat>, k: Key)
    requires !TouchedBy(queue, ids, k)
    ensures OpsFor(Without(queue, ids), k) == OpsFor(queue, k)
  {
    if queue != [] {
      var q := queue[0];
      forall i | 0 <= i < |queue[1..]| && queue[1..][i].ordinal in ids ensures Touching(OpsOf(queue[1..][i]), k) == [] {
        assert queue[1..][i] == queue[i + 1];
      }
      WithoutUntouched(queue[1..], ids, k);
      var rest := Without(queue[1..], ids);
      if q.ordinal !in ids {
        OpsForConcat([Stripped(q, ids)], rest, k);
        OpsForOne(Stripped(q, ids), k);
      } else {
        assert Without(queue, ids) == rest;
      }
    }
  }

  lemma {:induction false} WithoutClean(queue: seq<Queued>, ids: set<nat>, k: Key)
    requires !Dirty(queue, k)
    ensures !Dirty(Without(queue, ids), k)
  {
    if queue != [] {
      WithoutClean(queue[1..], ids, k);
      OpsForConcat([Stripped(queue[0], ids)], Without(queue[1..], ids), k);
      OpsForOne(Stripped(queue[0], ids), k);
      assert [] + Without(queue[1..], ids) == Without(queue[1..], ids);
    }
  }

  lemma {:induction false} WithoutMembers(queue: seq<Queued>, ids: set<nat>)
    ensures forall q :: q in Without(queue, ids) ==>
      exists i :: 0 <= i < |queue| && queue[i].ordinal !in ids && q == Stripped(queue[i], ids)
    ensures forall i :: 0 <= i < |queue| && queue[i].ordinal !in ids ==> Stripped(queue[i], ids) in Without(queue, ids)
  {
    if queue != [] {
      var tail := queue[1..];
      WithoutMembers(tail, ids);
      forall q | q in Without(queue, ids)
        ensures exists i :: 0 <= i < |queue| && queue[i].ordinal !in ids && q == Stripped(queue[i], ids)
      {
        if q in Without(tail, ids) {
          var i :| 0 <= i < |tail| && tail[i].ordinal !in ids && q == Stripped(tail[i], ids);
          assert queue[i + 1] == tail[i];
        } else {
          assert q == Stripped(queue[0], ids);
        }
      }
      forall i | 0 <= i < |queue| && queue[i].ordinal !in ids ensures Stripped(queue[i], ids) in Without(queue, ids) {
        if i > 0 { assert queue[i] == tail[i - 1]; }
      }
    }
  }

  /** What of a mutation goes on the wire. */
  datatype Act = Act(ordinal: nat, name: string, version: nat, operations: seq<Op>)

  function Sent(q: Queued): Act {
    Act(q.ordinal, q.name, q.version, q.wire)
  }

  /** The mutations of the push in flight, as they are encoded. */
  function Flight(queue: seq<Queued>): seq<Act> {
    if queue == [] then []
    else (if queue[0].push.Some? then [Sent(queue[0])] else []) + Flight(queue[1..])
  }

  lemma {:induction false} FlightConcat(a: seq<Queued>, b: seq<Queued>)
    ensures Flight(a + b) == Flight(a) + Flight(b)
  {
    if a == [] {
      assert a + b == b;
    } else {
      assert (a + b)[1..] == a[1..] + b;
      FlightConcat(a[1..], b);
    }
  }

  /** Only effects may be added and divergence marked: what is sent, and when, is untouched. */
  predicate Extends(q: Queued, q': Queued) {
    && q' == q.(effects := q'.effects, diverged := q'.diverged)
    && q.effects <= q'.effects
    && forall i :: |q.effects| <= i < |q'.effects| ==> q'.effects[i].kind == Delete
  }

  predicate ExtendsAll(queue: seq<Queued>, queue': seq<Queued>) {
    |queue'| == |queue| && forall i :: 0 <= i < |queue| ==> Extends(queue[i], queue'[i])
  }

  lemma {:induction false} ExtendsFlight(queue: seq<Queued>, queue': seq<Queued>)
    requires ExtendsAll(queue, queue')
    ensures Flight(queue') == Flight(queue)
  {
    if queue != [] {
      forall i | 0 <= i < |queue[1..]| ensures Extends(queue[1..][i], queue'[1..][i]) {
        assert Extends(queue[i + 1], queue'[i + 1]);
      }
      assert Extends(queue[0], queue'[0]);
      ExtendsFlight(queue[1..], queue'[1..]);
    }
  }

  function Sequenced(completed: nat, flying: bool): nat {
    completed + 1 + if flying then 1 else 0
  }

  predicate Flying(queue: seq<Queued>) {
    exists i :: 0 <= i < |queue| && queue[i].push.Some?
  }

  /** The queue table's own invariant. */
  ghost predicate WellQueued(queue: seq<Queued>, nextOrdinal: nat, nextPush: nat, completed: nat) {
    && Ordered(queue, nextOrdinal)
    && DependsBack(queue)
    && Launched(queue, nextPush, completed)
  }

  predicate Increasing(queue: seq<Queued>) {
    forall i, j :: 0 <= i < j < |queue| ==> queue[i].ordinal < queue[j].ordinal
  }

  lemma SameOrdinal(queue: seq<Queued>, i: nat, j: nat)
    requires Increasing(queue) && i < |queue| && j < |queue| && queue[i].ordinal == queue[j].ordinal
    ensures i == j
  {
  }

  predicate Ordered(queue: seq<Queued>, nextOrdinal: nat) {
    && Increasing(queue)
    && (forall i :: 0 <= i < |queue| ==> queue[i].ordinal < nextOrdinal)
  }

  function Deps(q: Queued): set<nat> {
    q.lifecycle + q.sequence
  }

  /** Dependencies name earlier mutations that are still queued. */
  predicate DependsBack(queue: seq<Queued>) {
    forall i :: 0 <= i < |queue| ==> Deps(queue[i]) <= Ordinals(queue) && WaitsBack(queue[i])
  }

  predicate WaitsBack(q: Queued) {
    forall d :: d in Deps(q) ==> d < q.ordinal
  }

  /** At most one push is in flight, the one after the last completed; what flies waits for nothing. */
  predicate Launched(queue: seq<Queued>, nextPush: nat, completed: nat) {
    && nextPush == Sequenced(completed, Flying(queue))
    && forall i :: 0 <= i < |queue| && queue[i].push.Some? ==>
         queue[i].push == Some(completed + 1) && queue[i].lifecycle == {}
  }
}
