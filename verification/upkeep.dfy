/** Updates of the queue table, and what each of them keeps. */
module Upkeep {
  import opened Options
  import opened Records
  import opened Queue
  import opened Schedule

  /** The chosen mutations join the push. */
  function Assigned(queue: seq<Queued>, ids: set<nat>, push: nat): (r: seq<Queued>)
    ensures |r| == |queue|
    ensures forall i :: 0 <= i < |queue| ==>
      r[i] == if queue[i].ordinal in ids then queue[i].(push := Some(push)) else queue[i]
  {
    seq(|queue|, i requires 0 <= i < |queue| =>
      if queue[i].ordinal in ids then queue[i].(push := Some(push)) else queue[i])
  }

  function Marked(queue: seq<Queued>, ordinal: nat): (r: seq<Queued>)
    ensures |r| == |queue|
    ensures forall i :: 0 <= i < |queue| ==>
      r[i] == if queue[i].ordinal == ordinal then queue[i].(diverged := true) else queue[i]
  {
    seq(|queue|, i requires 0 <= i < |queue| =>
      if queue[i].ordinal == ordinal then queue[i].(diverged := true) else queue[i])
  }

  lemma MarkedExtends(queue: seq<Queued>, ordinal: nat)
    ensures ExtendsAll(queue, Marked(queue, ordinal))
  {
    var r := Marked(queue, ordinal);
    forall i | 0 <= i < |queue| ensures Extends(queue[i], r[i]) {
      assert r[i] == queue[i] || r[i] == queue[i].(diverged := true);
    }
  }

  lemma ExtendsSelf(queue: seq<Queued>)
    ensures ExtendsAll(queue, queue)
  {
  }

  /** A prerequisite that came true disappears from every mutation. */
  function Resolved(queue: seq<Queued>, name: string): (r: seq<Queued>)
    ensures |r| == |queue|
    ensures forall i :: 0 <= i < |queue| ==> r[i] == queue[i].(prerequisites := queue[i].prerequisites - {name})
  {
    seq(|queue|, i requires 0 <= i < |queue| => queue[i].(prerequisites := queue[i].prerequisites - {name}))
  }

  lemma {:induction false} SameOpsEach(queue: seq<Queued>, queue': seq<Queued>, k: Key)
    requires |queue'| == |queue| && forall i :: 0 <= i < |queue| ==> OpsOf(queue'[i]) == OpsOf(queue[i])
    ensures OpsFor(queue', k) == OpsFor(queue, k)
  {
    if queue != [] {
      forall i | 0 <= i < |queue[1..]| ensures OpsOf(queue'[1..][i]) == OpsOf(queue[1..][i]) {
        assert queue'[1..][i] == queue'[i + 1] && queue[1..][i] == queue[i + 1];
      }
      SameOpsEach(queue[1..], queue'[1..], k);
    }
  }

  /** The parts of a mutation the queue's structure depends on. */
  predicate SameFrame(q: Queued, q': Queued) {
    && q'.ordinal == q.ordinal && q'.push == q.push && q'.lifecycle == q.lifecycle && q'.sequence == q.sequence
    && q'.wire == q.wire
  }

  predicate SameFrames(queue: seq<Queued>, queue': seq<Queued>) {
    |queue'| == |queue| && forall i :: 0 <= i < |queue| ==> SameFrame(queue[i], queue'[i])
  }

  lemma SameOrdinals(queue: seq<Queued>, queue': seq<Queued>)
    requires |queue'| == |queue| && forall i :: 0 <= i < |queue| ==> queue'[i].ordinal == queue[i].ordinal
    ensures Ordinals(queue') == Ordinals(queue)
  {
    forall o ensures o in Ordinals(queue') <==> o in Ordinals(queue) {
      if o in Ordinals(queue') {
        var i :| 0 <= i < |queue'| && queue'[i].ordinal == o;
        assert queue[i].ordinal == o;
      }
      if o in Ordinals(queue) {
        var i :| 0 <= i < |queue| && queue[i].ordinal == o;
        assert queue'[i].ordinal == o;
      }
    }
  }

  lemma FramesKeepWell(queue: seq<Queued>, queue': seq<Queued>, nextOrdinal: nat, nextPush: nat, completed: nat)
    requires WellQueued(queue, nextOrdinal, nextPush, completed) && SameFrames(queue, queue')
    ensures WellQueued(queue', nextOrdinal, nextPush, completed)
  {
    SameOrdinals(queue, queue');
    forall i | 0 <= i < |queue'| ensures Deps(queue'[i]) <= Ordinals(queue') && WaitsBack(queue'[i]) {
      assert SameFrame(queue[i], queue'[i]);
      assert Deps(queue'[i]) == Deps(queue[i]) && WaitsBack(queue[i]);
    }
    assert Increasing(queue') by {
      forall i, j | 0 <= i < j < |queue'| ensures queue'[i].ordinal < queue'[j].ordinal {
        assert SameFrame(queue[i], queue'[i]) && SameFrame(queue[j], queue'[j]);
      }
    }
    FramesKeepFlying(queue, queue');
  }

  lemma FramesKeepFlying(queue: seq<Queued>, queue': seq<Queued>)
    requires SameFrames(queue, queue')
    ensures Flying(queue') <==> Flying(queue)
  {
    if Flying(queue) {
      var i :| 0 <= i < |queue| && queue[i].push.Some?;
      assert SameFrame(queue[i], queue'[i]);
    }
    if Flying(queue') {
      var i :| 0 <= i < |queue'| && queue'[i].push.Some?;
      assert SameFrame(queue[i], queue'[i]);
    }
  }

  lemma FramesKeepCreates(queue: seq<Queued>, queue': seq<Queued>)
    requires SameFrames(queue, queue') && CreatesHold(queue)
    ensures CreatesHold(queue')
  {
    forall i, j, k | 0 <= i < j < |queue'| && Creates(queue'[i], k) && Touching(queue'[j].wire, k) != []
      ensures queue'[i].ordinal in queue'[j].lifecycle
    {
      assert SameFrame(queue[i], queue'[i]) && SameFrame(queue[j], queue'[j]);
      assert Creates(queue[i], k);
    }
  }

  lemma ExtendsFrames(queue: seq<Queued>, queue': seq<Queued>)
    requires ExtendsAll(queue, queue')
    ensures SameFrames(queue, queue')
  {
    forall i | 0 <= i < |queue| ensures SameFrame(queue[i], queue'[i]) {
      assert Extends(queue[i], queue'[i]);
    }
  }

  lemma ExtendsTwice(a: seq<Queued>, b: seq<Queued>, c: seq<Queued>)
    requires ExtendsAll(a, b) && ExtendsAll(b, c)
    ensures ExtendsAll(a, c)
  {
    forall i | 0 <= i < |a| ensures Extends(a[i], c[i]) {
      assert Extends(a[i], b[i]) && Extends(b[i], c[i]);
    }
  }

  lemma {:induction false} WithoutOrdinals(queue: seq<Queued>, ids: set<nat>)
    ensures Ordinals(Without(queue, ids)) == Ordinals(queue) - ids
  {
    WithoutMembers(queue, ids);
    var r := Without(queue, ids);
    forall o ensures o in Ordinals(r) <==> o in Ordinals(queue) && o !in ids {
      if o in Ordinals(r) {
        var n :| 0 <= n < |r| && r[n].ordinal == o;
        assert r[n] in r;
      }
      if o in Ordinals(queue) && o !in ids {
        var i :| 0 <= i < |queue| && queue[i].ordinal == o;
        var n :| 0 <= n < |r| && r[n] == Stripped(queue[i], ids);
        assert r[n].ordinal == o;
      }
    }
  }

  lemma {:induction false} WithoutIncreasing(queue: seq<Queued>, ids: set<nat>)
    requires Increasing(queue)
    ensures Increasing(Without(queue, ids))
  {
    if queue != [] {
      var tail := queue[1..];
      forall i, j | 0 <= i < j < |tail| ensures tail[i].ordinal < tail[j].ordinal {
        assert tail[i] == queue[i + 1] && tail[j] == queue[j + 1];
      }
      WithoutIncreasing(tail, ids);
      WithoutOrdinals(tail, ids);
      var rest := Without(tail, ids);
      forall j | 0 <= j < |rest| ensures queue[0].ordinal < rest[j].ordinal {
        assert rest[j].ordinal in Ordinals(rest);
        var i :| 0 <= i < |tail| && tail[i].ordinal == rest[j].ordinal;
        assert tail[i] == queue[i + 1];
      }
    }
  }

  /** Where an entry of the shortened queue came from. */
  lemma Origin(queue: seq<Queued>, ids: set<nat>, n: nat) returns (i: nat)
    requires n < |Without(queue, ids)|
    ensures i < |queue| && queue[i].ordinal !in ids && Without(queue, ids)[n] == Stripped(queue[i], ids)
  {
    WithoutMembers(queue, ids);
    assert Without(queue, ids)[n] in Without(queue, ids);
    i :| 0 <= i < |queue| && queue[i].ordinal !in ids && Without(queue, ids)[n] == Stripped(queue[i], ids);
  }

  lemma WithoutDepends(queue: seq<Queued>, ids: set<nat>)
    requires DependsBack(queue)
    ensures DependsBack(Without(queue, ids))
  {
    var r := Without(queue, ids);
    WithoutOrdinals(queue, ids);
    forall n | 0 <= n < |r| ensures Deps(r[n]) <= Ordinals(r) && WaitsBack(r[n]) {
      var i := Origin(queue, ids, n);
      assert Deps(r[n]) == Deps(queue[i]) - ids;
      assert WaitsBack(queue[i]);
    }
  }

  lemma WithoutOrdered(queue: seq<Queued>, ids: set<nat>, nextOrdinal: nat)
    requires Ordered(queue, nextOrdinal)
    ensures Ordered(Without(queue, ids), nextOrdinal)
  {
    WithoutIncreasing(queue, ids);
    var r := Without(queue, ids);
    forall n | 0 <= n < |r| ensures r[n].ordinal < nextOrdinal {
      var i := Origin(queue, ids, n);
    }
  }

  lemma Earlier(queue: seq<Queued>, i: nat, j: nat)
    requires Increasing(queue) && i < |queue| && j < |queue| && queue[i].ordinal < queue[j].ordinal
    ensures i < j
  {
  }

  lemma WithoutCreates(queue: seq<Queued>, ids: set<nat>)
    requires Increasing(queue) && CreatesHold(queue)
    ensures CreatesHold(Without(queue, ids))
  {
    var r := Without(queue, ids);
    WithoutIncreasing(queue, ids);
    forall m, n, k | 0 <= m < n < |r| && Creates(r[m], k) && Touching(r[n].wire, k) != []
      ensures r[m].ordinal in r[n].lifecycle
    {
      var i := Origin(queue, ids, m);
      var j := Origin(queue, ids, n);
      assert queue[i].ordinal < queue[j].ordinal;
      Earlier(queue, i, j);
      assert Creates(queue[i], k);
    }
  }

  lemma Kept(queue: seq<Queued>, ids: set<nat>, i: nat)
    requires i < |queue| && queue[i].ordinal !in ids
    ensures Stripped(queue[i], ids) in Without(queue, ids)
  {
    WithoutMembers(queue, ids);
  }

  /** The mutation waits for the other. */
  predicate Awaiting(queue: seq<Queued>, o: nat, d: nat) {
    exists i :: 0 <= i < |queue| && queue[i].ordinal == o && d in queue[i].lifecycle
  }

  /** A dependency stays as long as both mutations are queued. */
  lemma AwaitingStays(queue: seq<Queued>, ids: set<nat>, o: nat, d: nat)
    requires Awaiting(queue, o, d) && o !in ids && d !in ids
    ensures Awaiting(Without(queue, ids), o, d)
  {
    var i :| 0 <= i < |queue| && queue[i].ordinal == o && d in queue[i].lifecycle;
    Kept(queue, ids, i);
    var n :| 0 <= n < |Without(queue, ids)| && Without(queue, ids)[n] == Stripped(queue[i], ids);
  }

  lemma AwaitingDooms(queue: seq<Queued>, ids: set<nat>, o: nat, d: nat)
    requires DependsBack(queue) && Awaiting(queue, o, d) && Doomed(queue, ids, d)
    ensures Doomed(queue, ids, o)
  {
    var i :| 0 <= i < |queue| && queue[i].ordinal == o && d in queue[i].lifecycle;
    assert d in Deps(queue[i]);
    DoomedBy(queue, ids, i, d);
  }

  /** Removing only unsent mutations leaves the push in flight as it was. */
  lemma WithoutLaunched(queue: seq<Queued>, ids: set<nat>, nextPush: nat, completed: nat)
    requires Launched(queue, nextPush, completed)
    requires forall i :: 0 <= i < |queue| && queue[i].ordinal in ids ==> queue[i].push.None?
    ensures Launched(Without(queue, ids), nextPush, completed)
  {
    var r := Without(queue, ids);
    forall n | 0 <= n < |r| && r[n].push.Some? ensures r[n].push == Some(completed + 1) && r[n].lifecycle == {} {
      var i := Origin(queue, ids, n);
    }
    if Flying(queue) {
      var i :| 0 <= i < |queue| && queue[i].push.Some?;
      Kept(queue, ids, i);
      var n :| 0 <= n < |r| && r[n] == Stripped(queue[i], ids);
      assert r[n].push.Some?;
    }
    if Flying(r) {
      var n :| 0 <= n < |r| && r[n].push.Some?;
      var i := Origin(queue, ids, n);
    }
  }

  /** Removing the whole push in flight completes it. */
  lemma WithoutCompletes(queue: seq<Queued>, ids: set<nat>, nextPush: nat, completed: nat)
    requires Launched(queue, nextPush, completed) && Flying(queue)
    requires forall i :: 0 <= i < |queue| && queue[i].push.Some? ==> queue[i].ordinal in ids
    ensures !Flying(Without(queue, ids)) && Launched(Without(queue, ids), nextPush, completed + 1)
  {
    var r := Without(queue, ids);
    forall n | 0 <= n < |r| ensures r[n].push.None? {
      var i := Origin(queue, ids, n);
    }
  }

  lemma {:induction false} WithoutFlight(queue: seq<Queued>, ids: set<nat>)
    requires forall i :: 0 <= i < |queue| && queue[i].ordinal in ids ==> queue[i].push.None?
    ensures Flight(Without(queue, ids)) == Flight(queue)
  {
    if queue != [] {
      forall i | 0 <= i < |queue[1..]| && queue[1..][i].ordinal in ids ensures queue[1..][i].push.None? {
        assert queue[1..][i] == queue[i + 1];
      }
      WithoutFlight(queue[1..], ids);
      var rest := Without(queue[1..], ids);
      if queue[0].ordinal in ids {
        assert Without(queue, ids) == rest;
      } else {
        assert Without(queue, ids)[0] == Stripped(queue[0], ids) && Without(queue, ids)[1..] == rest;
      }
    }
  }

  /** A new mutation that waits only for queued ones goes to the end, unsent. */
  lemma AppendWell(queue: seq<Queued>, q: Queued, nextPush: nat, completed: nat)
    requires WellQueued(queue, q.ordinal, nextPush, completed)
    requires q.push.None? && Deps(q) <= Ordinals(queue)
    ensures WellQueued(queue + [q], q.ordinal + 1, nextPush, completed)
  {
    var r := queue + [q];
    OrdinalsSnoc(queue, q);
    forall i | 0 <= i < |r| ensures Deps(r[i]) <= Ordinals(r) && WaitsBack(r[i]) {
      if i < |queue| {
        assert r[i] == queue[i];
        assert Deps(queue[i]) <= Ordinals(queue) && WaitsBack(queue[i]);
      } else {
        forall d | d in Deps(q) ensures d < q.ordinal {
          var j :| 0 <= j < |queue| && queue[j].ordinal == d;
        }
      }
    }
    AppendFlying(queue, q);
  }

  /** `q` depends on the queued creation of every record it has wire operations on. */
  ghost predicate AwaitsCreates(queue: seq<Queued>, q: Queued) {
    forall i, k :: 0 <= i < |queue| && Creates(queue[i], k) && Touching(q.wire, k) != [] ==>
      queue[i].ordinal in q.lifecycle
  }

  lemma AppendCreates(queue: seq<Queued>, q: Queued)
    requires CreatesHold(queue)
    requires AwaitsCreates(queue, q)
    ensures CreatesHold(queue + [q])
  {
    var r := queue + [q];
    forall i, j, k | 0 <= i < j < |r| && Creates(r[i], k) && Touching(r[j].wire, k) != []
      ensures r[i].ordinal in r[j].lifecycle
    {
      assert r[i] == queue[i];
      if j < |queue| { assert r[j] == queue[j]; }
    }
  }

  lemma AppendFlying(queue: seq<Queued>, q: Queued)
    requires q.push.None?
    ensures Flying(queue + [q]) <==> Flying(queue)
  {
    if Flying(queue) {
      var i :| 0 <= i < |queue| && queue[i].push.Some?;
      assert (queue + [q])[i].push.Some?;
    }
  }

  lemma AppendFlight(queue: seq<Queued>, q: Queued)
    requires q.push.None?
    ensures Flight(queue + [q]) == Flight(queue)
  {
    FlightConcat(queue, [q]);
    assert [q][1..] == [];
    assert Flight([q]) == [];
    assert Flight(queue) + [] == Flight(queue);
  }

  /** Freezing a schedulable batch when nothing flies: its members had nothing left to wait for. */
  lemma AssignWell(queue: seq<Queued>, selected: seq<Queued>, nextOrdinal: nat, completed: nat, size: seq<Act> -> nat,
                   maxBytes: nat)
    requires WellQueued(queue, nextOrdinal, completed + 1, completed)
    requires selected != [] && Schedulable(queue, selected, size, maxBytes)
    ensures WellQueued(Assigned(queue, Ordinals(selected), completed + 1), nextOrdinal, completed + 2, completed)
  {
    var ids := Ordinals(selected);
    var r := Assigned(queue, ids, completed + 1);
    SameOrdinals(queue, r);
    assert !Flying(queue);
    assert Unsent(queue) == Ordinals(queue) by {
      forall o | o in Ordinals(queue) ensures o in Unsent(queue) {
        var i :| 0 <= i < |queue| && queue[i].ordinal == o;
        assert queue[i].push.None?;
      }
    }
    forall i | 0 <= i < |r| ensures Deps(r[i]) <= Ordinals(r) && WaitsBack(r[i]) {
      assert Deps(r[i]) == Deps(queue[i]) && WaitsBack(queue[i]);
    }
    forall i | 0 <= i < |r| && r[i].push.Some? ensures r[i].push == Some(completed + 1) && r[i].lifecycle == {} {
      assert queue[i].push.None?;
      var n := SelectedIndex(queue, selected, i, size, maxBytes);
      assert queue[i].lifecycle <= Deps(queue[i]);
      assert queue[i].lifecycle * Unsent(queue) == queue[i].lifecycle;
    }
    assert selected[0] in queue;
    var i :| 0 <= i < |queue| && queue[i] == selected[0];
    assert selected[0].ordinal in ids;
    assert r[i].push.Some?;
  }

  lemma SelectedIndex(queue: seq<Queued>, selected: seq<Queued>, i: nat, size: seq<Act> -> nat, maxBytes: nat)
    returns (n: nat)
    requires Increasing(queue) && Schedulable(queue, selected, size, maxBytes)
    requires i < |queue| && queue[i].ordinal in Ordinals(selected)
    ensures n < |selected| && selected[n] == queue[i] && Ready(queue[i], Unsent(queue), Ordinals(selected[..n]))
  {
    n :| 0 <= n < |selected| && selected[n].ordinal == queue[i].ordinal;
    assert selected[n] in queue;
    var j :| 0 <= j < |queue| && queue[j] == selected[n];
    SameOrdinal(queue, i, j);
  }

  /** The client's bookkeeping: the queue, its counters, whether a declaration is frozen, and which
      mutations are done with. */
  datatype Books = Books(queue: seq<Queued>, nextOrdinal: nat, nextPush: nat, completed: nat, frozen: bool,
                         accepted: set<nat>, rejected: set<nat>)

  /** Every ordinal ever given is exactly one of queued, accepted or rejected. */
  ghost predicate Partition(next: nat, queued: set<nat>, accepted: set<nat>, rejected: set<nat>) {
    && next >= 1
    && queued !! accepted && queued !! rejected && accepted !! rejected
    && forall o :: o in queued || o in accepted || o in rejected <==> 1 <= o < next
  }

  ghost predicate Steady(b: Books) {
    && WellQueued(b.queue, b.nextOrdinal, b.nextPush, b.completed)
    && CreatesHold(b.queue)
    && (Flying(b.queue) <==> b.frozen)
    && Partition(b.nextOrdinal, Ordinals(b.queue), b.accepted, b.rejected)
  }

  lemma SteadyExtends(b: Books, queue: seq<Queued>)
    requires Steady(b) && ExtendsAll(b.queue, queue)
    ensures Steady(b.(queue := queue)) && Flight(queue) == Flight(b.queue)
  {
    ExtendsFrames(b.queue, queue);
    FramesKeepWell(b.queue, queue, b.nextOrdinal, b.nextPush, b.completed);
    FramesKeepCreates(b.queue, queue);
    ExtendsFlight(b.queue, queue);
    SameOrdinals(b.queue, queue);
    FramesKeepFlying(b.queue, queue);
  }

  lemma SteadyAppends(b: Books, q: Queued)
    requires Steady(b) && q.ordinal == b.nextOrdinal && q.push.None? && Deps(q) <= Ordinals(b.queue)
    requires AwaitsCreates(b.queue, q)
    ensures Steady(b.(queue := b.queue + [q], nextOrdinal := q.ordinal + 1)) && Flight(b.queue + [q]) == Flight(b.queue)
  {
    AppendCreates(b.queue, q);
    AppendWell(b.queue, q, b.nextPush, b.completed);
    AppendFlight(b.queue, q);
    AppendFlying(b.queue, q);
    OrdinalsSnoc(b.queue, q);
    PartitionNext(b.nextOrdinal, Ordinals(b.queue), b.accepted, b.rejected);
  }

  lemma PartitionNext(next: nat, queued: set<nat>, accepted: set<nat>, rejected: set<nat>)
    requires Partition(next, queued, accepted, rejected)
    ensures Partition(next + 1, queued + {next}, accepted, rejected)
  {
  }

  lemma PartitionMoves(next: nat, queued: set<nat>, accepted: set<nat>, rejected: set<nat>, took: set<nat>,
                       refused: set<nat>)
    requires Partition(next, queued, accepted, rejected) && took <= queued && refused <= queued && took !! refused
    ensures Partition(next, queued - (took + refused), accepted + took, rejected + refused)
  {
  }

  /** The batch a freeze takes. */
  function Batch(queue: seq<Queued>, size: seq<Act> -> nat, maxBytes: nat): seq<Queued> {
    Choose(queue, [], Unsent(queue), size, maxBytes)
  }

  function Frozen(b: Books, size: seq<Act> -> nat, maxBytes: nat): Books {
    var ids := Ordinals(Batch(b.queue, size, maxBytes));
    b.(queue := Assigned(b.queue, ids, b.nextPush), nextPush := b.nextPush + 1, frozen := true)
  }

  lemma FrozenIsWell(b: Books, size: seq<Act> -> nat, maxBytes: nat)
    requires Steady(b) && !b.frozen && Batch(b.queue, size, maxBytes) != []
    ensures var f := Frozen(b, size, maxBytes); WellQueued(f.queue, f.nextOrdinal, f.nextPush, f.completed)
    ensures b.nextPush == b.completed + 1
  {
    NextPush(b);
    BatchIsSchedulable(b.queue, size, maxBytes);
    AssignWell(b.queue, Batch(b.queue, size, maxBytes), b.nextOrdinal, b.completed, size, maxBytes);
    var f := Frozen(b, size, maxBytes);
    assert f.queue == Assigned(b.queue, Ordinals(Batch(b.queue, size, maxBytes)), b.completed + 1);
    assert f.nextPush == b.completed + 2;
  }

  lemma NextPush(b: Books)
    requires Steady(b) && !b.frozen
    ensures b.nextPush == b.completed + 1
  {
  }

  lemma SteadyFreezes(b: Books, size: seq<Act> -> nat, maxBytes: nat)
    requires Steady(b) && !b.frozen && Batch(b.queue, size, maxBytes) != []
    ensures Steady(Frozen(b, size, maxBytes)) && b.nextPush == b.completed + 1
    ensures Flight(Frozen(b, size, maxBytes).queue) == Acts(Batch(b.queue, size, maxBytes))
  {
    var selected := Batch(b.queue, size, maxBytes);
    FrozenIsWell(b, size, maxBytes);
    SameOrdinals(b.queue, Assigned(b.queue, Ordinals(selected), b.nextPush));
    AssignCreates(b.queue, Ordinals(selected), b.nextPush);
    BatchFlies(b, size, maxBytes);
    FreezeFlight(b.queue, b.nextPush, size, maxBytes);
  }

  lemma BatchFlies(b: Books, size: seq<Act> -> nat, maxBytes: nat)
    requires Steady(b) && !b.frozen && Batch(b.queue, size, maxBytes) != []
    ensures Flying(Frozen(b, size, maxBytes).queue)
  {
    BatchIsSchedulable(b.queue, size, maxBytes);
    AssignFlies(b.queue, Batch(b.queue, size, maxBytes), b.nextPush, size, maxBytes);
  }

  lemma BatchIsSchedulable(queue: seq<Queued>, size: seq<Act> -> nat, maxBytes: nat)
    ensures Schedulable(queue, Batch(queue, size, maxBytes), size, maxBytes)
  {
    assert queue[0..] == queue;
    ChooseIsSchedulable(queue, 0, [], size, maxBytes);
  }

  lemma FreezeFlight(queue: seq<Queued>, push: nat, size: seq<Act> -> nat, maxBytes: nat)
    requires Increasing(queue) && !Flying(queue)
    ensures var selected := Batch(queue, size, maxBytes);
      Flight(Assigned(queue, Ordinals(selected), push)) == Acts(selected)
  {
    var selected := Batch(queue, size, maxBytes);
    assert [] + queue == queue;
    ChooseOnly(queue, [], Unsent(queue), size, maxBytes);
    assert [] + Only(queue, Ordinals(selected)) == Only(queue, Ordinals(selected));
    FlightOfAssigned(queue, Ordinals(selected), push);
  }

  /** The batch, and nothing else, joined the push. */
  ghost predicate Pushed(queue: seq<Queued>, batch: seq<Queued>, push: nat, queue': seq<Queued>) {
    |queue'| == |queue| && forall i :: 0 <= i < |queue| ==>
      queue'[i] == if queue[i] in batch then queue[i].(push := Some(push)) else queue[i]
  }

  /** A freeze takes all that may go and sends it as it is stored. */
  lemma FreezeTakesAll(b: Books, size: seq<Act> -> nat, maxBytes: nat)
    requires Steady(b)
    ensures var batch := Batch(b.queue, size, maxBytes);
      && TakesAll(b.queue, batch, size, maxBytes)
      && Encodes(Acts(batch), batch)
      && Pushed(b.queue, batch, b.nextPush, Frozen(b, size, maxBytes).queue)
  {
    var batch := Batch(b.queue, size, maxBytes);
    BatchTakesAll(b.queue, size, maxBytes);
    forall i | 0 <= i < |b.queue| ensures b.queue[i].ordinal in Ordinals(batch) <==> b.queue[i] in batch {
      if b.queue[i].ordinal in Ordinals(batch) {
        var n :| 0 <= n < |batch| && batch[n].ordinal == b.queue[i].ordinal;
        assert MayGo(b.queue, batch, n);
        var j :| 0 <= j < |b.queue| && b.queue[j] == batch[n];
        SameOrdinal(b.queue, i, j);
      }
    }
  }

  lemma AssignCreates(queue: seq<Queued>, ids: set<nat>, push: nat)
    requires CreatesHold(queue)
    ensures CreatesHold(Assigned(queue, ids, push))
  {
    var r := Assigned(queue, ids, push);
    forall i, j, k | 0 <= i < j < |r| && Creates(r[i], k) && Touching(r[j].wire, k) != []
      ensures r[i].ordinal in r[j].lifecycle
    {
      assert Creates(queue[i], k) && Touching(queue[j].wire, k) != [];
    }
  }

  lemma AssignFlies(queue: seq<Queued>, selected: seq<Queued>, push: nat, size: seq<Act> -> nat, maxBytes: nat)
    requires selected != [] && Schedulable(queue, selected, size, maxBytes)
    ensures Flying(Assigned(queue, Ordinals(selected), push))
  {
    assert selected[0] in queue;
    var i :| 0 <= i < |queue| && queue[i] == selected[0];
    assert selected[0].ordinal in Ordinals(selected);
    assert Assigned(queue, Ordinals(selected), push)[i].push.Some?;
  }

  /** The mutations with the given ordinals, in queue order. */
  function Only(queue: seq<Queued>, ids: set<nat>): seq<Queued> {
    if queue == [] then []
    else (if queue[0].ordinal in ids then [queue[0]] else []) + Only(queue[1..], ids)
  }

  lemma {:induction false} OnlyNone(queue: seq<Queued>, ids: set<nat>)
    requires forall i :: 0 <= i < |queue| ==> queue[i].ordinal !in ids
    ensures Only(queue, ids) == []
  {
    if queue != [] { OnlyNone(queue[1..], ids); }
  }

  lemma {:induction false} OnlyMembers(queue: seq<Queued>, ids: set<nat>)
    ensures forall q :: q in Only(queue, ids) ==> q in queue
  {
    if queue != [] { OnlyMembers(queue[1..], ids); }
  }

  lemma OrdinalsConcat(a: seq<Queued>, b: seq<Queued>)
    ensures Ordinals(a + b) == Ordinals(a) + Ordinals(b)
  {
    forall o ensures o in Ordinals(a + b) <==> o in Ordinals(a) + Ordinals(b) {
      if o in Ordinals(a) {
        var i :| 0 <= i < |a| && a[i].ordinal == o;
        assert (a + b)[i].ordinal == o;
      }
      if o in Ordinals(b) {
        var i :| 0 <= i < |b| && b[i].ordinal == o;
        assert (a + b)[|a| + i].ordinal == o;
      }
    }
  }

  /** The batch is exactly the queue's mutations with its ordinals, in order. */
  lemma {:induction false} ChooseOnly(rest: seq<Queued>, selected: seq<Queued>, unsent: set<nat>, size: seq<Act> -> nat,
                                      maxBytes: nat)
    requires Increasing(selected + rest)
    ensures var chosen := Choose(rest, selected, unsent, size, maxBytes);
      chosen == selected + Only(rest, Ordinals(chosen))
    decreases |rest|
  {
    var chosen := Choose(rest, selected, unsent, size, maxBytes);
    if rest == [] || |selected| >= PUSH_MUTATIONS {
      ChosenNone(rest, selected);
    } else {
      var q, tail := rest[0], rest[1..];
      if Ready(q, unsent, Ordinals(selected)) && Fits(selected, q, size, maxBytes) {
        assert selected + rest == (selected + [q]) + tail;
        ChooseOnly(tail, selected + [q], unsent, size, maxBytes);
        assert chosen[|selected|] == q;
        ChosenFirst(rest, selected, Ordinals(chosen));
      } else {
        assert selected + rest == selected + [q] + tail;
        Dropped(selected, q, tail);
        ChooseOnly(tail, selected, unsent, size, maxBytes);
        OrdinalsConcat(selected, Only(tail, Ordinals(chosen)));
        LaterOnly(rest, Ordinals(chosen), selected);
      }
    }
  }

  lemma ChosenNone(rest: seq<Queued>, selected: seq<Queued>)
    requires Increasing(selected + rest)
    ensures selected == selected + Only(rest, Ordinals(selected))
  {
    forall i | 0 <= i < |rest| ensures rest[i].ordinal !in Ordinals(selected) {
      Apart(selected, rest, i);
    }
    OnlyNone(rest, Ordinals(selected));
  }

  lemma ChosenFirst(rest: seq<Queued>, selected: seq<Queued>, ids: set<nat>)
    requires rest != [] && rest[0].ordinal in ids
    ensures (selected + [rest[0]]) + Only(rest[1..], ids) == selected + Only(rest, ids)
  {
    var q, later := rest[0], Only(rest[1..], ids);
    assert (selected + [q]) + later == selected + ([q] + later);
  }

  lemma Apart(selected: seq<Queued>, rest: seq<Queued>, i: nat)
    requires Increasing(selected + rest) && i < |rest|
    ensures rest[i].ordinal !in Ordinals(selected)
  {
    assert (selected + rest)[|selected| + i] == rest[i];
    forall j | 0 <= j < |selected| ensures selected[j].ordinal < rest[i].ordinal {
      assert (selected + rest)[j] == selected[j];
    }
  }

  lemma Dropped(selected: seq<Queued>, q: Queued, tail: seq<Queued>)
    requires Increasing(selected + [q] + tail)
    ensures Increasing(selected + tail)
  {
    var all, fewer := selected + [q] + tail, selected + tail;
    forall i, j | 0 <= i < j < |fewer| ensures fewer[i].ordinal < fewer[j].ordinal {
      assert fewer[i] == all[if i < |selected| then i else i + 1];
      assert fewer[j] == all[if j < |selected| then j else j + 1];
    }
  }

  lemma LaterOnly(rest: seq<Queued>, ids: set<nat>, selected: seq<Queued>)
    requires rest != [] && Increasing(selected + rest) && ids == Ordinals(selected) + Ordinals(Only(rest[1..], ids))
    ensures rest[0].ordinal !in ids
  {
    Apart(selected, rest, 0);
    OnlyMembers(rest[1..], ids);
    var tail := Only(rest[1..], ids);
    forall i | 0 <= i < |tail| ensures tail[i].ordinal != rest[0].ordinal {
      assert tail[i] in tail;
      var j :| 0 <= j < |rest[1..]| && rest[1..][j] == tail[i];
      assert (selected + rest)[|selected|] == rest[0] && (selected + rest)[|selected| + 1 + j] == tail[i];
    }
  }

  lemma {:induction false} FlightOfAssigned(queue: seq<Queued>, ids: set<nat>, push: nat)
    requires forall i :: 0 <= i < |queue| ==> queue[i].push.None?
    ensures Flight(Assigned(queue, ids, push)) == Acts(Only(queue, ids))
  {
    if queue != [] {
      FlightOfAssigned(queue[1..], ids, push);
      assert Assigned(queue, ids, push)[1..] == Assigned(queue[1..], ids, push);
      var rest := Only(queue[1..], ids);
      if queue[0].ordinal in ids {
        assert Acts([queue[0]] + rest) == [Sent(queue[0])] + Acts(rest);
      } else {
        assert Only(queue, ids) == rest;
      }
    }
  }

  lemma SteadyResolves(b: Books, name: string)
    requires Steady(b)
    ensures Steady(b.(queue := Resolved(b.queue, name))) && Flight(Resolved(b.queue, name)) == Flight(b.queue)
  {
    var r := Resolved(b.queue, name);
    forall i | 0 <= i < |b.queue| ensures SameFrame(b.queue[i], r[i]) {
    }
    FramesKeepWell(b.queue, r, b.nextOrdinal, b.nextPush, b.completed);
    FramesKeepCreates(b.queue, r);
    SameOrdinals(b.queue, r);
    FramesKeepFlying(b.queue, r);
    ResolvedFlight(b.queue, name);
  }

  lemma {:induction false} ResolvedFlight(queue: seq<Queued>, name: string)
    ensures Flight(Resolved(queue, name)) == Flight(queue)
  {
    if queue != [] {
      ResolvedFlight(queue[1..], name);
      assert Resolved(queue, name)[1..] == Resolved(queue[1..], name);
    }
  }

  /** Rejecting unsent mutations with everything that depends on them. */
  lemma SteadyDrops(b: Books, gone: set<nat>)
    requires Steady(b) && gone <= Ordinals(b.queue)
    requires forall i :: 0 <= i < |b.queue| && b.queue[i].ordinal in gone ==> b.queue[i].push.None?
    ensures Steady(b.(queue := Without(b.queue, gone), rejected := b.rejected + gone))
    ensures Flight(Without(b.queue, gone)) == Flight(b.queue)
  {
    WithoutOrdinals(b.queue, gone);
    WithoutOrdered(b.queue, gone, b.nextOrdinal);
    WithoutDepends(b.queue, gone);
    WithoutCreates(b.queue, gone);
    WithoutLaunched(b.queue, gone, b.nextPush, b.completed);
    WithoutFlight(b.queue, gone);
    PartitionMoves(b.nextOrdinal, Ordinals(b.queue), b.accepted, b.rejected, {}, gone);
    assert Ordinals(b.queue) - ({} + gone) == Ordinals(b.queue) - gone && b.accepted + {} == b.accepted;
    assert Flying(Without(b.queue, gone)) <==> Flying(b.queue);
  }

  /** The push in flight ends: some of it accepted, the rest rejected with all that depends on it. */
  lemma SteadyCompletes(b: Books, took: set<nat>, refused: set<nat>)
    requires Steady(b) && b.frozen && took <= Ordinals(b.queue) && refused <= Ordinals(b.queue) && took !! refused
    requires forall i :: 0 <= i < |b.queue| && b.queue[i].push.Some? ==> b.queue[i].ordinal in took + refused
    ensures Steady(b.(queue := Without(b.queue, took + refused), completed := b.completed + 1, frozen := false,
                      accepted := b.accepted + took, rejected := b.rejected + refused))
  {
    var gone := took + refused;
    WithoutOrdinals(b.queue, gone);
    WithoutOrdered(b.queue, gone, b.nextOrdinal);
    WithoutDepends(b.queue, gone);
    WithoutCreates(b.queue, gone);
    WithoutCompletes(b.queue, gone, b.nextPush, b.completed);
    PartitionMoves(b.nextOrdinal, Ordinals(b.queue), b.accepted, b.rejected, took, refused);
  }

  lemma {:induction false} WithoutTwice(queue: seq<Queued>, a: set<nat>, b: set<nat>)
    ensures Without(Without(queue, a), b) == Without(queue, a + b)
  {
    if queue != [] {
      WithoutTwice(queue[1..], a, b);
      var head, rest := Stripped(queue[0], a), Without(queue[1..], a);
      if queue[0].ordinal in a {
        assert Without(queue, a) == rest;
      } else {
        assert Without(queue, a)[0] == head && Without(queue, a)[1..] == rest;
        assert Stripped(head, b) == Stripped(queue[0], a + b) by {
          assert head.lifecycle - b == queue[0].lifecycle - (a + b) && head.sequence - b == queue[0].sequence - (a + b);
        }
      }
    }
  }

  predicate SentAlready(queue: seq<Queued>, ordinal: nat) {
    exists i :: 0 <= i < |queue| && queue[i].ordinal == ordinal && queue[i].push.Some?
  }

  /** Unsent mutations are dropped with everything that depends on them; none of that is in flight. */
  lemma SteadyDropsFallen(b: Books, ids: set<nat>)
    requires Steady(b) && ids <= Ordinals(b.queue) && forall o :: o in ids ==> !SentAlready(b.queue, o)
    ensures var gone := Fallen(b.queue, ids);
      && gone <= Ordinals(b.queue)
      && Steady(b.(queue := Without(b.queue, gone), rejected := b.rejected + gone))
      && Flight(Without(b.queue, gone)) == Flight(b.queue)
  {
    var gone := Fallen(b.queue, ids);
    FallenWithin(b.queue, ids);
    forall i | 0 <= i < |b.queue| && b.queue[i].ordinal in gone ensures b.queue[i].push.None? {
      FallenExactly(b.queue, ids, b.queue[i].ordinal);
      if b.queue[i].ordinal !in ids {
        DependentIsUnsent(b.queue, b.nextOrdinal, b.nextPush, b.completed, ids, i);
      }
    }
    SteadyDrops(b, gone);
  }

  /** The mutations of one push. */
  function InPush(queue: seq<Queued>, push: nat): (r: set<nat>)
    ensures forall o :: o in r <==> exists i :: 0 <= i < |queue| && queue[i].push == Some(push) && queue[i].ordinal == o
  {
    set i | 0 <= i < |queue| && queue[i].push == Some(push) :: queue[i].ordinal
  }

  /** A receipt names rejections within the push in flight: what it accepts does not fall with what it rejects. */
  lemma SteadyReceipt(b: Books, refused: set<nat>)
    requires Steady(b) && b.frozen && refused <= InPush(b.queue, b.completed + 1)
    ensures var took, gone := InPush(b.queue, b.completed + 1) - refused, Fallen(b.queue, refused);
      && took !! gone && gone <= Ordinals(b.queue) && took <= Ordinals(b.queue)
      && Steady(b.(queue := Without(b.queue, gone + took), completed := b.completed + 1, frozen := false,
                   accepted := b.accepted + took, rejected := b.rejected + gone))
  {
    var push := b.completed + 1;
    var took, gone := InPush(b.queue, push) - refused, Fallen(b.queue, refused);
    FallenWithin(b.queue, refused);
    forall i | 0 <= i < |b.queue| && b.queue[i].push.Some?
      ensures b.queue[i].ordinal in took + gone && (b.queue[i].ordinal in gone <==> b.queue[i].ordinal in refused)
    {
      assert b.queue[i].push == Some(push);
      FlyingFallsAlone(b.queue, b.nextOrdinal, b.nextPush, b.completed, refused, i);
      FallenExactly(b.queue, refused, b.queue[i].ordinal);
    }
    forall o | o in took ensures o !in gone {
      var i :| 0 <= i < |b.queue| && b.queue[i].push == Some(push) && b.queue[i].ordinal == o;
    }
    SteadyCompletes(b, took, gone);
    assert gone + took == took + gone;
  }
}
