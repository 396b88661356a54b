/** Which queued mutations are sent together, and which fall with a rejected one. */
module Schedule {
  import opened Records
  import opened Queue

  const PUSH_MUTATIONS: nat := 20

  predicate Ready(q: Queued, unsent: set<nat>, chosen: set<nat>) {
    q.push.None? && q.prerequisites == {} && q.lifecycle * unsent == {} && q.sequence * unsent <= chosen
  }

  function Unsent(queue: seq<Queued>): (r: set<nat>)
    ensures forall o :: o in r <==> exists i :: 0 <= i < |queue| && queue[i].push.None? && queue[i].ordinal == o
  {
    set i | 0 <= i < |queue| && queue[i].push.None? :: queue[i].ordinal
  }

  /** A first mutation always fits; a further one only while the encoded batch stays within the limit. */
  predicate Fits(selected: seq<Queued>, q: Queued, size: seq<Act> -> nat, maxBytes: nat) {
    selected == [] || size(Acts(selected + [q])) <= maxBytes
  }

  function Acts(selected: seq<Queued>): seq<Act> {
    seq(|selected|, i requires 0 <= i < |selected| => Sent(selected[i]))
  }

  function Choose(rest: seq<Queued>, selected: seq<Queued>, unsent: set<nat>, size: seq<Act> -> nat,
                  maxBytes: nat): seq<Queued>
    decreases |rest|
  {
    if rest == [] || |selected| >= PUSH_MUTATIONS then selected
    else if Ready(rest[0], unsent, Ordinals(selected)) && Fits(selected, rest[0], size, maxBytes) then
      Choose(rest[1..], selected + [rest[0]], unsent, size, maxBytes)
    else Choose(rest[1..], selected, unsent, size, maxBytes)
  }

  method Select(queue: seq<Queued>, size: seq<Act> -> nat, maxBytes: nat) returns (selected: seq<Queued>)
    ensures selected == Choose(queue, [], Unsent(queue), size, maxBytes)
  {
    var unsent := Unsent(queue);
    var chosen: set<nat> := {};
    selected := [];
    var i := 0;
    assert queue[0..] == queue;
    while i < |queue|
      invariant 0 <= i <= |queue| && |selected| < PUSH_MUTATIONS && chosen == Ordinals(selected)
      invariant Choose(queue, [], unsent, size, maxBytes) == Choose(queue[i..], selected, unsent, size, maxBytes)
    {
      var q := queue[i];
      assert queue[i..][0] == q && queue[i..][1..] == queue[i + 1..];
      i := i + 1;
      if Ready(q, unsent, chosen) && Fits(selected, q, size, maxBytes) {
        OrdinalsSnoc(selected, q);
        chosen := chosen + {q.ordinal};
        selected := selected + [q];
        if |selected| == PUSH_MUTATIONS {
          break;
        }
      }
    }
  }

  lemma OrdinalsSnoc(selected: seq<Queued>, q: Queued)
    ensures Ordinals(selected + [q]) == Ordinals(selected) + {q.ordinal}
  {
    var all := selected + [q];
    forall o ensures o in Ordinals(all) <==> o in Ordinals(selected) + {q.ordinal} {
      if o in Ordinals(selected) {
        var i :| 0 <= i < |selected| && selected[i].ordinal == o;
        assert all[i].ordinal == o;
      }
      if o == q.ordinal { assert all[|selected|].ordinal == o; }
    }
  }

  /** A batch respects the queue when every member is ready given the members before it, it is short
      enough, and it fits the limit unless it is a single mutation. */
  ghost predicate Schedulable(queue: seq<Queued>, selected: seq<Queued>, size: seq<Act> -> nat, maxBytes: nat) {
    && |selected| <= PUSH_MUTATIONS
    && (|selected| > 1 ==> size(Acts(selected)) <= maxBytes)
    && forall i :: 0 <= i < |selected| ==>
         selected[i] in queue && Ready(selected[i], Unsent(queue), Ordinals(selected[..i]))
  }

  lemma {:induction false} ChooseIsSchedulable(queue: seq<Queued>, i: nat, selected: seq<Queued>, size: seq<Act> -> nat,
                                               maxBytes: nat)
    requires i <= |queue| && Schedulable(queue, selected, size, maxBytes)
    ensures Schedulable(queue, Choose(queue[i..], selected, Unsent(queue), size, maxBytes), size, maxBytes)
    decreases |queue| - i
  {
    if i < |queue| && |selected| < PUSH_MUTATIONS {
      var q := queue[i];
      assert queue[i..][0] == q && queue[i..][1..] == queue[i + 1..];
      if Ready(q, Unsent(queue), Ordinals(selected)) && Fits(selected, q, size, maxBytes) {
        var more := selected + [q];
        forall j | 0 <= j < |more|
          ensures more[j] in queue && Ready(more[j], Unsent(queue), Ordinals(more[..j]))
        {
          if j < |selected| {
            assert more[..j] == selected[..j] && more[j] == selected[j];
          } else {
            assert more[..j] == selected;
          }
        }
        ChooseIsSchedulable(queue, i + 1, more, size, maxBytes);
      } else {
        ChooseIsSchedulable(queue, i + 1, selected, size, maxBytes);
      }
    }
  }

  predicate StillUnsent(queue: seq<Queued>, o: nat) {
    exists i :: 0 <= i < |queue| && queue[i].ordinal == o && queue[i].push.None?
  }

  predicate GoesBefore(batch: seq<Queued>, n: nat, o: nat)
    requires n <= |batch|
  {
    exists m :: 0 <= m < n && batch[m].ordinal == o
  }

  /** The `n`th member may be sent: unsent, no prerequisite, and whatever it waits for was sent before or, for the
      sequence, goes before it. */
  predicate MayGo(queue: seq<Queued>, batch: seq<Queued>, n: nat)
    requires n < |batch|
  {
    var q := batch[n];
    && q in queue && q.push.None? && q.prerequisites == {}
    && (forall d :: d in q.lifecycle ==> !StillUnsent(queue, d))
    && forall d :: d in q.sequence && StillUnsent(queue, d) ==> GoesBefore(batch, n, d)
  }

  /** Why a mutation with `n` members before it is not taken. */
  predicate LeftOut(queue: seq<Queued>, batch: seq<Queued>, n: nat, q: Queued, size: seq<Act> -> nat, maxBytes: nat)
    requires n <= |batch|
  {
    || q.prerequisites != {}
    || (exists d :: d in q.lifecycle && StillUnsent(queue, d))
    || (exists d :: d in q.sequence && StillUnsent(queue, d) && !GoesBefore(batch, n, d))
    || (n > 0 && size(Acts(batch[..n] + [q])) > maxBytes)
    || n == 20
  }

  /** The mutation's place is after the first `n` members. */
  predicate Place(batch: seq<Queued>, n: nat, q: Queued) {
    && n <= |batch|
    && (forall m :: 0 <= m < n ==> batch[m].ordinal < q.ordinal)
    && forall m :: n <= m < |batch| ==> q.ordinal < batch[m].ordinal
  }

  /** The batch takes all it can: its members may go, in queue order, and every other unsent mutation has a
      reason to stay. */
  ghost predicate TakesAll(queue: seq<Queued>, batch: seq<Queued>, size: seq<Act> -> nat, maxBytes: nat) {
    && |batch| <= 20 && Increasing(batch)
    && (|batch| > 1 ==> size(Acts(batch)) <= maxBytes)
    && (forall n: nat :: n < |batch| ==> MayGo(queue, batch, n))
    && forall j :: 0 <= j < |queue| && queue[j].push.None? && queue[j] !in batch ==>
         Stays(queue, batch, queue[j], size, maxBytes)
  }

  ghost predicate Stays(queue: seq<Queued>, batch: seq<Queued>, q: Queued, size: seq<Act> -> nat, maxBytes: nat) {
    exists n: nat :: Place(batch, n, q) && LeftOut(queue, batch, n, q, size, maxBytes)
  }

  lemma {:induction false} ChoosePrefix(rest: seq<Queued>, selected: seq<Queued>, unsent: set<nat>,
                                        size: seq<Act> -> nat, maxBytes: nat)
    ensures selected <= Choose(rest, selected, unsent, size, maxBytes)
    ensures forall q :: q in Choose(rest, selected, unsent, size, maxBytes)[|selected|..] ==> q in rest
    decreases |rest|
  {
    if rest != [] && |selected| < PUSH_MUTATIONS {
      var more, chosen := selected + [rest[0]], Choose(rest, selected, unsent, size, maxBytes);
      if Ready(rest[0], unsent, Ordinals(selected)) && Fits(selected, rest[0], size, maxBytes) {
        ChoosePrefix(rest[1..], more, unsent, size, maxBytes);
        assert chosen[|selected|..] == [rest[0]] + chosen[|more|..];
      } else {
        ChoosePrefix(rest[1..], selected, unsent, size, maxBytes);
      }
    }
  }

  /** A mutation the walk passes by has a reason to stay. */
  lemma PassedBy(queue: seq<Queued>, selected: seq<Queued>, q: Queued, size: seq<Act> -> nat, maxBytes: nat,
                 batch: seq<Queued>)
    requires q.push.None? && selected <= batch && Place(batch, |selected|, q)
    requires |selected| >= PUSH_MUTATIONS || !Ready(q, Unsent(queue), Ordinals(selected))
             || !Fits(selected, q, size, maxBytes)
    requires |selected| <= PUSH_MUTATIONS
    ensures Stays(queue, batch, q, size, maxBytes)
  {
    var n := |selected|;
    assert batch[..n] == selected;
    forall d ensures d in Ordinals(selected) <==> GoesBefore(batch, n, d) { }
    if !Ready(q, Unsent(queue), Ordinals(selected)) && q.prerequisites == {} {
      if q.lifecycle * Unsent(queue) != {} {
        var d :| d in q.lifecycle * Unsent(queue);
        assert StillUnsent(queue, d);
      } else {
        var d :| d in q.sequence * Unsent(queue) && d !in Ordinals(selected);
        assert StillUnsent(queue, d);
      }
    }
    assert LeftOut(queue, batch, n, q, size, maxBytes);
  }

  lemma {:induction false} ChooseTakesAll(queue: seq<Queued>, i: nat, selected: seq<Queued>, size: seq<Act> -> nat,
                                          maxBytes: nat, j: nat)
    requires i <= j < |queue| && Increasing(queue) && |selected| <= PUSH_MUTATIONS
    requires forall m :: 0 <= m < |selected| ==> selected[m].ordinal < queue[i].ordinal
    requires var batch := Choose(queue[i..], selected, Unsent(queue), size, maxBytes);
      queue[j].push.None? && queue[j] !in batch
    ensures Stays(queue, Choose(queue[i..], selected, Unsent(queue), size, maxBytes), queue[j], size, maxBytes)
    decreases |queue| - i
  {
    var batch, q := Choose(queue[i..], selected, Unsent(queue), size, maxBytes), queue[i];
    assert queue[i..][0] == q && queue[i..][1..] == queue[i + 1..];
    if |selected| >= PUSH_MUTATIONS {
      assert batch == selected && Place(batch, |selected|, queue[j]);
      PassedBy(queue, selected, queue[j], size, maxBytes, batch);
    } else if Ready(q, Unsent(queue), Ordinals(selected)) && Fits(selected, q, size, maxBytes) {
      ChoosePrefix(queue[i + 1..], selected + [q], Unsent(queue), size, maxBytes);
      assert (selected + [q])[|selected|] == q && q in batch;
      ChooseTakesAll(queue, i + 1, selected + [q], size, maxBytes, j);
    } else if j == i {
      ChoosePrefix(queue[i + 1..], selected, Unsent(queue), size, maxBytes);
      forall m | |selected| <= m < |batch| ensures q.ordinal < batch[m].ordinal {
        assert batch[m] in batch[|selected|..];
      }
      PassedBy(queue, selected, q, size, maxBytes, batch);
    } else {
      ChooseTakesAll(queue, i + 1, selected, size, maxBytes, j);
    }
  }

  lemma MembersMayGo(queue: seq<Queued>, batch: seq<Queued>, size: seq<Act> -> nat, maxBytes: nat, n: nat)
    requires Schedulable(queue, batch, size, maxBytes) && n < |batch|
    ensures MayGo(queue, batch, n)
  {
    var q := batch[n];
    assert Ready(q, Unsent(queue), Ordinals(batch[..n]));
    forall d | d in q.lifecycle ensures !StillUnsent(queue, d) {
      assert d !in q.lifecycle * Unsent(queue);
    }
    forall d | d in q.sequence && StillUnsent(queue, d) ensures GoesBefore(batch, n, d) {
      assert d in q.sequence * Unsent(queue);
      var m :| 0 <= m < n && batch[..n][m].ordinal == d;
    }
  }

  /** A freeze takes everything that may go, in queue order, until 20 mutations or the byte limit. */
  lemma BatchTakesAll(queue: seq<Queued>, size: seq<Act> -> nat, maxBytes: nat)
    requires Increasing(queue)
    ensures TakesAll(queue, Choose(queue, [], Unsent(queue), size, maxBytes), size, maxBytes)
  {
    var batch := Choose(queue, [], Unsent(queue), size, maxBytes);
    assert queue[0..] == queue;
    ChooseIsSchedulable(queue, 0, [], size, maxBytes);
    ChooseKeepsOrder(queue, [], Unsent(queue), size, maxBytes);
    forall n: nat | n < |batch| ensures MayGo(queue, batch, n) { MembersMayGo(queue, batch, size, maxBytes, n); }
    forall j | 0 <= j < |queue| && queue[j].push.None? && queue[j] !in batch
      ensures Stays(queue, batch, queue[j], size, maxBytes)
    {
      ChooseTakesAll(queue, 0, [], size, maxBytes, j);
    }
  }

  /** The encoded batch carries its members one by one, without companions and effects. */
  ghost predicate Encodes(acts: seq<Act>, batch: seq<Queued>) {
    |acts| == |batch| && forall n :: 0 <= n < |batch| ==>
      (acts[n].ordinal == batch[n].ordinal && acts[n].name == batch[n].name && acts[n].version == batch[n].version
       && acts[n].operations == batch[n].wire)
  }

  /** Members are queue entries, taken in queue order. */
  lemma {:induction false} ChooseKeepsOrder(rest: seq<Queued>, selected: seq<Queued>, unsent: set<nat>,
                                            size: seq<Act> -> nat, maxBytes: nat)
    requires Increasing(selected) && Increasing(rest)
    requires forall i, j :: 0 <= i < |selected| && 0 <= j < |rest| ==> selected[i].ordinal < rest[j].ordinal
    ensures Increasing(Choose(rest, selected, unsent, size, maxBytes))
    decreases |rest|
  {
    if rest != [] && |selected| < PUSH_MUTATIONS {
      var more := selected + [rest[0]];
      forall i, j | 0 <= i < |selected| && 0 <= j < |rest[1..]| ensures selected[i].ordinal < rest[1..][j].ordinal {
        assert rest[1..][j] == rest[j + 1];
      }
      forall j | 0 <= j < |rest[1..]| ensures rest[0].ordinal < rest[1..][j].ordinal {
        assert rest[1..][j] == rest[j + 1];
      }
      if Ready(rest[0], unsent, Ordinals(selected)) && Fits(selected, rest[0], size, maxBytes) {
        ChooseKeepsOrder(rest[1..], more, unsent, size, maxBytes);
      } else {
        ChooseKeepsOrder(rest[1..], selected, unsent, size, maxBytes);
      }
    }
  }

  lemma {:induction false} ChooseGrows(rest: seq<Queued>, selected: seq<Queued>, unsent: set<nat>,
                                       size: seq<Act> -> nat, maxBytes: nat)
    ensures |Choose(rest, selected, unsent, size, maxBytes)| >= |selected|
    decreases |rest|
  {
    if rest != [] && |selected| < PUSH_MUTATIONS {
      ChooseGrows(rest[1..], selected + [rest[0]], unsent, size, maxBytes);
      ChooseGrows(rest[1..], selected, unsent, size, maxBytes);
    }
  }

  /** With nothing in flight and prerequisites resolved, a nonempty queue always yields a batch:
      the first mutation has nothing left to wait for. */
  lemma NeverStuck(queue: seq<Queued>, nextOrdinal: nat, nextPush: nat, completed: nat, size: seq<Act> -> nat,
                   maxBytes: nat)
    requires WellQueued(queue, nextOrdinal, nextPush, completed)
    requires queue != [] && !Flying(queue) && queue[0].prerequisites == {}
    ensures Choose(queue, [], Unsent(queue), size, maxBytes) != []
  {
    var q := queue[0];
    FirstIsFree(queue, nextOrdinal);
    ChooseGrows(queue[1..], [] + [q], Unsent(queue), size, maxBytes);
  }

  lemma FirstIsLeast(queue: seq<Queued>, nextOrdinal: nat)
    requires Ordered(queue, nextOrdinal) && queue != []
    ensures forall o :: o in Ordinals(queue) ==> o >= queue[0].ordinal
  {
    forall o | o in Ordinals(queue) ensures o >= queue[0].ordinal {
      var i :| 0 <= i < |queue| && queue[i].ordinal == o;
    }
  }

  lemma FirstIsFree(queue: seq<Queued>, nextOrdinal: nat)
    requires Ordered(queue, nextOrdinal) && DependsBack(queue) && queue != []
    ensures queue[0].lifecycle == {} && queue[0].sequence == {}
  {
    FirstIsLeast(queue, nextOrdinal);
    var all, first := Deps(queue[0]), queue[0].ordinal;
    assert forall d :: d in all ==> d < first && d in Ordinals(queue);
    assert all == {};
  }

  /** `o` is rejected or depends, through lifecycle dependencies, on a rejected mutation. */
  ghost predicate Doomed(queue: seq<Queued>, ids: set<nat>, o: nat)
    decreases o
  {
    || o in ids
    || exists i, d ::
         0 <= i < |queue| && queue[i].ordinal == o && d in queue[i].lifecycle && d < o && Doomed(queue, ids, d)
  }

  predicate DependsOn(q: Queued, rejected: set<nat>) {
    q.ordinal !in rejected && q.lifecycle * rejected != {}
  }

  /** The undecided mutations that depend on one already rejected. */
  function More(queue: seq<Queued>, rejected: set<nat>): set<nat> {
    set i | 0 <= i < |queue| && DependsOn(queue[i], rejected) :: queue[i].ordinal
  }

  lemma MoreIs(queue: seq<Queued>, rejected: set<nat>, o: nat)
    ensures o in More(queue, rejected) <==>
      exists i :: 0 <= i < |queue| && queue[i].ordinal == o && DependsOn(queue[i], rejected)
  {
  }

  lemma MoreShrinks(queue: seq<Queued>, rejected: set<nat>)
    requires More(queue, rejected) != {}
    ensures Ordinals(queue) - (rejected + More(queue, rejected)) < Ordinals(queue) - rejected
  {
    var o :| o in More(queue, rejected);
    assert o in Ordinals(queue) - rejected;
  }

  /** Round after round: what is rejected, and everything that comes to depend on it. */
  ghost function Fallen(queue: seq<Queued>, rejected: set<nat>): set<nat>
    decreases Ordinals(queue) - rejected
  {
    var more := More(queue, rejected);
    if more == {} then rejected
    else
      MoreShrinks(queue, rejected);
      Fallen(queue, rejected + more)
  }

  /** The rejection loop. */
  method CloseRejections(queue: seq<Queued>, ids: set<nat>) returns (rejected: set<nat>)
    ensures rejected == Fallen(queue, ids)
  {
    rejected := ids;
    while true
      invariant Fallen(queue, ids) == Fallen(queue, rejected)
      decreases Ordinals(queue) - rejected
    {
      var more := More(queue, rejected);
      if more == {} {
        break;
      }
      MoreShrinks(queue, rejected);
      rejected := rejected + more;
    }
  }

  lemma {:induction false} FallenGrows(queue: seq<Queued>, rejected: set<nat>)
    ensures rejected <= Fallen(queue, rejected) && More(queue, Fallen(queue, rejected)) == {}
    decreases Ordinals(queue) - rejected
  {
    var more := More(queue, rejected);
    if more != {} {
      MoreShrinks(queue, rejected);
      FallenGrows(queue, rejected + more);
    }
  }

  lemma {:induction false} FallenAreDoomed(queue: seq<Queued>, ids: set<nat>, rejected: set<nat>)
    requires DependsBack(queue) && forall o :: o in rejected ==> Doomed(queue, ids, o)
    ensures forall o :: o in Fallen(queue, rejected) ==> Doomed(queue, ids, o)
    decreases Ordinals(queue) - rejected
  {
    var more := More(queue, rejected);
    if more != {} {
      forall o | o in more ensures Doomed(queue, ids, o) { MoreIsDoomed(queue, ids, rejected, o); }
      MoreShrinks(queue, rejected);
      FallenAreDoomed(queue, ids, rejected + more);
    }
  }

  /** The loop ends with exactly the mutations that reach a rejected one through lifecycle dependencies. */
  lemma FallenExactly(queue: seq<Queued>, ids: set<nat>, o: nat)
    requires DependsBack(queue)
    ensures o in Fallen(queue, ids) <==> Doomed(queue, ids, o)
  {
    FallenGrows(queue, ids);
    FallenAreDoomed(queue, ids, ids);
    if Doomed(queue, ids, o) { ClosedHolds(queue, ids, Fallen(queue, ids), o); }
  }

  lemma {:induction false} FallenWithin(queue: seq<Queued>, rejected: set<nat>)
    requires rejected <= Ordinals(queue)
    ensures rejected <= Fallen(queue, rejected) <= Ordinals(queue)
    decreases Ordinals(queue) - rejected
  {
    var more := More(queue, rejected);
    if more != {} {
      MoreShrinks(queue, rejected);
      FallenWithin(queue, rejected + more);
    }
  }

  lemma MoreIsDoomed(queue: seq<Queued>, ids: set<nat>, rejected: set<nat>, o: nat)
    requires DependsBack(queue) && o in More(queue, rejected)
    requires forall r :: r in rejected ==> Doomed(queue, ids, r)
    ensures Doomed(queue, ids, o)
  {
    MoreIs(queue, rejected, o);
    var i :| 0 <= i < |queue| && queue[i].ordinal == o && DependsOn(queue[i], rejected);
    var d :| d in queue[i].lifecycle * rejected;
    assert d in Deps(queue[i]);
    DoomedBy(queue, ids, i, d);
  }

  lemma {:induction false} ClosedHolds(queue: seq<Queued>, ids: set<nat>, rejected: set<nat>, o: nat)
    requires ids <= rejected && More(queue, rejected) == {} && Doomed(queue, ids, o)
    ensures o in rejected
    decreases o
  {
    if o !in ids {
      var i, d :| 0 <= i < |queue| && queue[i].ordinal == o && d in queue[i].lifecycle && d < o
                  && Doomed(queue, ids, d);
      ClosedHolds(queue, ids, rejected, d);
      assert d in queue[i].lifecycle * rejected;
      MoreIs(queue, rejected, o);
      assert !DependsOn(queue[i], rejected);
    }
  }

  /** Every later wire operation on a record a queued mutation creates depends on that mutation. */
  ghost predicate CreatesHold(queue: seq<Queued>) {
    forall i, j, k :: 0 <= i < j < |queue| && Creates(queue[i], k) && Touching(queue[j].wire, k) != [] ==>
      queue[i].ordinal in queue[j].lifecycle
  }

  predicate Creates(q: Queued, k: Key) {
    exists n :: 0 <= n < |q.wire| && q.wire[n].key == k && q.wire[n].kind == Create
  }

  /** Rejecting a create dooms every later queued mutation with a wire operation on that record. */
  lemma RejectedCreateDooms(queue: seq<Queued>, ids: set<nat>, i: nat, j: nat, k: Key)
    requires CreatesHold(queue) && DependsBack(queue)
    requires i < j < |queue| && Creates(queue[i], k) && Touching(queue[j].wire, k) != []
    requires Doomed(queue, ids, queue[i].ordinal)
    ensures Doomed(queue, ids, queue[j].ordinal)
  {
    var d := queue[i].ordinal;
    assert d in queue[j].lifecycle;
    assert d in Deps(queue[j]);
    DoomedBy(queue, ids, j, d);
  }

  lemma DoomedBy(queue: seq<Queued>, ids: set<nat>, i: nat, d: nat)
    requires i < |queue| && d in queue[i].lifecycle && d < queue[i].ordinal && Doomed(queue, ids, d)
    ensures Doomed(queue, ids, queue[i].ordinal)
  {
  }

  lemma DoomedWaits(queue: seq<Queued>, nextOrdinal: nat, ids: set<nat>, i: nat)
    requires Ordered(queue, nextOrdinal) && i < |queue|
    requires Doomed(queue, ids, queue[i].ordinal) && queue[i].ordinal !in ids
    ensures queue[i].lifecycle != {}
  {
    var o := queue[i].ordinal;
    var j, d :| 0 <= j < |queue| && queue[j].ordinal == o && d in queue[j].lifecycle && d < o && Doomed(queue, ids, d);
    SameOrdinal(queue, i, j);
  }

  /** What only falls with others was not sent. */
  lemma DependentIsUnsent(queue: seq<Queued>, nextOrdinal: nat, nextPush: nat, completed: nat, ids: set<nat>, i: nat)
    requires WellQueued(queue, nextOrdinal, nextPush, completed)
    requires i < |queue| && Doomed(queue, ids, queue[i].ordinal) && queue[i].ordinal !in ids
    ensures queue[i].push.None?
  {
    DoomedWaits(queue, nextOrdinal, ids, i);
  }

  /** What is in flight waits for nothing, so it falls only if it is rejected itself. */
  lemma FlyingFallsAlone(queue: seq<Queued>, nextOrdinal: nat, nextPush: nat, completed: nat, ids: set<nat>, i: nat)
    requires WellQueued(queue, nextOrdinal, nextPush, completed)
    requires i < |queue| && queue[i].push.Some?
    ensures Doomed(queue, ids, queue[i].ordinal) <==> queue[i].ordinal in ids
  {
    if Doomed(queue, ids, queue[i].ordinal) && queue[i].ordinal !in ids {
      DoomedWaits(queue, nextOrdinal, ids, i);
    }
  }
}
