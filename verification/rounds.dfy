/** Rounds of freezing a batch and completing it drain the queue. */
module Rounds {
  import opened Options
  import opened Queue
  import opened Schedule
  import opened Upkeep
  import opened Messages
  import opened Engines

  /** Nothing waits for a prerequisite any more. */
  predicate Resolvable(queue: seq<Queued>) {
    forall i :: 0 <= i < |queue| ==> queue[i].prerequisites == {}
  }

  /** One push: a batch is frozen, and its receipt, whatever it rejects, completes it; what remains may be
      marked diverged or get more effects on the way. */
  ghost predicate Round(id: string, b: Books, b': Books, size: seq<Act> -> nat, maxBytes: nat, receipt: Receipt) {
    var f := Frozen(b, size, maxBytes);
    && !b.frozen && Batch(b.queue, size, maxBytes) != []
    && Judge(id, f.completed, f.queue, receipt.sequence, receipt) == None
    && b' == Completing(f, receipt).(queue := b'.queue)
    && ExtendsAll(Completing(f, receipt).queue, b'.queue)
  }

  /** A frozen mutation waits for nothing still unsent: its lifecycle dependencies left the queue, its
      sequence dependencies go in the same batch before it; the batch is short and fits the limit
      unless it is a single mutation. */
  lemma FrozenRespectsOrder(b: Books, size: seq<Act> -> nat, maxBytes: nat, i: nat)
    requires Steady(b) && !b.frozen && Batch(b.queue, size, maxBytes) != []
    requires i < |b.queue| && Frozen(b, size, maxBytes).queue[i].push.Some?
    ensures var selected := Batch(b.queue, size, maxBytes);
      && |selected| <= PUSH_MUTATIONS && (|selected| > 1 ==> size(Acts(selected)) <= maxBytes)
      && b.queue[i].lifecycle == {}
      && forall d :: d in b.queue[i].sequence ==> d in Ordinals(selected) && d < b.queue[i].ordinal
  {
    var selected := Batch(b.queue, size, maxBytes);
    BatchIsSchedulable(b.queue, size, maxBytes);
    var n := SelectedIndex(b.queue, selected, i, size, maxBytes);
    assert Deps(b.queue[i]) <= Ordinals(b.queue) && WaitsBack(b.queue[i]);
    forall o | o in Ordinals(b.queue) ensures o in Unsent(b.queue) {
      var j :| 0 <= j < |b.queue| && b.queue[j].ordinal == o;
    }
    assert b.queue[i].lifecycle <= Deps(b.queue[i]) && b.queue[i].lifecycle * Unsent(b.queue) == b.queue[i].lifecycle;
    forall d | d in b.queue[i].sequence ensures d in Ordinals(selected) && d < b.queue[i].ordinal {
      assert d in Deps(b.queue[i]);
      assert d in b.queue[i].sequence * Unsent(b.queue);
      OrdinalsOfPrefix(selected, n, d);
    }
  }

  lemma OrdinalsOfPrefix(selected: seq<Queued>, n: nat, o: nat)
    requires n <= |selected| && o in Ordinals(selected[..n])
    ensures o in Ordinals(selected)
  {
    var j :| 0 <= j < |selected[..n]| && selected[..n][j].ordinal == o;
    assert selected[j].ordinal == o;
  }

  lemma {:induction false} WithoutFewer(queue: seq<Queued>, ids: set<nat>, i: nat)
    requires i < |queue| && queue[i].ordinal in ids
    ensures |Without(queue, ids)| < |queue|
  {
    WithoutNoMore(queue[1..], ids);
    if i > 0 {
      assert queue[1..][i - 1] == queue[i];
      WithoutFewer(queue[1..], ids, i - 1);
    }
  }

  lemma {:induction false} WithoutNoMore(queue: seq<Queued>, ids: set<nat>)
    ensures |Without(queue, ids)| <= |queue|
  {
    if queue != [] { WithoutNoMore(queue[1..], ids); }
  }

  lemma WithoutResolvable(queue: seq<Queued>, ids: set<nat>)
    requires Resolvable(queue)
    ensures Resolvable(Without(queue, ids))
  {
    var r := Without(queue, ids);
    forall n | 0 <= n < |r| ensures r[n].prerequisites == {} {
      var i := Origin(queue, ids, n);
    }
  }

  /** A receipt takes at least the push in flight off the queue. */
  lemma CompletingShrinks(id: string, f: Books, receipt: Receipt)
    requires Steady(f) && Judge(id, f.completed, f.queue, receipt.sequence, receipt) == None
    ensures |Completing(f, receipt).queue| < |f.queue|
  {
    var gone, took := Fallen(f.queue, receipt.rejections.Keys), Taken(f.queue, receipt);
    var i :| 0 <= i < |f.queue| && f.queue[i].push.Some?;
    var o := f.queue[i].ordinal;
    assert f.queue[i].push == Some(receipt.sequence);
    assert o in InPush(f.queue, receipt.sequence);
    if o in receipt.rejections {
      FallenWithin(f.queue, receipt.rejections.Keys);
      assert o in gone;
    }
    WithoutFewer(f.queue, gone + took, i);
  }

  lemma FrozenResolvable(queue: seq<Queued>, ids: set<nat>, push: nat)
    requires Resolvable(queue)
    ensures Resolvable(Assigned(queue, ids, push))
  {
    var r := Assigned(queue, ids, push);
    forall i | 0 <= i < |r| ensures r[i].prerequisites == {} {
      assert queue[i].prerequisites == {};
    }
  }

  lemma ExtendedResolvable(queue: seq<Queued>, queue': seq<Queued>)
    requires Resolvable(queue) && ExtendsAll(queue, queue')
    ensures Resolvable(queue')
  {
    forall i | 0 <= i < |queue'| ensures queue'[i].prerequisites == {} {
      assert Extends(queue[i], queue'[i]);
    }
  }

  lemma RoundShrinks(id: string, b: Books, b': Books, size: seq<Act> -> nat, maxBytes: nat, receipt: Receipt)
    requires Steady(b) && Resolvable(b.queue) && Round(id, b, b', size, maxBytes, receipt)
    ensures Steady(b') && !b'.frozen && Resolvable(b'.queue) && |b'.queue| < |b.queue|
  {
    var f := Frozen(b, size, maxBytes);
    SteadyFreezes(b, size, maxBytes);
    CompletingIsSteady(f, id, receipt);
    CompletingShrinks(id, f, receipt);
    FrozenResolvable(b.queue, Ordinals(Batch(b.queue, size, maxBytes)), b.nextPush);
    WithoutResolvable(f.queue, Fallen(f.queue, receipt.rejections.Keys) + Taken(f.queue, receipt));
    SteadyExtends(Completing(f, receipt), b'.queue);
    ExtendedResolvable(Completing(f, receipt).queue, b'.queue);
  }

  /** Every round may measure and limit its batch as it likes: the encoding names the push's own sequence. */
  ghost predicate IsRound(id: string, b: Books, b': Books) {
    exists size, maxBytes, receipt :: Round(id, b, b', size, maxBytes, receipt)
  }

  ghost predicate Chain(id: string, states: seq<Books>) {
    forall i :: 0 <= i < |states| - 1 ==> IsRound(id, states[i], states[i + 1])
  }

  /** However the receipts decide, and whatever diverges on the way, every round leaves fewer mutations, and
      while any is left another round can start under every measure and limit: rounds go on exactly until
      the queue is empty. */
  lemma {:induction false} RoundsDrain(id: string, states: seq<Books>)
    requires states != [] && Chain(id, states)
    requires Steady(states[0]) && !states[0].frozen && Resolvable(states[0].queue)
    ensures var last := states[|states| - 1];
      && Steady(last) && !last.frozen && Resolvable(last.queue)
      && |last.queue| + |states| - 1 <= |states[0].queue|
      && forall size: seq<Act> -> nat, maxBytes: nat :: last.queue != [] <==> Batch(last.queue, size, maxBytes) != []
    decreases |states|
  {
    var last := states[|states| - 1];
    if |states| > 1 {
      var front := states[..|states| - 1];
      forall i | 0 <= i < |front| - 1 ensures IsRound(id, front[i], front[i + 1]) {
        assert IsRound(id, states[i], states[i + 1]);
      }
      RoundsDrain(id, front);
      var before := states[|states| - 2];
      assert IsRound(id, states[|states| - 2], states[|states| - 2 + 1]);
      var size, maxBytes, receipt :| Round(id, before, last, size, maxBytes, receipt);
      RoundShrinks(id, before, last, size, maxBytes, receipt);
    }
    forall size: seq<Act> -> nat, maxBytes: nat ensures last.queue != [] <==> Batch(last.queue, size, maxBytes) != [] {
      if last.queue != [] { NeverStuck(last.queue, last.nextOrdinal, last.nextPush, last.completed, size, maxBytes); }
    }
  }

  /** Freezing a new batch and applying a receipt that completes it is a round. */
  method PushRound(e: Engine, maxBytes: nat, size: (nat, map<string, nat>, seq<Act>) -> nat, receipt: Receipt)
    returns (pushed: bool, ghost measure: seq<Act> -> nat)
    requires e.Valid() && e.frozen.None?
    modifies e
    ensures e.Valid() && measure == Sized(size, old(e.nextPush), e.models)
    ensures pushed ==> Round(e.clientId, old(e.Books()), e.Books(), measure, maxBytes, receipt)
    ensures !pushed ==> e.Books() == old(e.Books()) || e.Books() == Frozen(old(e.Books()), measure, maxBytes)
  {
    ghost var b := e.Books();
    measure := Sized(size, b.nextPush, e.models);
    var request;
    ghost var batch;
    request, batch := e.Freeze(maxBytes, size);
    if request.None? {
      return false, measure;
    }
    var outcome := e.Acknowledge(receipt.sequence, receipt);
    pushed := outcome.Completed?;
  }
}
