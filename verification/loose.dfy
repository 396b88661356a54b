/** Which records may show something else than their replay: only such with a cascade effect pending. */
module Looseness {
  import opened Records
  import opened Queue
  import opened Optimism
  import opened Enqueueing

  /** Some queued mutation has a cascade effect on the record. */
  predicate HasEffect(queue: seq<Queued>, k: Key) {
    exists i :: 0 <= i < |queue| && Touching(queue[i].effects, k) != []
  }

  predicate AllHaveEffects(queue: seq<Queued>, loose: set<Key>) {
    forall k :: k in loose ==> HasEffect(queue, k)
  }

  lemma EffectsFewer(queue: seq<Queued>, loose: set<Key>, loose': set<Key>)
    requires AllHaveEffects(queue, loose) && loose' <= loose
    ensures AllHaveEffects(queue, loose')
  {
  }

  predicate SameEffects(queue: seq<Queued>, queue': seq<Queued>) {
    |queue'| == |queue| && forall i :: 0 <= i < |queue| ==> queue'[i].effects == queue[i].effects
  }

  lemma EffectsSame(queue: seq<Queued>, queue': seq<Queued>, loose: set<Key>)
    requires AllHaveEffects(queue, loose) && SameEffects(queue, queue')
    ensures AllHaveEffects(queue', loose)
  {
    forall k | k in loose ensures HasEffect(queue', k) {
      var i :| 0 <= i < |queue| && Touching(queue[i].effects, k) != [];
      assert Touching(queue'[i].effects, k) != [];
    }
  }

  /** Effects that were added stay. */
  lemma EffectsExtend(queue: seq<Queued>, queue': seq<Queued>, loose: set<Key>, loose': set<Key>)
    requires AllHaveEffects(queue, loose) && ExtendsAll(queue, queue') && loose' <= loose
    ensures AllHaveEffects(queue', loose')
  {
    forall k | k in loose' ensures HasEffect(queue', k) {
      var i :| 0 <= i < |queue| && Touching(queue[i].effects, k) != [];
      assert Extends(queue[i], queue'[i]);
      var more := queue'[i].effects[|queue[i].effects|..];
      assert queue'[i].effects == queue[i].effects + more;
      TouchingConcat(queue[i].effects, more, k);
    }
  }

  /** A new mutation leaves only records loose that it has effects on. */
  lemma EffectsAppend(queue: seq<Queued>, q: Queued, loose: set<Key>, ops: seq<Op>, cascades: seq<seq<Op>>)
    requires AllHaveEffects(queue, loose) && |ops| == |cascades| && q.effects == Flatten(cascades)
    ensures AllHaveEffects(queue + [q], loose + MisorderedKeys(ops, cascades))
  {
    forall k | k in loose + MisorderedKeys(ops, cascades) ensures HasEffect(queue + [q], k) {
      if k in loose {
        var i :| 0 <= i < |queue| && Touching(queue[i].effects, k) != [];
        assert (queue + [q])[i] == queue[i];
      } else {
        assert (queue + [q])[|queue|] == q;
      }
    }
  }

  /** Removing mutations keeps the effects on what they did not touch. */
  lemma EffectsWithout(queue: seq<Queued>, ids: set<nat>, loose: set<Key>, loose': set<Key>)
    requires AllHaveEffects(queue, loose) && loose' <= loose - TouchedKeys(queue, ids)
    ensures AllHaveEffects(Without(queue, ids), loose')
  {
    var r := Without(queue, ids);
    forall k | k in loose' ensures HasEffect(r, k) {
      var i :| 0 <= i < |queue| && Touching(queue[i].effects, k) != [];
      TouchingConcat(queue[i].wire + queue[i].companion, queue[i].effects, k);
      assert queue[i].ordinal !in ids;
      WithoutMembers(queue, ids);
      var n :| 0 <= n < |r| && r[n] == Stripped(queue[i], ids);
      assert Touching(r[n].effects, k) != [];
    }
  }
}
