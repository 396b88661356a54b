/** Worklist reachability over any step function. */
module Graphs {

  predicate Path<K(==)>(step: K -> set<K>, path: seq<K>) {
    forall i :: 0 <= i < |path| - 1 ==> path[i + 1] in step(path[i])
  }

  ghost predicate Links<K>(step: K -> set<K>, path: seq<K>, from: K, to: K) {
    |path| > 0 && path[0] == from && path[|path| - 1] == to && Path(step, path)
  }

  ghost predicate Reachable<K(!new)>(step: K -> set<K>, from: K, to: K) {
    exists path :: Links(step, path, from, to)
  }

  lemma ReachableStep<K(!new)>(step: K -> set<K>, from: K, mid: K, to: K)
    requires Reachable(step, from, mid) && to in step(mid)
    ensures Reachable(step, from, to)
  {
    var path :| Links(step, path, from, mid);
    var longer := path + [to];
    forall i | 0 <= i < |longer| - 1 ensures longer[i + 1] in step(longer[i]) {
      if i < |path| - 1 { assert longer[i + 1] == path[i + 1] && longer[i] == path[i]; }
    }
    assert Links(step, longer, from, to);
  }

  lemma {:induction false} PathStays<K>(step: K -> set<K>, closed: set<K>, path: seq<K>, n: nat)
    requires n < |path| && path[0] in closed && Path(step, path)
    requires forall p :: p in closed ==> step(p) <= closed
    ensures path[n] in closed
  {
    if n > 0 {
      PathStays(step, closed, path, n - 1);
      assert path[n - 1 + 1] in step(path[n - 1]);
    }
  }

  predicate NoDuplicates<K(==)>(keys: seq<K>) {
    forall i, j :: 0 <= i < j < |keys| ==> keys[i] != keys[j]
  }

  lemma SmallerComplement<K>(universe: set<K>, a: set<K>, b: set<K>)
    requires a < b <= universe
    ensures |universe - b| < |universe - a|
  {
    assert universe - a == (universe - b) + (b - a);
  }

  lemma Appended<K>(a: seq<K>, b: seq<K>)
    requires NoDuplicates(a) && NoDuplicates(b) && forall k :: k in b ==> k !in a
    ensures NoDuplicates(a + b)
  {
    var s := a + b;
    forall i, j | 0 <= i < j < |s| ensures s[i] != s[j] {
      if i < |a| <= j { assert s[j] in b; }
    }
  }

  /** The members of a set in some order, each once. */
  method Listed<K(==)>(members: set<K>) returns (list: seq<K>)
    ensures NoDuplicates(list) && forall k :: k in list <==> k in members
  {
    list := [];
    var rest := members;
    while rest != {}
      invariant rest <= members && NoDuplicates(list)
      invariant forall k :: k in list <==> k in members - rest
      decreases rest
    {
      var k :| k in rest;
      assert k !in list;
      ghost var before := list;
      list, rest := list + [k], rest - {k};
      Appended(before, [k]);
    }
  }

  ghost function Enumerate<K>(members: set<K>): seq<K> {
    if members == {} then []
    else
      var k :| k in members;
      [k] + Enumerate(members - {k})
  }

  lemma {:induction false} Enumerates<K>(members: set<K>)
    ensures NoDuplicates(Enumerate(members)) && forall k :: k in Enumerate(members) <==> k in members
  {
    if members != {} {
      var k :| k in members && Enumerate(members) == [k] + Enumerate(members - {k});
      Enumerates(members - {k});
      Appended([k], Enumerate(members - {k}));
    }
  }

  /** Everything reachable from `from`, once each, without `from` itself. The step function may be cyclic;
      it ends because every step stays in a finite universe. */
  method Closure<K(==,!new)>(step: K -> set<K>, from: K, ghost universe: set<K>) returns (result: seq<K>)
    requires from in universe && forall p :: step(p) <= universe
    ensures NoDuplicates(result)
    ensures forall k :: k in result <==> k != from && Reachable(step, from, k)
  {
    var seen: set<K> := {from};
    var todo := [from];
    result := [];
    assert Links(step, [from], from, from);
    while todo != []
      invariant NoDuplicates(result) && forall k :: k in result <==> k in seen && k != from
      invariant from in seen && seen <= universe
      invariant forall k :: k in seen ==> Reachable(step, from, k)
      invariant forall k :: k in todo ==> k in seen
      invariant forall p :: p in seen && p !in todo ==> step(p) <= seen
      decreases |universe - seen|, |todo|
    {
      var next, rest := todo[|todo| - 1], todo[..|todo| - 1];
      assert next in todo && forall k :: k in todo ==> k in rest || k == next;
      var found := Listed(step(next) - seen);
      forall k | k in found ensures Reachable(step, from, k) {
        ReachableStep(step, from, next, k);
      }
      Appended(result, found);
      ghost var before := seen;
      seen, result, todo := seen + step(next), result + found, rest + found;
      if found != [] {
        assert found[0] in found;
        SmallerComplement(universe, before, seen);
      } else {
        forall k | k in step(next) ensures k in before {
          assert k in step(next) - before ==> k in found;
        }
        assert seen == before;
      }
      forall p | p in seen && p !in todo ensures step(p) <= seen {
        assert p in step(next) - before ==> p in found;
      }
    }
    forall k | k != from && Reachable(step, from, k) ensures k in result {
      var path :| Links(step, path, from, k);
      PathStays(step, seen, path, |path| - 1);
    }
  }
}
