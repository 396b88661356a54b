/** Authority is ordered by record stamp alone: what one record becomes as authoritative records
    arrive, whichever page or receipt carries them. What cascades add is in Landings. */
module Authorities {
  import opened Options
  import opened Records

  /** `state` is absent for a deletion; `error` says the server could not read the record. */
  datatype Authority = Authority(key: Key, stamp: nat, state: Row, error: Option<string>)

  /** A record as one client holds it: its base and its stamp evidence. */
  datatype Version = Version(row: Row, stamp: nat)

  function Content(a: Authority): Row {
    match a.state
    case None => None
    case Some(fields) => Some(a.key.identity + fields)
  }

  datatype Disposition = Newer | Older | Same | Conflict

  function Compare(v: Version, a: Authority): Disposition {
    if a.stamp < v.stamp then Older
    else if a.stamp > v.stamp then Newer
    else if Content(a) == v.row then Same
    else Conflict
  }

  predicate UniqueKeys(records: seq<Authority>) {
    forall i, j :: 0 <= i < j < |records| ==> records[i].key != records[j].key
  }

  function CoveredKeys(records: seq<Authority>): (r: set<Key>)
    ensures forall i :: 0 <= i < |records| ==> records[i].key in r
  {
    set i | 0 <= i < |records| :: records[i].key
  }

  /** Whether the schema accepts the delivered state; a state it refuses is skipped. */
  predicate Usable(accepts: (Key, Fields) -> bool, a: Authority) {
    a.error.None? && (a.state.Some? ==> accepts(a.key, a.state.value))
  }

  function Land(accepts: (Key, Fields) -> bool, v: Version, a: Authority): Version {
    if Usable(accepts, a) && Compare(v, a) == Newer then Version(Content(a), a.stamp) else v
  }

  /** One record after a whole delivery. */
  function Evolve(accepts: (Key, Fields) -> bool, v: Version, records: seq<Authority>, k: Key): Version
    decreases |records|
  {
    if records == [] then v
    else Evolve(accepts, if records[0].key == k then Land(accepts, v, records[0]) else v, records[1..], k)
  }

  lemma {:induction false} EvolveConcat(accepts: (Key, Fields) -> bool, v: Version, a: seq<Authority>,
                                        b: seq<Authority>, k: Key)
    ensures Evolve(accepts, v, a + b, k) == Evolve(accepts, Evolve(accepts, v, a, k), b, k)
    decreases |a|
  {
    if a == [] {
      assert a + b == b;
    } else {
      assert (a + b)[1..] == a[1..] + b;
      EvolveConcat(accepts, if a[0].key == k then Land(accepts, v, a[0]) else v, a[1..], b, k);
    }
  }

  /** Content is a function of record and stamp, which `history` tells; a record the server could not read
      has none to tell. */
  ghost predicate Truthful(history: (Key, nat) -> Row, a: Authority) {
    a.error.None? ==> a.stamp > 0 && Content(a) == history(a.key, a.stamp)
  }

  /** What is said of `k` is the truth. */
  ghost predicate TellsOf(history: (Key, nat) -> Row, records: seq<Authority>, k: Key) {
    forall i :: 0 <= i < |records| && records[i].key == k ==> Truthful(history, records[i])
  }

  ghost predicate Current(history: (Key, nat) -> Row, v: Version, k: Key) {
    v.stamp > 0 ==> v.row == history(k, v.stamp)
  }

  /** The highest stamp among `v` and the usable deliveries for `k`. */
  function Highest(accepts: (Key, Fields) -> bool, stamp: nat, records: seq<Authority>, k: Key): nat
    decreases |records|
  {
    if records == [] then stamp
    else
      var a := records[0];
      Highest(accepts, if a.key == k && Usable(accepts, a) && a.stamp > stamp then a.stamp else stamp, records[1..], k)
  }

  /** Delivery after delivery a record holds the highest stamp it was given and that stamp's content,
      and no delivery on the way is a conflict. */
  lemma {:induction false} EvolveIsHighest(accepts: (Key, Fields) -> bool, history: (Key, nat) -> Row, v: Version,
                                           records: seq<Authority>, k: Key)
    requires Current(history, v, k) && TellsOf(history, records, k)
    ensures var e := Evolve(accepts, v, records, k);
      && e.stamp == Highest(accepts, v.stamp, records, k)
      && Current(history, e, k)
      && (e.stamp == v.stamp ==> e == v)
    decreases |records|
  {
    if records != [] {
      assert records[0].key == k ==> Truthful(history, records[0]);
      assert forall i :: 0 <= i < |records[1..]| ==> records[1..][i] == records[i + 1];
      EvolveIsHighest(accepts, history, if records[0].key == k then Land(accepts, v, records[0]) else v, records[1..],
                      k);
      HighestGrows(accepts, if records[0].key == k then Land(accepts, v, records[0]).stamp else v.stamp, records[1..],
                   k);
    }
  }

  /** The stamp a record ends with does not depend on its content. */
  lemma {:induction false} EvolveStamp(accepts: (Key, Fields) -> bool, v: Version, records: seq<Authority>, k: Key)
    ensures Evolve(accepts, v, records, k).stamp == Highest(accepts, v.stamp, records, k)
    decreases |records|
  {
    if records != [] {
      EvolveStamp(accepts, if records[0].key == k then Land(accepts, v, records[0]) else v, records[1..], k);
    }
  }

  lemma {:induction false} HighestConcat(accepts: (Key, Fields) -> bool, stamp: nat, a: seq<Authority>,
                                         b: seq<Authority>, k: Key)
    ensures Highest(accepts, stamp, a + b, k) == Highest(accepts, Highest(accepts, stamp, a, k), b, k)
    decreases |a|
  {
    if a == [] {
      assert a + b == b;
    } else {
      assert (a + b)[1..] == a[1..] + b;
      HighestConcat(accepts, if a[0].key == k && Usable(accepts, a[0]) && a[0].stamp > stamp then a[0].stamp else stamp,
                    a[1..], b, k);
    }
  }

  lemma {:induction false} HighestGrows(accepts: (Key, Fields) -> bool, stamp: nat, records: seq<Authority>, k: Key)
    ensures Highest(accepts, stamp, records, k) >= stamp
    decreases |records|
  {
    if records != [] {
      var a := records[0];
      HighestGrows(accepts, if a.key == k && Usable(accepts, a) && a.stamp > stamp then a.stamp else stamp,
                   records[1..], k);
    }
  }

  lemma NeverConflict(accepts: (Key, Fields) -> bool, history: (Key, nat) -> Row, v: Version,
                      earlier: seq<Authority>, a: Authority)
    requires Current(history, v, a.key) && TellsOf(history, earlier, a.key)
    requires Truthful(history, a) && a.error.None?
    ensures Compare(Evolve(accepts, v, earlier, a.key), a) != Conflict
  {
    EvolveIsHighest(accepts, history, v, earlier, a.key);
  }

  /** The highest stamp is a bound that is reached: it depends on which records were delivered,
      not on their order or how often. */
  lemma {:induction false} HighestBound(accepts: (Key, Fields) -> bool, stamp: nat, records: seq<Authority>, k: Key)
    ensures var h := Highest(accepts, stamp, records, k);
      && h >= stamp
      && (forall i :: 0 <= i < |records| && records[i].key == k && Usable(accepts, records[i]) ==>
            records[i].stamp <= h)
      && (h > stamp ==> exists i ::
            0 <= i < |records| && records[i].key == k && Usable(accepts, records[i]) && records[i].stamp == h)
    decreases |records|
  {
    if records != [] {
      var a := records[0];
      var next := if a.key == k && Usable(accepts, a) && a.stamp > stamp then a.stamp else stamp;
      HighestBound(accepts, next, records[1..], k);
      var h := Highest(accepts, next, records[1..], k);
      forall i | 0 <= i < |records| && records[i].key == k && Usable(accepts, records[i])
        ensures records[i].stamp <= h
      {
        if i > 0 { assert records[i] == records[1..][i - 1]; }
      }
      if h > stamp {
        if h > next {
          var i :| 0 <= i < |records[1..]| && records[1..][i].key == k && Usable(accepts, records[1..][i])
                   && records[1..][i].stamp == h;
          assert records[i + 1] == records[1..][i];
        } else {
          assert records[0].stamp == h;
        }
      }
    }
  }

  /** Everything usable that `a` says of `k` is in `b`, wherever and however often. */
  predicate AlsoSays(accepts: (Key, Fields) -> bool, a: seq<Authority>, b: seq<Authority>, k: Key) {
    forall i :: 0 <= i < |a| && a[i].key == k && Usable(accepts, a[i]) ==> a[i] in b
  }

  /** Order independence: two histories of deliveries that say the same of a record, in any order, with any
      repeats and whatever else they deliver, leave it the same. */
  lemma OrderIndependent(accepts: (Key, Fields) -> bool, history: (Key, nat) -> Row, v: Version,
                         a: seq<Authority>, b: seq<Authority>, k: Key)
    requires Current(history, v, k) && TellsOf(history, a, k) && TellsOf(history, b, k)
    requires AlsoSays(accepts, a, b, k) && AlsoSays(accepts, b, a, k)
    ensures Evolve(accepts, v, a, k) == Evolve(accepts, v, b, k)
  {
    EvolveIsHighest(accepts, history, v, a, k);
    EvolveIsHighest(accepts, history, v, b, k);
    HighestBelow(accepts, v.stamp, a, b, k);
    HighestBelow(accepts, v.stamp, b, a, k);
    HighestGrows(accepts, v.stamp, a, k);
    SameVersion(history, v, Evolve(accepts, v, a, k), Evolve(accepts, v, b, k), k);
  }

  lemma SameVersion(history: (Key, nat) -> Row, v: Version, a: Version, b: Version, k: Key)
    requires Current(history, a, k) && Current(history, b, k) && a.stamp == b.stamp >= v.stamp
    requires (a.stamp == v.stamp ==> a == v) && (b.stamp == v.stamp ==> b == v)
    ensures a == b
  {
  }

  lemma HighestBelow(accepts: (Key, Fields) -> bool, stamp: nat, a: seq<Authority>, b: seq<Authority>, k: Key)
    requires AlsoSays(accepts, a, b, k)
    ensures Highest(accepts, stamp, a, k) <= Highest(accepts, stamp, b, k)
  {
    HighestBound(accepts, stamp, a, k);
    HighestBound(accepts, stamp, b, k);
    if Highest(accepts, stamp, a, k) > stamp {
      var i :| 0 <= i < |a| && a[i].key == k && Usable(accepts, a[i]) && a[i].stamp == Highest(accepts, stamp, a, k);
      var j :| 0 <= j < |b| && b[j] == a[i];
    }
  }
}
