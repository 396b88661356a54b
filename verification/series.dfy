/** Deliveries over time: pages and receipts one after another, with everything a client does between them. */
module Series {
  import opened Records
  import opened Cascades
  import opened Queue
  import opened Authorities
  import opened Landings
  import opened Foldings

  /** A page that applies, a receipt that completes its flight, or a step that delivers nothing: a rebuild, an
      effect added to a queued deletion, a mutation queued, dropped or sent. */
  datatype Arrival =
    | Paged(records: seq<Authority>)
    | Receipted(accepted: seq<Queued>, records: seq<Authority>)
    | Meanwhile

  /** What a client holds before and after every delivery. */
  datatype Course = Course(holdings: seq<Holding>, deliveries: seq<Arrival>)

  function Carried(d: Arrival): seq<Authority> {
    if d.Meanwhile? then [] else d.records
  }

  /** Everything delivered, in order. */
  function Joined(deliveries: seq<Arrival>): seq<Authority> {
    if deliveries == [] then [] else Joined(deliveries[..|deliveries| - 1]) + Carried(deliveries[|deliveries| - 1])
  }

  /** What the records of a delivery land on: under a receipt the accepted companions are folded first. */
  ghost function Ready(relations: seq<Relation>, h: Holding, d: Arrival): Holding {
    if d.Receipted? then FoldEach(relations, h, d.accepted, WireKeys(d.accepted), CoveredKeys(d.records)) else h
  }

  /** No companion settles on the record: none touches it, or the receipt answers for it. */
  predicate Unfolded(d: Arrival, k: Key) {
    d.Receipted? ==> k in CoveredKeys(d.records) || Touching(Companions(d.accepted), k) == []
  }

  /** One delivery does to `k` what the code does; nothing is said of what else the client holds afterwards. */
  ghost predicate Goes(relations: seq<Relation>, accepts: (Key, Fields) -> bool, h: Holding, d: Arrival, h': Holding,
                       k: Key)
  {
    && Sound(h) && h.stray == {} && Unfolded(d, k)
    && (d.Receipted? ==> forall q :: q in d.accepted ==> q in h.db.queue)
    && HeldIn(h', k) == HeldIn(LandAll(relations, accepts, Ready(relations, h, d), Carried(d)), k)
  }

  ghost predicate Follows(relations: seq<Relation>, accepts: (Key, Fields) -> bool, c: Course, k: Key) {
    && |c.holdings| == |c.deliveries| + 1
    && forall i :: 0 <= i < |c.deliveries| ==>
         Goes(relations, accepts, c.holdings[i], c.deliveries[i], c.holdings[i + 1], k)
  }

  function First(c: Course): Holding
    requires |c.holdings| > 0
  {
    c.holdings[0]
  }

  function Last(c: Course): Holding
    requires |c.holdings| > 0
  {
    c.holdings[|c.holdings| - 1]
  }

  /** The course up to its `n`th delivery. */
  function Until(c: Course, n: nat): Course
    requires n <= |c.deliveries| && |c.holdings| == |c.deliveries| + 1
  {
    Course(c.holdings[..n + 1], c.deliveries[..n])
  }

  lemma UntilFollows(relations: seq<Relation>, accepts: (Key, Fields) -> bool, c: Course, n: nat, k: Key)
    requires Follows(relations, accepts, c, k) && n <= |c.deliveries|
    ensures Follows(relations, accepts, Until(c, n), k)
    ensures First(Until(c, n)) == First(c) && Last(Until(c, n)) == c.holdings[n]
  {
    var u := Until(c, n);
    forall i | 0 <= i < |u.deliveries|
      ensures Goes(relations, accepts, u.holdings[i], u.deliveries[i], u.holdings[i + 1], k)
    {
      assert u.holdings[i] == c.holdings[i] && u.deliveries[i] == c.deliveries[i];
    }
  }

  lemma FollowsOn(relations: seq<Relation>, accepts: (Key, Fields) -> bool, c: Course, d: Arrival, h: Holding, k: Key)
    requires Follows(relations, accepts, c, k) && Goes(relations, accepts, Last(c), d, h, k)
    ensures var longer := Course(c.holdings + [h], c.deliveries + [d]);
      Follows(relations, accepts, longer, k) && First(longer) == First(c) && Last(longer) == h
  {
    var longer := Course(c.holdings + [h], c.deliveries + [d]);
    forall i | 0 <= i < |longer.deliveries|
      ensures Goes(relations, accepts, longer.holdings[i], longer.deliveries[i], longer.holdings[i + 1], k)
    {
      if i < |c.deliveries| {
        assert longer.holdings[i] == c.holdings[i] && longer.holdings[i + 1] == c.holdings[i + 1];
      }
    }
  }

  lemma ReadyIsLandable(relations: seq<Relation>, accepts: (Key, Fields) -> bool, h: Holding, d: Arrival, h': Holding,
                        k: Key)
    requires Goes(relations, accepts, h, d, h', k) && Lone(relations, k)
    ensures Sound(Ready(relations, h, d)) && Landable(Ready(relations, h, d), Carried(d))
    ensures HeldIn(Ready(relations, h, d), k) == HeldIn(h, k)
  {
    if d.Receipted? {
      FoldEachSound(relations, h, d.accepted, d.records);
      FoldsMoved(relations, h, d.accepted, d.records, k);
    }
  }

  /** A record no deletion can reach ends where everything delivered about it leads, however it is split into
      pages and receipts, and whatever happens to other records and to the queue in between. */
  lemma {:induction false} SeriesEvolves(relations: seq<Relation>, accepts: (Key, Fields) -> bool, c: Course, k: Key)
    requires Follows(relations, accepts, c, k) && Lone(relations, k)
    ensures HeldIn(Last(c), k) == Evolve(accepts, HeldIn(First(c), k), Joined(c.deliveries), k)
    decreases |c.deliveries|
  {
    if c.deliveries != [] {
      var n := |c.deliveries| - 1;
      var h, d := c.holdings[n], c.deliveries[n];
      UntilFollows(relations, accepts, c, n, k);
      SeriesEvolves(relations, accepts, Until(c, n), k);
      ReadyIsLandable(relations, accepts, h, d, c.holdings[n + 1], k);
      LoneEvolves(relations, accepts, Ready(relations, h, d), Carried(d), k);
      EvolveConcat(accepts, HeldIn(First(c), k), Joined(c.deliveries[..n]), Carried(d), k);
    }
  }

  /** Order independence over time: two courses that start with the same version of the record and deliver the
      same usable truths about it, in any order, split in any way and with any repeats, end with the same. */
  lemma OrderIndependentSeries(relations: seq<Relation>, accepts: (Key, Fields) -> bool,
                               history: (Key, nat) -> Row, a: Course, b: Course, k: Key)
    requires Follows(relations, accepts, a, k) && Follows(relations, accepts, b, k) && Lone(relations, k)
    requires HeldIn(First(a), k) == HeldIn(First(b), k) && Current(history, HeldIn(First(a), k), k)
    requires TellsOf(history, Joined(a.deliveries), k) && TellsOf(history, Joined(b.deliveries), k)
    requires AlsoSays(accepts, Joined(a.deliveries), Joined(b.deliveries), k)
    requires AlsoSays(accepts, Joined(b.deliveries), Joined(a.deliveries), k)
    ensures HeldIn(Last(a), k) == HeldIn(Last(b), k)
  {
    SeriesEvolves(relations, accepts, a, k);
    SeriesEvolves(relations, accepts, b, k);
    OrderIndependent(accepts, history, HeldIn(First(a), k), Joined(a.deliveries), Joined(b.deliveries), k);
  }

  lemma {:induction false} CarriedIsJoined(deliveries: seq<Arrival>, i: nat, a: Authority)
    requires i < |deliveries| && a in Carried(deliveries[i])
    ensures a in Joined(deliveries)
    decreases |deliveries|
  {
    if i < |deliveries| - 1 { CarriedIsJoined(deliveries[..|deliveries| - 1], i, a); }
  }

  lemma {:induction false} JoinedUntil(deliveries: seq<Arrival>, n: nat, a: Authority)
    requires n <= |deliveries| && a in Joined(deliveries[..n])
    ensures a in Joined(deliveries)
    decreases |deliveries|
  {
    if n < |deliveries| {
      assert deliveries[..|deliveries| - 1][..n] == deliveries[..n];
      JoinedUntil(deliveries[..|deliveries| - 1], n, a);
    } else {
      assert deliveries[..n] == deliveries;
    }
  }

  lemma TellsUntil(history: (Key, nat) -> Row, deliveries: seq<Arrival>, n: nat, k: Key)
    requires TellsOf(history, Joined(deliveries), k) && n <= |deliveries|
    ensures TellsOf(history, Joined(deliveries[..n]), k)
  {
    var earlier := Joined(deliveries[..n]);
    forall i | 0 <= i < |earlier| && earlier[i].key == k ensures Truthful(history, earlier[i]) {
      JoinedUntil(deliveries, n, earlier[i]);
    }
  }

  lemma TellsCarried(history: (Key, nat) -> Row, deliveries: seq<Arrival>, n: nat, k: Key)
    requires TellsOf(history, Joined(deliveries), k) && n < |deliveries|
    ensures TellsOf(history, Carried(deliveries[n]), k)
  {
    var records := Carried(deliveries[n]);
    forall i | 0 <= i < |records| && records[i].key == k ensures Truthful(history, records[i]) {
      CarriedIsJoined(deliveries, n, records[i]);
    }
  }

  /** While only the truth is told about such a record, no delivery on the way reports it as a conflict, and the
      client always holds what its stamp means. */
  lemma SeriesNeverConflicts(relations: seq<Relation>, accepts: (Key, Fields) -> bool, history: (Key, nat) -> Row,
                             c: Course, n: nat, k: Key)
    requires Follows(relations, accepts, c, k) && Lone(relations, k) && n < |c.deliveries|
    requires Current(history, HeldIn(First(c), k), k) && TellsOf(history, Joined(c.deliveries), k)
    ensures Current(history, HeldIn(c.holdings[n], k), k)
    ensures !Conflicts(AllReported(relations, accepts, Ready(relations, c.holdings[n], c.deliveries[n]),
                                   Carried(c.deliveries[n])), k)
  {
    var h, d, earlier := c.holdings[n], c.deliveries[n], Joined(c.deliveries[..n]);
    UntilFollows(relations, accepts, c, n, k);
    SeriesEvolves(relations, accepts, Until(c, n), k);
    TellsUntil(history, c.deliveries, n, k);
    EvolveIsHighest(accepts, history, HeldIn(First(c), k), earlier, k);
    TellsCarried(history, c.deliveries, n, k);
    ReadyIsLandable(relations, accepts, h, d, c.holdings[n + 1], k);
    NeverReportsConflict(relations, accepts, history, Ready(relations, h, d), Carried(d), k);
  }
}
