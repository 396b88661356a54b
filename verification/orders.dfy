/** Exactly which records the order of deliveries matters for, and which are ever reported as conflicts. */
module Orders {
  import opened Options
  import opened Records
  import opened Graphs
  import opened Cascades
  import opened Queue
  import opened Optimism
  import opened Authorities
  import opened Landings
  import opened Foldings
  import opened Enqueueing
  import opened Series

  /** What a schema says of records: its relations, the states it accepts and the keys it admits. */
  datatype Schema = Schema(relations: seq<Relation>, accepts: (Key, Fields) -> bool, admits: Key -> bool)

  /** A state the schema accepts makes the record a child of another one it admits. */
  predicate HangsBy(s: Schema, i: int, k: Key, values: Fields, parent: Key) {
    && 0 <= i < |s.relations| && parent != k && s.admits(k) && s.admits(parent) && s.accepts(k, values)
    && ChildThrough(s.relations[i], Some(k.identity + values), parent, k)
  }

  ghost predicate CanHang(s: Schema, k: Key) {
    exists i, values, parent :: HangsBy(s, i, k, values, parent)
  }

  lemma LoneCannotHang(s: Schema, k: Key)
    requires Lone(s.relations, k)
    ensures !CanHang(s, k)
  {
  }

  /** The row is one the schema accepts, with the identity columns. */
  ghost predicate Accepted(s: Schema, k: Key, row: Row) {
    row.Some? ==> exists values :: s.accepts(k, values) && row == Some(k.identity + values)
  }

  /** Only admitted records are stored or touched, and the rows of `k` are accepted. */
  ghost predicate Fits(s: Schema, db: Db, k: Key) {
    && Accepted(s, k, At(db.main, k)) && Accepted(s, k, At(db.before, k))
    && forall j :: j in db.main || j in db.before || Dirty(db.queue, j) ==> s.admits(j)
  }

  lemma NotAChild(s: Schema, db: Db, parent: Key, k: Key)
    requires !CanHang(s, k) && Fits(s, db, k) && s.admits(parent) && parent != k
    ensures !IsChild(s.relations, RowsOf(db), parent, k)
  {
    if IsChild(s.relations, RowsOf(db), parent, k) {
      var i :| 0 <= i < |s.relations| && (ChildThrough(s.relations[i], At(db.main, k), parent, k)
                                          || ChildThrough(s.relations[i], At(db.before, k), parent, k));
      var row := if ChildThrough(s.relations[i], At(db.main, k), parent, k) then At(db.main, k) else At(db.before, k);
      var values :| s.accepts(k, values) && row == Some(k.identity + values);
      assert HangsBy(s, i, k, values, parent);
    }
  }

  /** A record that can hang under nothing is reached by no deletion. */
  lemma NotUnder(s: Schema, db: Db, parent: Key, k: Key)
    requires !CanHang(s, k) && Fits(s, db, k) && s.admits(parent)
    ensures k !in Below(s.relations, db, parent)
  {
    if k in Below(s.relations, db, parent) {
      var step := Step(s.relations, RowsOf(db));
      var path :| Links(step, path, parent, k);
      var others := db.main.Keys + db.before.Keys + {parent} - {k};
      forall p | p in others ensures step(p) <= others {
        NotAChild(s, db, p, k);
      }
      PathStays(step, others, path, |path| - 1);
    }
  }

  lemma LandOneFits(s: Schema, h: Holding, a: Authority, k: Key)
    requires Fits(s, h.db, k) && s.admits(a.key)
    ensures Fits(s, StageOne(h.db, a.key, Content(a)), k) || !Usable(s.accepts, a)
    ensures Fits(s, LandOne(s.relations, s.accepts, h, a).db, k)
  {
    if Usable(s.accepts, a) {
      var staged := StageOne(h.db, a.key, Content(a));
      assert Accepted(s, a.key, Content(a));
      forall j | j in staged.main || j in staged.before || Dirty(staged.queue, j) ensures s.admits(j) {
        if j != a.key { assert At(staged.main, j) == At(h.db.main, j) && At(staged.before, j) == At(h.db.before, j); }
      }
    }
  }

  /** Such a record evolves by itself. */
  lemma {:induction false} FreeEvolves(s: Schema, h: Holding, records: seq<Authority>, k: Key)
    requires Sound(h) && Landable(h, records) && Fits(s, h.db, k) && !CanHang(s, k)
    requires forall i :: 0 <= i < |records| ==> s.admits(records[i].key)
    ensures var h' := LandAll(s.relations, s.accepts, h, records);
      Fits(s, h'.db, k) && HeldIn(h', k) == Evolve(s.accepts, HeldIn(h, k), records, k)
  {
    if records != [] {
      var front, a := records[..|records| - 1], records[|records| - 1];
      assert records == front + [a];
      FreeEvolves(s, h, front, k);
      LandAllSound(s.relations, s.accepts, h, front);
      var h1 := LandAll(s.relations, s.accepts, h, front);
      EvolveConcat(s.accepts, HeldIn(h, k), front, [a], k);
      EvolveOne(s.accepts, HeldIn(h1, k), a, k);
      LandOneFits(s, h1, a, k);
      if Lands(s.accepts, HeldIn(h1, a.key), a) {
        LandBases(s.relations, s.accepts, h1, a, k);
        NotUnder(s, StageOne(h1.db, a.key, Content(a)), a.key, k);
      }
    }
  }

  lemma {:induction false} NotDragged(s: Schema, db: Db, ops: seq<Op>, wired: set<Key>, k: Key)
    requires !CanHang(s, k) && Fits(s, db, k) && forall i :: 0 <= i < |ops| ==> s.admits(ops[i].key)
    ensures k !in Dragged(s.relations, db, ops, wired)
  {
    if ops != [] {
      NotDragged(s, db, ops[..|ops| - 1], wired, k);
      NotUnder(s, db, ops[|ops| - 1].key, k);
    }
  }

  /** Folding operations on other records, or on records a receipt covers, keeps the rows of `k` where they are. */
  lemma {:induction false} FoldOpsFits(s: Schema, h: Holding, ops: seq<Op>, covered: set<Key>, k: Key)
    requires Fits(s, h.db, k) && (k in covered || Touching(ops, k) == [])
    requires forall i :: 0 <= i < |ops| ==> s.admits(ops[i].key)
    ensures Fits(s, FoldOps(h, ops, covered).db, k)
  {
    if ops != [] {
      var front, op := ops[..|ops| - 1], ops[|ops| - 1];
      assert ops == front + [op];
      TouchingConcat(front, [op], k);
      TouchingSingle(op, k);
      FoldOpsFits(s, h, front, covered, k);
      FoldNextFits(s, FoldOps(h, front, covered), op, covered, k);
    }
  }

  lemma FoldNextFits(s: Schema, h: Holding, op: Op, covered: set<Key>, k: Key)
    requires Fits(s, h.db, k) && s.admits(op.key) && (k in covered || op.key != k)
    ensures Fits(s, FoldNext(h, op, covered).db, k)
  {
    var db := FoldNext(h, op, covered).db;
    forall j | j in db.main || j in db.before || Dirty(db.queue, j) ensures s.admits(j) {
      if j != op.key { assert At(db.before, j) == At(h.db.before, j); }
    }
  }

  lemma CompanionsAdmitted(s: Schema, db: Db, q: Queued, k: Key)
    requires Fits(s, db, k) && q in db.queue
    ensures forall i :: 0 <= i < |q.companion| ==> s.admits(q.companion[i].key)
  {
    forall i | 0 <= i < |q.companion| ensures s.admits(q.companion[i].key) {
      assert OpsOf(q)[|q.wire| + i] == q.companion[i];
      MemberIsDirty(db.queue, q, q.companion[i].key);
    }
  }

  lemma FoldMutationFits(s: Schema, h: Holding, q: Queued, wired: set<Key>, covered: set<Key>, k: Key)
    requires Sound(h) && Fits(s, h.db, k) && !CanHang(s, k) && q in h.db.queue
    requires k in covered || Touching(q.companion, k) == []
    ensures var h' := FoldMutation(s.relations, h, q, wired, covered);
      Fits(s, h'.db, k) && HeldIn(h', k) == HeldIn(h, k)
  {
    CompanionsAdmitted(s, h.db, q, k);
    NotDragged(s, h.db, q.companion, wired, k);
    FoldOpsFits(s, h, q.companion, covered, k);
    FoldMutationBase(s.relations, h, q, wired, covered, k);
    assert Settle(HeldIn(h, k).row, []) == HeldIn(h, k).row;
  }

  lemma {:induction false} FreeFolds(s: Schema, h: Holding, accepted: seq<Queued>, wired: set<Key>, covered: set<Key>,
                                     k: Key)
    requires Sound(h) && Fits(s, h.db, k) && !CanHang(s, k) && forall q :: q in accepted ==> q in h.db.queue
    requires k in covered || Touching(Companions(accepted), k) == []
    ensures var h' := FoldEach(s.relations, h, accepted, wired, covered);
      Folds(h, h', covered) && Fits(s, h'.db, k) && HeldIn(h', k) == HeldIn(h, k)
  {
    FoldEachFolds(s.relations, h, accepted, wired, covered);
    if accepted != [] {
      var front, q := accepted[..|accepted| - 1], accepted[|accepted| - 1];
      assert accepted == front + [q];
      CompanionsSnoc(front, q);
      TouchingConcat(Companions(front), q.companion, k);
      FreeFolds(s, h, front, wired, covered, k);
      FoldMutationFits(s, FoldEach(s.relations, h, front, wired, covered), q, wired, covered, k);
    }
  }

  ghost predicate AllAdmitted(s: Schema, records: seq<Authority>) {
    forall i :: 0 <= i < |records| ==> s.admits(records[i].key)
  }

  /** A course of a client that starts consistent and holds the truth about everything, holds nothing the schema
      rules out, and is told nothing but the truth. */
  ghost predicate Honest(s: Schema, history: (Key, nat) -> Row, c: Course, k: Key) {
    && Follows(s.relations, s.accepts, c, k)
    && Consistent(First(c).db, {}, {})
    && (forall i :: 0 <= i < |c.holdings| ==> Fits(s, c.holdings[i].db, k))
    && (forall i :: 0 <= i < |c.deliveries| ==> AllAdmitted(s, Carried(c.deliveries[i])))
    && forall j :: Current(history, HeldIn(First(c), j), j) && TellsOf(history, Joined(c.deliveries), j)
  }

  lemma HonestUntil(s: Schema, history: (Key, nat) -> Row, c: Course, n: nat, k: Key)
    requires Honest(s, history, c, k) && n <= |c.deliveries|
    ensures Honest(s, history, Until(c, n), k)
  {
    UntilFollows(s.relations, s.accepts, c, n, k);
    forall j ensures TellsOf(history, Joined(c.deliveries[..n]), j) {
      TellsUntil(history, c.deliveries, n, j);
    }
    var u := Until(c, n);
    assert forall i :: 0 <= i < |u.deliveries| ==> u.deliveries[i] == c.deliveries[i];
    assert forall i :: 0 <= i < |u.holdings| ==> u.holdings[i] == c.holdings[i];
  }

  lemma ReadyFits(s: Schema, history: (Key, nat) -> Row, c: Course, n: nat, k: Key)
    requires Honest(s, history, c, k) && n < |c.deliveries| && !CanHang(s, k)
    ensures var h, h1, records := c.holdings[n], Ready(s.relations, c.holdings[n], c.deliveries[n]),
                                  Carried(c.deliveries[n]);
      && Sound(h1) && Landable(h1, records) && Fits(s, h1.db, k) && HeldIn(h1, k) == HeldIn(h, k)
  {
    var h, d := c.holdings[n], c.deliveries[n];
    assert Goes(s.relations, s.accepts, h, d, c.holdings[n + 1], k);
    if d.Receipted? {
      FreeFolds(s, h, d.accepted, WireKeys(d.accepted), CoveredKeys(d.records), k);
    }
  }

  lemma {:induction false} FreeCourseEvolves(s: Schema, history: (Key, nat) -> Row, c: Course, k: Key)
    requires Honest(s, history, c, k) && !CanHang(s, k)
    ensures HeldIn(Last(c), k) == Evolve(s.accepts, HeldIn(First(c), k), Joined(c.deliveries), k)
    decreases |c.deliveries|
  {
    if c.deliveries != [] {
      var n := |c.deliveries| - 1;
      var h, d := c.holdings[n], c.deliveries[n];
      UntilFollows(s.relations, s.accepts, c, n, k);
      HonestUntil(s, history, c, n, k);
      FreeCourseEvolves(s, history, Until(c, n), k);
      ReadyFits(s, history, c, n, k);
      assert Goes(s.relations, s.accepts, h, d, c.holdings[n + 1], k);
      FreeEvolves(s, Ready(s.relations, h, d), Carried(d), k);
      EvolveConcat(s.accepts, HeldIn(First(c), k), Joined(c.deliveries[..n]), Carried(d), k);
    }
  }

  /** Two courses from one state that tell the same of the record. */
  ghost predicate SameTruths(s: Schema, history: (Key, nat) -> Row, a: Course, b: Course, k: Key) {
    && Honest(s, history, a, k) && Honest(s, history, b, k) && First(a) == First(b)
    && AlsoSays(s.accepts, Joined(a.deliveries), Joined(b.deliveries), k)
    && AlsoSays(s.accepts, Joined(b.deliveries), Joined(a.deliveries), k)
  }

  ghost predicate OrderIrrelevant(s: Schema, k: Key) {
    forall history: (Key, nat) -> Row, a, b :: SameTruths(s, history, a, b, k) ==>
      HeldIn(Last(a), k) == HeldIn(Last(b), k)
  }

  /** The order of deliveries is irrelevant for exactly the records that can hang under no other one. */
  lemma OrderMattersExactly(s: Schema, k: Key)
    ensures OrderIrrelevant(s, k) <==> !CanHang(s, k)
  {
    if CanHang(s, k) {
      var i, values, parent :| HangsBy(s, i, k, values, parent);
      CascadeOrderMatters(s, i, k, values, parent);
    } else {
      forall history: (Key, nat) -> Row, a, b | SameTruths(s, history, a, b, k)
        ensures HeldIn(Last(a), k) == HeldIn(Last(b), k)
      {
        FreeCourseEvolves(s, history, a, k);
        FreeCourseEvolves(s, history, b, k);
        OrderIndependent(s.accepts, history, HeldIn(First(a), k), Joined(a.deliveries), Joined(b.deliveries), k);
      }
    }
  }

  /** A client whose one pending mutation created the record, which visibly points at a parent. */
  function Optimist(k: Key, values: Fields): Holding {
    var q := Queued(1, "add", 1, None, false, [Op(k, Create, Some(values))], [], [], {}, {}, {});
    Holding(Optimism.Db(map[k := k.identity + values], map[], [q]), {}, map[])
  }

  lemma OptimistStands(s: Schema, i: int, k: Key, values: Fields, parent: Key)
    requires HangsBy(s, i, k, values, parent)
    ensures var h := Optimist(k, values);
      && Sound(h) && h.stray == {} && Consistent(h.db, {}, {}) && Fits(s, h.db, k)
      && (forall j :: Dirty(h.db.queue, j) <==> j == k)
      && forall j :: HeldIn(h, j) == Version(None, 0)
  {
    var h := Optimist(k, values);
    var create := Op(k, Create, Some(values));
    assert OpsOf(h.db.queue[0]) == [create];
    forall j ensures OpsFor(h.db.queue, j) == if j == k then [create] else [] {
      OpsForOne(h.db.queue[0], j);
      TouchingSingle(create, j);
    }
    assert [create][1..] == [];
    assert Replay(None, [create]) == Done(Some(k.identity + values));
  }

  /** The record is delivered in the state its creation gave it, and its parent's deletion too. */
  function Child(k: Key, values: Fields): Authority {
    Authority(k, 1, Some(values), None)
  }

  function Gone(parent: Key): Authority {
    Authority(parent, 1, None, None)
  }

  function Told(k: Key, values: Fields): (Key, nat) -> Row {
    (j, n) => if j == k then Some(k.identity + values) else None
  }

  /** One page. */
  ghost function OnePage(s: Schema, h: Holding, records: seq<Authority>): Course {
    Course([h, LandAll(s.relations, s.accepts, h, records)], [Paged(records)])
  }

  lemma OnePageJoined(records: seq<Authority>)
    ensures Joined([Paged(records)]) == records
  {
    assert [Paged(records)][..0] == [] && Joined([]) == [];
  }

  lemma {:induction false} LandAllFits(s: Schema, h: Holding, records: seq<Authority>, k: Key)
    requires Fits(s, h.db, k) && AllAdmitted(s, records)
    ensures Fits(s, LandAll(s.relations, s.accepts, h, records).db, k)
  {
    if records != [] {
      LandAllFits(s, h, records[..|records| - 1], k);
      LandOneFits(s, LandAll(s.relations, s.accepts, h, records[..|records| - 1]), records[|records| - 1], k);
    }
  }

  lemma OnePageFollows(s: Schema, h: Holding, records: seq<Authority>, k: Key)
    requires Sound(h) && h.stray == {} && Fits(s, h.db, k) && AllAdmitted(s, records)
    ensures var c := OnePage(s, h, records);
      && Follows(s.relations, s.accepts, c, k)
      && (forall i :: 0 <= i < |c.holdings| ==> Fits(s, c.holdings[i].db, k))
      && forall i :: 0 <= i < |c.deliveries| ==> AllAdmitted(s, Carried(c.deliveries[i]))
  {
    var c := OnePage(s, h, records);
    LandAllFits(s, h, records, k);
    assert Goes(s.relations, s.accepts, c.holdings[0], c.deliveries[0], c.holdings[1], k);
  }

  /** The child and its parent's deletion, however often. */
  predicate ChildAndParent(records: seq<Authority>, k: Key, values: Fields, parent: Key) {
    forall n :: 0 <= n < |records| ==> records[n] == Child(k, values) || records[n] == Gone(parent)
  }

  lemma ToldIsTrue(records: seq<Authority>, k: Key, values: Fields, parent: Key)
    requires ChildAndParent(records, k, values, parent) && parent != k
    ensures forall j :: TellsOf(Told(k, values), records, j)
  {
  }

  /** Any page of the two is the whole truth. */
  lemma OnePageHonest(s: Schema, i: int, k: Key, values: Fields, parent: Key, records: seq<Authority>)
    requires HangsBy(s, i, k, values, parent) && ChildAndParent(records, k, values, parent)
    ensures Honest(s, Told(k, values), OnePage(s, Optimist(k, values), records), k)
  {
    var h := Optimist(k, values);
    OptimistStands(s, i, k, values, parent);
    OnePageJoined(records);
    OnePageFollows(s, h, records, k);
    ToldIsTrue(records, k, values, parent);
    assert forall j :: Current(Told(k, values), HeldIn(h, j), j);
  }

  lemma LandTwo(relations: seq<Relation>, accepts: (Key, Fields) -> bool, h: Holding, a: Authority, b: Authority)
    ensures LandAll(relations, accepts, h, [a, b]) == LandOne(relations, accepts, LandOne(relations, accepts, h, a), b)
  {
    assert [a, b][..1] == [a] && [a][..0] == [];
    assert LandAll(relations, accepts, h, []) == h;
    assert LandAll(relations, accepts, h, [a]) == LandOne(relations, accepts, h, a);
  }

  /** In one order the child ends absent, in the other present. */
  lemma TwoOrders(s: Schema, i: int, k: Key, values: Fields, parent: Key)
    requires HangsBy(s, i, k, values, parent)
    ensures var h, child, gone := Optimist(k, values), Child(k, values), Gone(parent);
      && HeldIn(LandAll(s.relations, s.accepts, h, [child, gone]), k) == Version(None, 1)
      && HeldIn(LandAll(s.relations, s.accepts, h, [gone, child]), k) == Version(Content(child), 1)
  {
    var h, child, gone := Optimist(k, values), Child(k, values), Gone(parent);
    OptimistStands(s, i, k, values, parent);
    LandTwo(s.relations, s.accepts, h, child, gone);
    LandTwo(s.relations, s.accepts, h, gone, child);
    var h1 := LandOne(s.relations, s.accepts, h, child);
    LandBases(s.relations, s.accepts, h, child, k);
    LandBases(s.relations, s.accepts, h, child, parent);
    LandKeepsSound(s.relations, s.accepts, h, child);
    StageNoneNone(StageOne(h.db, k, Content(child)));
    ChildIsUnder(s.relations, i, RowsOf(StageOne(h1.db, parent, None)), parent, k);
    LandBases(s.relations, s.accepts, h1, gone, k);
    LandBases(s.relations, s.accepts, h, gone, k);
    LandKeepsSound(s.relations, s.accepts, h, gone);
    LandBases(s.relations, s.accepts, LandOne(s.relations, s.accepts, h, gone), child, k);
  }

  lemma EitherOrder(accepts: (Key, Fields) -> bool, x: Authority, y: Authority, k: Key)
    ensures AlsoSays(accepts, Joined([Paged([x, y])]), Joined([Paged([y, x])]), k)
  {
    OnePageJoined([x, y]);
    OnePageJoined([y, x]);
  }

  lemma SamePages(s: Schema, i: int, k: Key, values: Fields, parent: Key)
    requires HangsBy(s, i, k, values, parent)
    ensures var h, child, gone := Optimist(k, values), Child(k, values), Gone(parent);
      SameTruths(s, Told(k, values), OnePage(s, h, [child, gone]), OnePage(s, h, [gone, child]), k)
  {
    var child, gone := Child(k, values), Gone(parent);
    OnePageHonest(s, i, k, values, parent, [child, gone]);
    OnePageHonest(s, i, k, values, parent, [gone, child]);
    EitherOrder(s.accepts, child, gone, k);
    EitherOrder(s.accepts, gone, child, k);
  }

  lemma Refutes(s: Schema, history: (Key, nat) -> Row, a: Course, b: Course, k: Key)
    requires SameTruths(s, history, a, b, k) && HeldIn(Last(a), k) != HeldIn(Last(b), k)
    ensures !OrderIrrelevant(s, k)
  {
  }

  /** The record's own delivery and its parent's deletion, in one page: what the client ends with depends on
      which comes first. */
  lemma CascadeOrderMatters(s: Schema, i: int, k: Key, values: Fields, parent: Key)
    requires HangsBy(s, i, k, values, parent)
    ensures var h, child, gone := Optimist(k, values), Child(k, values), Gone(parent);
      && SameTruths(s, Told(k, values), OnePage(s, h, [child, gone]), OnePage(s, h, [gone, child]), k)
      && HeldIn(Last(OnePage(s, h, [child, gone])), k) == Version(None, 1)
      && HeldIn(Last(OnePage(s, h, [gone, child])), k) == Version(Content(child), 1)
    ensures !OrderIrrelevant(s, k)
  {
    var h, child, gone := Optimist(k, values), Child(k, values), Gone(parent);
    SamePages(s, i, k, values, parent);
    TwoOrders(s, i, k, values, parent);
    Refutes(s, Told(k, values), OnePage(s, h, [child, gone]), OnePage(s, h, [gone, child]), k);
  }

  ghost predicate ConflictFree(s: Schema, k: Key) {
    forall history: (Key, nat) -> Row, c, n: nat :: Honest(s, history, c, k) && n < |c.deliveries| ==>
      !Conflicts(ReportsOf(s, c, n), k)
  }

  /** What the `n`th delivery of a course reports. */
  ghost function ReportsOf(s: Schema, c: Course, n: nat): seq<Report>
    requires n < |c.deliveries| < |c.holdings|
  {
    AllReported(s.relations, s.accepts, Ready(s.relations, c.holdings[n], c.deliveries[n]), Carried(c.deliveries[n]))
  }

  lemma {:induction false} FreeNeverConflicts(s: Schema, history: (Key, nat) -> Row, h: Holding,
                                              records: seq<Authority>, k: Key)
    requires Sound(h) && Landable(h, records) && Fits(s, h.db, k) && !CanHang(s, k) && AllAdmitted(s, records)
    requires Current(history, HeldIn(h, k), k) && TellsOf(history, records, k)
    ensures !Conflicts(AllReported(s.relations, s.accepts, h, records), k)
  {
    if records != [] {
      var front, a := records[..|records| - 1], records[|records| - 1];
      FreeNeverConflicts(s, history, h, front, k);
      if a.key == k && a.error.None? {
        FreeEvolves(s, h, front, k);
        NeverConflict(s.accepts, history, HeldIn(h, k), front, a);
      }
    }
  }

  /** Truthful deliveries are never reported as a conflict for exactly the records that can hang under no other
      one: a record cascaded over keeps its stamp, so delivering it once more finds other content there. */
  lemma ConflictsExactly(s: Schema, k: Key)
    ensures ConflictFree(s, k) <==> !CanHang(s, k)
  {
    if CanHang(s, k) {
      var i, values, parent :| HangsBy(s, i, k, values, parent);
      CascadeConflicts(s, i, k, values, parent);
    } else {
      forall history: (Key, nat) -> Row, c, n: nat | Honest(s, history, c, k) && n < |c.deliveries|
        ensures !Conflicts(ReportsOf(s, c, n), k)
      {
        HonestUntil(s, history, c, n, k);
        FreeCourseEvolves(s, history, Until(c, n), k);
        EvolveIsHighest(s.accepts, history, HeldIn(First(c), k), Joined(c.deliveries[..n]), k);
        ReadyFits(s, history, c, n, k);
        TellsCarried(history, c.deliveries, n, k);
        FreeNeverConflicts(s, history, Ready(s.relations, c.holdings[n], c.deliveries[n]),
                           Carried(c.deliveries[n]), k);
      }
    }
  }

  /** Delivering the child once more after its parent's deletion is a conflict. */
  lemma Redelivered(s: Schema, i: int, k: Key, values: Fields, parent: Key)
    requires HangsBy(s, i, k, values, parent)
    ensures Conflicts(AllReported(s.relations, s.accepts, Optimist(k, values),
                                  [Child(k, values), Gone(parent), Child(k, values)]), k)
  {
    var h, child, gone := Optimist(k, values), Child(k, values), Gone(parent);
    TwoOrders(s, i, k, values, parent);
    assert [child, gone, child][..2] == [child, gone];
    var reports := AllReported(s.relations, s.accepts, h, [child, gone, child]);
    assert reports[|reports| - 1] == Report(Conflicting, k, 1, None);
  }

  lemma CascadeConflicts(s: Schema, i: int, k: Key, values: Fields, parent: Key)
    requires HangsBy(s, i, k, values, parent)
    ensures var c := OnePage(s, Optimist(k, values), [Child(k, values), Gone(parent), Child(k, values)]);
      Honest(s, Told(k, values), c, k) && Conflicts(ReportsOf(s, c, 0), k)
    ensures !ConflictFree(s, k)
  {
    OnePageHonest(s, i, k, values, parent, [Child(k, values), Gone(parent), Child(k, values)]);
    Redelivered(s, i, k, values, parent);
  }
}
