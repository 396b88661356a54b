/** What authority does to everything a client holds: records land by their stamps, and a deletion takes
    every record under it along. */
module Landings {
  import opened Options
  import opened Records
  import opened Graphs
  import opened Cascades
  import opened Queue
  import opened Optimism
  import opened Authorities

  function Stamp(stamps: map<Key, nat>, k: Key): nat {
    if k in stamps then stamps[k] else 0
  }

  /** Everything authority can see or move. */
  datatype Holding = Holding(db: Db, stray: set<Key>, stamps: map<Key, nat>)

  function HeldIn(h: Holding, k: Key): Version {
    Version(Base(h.db, h.stray, k), Stamp(h.stamps, k))
  }

  /** Every base and every stamp is where it was. */
  ghost predicate SameHeld(h: Holding, h': Holding) {
    forall k :: HeldIn(h', k) == HeldIn(h, k)
  }

  function RowsOf(db: Db): Rows {
    Rows(db.main, db.before)
  }

  /** Every record under a deleted one, without it. */
  ghost function Below(relations: seq<Relation>, db: Db, parent: Key): (r: set<Key>)
    ensures forall k :: k in r <==> k != parent && Under(relations, RowsOf(db), parent, k)
  {
    forall k | k != parent && Under(relations, RowsOf(db), parent, k) ensures k in db.main.Keys + db.before.Keys {
      UnderIsStored(relations, RowsOf(db), parent, k);
    }
    set k | k in db.main.Keys + db.before.Keys && k != parent && Under(relations, RowsOf(db), parent, k)
  }

  lemma UnderIsStored(relations: seq<Relation>, rows: Rows, parent: Key, k: Key)
    requires Under(relations, rows, parent, k) && k != parent
    ensures k in rows.main.Keys + rows.before.Keys
  {
    var path :| Links(Step(relations, rows), path, parent, k);
    PathStays(Step(relations, rows), rows.main.Keys + rows.before.Keys + {parent}, path, |path| - 1);
  }

  /** The model of the record declares no cascading relation: no deletion of another record reaches it. */
  predicate Lone(relations: seq<Relation>, k: Key) {
    forall i :: 0 <= i < |relations| && relations[i].model == k.model ==> !relations[i].cascades
  }

  lemma ChildIsNotLone(relations: seq<Relation>, rows: Rows, parent: Key, k: Key)
    requires IsChild(relations, rows, parent, k)
    ensures !Lone(relations, k)
  {
  }

  lemma LoneIsNotUnder(relations: seq<Relation>, rows: Rows, parent: Key, k: Key)
    requires Under(relations, rows, parent, k)
    ensures k == parent || !Lone(relations, k)
  {
    var step := Step(relations, rows);
    var path :| Links(step, path, parent, k);
    if |path| > 1 {
      var n := |path| - 2;
      assert path[n + 1] in step(path[n]);
      assert step(path[n]) == Children(relations, rows, path[n]);
      ChildIsNotLone(relations, rows, path[n], k);
    }
  }

  /** A record whose row points at a parent is under it. */
  lemma ChildIsUnder(relations: seq<Relation>, i: nat, rows: Rows, parent: Key, k: Key)
    requires i < |relations| && k in rows.main && ChildThrough(relations[i], At(rows.main, k), parent, k)
    ensures Under(relations, rows, parent, k)
  {
    var step := Step(relations, rows);
    assert IsChild(relations, rows, parent, k);
    assert k in step(parent);
    assert Links(step, [parent, k], parent, k);
  }

  /** The bases of these records are gone: under the operations of dirty ones, in the rows of clean ones. */
  function StageNone(db: Db, gone: set<Key>): Db {
    db.(main := map k | k in db.main && (k !in gone || Dirty(db.queue, k)) :: db.main[k],
        before := map k | k in db.before && (k !in gone || !Dirty(db.queue, k)) :: db.before[k])
  }

  lemma StageNoneNone(db: Db)
    ensures StageNone(db, {}) == db
  {
    assert StageNone(db, {}).main == db.main && StageNone(db, {}).before == db.before;
  }

  lemma StageNoneMore(db: Db, gone: set<Key>, k: Key)
    ensures StageOne(StageNone(db, gone), k, None) == StageNone(db, gone + {k})
  {
    var a, b := StageOne(StageNone(db, gone), k, None), StageNone(db, gone + {k});
    assert a.main == b.main;
    assert a.before == b.before;
  }

  predicate Lands(accepts: (Key, Fields) -> bool, v: Version, a: Authority) {
    Usable(accepts, a) && Compare(v, a) == Newer
  }

  /** The records a landing takes along. */
  ghost function Along(relations: seq<Relation>, db: Db, a: Authority): set<Key> {
    if a.state.None? then Below(relations, StageOne(db, a.key, Content(a)), a.key) else {}
  }

  ghost function LandOne(relations: seq<Relation>, accepts: (Key, Fields) -> bool, h: Holding, a: Authority): Holding {
    if !Lands(accepts, HeldIn(h, a.key), a) then h
    else
      Holding(StageNone(StageOne(h.db, a.key, Content(a)), Along(relations, h.db, a)), h.stray,
              h.stamps[a.key := a.stamp])
  }

  /** A whole delivery, record by record. */
  ghost function LandAll(relations: seq<Relation>, accepts: (Key, Fields) -> bool, h: Holding,
                         records: seq<Authority>): Holding
  {
    if records == [] then h
    else LandOne(relations, accepts, LandAll(relations, accepts, h, records[..|records| - 1]), records[|records| - 1])
  }

  /** What may be landed on: before images only of dirty or stray records, stray clean ones without. */
  ghost predicate Sound(h: Holding) {
    && (forall k :: Backed(h.db, h.stray, k))
    && forall k :: k in h.stray && !Dirty(h.db.queue, k) ==> k !in h.db.before
  }

  lemma StageOneBase(db: Db, stray: set<Key>, parent: Key, row: Row, k: Key)
    requires parent in stray ==> Dirty(db.queue, parent)
    ensures Base(StageOne(db, parent, row), stray, k) == if k == parent then row else Base(db, stray, k)
  {
  }

  lemma StageNoneBase(db: Db, stray: set<Key>, gone: set<Key>, k: Key)
    requires k in stray && !Dirty(db.queue, k) ==> k !in db.before
    ensures Base(StageNone(db, gone), stray, k) == if k in gone then None else Base(db, stray, k)
  {
  }

  /** The bases after a landing: the delivered content, nothing for what it took along, all others as before. */
  lemma LandBases(relations: seq<Relation>, accepts: (Key, Fields) -> bool, h: Holding, a: Authority, k: Key)
    requires Sound(h) && Lands(accepts, HeldIn(h, a.key), a) && (a.key in h.stray ==> Dirty(h.db.queue, a.key))
    ensures var h' := LandOne(relations, accepts, h, a);
      HeldIn(h', k) == if k == a.key then Version(Content(a), a.stamp)
                       else if k in Along(relations, h.db, a) then Version(None, HeldIn(h, k).stamp)
                       else HeldIn(h, k)
  {
    var staged := StageOne(h.db, a.key, Content(a));
    StageOneBase(h.db, h.stray, a.key, Content(a), k);
    StageNoneBase(staged, h.stray, Along(relations, h.db, a), k);
  }

  lemma LandKeepsSound(relations: seq<Relation>, accepts: (Key, Fields) -> bool, h: Holding, a: Authority)
    requires Sound(h) && (a.key in h.stray ==> Dirty(h.db.queue, a.key))
    ensures Sound(LandOne(relations, accepts, h, a))
    ensures LandOne(relations, accepts, h, a).stray == h.stray
    ensures LandOne(relations, accepts, h, a).db.queue == h.db.queue
  {
    var h' := LandOne(relations, accepts, h, a);
    forall k ensures Backed(h'.db, h'.stray, k) && (k in h'.stray && !Dirty(h'.db.queue, k) ==> k !in h'.db.before) {
      assert Backed(h.db, h.stray, k);
    }
  }

  /** Records a stray clean record is never among can be landed. */
  predicate Landable(h: Holding, records: seq<Authority>) {
    forall i :: 0 <= i < |records| ==> (records[i].key in h.stray ==> Dirty(h.db.queue, records[i].key))
  }

  lemma {:induction false} LandAllSound(relations: seq<Relation>, accepts: (Key, Fields) -> bool, h: Holding,
                                        records: seq<Authority>)
    requires Sound(h) && Landable(h, records)
    ensures var h' := LandAll(relations, accepts, h, records);
      Sound(h') && h'.stray == h.stray && h'.db.queue == h.db.queue
  {
    if records != [] {
      var front := records[..|records| - 1];
      LandAllSound(relations, accepts, h, front);
      LandKeepsSound(relations, accepts, LandAll(relations, accepts, h, front), records[|records| - 1]);
    }
  }

  /** A usable newer record explains the row it delivers; a usable deletion explains the absence of
      records a deletion can reach. */
  predicate Explains(relations: seq<Relation>, accepts: (Key, Fields) -> bool, a: Authority, stamp: nat, k: Key,
                     row: Row)
  {
    Usable(accepts, a) &&
      if a.key == k then a.stamp > stamp && row == Content(a)
      else a.state.None? && row == None && !Lone(relations, k)
  }

  predicate Explained(relations: seq<Relation>, accepts: (Key, Fields) -> bool, records: seq<Authority>, stamp: nat,
                      k: Key, row: Row)
  {
    exists i :: 0 <= i < |records| && Explains(relations, accepts, records[i], stamp, k, row)
  }

  /** With cascades too: every stamp ends at the highest usable one, and a base moved only with a newer
      usable record of its own or, if a deletion can reach it, under a usable deletion. */
  lemma {:induction false} LandAllMoves(relations: seq<Relation>, accepts: (Key, Fields) -> bool, h: Holding,
                                        records: seq<Authority>, k: Key)
    requires Sound(h) && Landable(h, records)
    ensures var v, v' := HeldIn(h, k), HeldIn(LandAll(relations, accepts, h, records), k);
      && v'.stamp == Highest(accepts, v.stamp, records, k)
      && (v'.row == v.row || Explained(relations, accepts, records, v.stamp, k, v'.row))
  {
    if records != [] {
      var front, a := records[..|records| - 1], records[|records| - 1];
      assert records == front + [a];
      LandAllMoves(relations, accepts, h, front, k);
      LandAllSound(relations, accepts, h, front);
      var h1 := LandAll(relations, accepts, h, front);
      HighestConcat(accepts, HeldIn(h, k).stamp, front, [a], k);
      HighestOne(accepts, HeldIn(h1, k).stamp, a, k);
      HighestGrows(accepts, HeldIn(h, k).stamp, front, k);
      if Lands(accepts, HeldIn(h1, a.key), a) { LandBases(relations, accepts, h1, a, k); }
      LastExplains(relations, accepts, h, h1, records, k);
    }
  }

  lemma HighestOne(accepts: (Key, Fields) -> bool, stamp: nat, a: Authority, k: Key)
    ensures Highest(accepts, stamp, [a], k) ==
      if a.key == k && Usable(accepts, a) && a.stamp > stamp then a.stamp else stamp
  {
    assert [a][1..] == [];
  }

  lemma LastExplains(relations: seq<Relation>, accepts: (Key, Fields) -> bool, h: Holding, h1: Holding,
                     records: seq<Authority>, k: Key)
    requires records != [] && Sound(h1) && Landable(h1, records) && HeldIn(h, k).stamp <= HeldIn(h1, k).stamp
    requires var front := records[..|records| - 1];
      || HeldIn(h1, k).row == HeldIn(h, k).row
      || Explained(relations, accepts, front, HeldIn(h, k).stamp, k, HeldIn(h1, k).row)
    ensures var v, v' := HeldIn(h, k), HeldIn(LandOne(relations, accepts, h1, records[|records| - 1]), k);
      v'.row == v.row || Explained(relations, accepts, records, v.stamp, k, v'.row)
  {
    var front, a := records[..|records| - 1], records[|records| - 1];
    var v := HeldIn(h, k);
    var row := HeldIn(LandOne(relations, accepts, h1, a), k).row;
    if Lands(accepts, HeldIn(h1, a.key), a) {
      LandBases(relations, accepts, h1, a, k);
      if k in Along(relations, h1.db, a) {
        LoneIsNotUnder(relations, RowsOf(StageOne(h1.db, a.key, Content(a))), a.key, k);
      }
    }
    if row == HeldIn(h1, k).row {
      if row != v.row {
        var i :| 0 <= i < |front| && Explains(relations, accepts, front[i], v.stamp, k, row);
        assert records[i] == front[i];
      }
    } else {
      assert Explains(relations, accepts, records[|records| - 1], v.stamp, k, row);
    }
  }

  /** A record no deletion can reach evolves by itself, whatever else is delivered with it. */
  lemma {:induction false} LoneEvolves(relations: seq<Relation>, accepts: (Key, Fields) -> bool, h: Holding,
                                       records: seq<Authority>, k: Key)
    requires Sound(h) && Landable(h, records) && Lone(relations, k)
    ensures HeldIn(LandAll(relations, accepts, h, records), k) == Evolve(accepts, HeldIn(h, k), records, k)
  {
    if records != [] {
      var front, a := records[..|records| - 1], records[|records| - 1];
      assert records == front + [a];
      LoneEvolves(relations, accepts, h, front, k);
      LandAllSound(relations, accepts, h, front);
      var h1 := LandAll(relations, accepts, h, front);
      EvolveConcat(accepts, HeldIn(h, k), front, [a], k);
      EvolveOne(accepts, HeldIn(h1, k), a, k);
      if Lands(accepts, HeldIn(h1, a.key), a) {
        LandBases(relations, accepts, h1, a, k);
        if k in Along(relations, h1.db, a) {
          LoneIsNotUnder(relations, RowsOf(StageOne(h1.db, a.key, Content(a))), a.key, k);
        }
      }
    }
  }

  lemma EvolveOne(accepts: (Key, Fields) -> bool, v: Version, a: Authority, k: Key)
    ensures Evolve(accepts, v, [a], k) == if a.key == k then Land(accepts, v, a) else v
  {
    assert [a][1..] == [];
  }

  /** The pending records one landing reaches: its own and those it takes along. */
  ghost function Hit(relations: seq<Relation>, accepts: (Key, Fields) -> bool, h: Holding, a: Authority): set<Key> {
    if !Lands(accepts, HeldIn(h, a.key), a) then {}
    else DirtyIn(h.db.queue, {a.key} + Along(relations, h.db, a))
  }

  /** The records among these that have operations pending. */
  function DirtyIn(queue: seq<Queued>, keys: set<Key>): set<Key> {
    set k | k in keys && Dirty(queue, k)
  }

  lemma DirtyInUnion(queue: seq<Queued>, a: set<Key>, b: set<Key>)
    ensures DirtyIn(queue, a + b) == DirtyIn(queue, a) + DirtyIn(queue, b)
  {
  }

  function KeysIn(keys: seq<Key>): set<Key> {
    set k | k in keys
  }

  ghost function HitAll(relations: seq<Relation>, accepts: (Key, Fields) -> bool, h: Holding,
                        records: seq<Authority>): set<Key>
  {
    if records == [] then {}
    else
      var front := records[..|records| - 1];
      HitAll(relations, accepts, h, front)
      + Hit(relations, accepts, LandAll(relations, accepts, h, front), records[|records| - 1])
  }

  datatype ReportKind = ReadFailed | Skipped | Conflicting | Diverging

  datatype Report = Report(kind: ReportKind, key: Key, stamp: nat, ordinal: Option<nat>)

  /** What a record that could not land is reported as. */
  function Reported(accepts: (Key, Fields) -> bool, v: Version, a: Authority): Option<Report> {
    if a.error.Some? then Some(Report(ReadFailed, a.key, a.stamp, None))
    else if !Usable(accepts, a) then Some(Report(Skipped, a.key, a.stamp, None))
    else if Compare(v, a) == Conflict then Some(Report(Conflicting, a.key, a.stamp, None))
    else None
  }

  /** The reports of a delivery, each record judged against what the ones before it left. */
  ghost function AllReported(relations: seq<Relation>, accepts: (Key, Fields) -> bool, h: Holding,
                             records: seq<Authority>): seq<Report>
  {
    if records == [] then []
    else
      var front, a := records[..|records| - 1], records[|records| - 1];
      var report := Reported(accepts, HeldIn(LandAll(relations, accepts, h, front), a.key), a);
      AllReported(relations, accepts, h, front) + if report.Some? then [report.value] else []
  }

  lemma LandNext(relations: seq<Relation>, accepts: (Key, Fields) -> bool, h: Holding, records: seq<Authority>, n: nat)
    requires n < |records|
    ensures var h1, a := LandAll(relations, accepts, h, records[..n]), records[n];
      var report := Reported(accepts, HeldIn(h1, a.key), a);
      && LandAll(relations, accepts, h, records[..n + 1]) == LandOne(relations, accepts, h1, a)
      && AllReported(relations, accepts, h, records[..n + 1]) ==
           AllReported(relations, accepts, h, records[..n]) + (if report.Some? then [report.value] else [])
      && HitAll(relations, accepts, h, records[..n + 1]) ==
           HitAll(relations, accepts, h, records[..n]) + Hit(relations, accepts, h1, a)
  {
    assert records[..n + 1] == records[..n] + [records[n]] && records[..n + 1][..n] == records[..n];
  }

  predicate Conflicts(reports: seq<Report>, k: Key) {
    exists i :: 0 <= i < |reports| && reports[i].kind == Conflicting && reports[i].key == k
  }

  /** A record no deletion can reach is never reported as a conflict while the client holds what its stamp
      means and the delivery says nothing else, whatever is delivered with it. */
  lemma {:induction false} NeverReportsConflict(relations: seq<Relation>, accepts: (Key, Fields) -> bool,
                                                history: (Key, nat) -> Row,
                                                h: Holding, records: seq<Authority>, k: Key)
    requires Sound(h) && Landable(h, records) && Lone(relations, k)
    requires Current(history, HeldIn(h, k), k) && TellsOf(history, records, k)
    ensures !Conflicts(AllReported(relations, accepts, h, records), k)
  {
    if records != [] {
      var front, a := records[..|records| - 1], records[|records| - 1];
      NeverReportsConflict(relations, accepts, history, h, front, k);
      if a.key == k && a.error.None? {
        LoneEvolves(relations, accepts, h, front, k);
        NeverConflict(accepts, history, HeldIn(h, k), front, a);
      }
    }
  }

  /** Only what is delivered can be reported as a conflict. */
  lemma {:induction false} OnlyDelivered(relations: seq<Relation>, accepts: (Key, Fields) -> bool, h: Holding,
                                         records: seq<Authority>, k: Key)
    requires k !in CoveredKeys(records)
    ensures !Conflicts(AllReported(relations, accepts, h, records), k)
  {
    if records != [] {
      var front := records[..|records| - 1];
      OnlyDelivered(relations, accepts, h, front, k);
      assert records[|records| - 1].key in CoveredKeys(records);
    }
  }
}
