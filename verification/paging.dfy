/** Serving pulls: scan each channel after its cursor, read every changed record once. */
module Paging {
  import opened Options
  import opened Texts
  import opened Records
  import opened Graphs
  import opened Authorities
  import opened Storage
  import opened Pages
  import opened Pushing
  import opened Batches

  /** The rows after a cursor. */
  function After(log: seq<Invalidation>, from: nat): seq<Invalidation> {
    if log == [] then []
    else if log[0].cursor > from then [log[0]] + After(log[1..], from)
    else After(log[1..], from)
  }

  /** One scan: at most a page of rows after the cursor. */
  function Window(t: Tables, channel: string, from: nat): (r: seq<Invalidation>)
    ensures |r| <= PULL_CHANGES
  {
    var rows := After(Log(t, channel), from);
    if |rows| > PULL_CHANGES then rows[..PULL_CHANGES] else rows
  }

  function RangeOf(t: Tables, channel: string, from: nat): Range {
    var rows := Window(t, channel, from);
    Range(from, if |rows| == PULL_CHANGES then rows[PULL_CHANGES - 1].cursor else Head(t, channel), Head(t, channel))
  }

  function RangesFrom(t: Tables, cursors: map<string, nat>): map<string, Range> {
    map c | c in cursors :: RangeOf(t, c, cursors[c])
  }

  function KeysIn(rows: seq<Invalidation>): (r: set<Key>)
    ensures forall k :: k in r <==> exists i :: 0 <= i < |rows| && rows[i].key == k
  {
    set i | 0 <= i < |rows| :: rows[i].key
  }

  /** Every record with a scanned row on some channel. */
  function Changed(t: Tables, cursors: map<string, nat>, channels: seq<string>): set<Key>
    requires forall c :: c in channels ==> c in cursors
  {
    if channels == [] then {}
    else
      var last := channels[|channels| - 1];
      Changed(t, cursors, channels[..|channels| - 1]) + KeysIn(Window(t, last, cursors[last]))
  }

  function AllChanged(t: Tables, cursors: map<string, nat>): (r: set<Key>)
    ensures forall k :: k in r <==> exists c :: c in cursors && k in KeysIn(Window(t, c, cursors[c]))
  {
    set c, k | c in cursors && k in KeysIn(Window(t, c, cursors[c])) :: k
  }

  /** One record as the loaders answer: its state, or the code its read failed with. */
  datatype One = Found(state: Row) | Missing(code: string)

  function Normalized(b: Backend, version: nat, k: Key, state: Row): One {
    if Accepted(b, version, k, state) then Found(state) else Missing(LOADER_INVALID)
  }

  function LoadOne(b: Backend, version: nat, model: string, k: Key, rows: Table): One {
    match b.load(model, version, [k], rows)
    case Rows(states) => if |states| == 1 then Normalized(b, version, k, states[0]) else Missing(LOADER_INVALID)
    case Unwilling(code) => Missing(code)
    case Thrown => Missing(LOADER_FAILED)
  }

  /** One call for the group; when it cannot say which record failed, one call for each. */
  function LoadGroupFor(b: Backend, version: nat, model: string, keys: seq<Key>, rows: Table): (r: seq<One>)
    ensures |r| == |keys|
  {
    match b.load(model, version, keys, rows)
    case Rows(states) =>
      if |states| == |keys| then seq(|keys|, i requires 0 <= i < |keys| => Normalized(b, version, keys[i], states[i]))
      else seq(|keys|, i requires 0 <= i < |keys| => LoadOne(b, version, model, keys[i], rows))
    case _ => seq(|keys|, i requires 0 <= i < |keys| => LoadOne(b, version, model, keys[i], rows))
  }

  function Zipped(keys: seq<Key>, ones: seq<One>): map<Key, One>
    requires |ones| == |keys|
  {
    if keys == [] then map[] else Zipped(keys[1..], ones[1..])[keys[0] := ones[0]]
  }

  /** The state of every record of the given models. */
  function States(b: Backend, declared: map<string, nat>, models: seq<string>, keys: seq<Key>,
                  rows: Table): map<Key, One>
    requires forall m :: m in models ==> m in declared
  {
    if models == [] then map[]
    else
      var model := models[|models| - 1];
      var group := Group(keys, model);
      States(b, declared, models[..|models| - 1], keys, rows)
      + Zipped(group, LoadGroupFor(b, declared[model], model, group, rows))
  }

  function Change(t: Tables, k: Key, states: map<Key, One>): Authority {
    if k !in states then Authority(k, StampOf(t, k), None, None)
    else
      match states[k]
      case Found(state) => Authority(k, StampOf(t, k), state, None)
      case Missing(code) => Authority(k, StampOf(t, k), None, Some(code))
  }

  function PageOf(b: Backend, declared: map<string, nat>, cursors: map<string, nat>, t: Tables): Page
    requires forall m :: m in Models(b.order(AllChanged(t, cursors))) ==> m in declared
  {
    var keys := b.order(AllChanged(t, cursors));
    var states := States(b, declared, Models(keys), keys, t.rows);
    Page(RangesFrom(t, cursors),
         seq(|keys|, i requires 0 <= i < |keys| => Change(t, keys[i], states)))
  }

  lemma {:induction false} AfterMembers(log: seq<Invalidation>, from: nat, row: Invalidation)
    ensures row in After(log, from) <==> row in log && row.cursor > from
  {
    if log != [] { AfterMembers(log[1..], from, row); }
  }

  lemma {:induction false} AfterSorted(log: seq<Invalidation>, from: nat)
    requires Sorted(log)
    ensures Sorted(After(log, from))
  {
    if log != [] {
      SortedTail(log);
      AfterSorted(log[1..], from);
      if log[0].cursor > from {
        forall row | row in After(log[1..], from) ensures row in log[1..] { AfterMembers(log[1..], from, row); }
        SortedCons(log[0], After(log[1..], from));
      }
    }
  }

  lemma LastIsGreatest(log: seq<Invalidation>, i: nat, j: nat)
    requires Sorted(log) && i <= j < |log|
    ensures log[i].cursor <= log[j].cursor
  {
  }

  /** A scan holds exactly the rows between the cursor and the end it reports; a full one ends at its
      last row, a short one at the head. Rows move when republished, but never below the head. */
  lemma WindowIsRange(t: Tables, channel: string, from: nat)
    requires WellKept(t) && from <= Head(t, channel)
    ensures var range, rows := RangeOf(t, channel, from), Window(t, channel, from);
      && from <= range.to <= range.head == Head(t, channel)
      && (from < range.head ==> from < range.to)
      && forall row :: row in rows <==> row in Log(t, channel) && from < row.cursor <= range.to
  {
    var log, all := Log(t, channel), After(Log(t, channel), from);
    var rows, range := Window(t, channel, from), RangeOf(t, channel, from);
    assert WellLogged(log, Head(t, channel), t.stamps);
    AfterSorted(log, from);
    forall row ensures row in rows <==> row in log && from < row.cursor <= range.to {
      AfterMembers(log, from, row);
      if row in rows { WindowRow(t, channel, from, row); }
      if row in log && from < row.cursor <= range.to {
        var i :| 0 <= i < |all| && all[i] == row;
        WindowHas(t, channel, from, i);
      }
    }
    if |rows| == PULL_CHANGES {
      assert rows[PULL_CHANGES - 1] in rows;
    } 
  }

  lemma WindowRow(t: Tables, channel: string, from: nat, row: Invalidation)
    requires WellKept(t) && row in Window(t, channel, from)
    ensures row in Log(t, channel) && from < row.cursor <= RangeOf(t, channel, from).to
  {
    var log, all, rows := Log(t, channel), After(Log(t, channel), from), Window(t, channel, from);
    assert WellLogged(log, Head(t, channel), t.stamps);
    AfterSorted(log, from);
    var i :| 0 <= i < |rows| && rows[i] == row;
    assert all[i] == row;
    AfterMembers(log, from, row);
    if |rows| == PULL_CHANGES { LastIsGreatest(all, i, PULL_CHANGES - 1); }
  }

  lemma WindowHas(t: Tables, channel: string, from: nat, i: nat)
    requires WellKept(t) && i < |After(Log(t, channel), from)|
    requires After(Log(t, channel), from)[i].cursor <= RangeOf(t, channel, from).to
    ensures After(Log(t, channel), from)[i] in Window(t, channel, from)
  {
    var log, all, rows := Log(t, channel), After(Log(t, channel), from), Window(t, channel, from);
    assert WellLogged(log, Head(t, channel), t.stamps);
    AfterSorted(log, from);
    if |all| > PULL_CHANGES {
      assert rows[PULL_CHANGES - 1] == all[PULL_CHANGES - 1];
      NotAfter(all, i, PULL_CHANGES - 1);
    }
    assert rows[i] == all[i];
  }

  lemma NotAfter(log: seq<Invalidation>, i: nat, j: nat)
    requires Sorted(log) && i < |log| && j < |log| && log[i].cursor <= log[j].cursor
    ensures i <= j
  {
  }

  lemma {:induction false} ChangedMembers(t: Tables, cursors: map<string, nat>, channels: seq<string>, k: Key)
    requires forall c :: c in channels ==> c in cursors
    ensures k in Changed(t, cursors, channels) <==> exists c :: c in channels && k in KeysIn(Window(t, c, cursors[c]))
  {
    if channels != [] {
      var front, last := channels[..|channels| - 1], channels[|channels| - 1];
      ChangedMembers(t, cursors, front, k);
      assert channels == front + [last];
      assert forall c :: c in channels <==> c in front || c == last;
    }
  }

  lemma {:induction false} ChangedFew(t: Tables, cursors: map<string, nat>, channels: seq<string>)
    requires forall c :: c in channels ==> c in cursors
    ensures |Changed(t, cursors, channels)| <= PULL_CHANGES * |channels|
  {
    if channels != [] {
      var front, last := channels[..|channels| - 1], channels[|channels| - 1];
      ChangedFew(t, cursors, front);
      KeysFew(Window(t, last, cursors[last]));
      UnionFew(Changed(t, cursors, front), KeysIn(Window(t, last, cursors[last])));
    }
  }

  lemma {:induction false} KeysFew(rows: seq<Invalidation>)
    ensures |KeysIn(rows)| <= |rows|
  {
    if rows == [] {
      assert KeysIn(rows) == {};
    } else {
      var front, last := rows[..|rows| - 1], rows[|rows| - 1];
      KeysFew(front);
      forall k ensures k in KeysIn(rows) <==> k in KeysIn(front) + {last.key} {
        if k in KeysIn(front) {
          var i :| 0 <= i < |front| && front[i].key == k;
          assert rows[i].key == k;
        }
        if k in KeysIn(rows) {
          var i :| 0 <= i < |rows| && rows[i].key == k;
          assert i < |front| ==> front[i].key == k;
        }
      }
      assert KeysIn(rows) == KeysIn(front) + {last.key};
    }
  }

  lemma UnionFew<T>(a: set<T>, b: set<T>)
    ensures |a + b| <= |a| + |b|
  {
    assert a + b == a + (b - a);
    assert b == (b - a) + (b * a);
  }

  lemma {:induction false} ListSize<K>(keys: seq<K>, members: set<K>)
    requires NoDuplicates(keys) && forall k :: k in keys <==> k in members
    ensures |keys| == |members|
  {
    if keys == [] {
      assert members == {};
    } else {
      var rest := keys[1..];
      forall i, j | 0 <= i < j < |rest| ensures rest[i] != rest[j] {
        assert rest[i] == keys[i + 1] && rest[j] == keys[j + 1];
      }
      forall k ensures k in rest <==> k in members - {keys[0]} {
        assert keys == [keys[0]] + rest;
        if k in rest {
          var i :| 0 <= i < |rest| && rest[i] == k;
          assert keys[i + 1] == k;
        }
      }
      ListSize(rest, members - {keys[0]});
    }
  }

  lemma ChangedIsAll(t: Tables, cursors: map<string, nat>, channels: seq<string>)
    requires forall c :: c in channels <==> c in cursors
    ensures Changed(t, cursors, channels) == AllChanged(t, cursors)
  {
    forall k ensures k in Changed(t, cursors, channels) <==> k in AllChanged(t, cursors) {
      ChangedMembers(t, cursors, channels, k);
    }
  }

  lemma CountFits(b: Backend, cursors: map<string, nat>, t: Tables)
    requires Lists(b)
    ensures |b.order(AllChanged(t, cursors))| <= PULL_CHANGES * |cursors|
  {
    var channels := Enumerate(cursors.Keys);
    Enumerates(cursors.Keys);
    ChangedIsAll(t, cursors, channels);
    var changed := Changed(t, cursors, channels);
    ListSize(b.order(changed), changed);
    ChangedFew(t, cursors, channels);
    ListSize(channels, cursors.Keys);
    assert |cursors.Keys| == |cursors|;
  }

  /** Records of a page, whatever the loaders answered. */
  lemma ChangesFit(t: Tables, keys: seq<Key>, states: map<Key, One>, changes: seq<Authority>)
    requires NoDuplicates(keys) && forall k :: k in keys ==> StampOf(t, k) > 0
    requires |changes| == |keys| && forall i :: 0 <= i < |keys| ==> changes[i] == Change(t, keys[i], states)
    ensures ValidChanges(changes)
  {
    forall i | 0 <= i < |changes|
      ensures changes[i].key == keys[i] && changes[i].stamp > 0 && (changes[i].error.Some? ==> changes[i].state.None?)
    {
      assert keys[i] in keys;
    }
  }

  /** Every page a server builds passes the page's own validation. */
  lemma PagesAreValid(b: Backend, declared: map<string, nat>, cursors: map<string, nat>, t: Tables)
    requires Lists(b) && WellKept(t) && cursors != map[]
    requires forall c :: c in cursors ==> c != "" && cursors[c] <= Head(t, c)
    requires forall m :: m in Models(b.order(AllChanged(t, cursors))) ==> m in declared
    ensures ValidPage(PageOf(b, declared, cursors, t))
  {
    RangesFit(t, cursors, PageOf(b, declared, cursors, t).cursors);
    CountFits(b, cursors, t);
    PageChangesFit(b, declared, cursors, t);
  }

  lemma PageChangesFit(b: Backend, declared: map<string, nat>, cursors: map<string, nat>, t: Tables)
    requires Lists(b) && WellKept(t)
    requires forall m :: m in Models(b.order(AllChanged(t, cursors))) ==> m in declared
    ensures ValidChanges(PageOf(b, declared, cursors, t).changes)
  {
    var keys := b.order(AllChanged(t, cursors));
    forall k | k in keys ensures StampOf(t, k) > 0 { ChangedStamped(t, cursors, k); }
    ChangesFit(t, keys, States(b, declared, Models(keys), keys, t.rows), PageOf(b, declared, cursors, t).changes);
  }

  lemma RangesFit(t: Tables, cursors: map<string, nat>, ranges: map<string, Range>)
    requires WellKept(t) && cursors != map[] && forall c :: c in cursors ==> c != "" && cursors[c] <= Head(t, c)
    requires ranges == RangesFrom(t, cursors)
    ensures ValidRanges(ranges) && |ranges| == |cursors|
  {
    forall c | c in ranges ensures c != "" && ranges[c].from <= ranges[c].to <= ranges[c].head {
      WindowIsRange(t, c, cursors[c]);
    }
    assert ranges.Keys == cursors.Keys;
    assert |ranges| == |ranges.Keys| && |cursors| == |cursors.Keys|;
    var c :| c in cursors;
    assert c in ranges;
  }

  lemma ChangedStamped(t: Tables, cursors: map<string, nat>, k: Key)
    requires WellKept(t) && k in AllChanged(t, cursors)
    ensures k in t.stamps && StampOf(t, k) > 0
  {
    var c :| c in cursors && k in KeysIn(Window(t, c, cursors[c]));
    var rows := Window(t, c, cursors[c]);
    var i :| 0 <= i < |rows| && rows[i].key == k;
    WindowRow(t, c, cursors[c], rows[i]);
    assert WellLogged(Log(t, c), Head(t, c), t.stamps);
    var j :| 0 <= j < |Log(t, c)| && Log(t, c)[j] == rows[i];
  }

  lemma {:induction false} ZippedFaithful(keys: seq<Key>, ones: seq<One>, rows: Table, k: Key)
    requires |ones| == |keys|
    requires forall i :: 0 <= i < |keys| && ones[i].Found? ==> StateContent(keys[i], ones[i].state) == At(rows, keys[i])
    ensures k in Zipped(keys, ones) <==> k in keys
    ensures k in Zipped(keys, ones) && Zipped(keys, ones)[k].Found? ==>
      StateContent(k, Zipped(keys, ones)[k].state) == At(rows, k)
  {
    if keys != [] {
      forall i | 0 <= i < |keys[1..]| && ones[1..][i].Found?
        ensures StateContent(keys[1..][i], ones[1..][i].state) == At(rows, keys[1..][i])
      {
        assert keys[1..][i] == keys[i + 1] && ones[1..][i] == ones[i + 1];
      }
      ZippedFaithful(keys[1..], ones[1..], rows, k);
      assert keys == [keys[0]] + keys[1..];
    }
  }

  lemma GroupFaithful(b: Backend, version: nat, model: string, keys: seq<Key>, rows: Table)
    requires Faithful(b)
    ensures var ones := LoadGroupFor(b, version, model, keys, rows);
      forall i :: 0 <= i < |keys| && ones[i].Found? ==> StateContent(keys[i], ones[i].state) == At(rows, keys[i])
  {
    var ones := LoadGroupFor(b, version, model, keys, rows);
    assert FaithfulTo(b, model, version, keys, rows);
    forall i | 0 <= i < |keys| && ones[i].Found? ensures StateContent(keys[i], ones[i].state) == At(rows, keys[i]) {
      assert FaithfulTo(b, model, version, [keys[i]], rows);
    }
  }

  lemma {:induction false} StatesFaithful(b: Backend, declared: map<string, nat>, models: seq<string>, keys: seq<Key>,
                                          rows: Table, k: Key)
    requires Faithful(b) && forall m :: m in models ==> m in declared
    ensures var states := States(b, declared, models, keys, rows);
      && (k in states <==> k in keys && k.model in models)
      && (k in states && states[k].Found? ==> StateContent(k, states[k].state) == At(rows, k))
  {
    if models != [] {
      var front, model := models[..|models| - 1], models[|models| - 1];
      var group := Group(keys, model);
      assert models == front + [model];
      StatesFaithful(b, declared, front, keys, rows, k);
      GroupFaithful(b, declared[model], model, group, rows);
      ZippedFaithful(group, LoadGroupFor(b, declared[model], model, group, rows), rows, k);
      GroupMembers(keys, model, k);
    }
  }

  /** A change of a page: the record's current stamp. */
  predicate Stamped(t: Tables, a: Authority) {
    a.key in t.stamps && a.stamp == t.stamps[a.key]
  }

  /** Unless its read failed, its current content too. */
  predicate Truly(t: Tables, a: Authority) {
    Stamped(t, a) && (a.error.None? ==> Content(a) == At(t.rows, a.key))
  }

  predicate AllTruly(t: Tables, changes: seq<Authority>) {
    forall i :: 0 <= i < |changes| ==> Truly(t, changes[i])
  }

  predicate Delivers(changes: seq<Authority>, k: Key, stamp: nat) {
    exists i :: 0 <= i < |changes| && changes[i].key == k && changes[i].stamp >= stamp
  }

  predicate CarriesRow(page: Page, channel: string, row: Invalidation) {
    channel in page.cursors && page.cursors[channel].from < row.cursor <= page.cursors[channel].to ==>
      Delivers(page.changes, row.key, row.stamp)
  }

  /** A page carries every record with a row in its ranges, at a stamp no older than the row's, and
      nothing but current records. */
  ghost predicate Carries(t: Tables, page: Page) {
    && (forall c, i :: 0 <= i < |Log(t, c)| ==> CarriesRow(page, c, Log(t, c)[i]))
    && forall i :: 0 <= i < |page.changes| ==> Stamped(t, page.changes[i])
  }

  lemma PageCarries(b: Backend, declared: map<string, nat>, cursors: map<string, nat>, t: Tables)
    requires Lists(b) && WellKept(t) && forall c :: c in cursors ==> cursors[c] <= Head(t, c)
    requires forall m :: m in Models(b.order(AllChanged(t, cursors))) ==> m in declared
    ensures Carries(t, PageOf(b, declared, cursors, t))
  {
    var page, keys := PageOf(b, declared, cursors, t), b.order(AllChanged(t, cursors));
    forall i | 0 <= i < |page.changes| ensures Stamped(t, page.changes[i]) {
      assert keys[i] in keys;
      ChangedStamped(t, cursors, keys[i]);
    }
    forall c, i | 0 <= i < |Log(t, c)| ensures CarriesRow(page, c, Log(t, c)[i]) {
      if c in page.cursors { RowCarried(b, declared, cursors, t, c, Log(t, c)[i]); }
    }
  }

  lemma ChangeTells(b: Backend, declared: map<string, nat>, t: Tables, keys: seq<Key>, k: Key)
    requires Faithful(b) && k in keys && k in t.stamps && forall m :: m in Models(keys) ==> m in declared
    ensures Truly(t, Change(t, k, States(b, declared, Models(keys), keys, t.rows)))
  {
    ModelsMembers(keys, k);
    StatesFaithful(b, declared, Models(keys), keys, t.rows, k);
    ChangeTruly(t, k, States(b, declared, Models(keys), keys, t.rows));
  }

  lemma ChangeTruly(t: Tables, k: Key, states: map<Key, One>)
    requires k in t.stamps && k in states && (states[k].Found? ==> StateContent(k, states[k].state) == At(t.rows, k))
    ensures Truly(t, Change(t, k, states))
  {
  }

  /** Faithful loaders: every change carries the content the record has. */
  lemma PageTells(b: Backend, declared: map<string, nat>, cursors: map<string, nat>, t: Tables)
    requires Lists(b) && Faithful(b) && WellKept(t) && forall c :: c in cursors ==> cursors[c] <= Head(t, c)
    requires forall m :: m in Models(b.order(AllChanged(t, cursors))) ==> m in declared
    ensures AllTruly(t, PageOf(b, declared, cursors, t).changes)
  {
    var keys := b.order(AllChanged(t, cursors));
    forall i | 0 <= i < |keys| ensures Truly(t, PageOf(b, declared, cursors, t).changes[i]) {
      assert keys[i] in keys;
      ChangedStamped(t, cursors, keys[i]);
      ChangeTells(b, declared, t, keys, keys[i]);
    }
  }

  lemma RowScanned(cursors: map<string, nat>, t: Tables, c: string, row: Invalidation)
    requires WellKept(t) && c in cursors && cursors[c] <= Head(t, c) && row in Log(t, c)
    requires cursors[c] < row.cursor <= RangeOf(t, c, cursors[c]).to
    ensures row.key in AllChanged(t, cursors)
  {
    WindowIsRange(t, c, cursors[c]);
    var rows := Window(t, c, cursors[c]);
    var n :| 0 <= n < |rows| && rows[n] == row;
    assert row.key in KeysIn(rows);
  }

  lemma RowBehind(t: Tables, c: string, row: Invalidation)
    requires WellKept(t) && row in Log(t, c)
    ensures row.stamp <= StampOf(t, row.key)
  {
    assert WellLogged(Log(t, c), Head(t, c), t.stamps);
    var j :| 0 <= j < |Log(t, c)| && Log(t, c)[j] == row;
  }

  lemma ChangeListed(t: Tables, keys: seq<Key>, states: map<Key, One>, changes: seq<Authority>, k: Key)
    requires |changes| == |keys| && forall i :: 0 <= i < |keys| ==> changes[i] == Change(t, keys[i], states)
    requires k in keys
    ensures Delivers(changes, k, StampOf(t, k))
  {
    var i :| 0 <= i < |keys| && keys[i] == k;
    assert changes[i].key == k && changes[i].stamp >= StampOf(t, k);
  }

  lemma RowCarried(b: Backend, declared: map<string, nat>, cursors: map<string, nat>, t: Tables, c: string,
                   row: Invalidation)
    requires Lists(b) && WellKept(t) && c in cursors && cursors[c] <= Head(t, c) && row in Log(t, c)
    requires forall m :: m in Models(b.order(AllChanged(t, cursors))) ==> m in declared
    ensures CarriesRow(PageOf(b, declared, cursors, t), c, row)
  {
    if cursors[c] < row.cursor <= RangeOf(t, c, cursors[c]).to {
      var page, keys := PageOf(b, declared, cursors, t), b.order(AllChanged(t, cursors));
      RowScanned(cursors, t, c, row);
      RowBehind(t, c, row);
      ChangeListed(t, keys, States(b, declared, Models(keys), keys, t.rows), page.changes, row.key);
      DeliversLess(page.changes, row.key, StampOf(t, row.key), row.stamp);
    }
  }

  lemma DeliversLess(changes: seq<Authority>, k: Key, stamp: nat, less: nat)
    requires Delivers(changes, k, stamp) && less <= stamp
    ensures Delivers(changes, k, less)
  {
    var i :| 0 <= i < |changes| && changes[i].key == k && changes[i].stamp >= stamp;
    assert changes[i].stamp >= less;
  }

  /** Where repeated pulls and applications leave a channel's cursor while the server is quiet. */
  function Pulled(t: Tables, channel: string, from: nat, pulls: nat): nat
    decreases pulls
  {
    if pulls == 0 then from else Pulled(t, channel, RangeOf(t, channel, from).to, pulls - 1)
  }

  lemma {:induction false} AfterTwice(log: seq<Invalidation>, from: nat, to: nat)
    requires from <= to
    ensures After(After(log, from), to) == After(log, to)
  {
    if log != [] { AfterTwice(log[1..], from, to); }
  }

  lemma {:induction false} AfterNone(log: seq<Invalidation>, from: nat)
    requires forall row :: row in log ==> row.cursor > from
    ensures After(log, from) == log
  {
    if log != [] {
      assert log[0] in log;
      AfterNone(log[1..], from);
    }
  }

  lemma {:induction false} AfterSuffix(log: seq<Invalidation>, n: nat)
    requires Sorted(log) && n < |log|
    ensures After(log, log[n].cursor) == log[n + 1..]
  {
    SortedTail(log);
    if n == 0 {
      AfterNone(log[1..], log[0].cursor);
    } else {
      assert log[1..][n - 1] == log[n] && log[1..][n..] == log[n + 1..];
      assert log[n] in log[1..];
      AfterSuffix(log[1..], n - 1);
    }
  }

  /** Every pull takes a full page off what remains, so a quiet channel ends at its head. */
  lemma {:induction false} PullsEndAtHead(t: Tables, channel: string, from: nat, pulls: nat)
    requires WellKept(t) && from <= Head(t, channel)
    requires pulls * PULL_CHANGES >= |After(Log(t, channel), from)| && pulls > 0
    ensures Pulled(t, channel, from, pulls) == Head(t, channel)
    decreases pulls
  {
    var log, all, to := Log(t, channel), After(Log(t, channel), from), RangeOf(t, channel, from).to;
    WindowIsRange(t, channel, from);
    assert WellLogged(log, Head(t, channel), t.stamps);
    AfterSorted(log, from);
    if to == Head(t, channel) {
      AtHead(t, channel, pulls - 1);
    } else {
      assert to == all[PULL_CHANGES - 1].cursor;
      AfterTwice(log, from, to);
      AfterSuffix(all, PULL_CHANGES - 1);
      assert After(log, to) == all[PULL_CHANGES..];
      RemainingRows(t, channel, to);
      PullsEndAtHead(t, channel, to, pulls - 1);
    }
  }

  lemma RemainingRows(t: Tables, channel: string, from: nat)
    requires WellKept(t) && from < Head(t, channel)
    ensures |After(Log(t, channel), from)| > 0
  {
    var log := Log(t, channel);
    assert WellLogged(log, Head(t, channel), t.stamps);
    AfterMembers(log, from, log[|log| - 1]);
  }

  lemma {:induction false} AtHead(t: Tables, channel: string, pulls: nat)
    requires WellKept(t)
    ensures Pulled(t, channel, Head(t, channel), pulls) == Head(t, channel)
    decreases pulls
  {
    if pulls > 0 {
      WindowIsRange(t, channel, Head(t, channel));
      AtHead(t, channel, pulls - 1);
    }
  }

  /** One pull from all cursors of a client, and its page applied. */
  ghost predicate CatchesUp(t: Tables, cursors: map<string, nat>, page: Page, next: map<string, nat>) {
    page.cursors == RangesFrom(t, cursors) && next == cursors + Moving(cursors, page)
  }

  /** A client catching up with a quiet server, each pull from where the last page left it. */
  ghost predicate Catching(t: Tables, cursors: seq<map<string, nat>>, pages: seq<Page>) {
    && |cursors| == |pages| + 1
    && forall i :: 0 <= i < |pages| ==> CatchesUpAt(t, cursors, pages, i)
  }

  ghost predicate CatchesUpAt(t: Tables, cursors: seq<map<string, nat>>, pages: seq<Page>, i: int)
    requires 0 <= i < |pages| && |cursors| == |pages| + 1
  {
    CatchesUp(t, cursors[i], pages[i], cursors[i + 1])
  }

  lemma CaughtUpAt(t: Tables, cursors: seq<map<string, nat>>, pages: seq<Page>, i: nat)
    requires Catching(t, cursors, pages) && i < |pages|
    ensures CatchesUp(t, cursors[i], pages[i], cursors[i + 1])
  {
    assert CatchesUpAt(t, cursors, pages, i);
  }

  /** A page that starts at every cursor moves each to the end of its range and has no gap. */
  lemma MovesToEnd(cursors: map<string, nat>, page: Page)
    requires page.cursors.Keys == cursors.Keys
    requires forall c :: c in cursors ==> page.cursors[c].from == cursors[c] <= page.cursors[c].to
    ensures !HasGap(cursors, page)
    ensures cursors + Moving(cursors, page) == map c | c in cursors :: page.cursors[c].to
  {
  }

  lemma RangeReaches(t: Tables, channel: string, from: nat)
    requires WellKept(t) && from <= Head(t, channel)
    ensures RangeOf(t, channel, from).from == from <= RangeOf(t, channel, from).to <= Head(t, channel)
  {
    WindowIsRange(t, channel, from);
  }

  ghost predicate NotAhead(t: Tables, cursors: map<string, nat>) {
    forall c :: c in cursors ==> cursors[c] <= Head(t, c)
  }

  /** No page of its own is refused, and applying it moves every cursor to the end of its range. */
  lemma AppliedRanges(t: Tables, cursors: map<string, nat>, page: Page)
    requires WellKept(t) && page.cursors == RangesFrom(t, cursors) && NotAhead(t, cursors)
    ensures !HasGap(cursors, page)
    ensures var next := cursors + Moving(cursors, page);
      && next.Keys == cursors.Keys && NotAhead(t, next)
      && forall c :: c in next ==> next[c] == RangeOf(t, c, cursors[c]).to
  {
    forall c | c in cursors
      ensures RangeOf(t, c, cursors[c]).from == cursors[c] <= RangeOf(t, c, cursors[c]).to <= Head(t, c)
    {
      RangeReaches(t, c, cursors[c]);
    }
    MovesToEnd(cursors, page);
  }

  lemma {:induction false} PulledNext(t: Tables, channel: string, from: nat, pulls: nat)
    ensures Pulled(t, channel, from, pulls + 1) == RangeOf(t, channel, Pulled(t, channel, from, pulls)).to
    decreases pulls
  {
    if pulls > 0 { PulledNext(t, channel, RangeOf(t, channel, from).to, pulls - 1); }
  }

  ghost predicate PulledTo(t: Tables, first: map<string, nat>, cursors: map<string, nat>, n: nat) {
    && cursors.Keys == first.Keys && NotAhead(t, cursors)
    && forall c :: c in cursors ==> cursors[c] == Pulled(t, c, first[c], n)
  }

  lemma PulledOn(t: Tables, first: map<string, nat>, cursors: map<string, nat>, page: Page, n: nat)
    requires WellKept(t) && PulledTo(t, first, cursors, n) && page.cursors == RangesFrom(t, cursors)
    ensures PulledTo(t, first, cursors + Moving(cursors, page), n + 1)
  {
    AppliedRanges(t, cursors, page);
    forall c | c in cursors ensures RangeOf(t, c, cursors[c]).to == Pulled(t, c, first[c], n + 1) {
      PulledNext(t, c, first[c], n);
    }
  }

  /** A client catching up follows the ranges channel by channel. */
  lemma {:induction false} CatchingFollows(t: Tables, cursors: seq<map<string, nat>>, pages: seq<Page>, n: nat)
    requires WellKept(t) && Catching(t, cursors, pages) && n <= |pages| && NotAhead(t, cursors[0])
    ensures PulledTo(t, cursors[0], cursors[n], n)
  {
    if n > 0 {
      CatchingFollows(t, cursors, pages, n - 1);
      CaughtUpAt(t, cursors, pages, n - 1);
      PulledOn(t, cursors[0], cursors[n - 1], pages[n - 1], n - 1);
    }
  }

  /** Enough pulls for the longest remainder leave every cursor of the client at the head of its channel. */
  lemma CaughtUp(t: Tables, cursors: seq<map<string, nat>>, pages: seq<Page>)
    requires WellKept(t) && Catching(t, cursors, pages) && pages != []
    requires forall c :: c in cursors[0] ==>
      cursors[0][c] <= Head(t, c) && |After(Log(t, c), cursors[0][c])| <= |pages| * PULL_CHANGES
    ensures forall i :: 0 <= i < |pages| ==> !HasGap(cursors[i], pages[i])
    ensures cursors[|pages|] == map c | c in cursors[0] :: Head(t, c)
  {
    forall i: nat | i < |pages| ensures !HasGap(cursors[i], pages[i]) {
      CatchingFollows(t, cursors, pages, i);
      CaughtUpAt(t, cursors, pages, i);
      AppliedRanges(t, cursors[i], pages[i]);
    }
    CatchingFollows(t, cursors, pages, |pages|);
    forall c | c in cursors[0] ensures cursors[|pages|][c] == Head(t, c) {
      PullsEndAtHead(t, c, cursors[0][c], |pages|);
    }
  }

  datatype Pull = Pull(declared: map<string, nat>, cursors: map<string, nat>)

  datatype PullAnswer = Served(page: Page) | Unserved(why: Decline)

  datatype Decline = NoPrincipal | BadRequest | NotRetained | CursorAhead | NoLoader | NotDeclared

  /** A pull is served when it is well formed, every declared contract is retained, no cursor is ahead of
      its head, and every changed record has a loader and a declared version. */
  ghost predicate Servable(b: Backend, owner: string, pull: Pull, t: Tables) {
    && !Blank(owner) && WellAsked(pull)
    && Retained(b, pull)
    && NoneAhead(pull, t)
    && !Unloadable(b, AllChanged(t, pull.cursors))
    && Declares(pull, AllChanged(t, pull.cursors))
  }

  predicate Retained(b: Backend, pull: Pull) {
    forall m :: m in pull.declared ==> b.contract(m, pull.declared[m])
  }

  predicate NoneAhead(pull: Pull, t: Tables) {
    forall c :: c in pull.cursors ==> pull.cursors[c] <= Head(t, c)
  }

  predicate WellAsked(pull: Pull) {
    pull.declared != map[] && pull.cursors != map[] && "" !in pull.declared && "" !in pull.cursors
  }

  predicate Declares(pull: Pull, keys: set<Key>) {
    forall k :: k in keys ==> k.model in pull.declared
  }

  lemma ReadableModels(b: Backend, pull: Pull, keys: set<Key>)
    requires Lists(b) && Declares(pull, keys)
    ensures forall m :: m in Models(b.order(keys)) ==> m in pull.declared
  {
    forall m | m in Models(b.order(keys)) ensures m in pull.declared { ModelOfSome(b.order(keys), m); }
  }

  lemma {:induction false} ModelOfSome(keys: seq<Key>, m: string)
    requires m in Models(keys)
    ensures exists k :: k in keys && k.model == m
  {
    if keys[0].model == m {
      assert keys[0] in keys;
    } else {
      ModelOfSome(keys[1..], m);
      var k :| k in keys[1..] && k.model == m;
      assert k in keys;
    }
  }

  function Ranges(t: Tables, cursors: map<string, nat>, channels: seq<string>): map<string, Range>
    requires forall c :: c in channels ==> c in cursors
  {
    if channels == [] then map[]
    else
      var last := channels[|channels| - 1];
      Ranges(t, cursors, channels[..|channels| - 1])[last := RangeOf(t, last, cursors[last])]
  }

  lemma {:induction false} RangesMember(t: Tables, cursors: map<string, nat>, channels: seq<string>, c: string)
    requires forall c :: c in channels ==> c in cursors
    ensures var r := Ranges(t, cursors, channels);
      (c in r <==> c in channels) && (c in r ==> r[c] == RangeOf(t, c, cursors[c]))
  {
    if channels != [] {
      RangesMember(t, cursors, channels[..|channels| - 1], c);
      assert channels == channels[..|channels| - 1] + [channels[|channels| - 1]];
    }
  }

  lemma RangesIsAll(t: Tables, cursors: map<string, nat>, channels: seq<string>)
    requires forall c :: c in channels <==> c in cursors
    ensures Ranges(t, cursors, channels) == RangesFrom(t, cursors)
  {
    forall c { RangesMember(t, cursors, channels, c); }
    assert Ranges(t, cursors, channels).Keys == cursors.Keys;
  }

  lemma ScanSnoc(t: Tables, cursors: map<string, nat>, channels: seq<string>, n: nat)
    requires n < |channels| && forall c :: c in channels ==> c in cursors
    ensures var c := channels[n];
      && Ranges(t, cursors, channels[..n + 1]) == Ranges(t, cursors, channels[..n])[c := RangeOf(t, c, cursors[c])]
      && Changed(t, cursors, channels[..n + 1]) == Changed(t, cursors, channels[..n]) + KeysIn(Window(t, c, cursors[c]))
  {
    assert channels[..n + 1][..n] == channels[..n];
  }

  lemma UnloadableUnion(b: Backend, x: set<Key>, y: set<Key>)
    ensures Unloadable(b, x + y) <==> Unloadable(b, x) || Unloadable(b, y)
  {
  }

  /** Scan every channel: its range, and the records with a row in it. */
  method ScanAll(b: Backend, pull: Pull, t: Tables)
    returns (why: Option<Decline>, ranges: map<string, Range>, changed: set<Key>)
    ensures why.None? <==> NoneAhead(pull, t) && !Unloadable(b, AllChanged(t, pull.cursors))
    ensures why.None? ==>
      ranges == RangesFrom(t, pull.cursors) && changed == AllChanged(t, pull.cursors)
    ensures why == Some(CursorAhead) ==> !NoneAhead(pull, t)
    ensures why.None? || why == Some(CursorAhead) || why == Some(NoLoader)
  {
    var channels := Listed(pull.cursors.Keys);
    ranges, changed := map[], {};
    var n := 0;
    while n < |channels|
      invariant 0 <= n <= |channels|
      invariant forall m :: 0 <= m < n ==> pull.cursors[channels[m]] <= Head(t, channels[m])
      invariant ranges == Ranges(t, pull.cursors, channels[..n])
      invariant changed == Changed(t, pull.cursors, channels[..n]) && !Unloadable(b, changed)
    {
      var c := channels[n];
      assert c in channels;
      if pull.cursors[c] > Head(t, c) {
        return Some(CursorAhead), ranges, changed;
      }
      var keys := KeysIn(Window(t, c, pull.cursors[c]));
      if Unloadable(b, keys) {
        ScannedUnloadable(b, pull, t, c);
        return Some(NoLoader), ranges, changed;
      }
      ScanSnoc(t, pull.cursors, channels, n);
      ranges := ranges[c := RangeOf(t, c, pull.cursors[c])];
      UnloadableUnion(b, changed, keys);
      changed := changed + keys;
      n := n + 1;
    }
    assert channels[..n] == channels;
    ChangedIsAll(t, pull.cursors, channels);
    RangesIsAll(t, pull.cursors, channels);
    forall c | c in pull.cursors ensures pull.cursors[c] <= Head(t, c) { assert c in channels; }
    why := None;
  }

  lemma ScannedUnloadable(b: Backend, pull: Pull, t: Tables, c: string)
    requires c in pull.cursors && Unloadable(b, KeysIn(Window(t, c, pull.cursors[c])))
    ensures Unloadable(b, AllChanged(t, pull.cursors))
  {
    var k :| k in KeysIn(Window(t, c, pull.cursors[c])) && k.model !in b.loaders;
    assert k in AllChanged(t, pull.cursors);
  }

  lemma StatesNext(b: Backend, declared: map<string, nat>, models: seq<string>, n: nat, keys: seq<Key>, rows: Table)
    requires n < |models| && forall m :: m in models ==> m in declared
    ensures var group := Group(keys, models[n]);
      States(b, declared, models[..n + 1], keys, rows) ==
        States(b, declared, models[..n], keys, rows)
        + Zipped(group, LoadGroupFor(b, declared[models[n]], models[n], group, rows))
  {
    assert models[..n + 1][..n] == models[..n] && models[..n + 1][n] == models[n];
  }

  /** Read the changed records model by model. */
  method ReadStates(b: Backend, declared: map<string, nat>, keys: seq<Key>, t: Tables) returns (states: map<Key, One>)
    requires forall m :: m in Models(keys) ==> m in declared
    ensures states == States(b, declared, Models(keys), keys, t.rows)
  {
    var models := Models(keys);
    states := map[];
    var n := 0;
    assert models[..0] == [];
    while n < |models|
      invariant 0 <= n <= |models|
      invariant states == States(b, declared, models[..n], keys, t.rows)
    {
      var group := Group(keys, models[n]);
      var ones := LoadGroupFor(b, declared[models[n]], models[n], group, t.rows);
      StatesNext(b, declared, models, n, keys, t.rows);
      states := states + Zipped(group, ones);
      n := n + 1;
    }
    assert models[..n] == models;
  }

  /** Serve one pull: a page for every channel it names, or a refusal of the whole pull. */
  method ProcessPull(b: Backend, owner: string, pull: Pull, t: Tables) returns (answer: PullAnswer)
    requires Lists(b) && WellKept(t)
    ensures answer.Served? <==> Servable(b, owner, pull, t)
    ensures answer.Served? ==> ValidPage(answer.page) && Carries(t, answer.page)
    ensures answer.Served? && Faithful(b) ==> AllTruly(t, answer.page.changes)
    ensures answer.Served? ==> answer.page.cursors == RangesFrom(t, pull.cursors)
    ensures answer == Unserved(CursorAhead) ==> !NoneAhead(pull, t)
  {
    if Blank(owner) {
      return Unserved(NoPrincipal);
    }
    if !WellAsked(pull) {
      return Unserved(BadRequest);
    }
    if !Retained(b, pull) {
      return Unserved(NotRetained);
    }
    var why, ranges, changed := ScanAll(b, pull, t);
    if why.Some? {
      return Unserved(why.value);
    }
    if !Declares(pull, changed) {
      return Unserved(NotDeclared);
    }
    ReadableModels(b, pull, changed);
    var page := BuildPage(b, pull, ranges, t);
    answer := Served(page);
  }

  method BuildPage(b: Backend, pull: Pull, ranges: map<string, Range>, t: Tables) returns (page: Page)
    requires Lists(b) && WellKept(t) && WellAsked(pull) && NoneAhead(pull, t)
    requires forall m :: m in Models(b.order(AllChanged(t, pull.cursors))) ==> m in pull.declared
    requires ranges == RangesFrom(t, pull.cursors)
    ensures ValidPage(page) && Carries(t, page) && page.cursors == ranges
    ensures Faithful(b) ==> AllTruly(t, page.changes)
  {
    var keys := b.order(AllChanged(t, pull.cursors));
    var states := ReadStates(b, pull.declared, keys, t);
    page := Page(ranges, seq(|keys|, i requires 0 <= i < |keys| => Change(t, keys[i], states)));
    assert page == PageOf(b, pull.declared, pull.cursors, t);
    PagesAreValid(b, pull.declared, pull.cursors, t);
    PageCarries(b, pull.declared, pull.cursors, t);
    if Faithful(b) { PageTells(b, pull.declared, pull.cursors, t); }
  }
}
