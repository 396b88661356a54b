/** The memory of issued pulls. A page is recognised only by the channels and
    cursors it answers; a page whose request predates a resubscription of one
    of its channels is stale. */
module Pulls {

  type Cursors = map<string, nat>

  type Epochs = map<string, nat>

  /** What a committed transaction reports as changed: tables, and subscription marks. */
  datatype Change = Table(name: string) | Subscription(channel: string)

  /** One request: the cursor asked from on every channel, and the epoch each subscription was at. */
  datatype Issued = Issued(cursors: Cursors, epochs: Epochs)

  const CAPACITY: nat := 1024

  function Epoch(epochs: Epochs, channel: string): nat {
    if channel in epochs then epochs[channel] else 0
  }

  /** The entry a request for `cursors` leaves under the current subscriptions. */
  function Request(epochs: Epochs, cursors: Cursors): Issued {
    Issued(cursors, map c | c in cursors :: Epoch(epochs, c))
  }

  predicate Hit(entry: Issued, want: Issued, exact: bool) {
    if exact then entry == want else entry.cursors == want.cursors
  }

  /** First hit at or after `i`; |issued| when there is none. */
  function Find(issued: seq<Issued>, want: Issued, exact: bool, i: nat): (k: nat)
    requires i <= |issued|
    ensures i <= k <= |issued|
    ensures k < |issued| ==> Hit(issued[k], want, exact)
    ensures forall j :: i <= j < k ==> !Hit(issued[j], want, exact)
    decreases |issued| - i
  {
    if i == |issued| || Hit(issued[i], want, exact) then i else Find(issued, want, exact, i + 1)
  }

  function Removed(issued: seq<Issued>, i: nat): (r: seq<Issued>)
    requires i < |issued|
    ensures |r| == |issued| - 1
    ensures forall j :: 0 <= j < |r| ==> r[j] == issued[if j < i then j else j + 1]
  {
    issued[..i] + issued[i + 1..]
  }

  /** Every entry for the same cursors now carries the epochs of `want`. */
  function Refreshed(issued: seq<Issued>, want: Issued): (r: seq<Issued>)
    ensures |r| == |issued|
    ensures forall i :: 0 <= i < |r| ==> r[i] == if issued[i].cursors == want.cursors then want else issued[i]
  {
    seq(|issued|, i requires 0 <= i < |issued| => if issued[i].cursors == want.cursors then want else issued[i])
  }

  function Bumped(epochs: Epochs, channels: set<string>): (r: Epochs)
    ensures forall c :: Epoch(r, c) == Epoch(epochs, c) + if c in channels then 1 else 0
  {
    map c | c in epochs.Keys + channels :: Epoch(epochs, c) + if c in channels then 1 else 0
  }

  function Remembered(issued: seq<Issued>, want: Issued): seq<Issued> {
    (if |issued| == CAPACITY then issued[1..] else issued) + [want]
  }

  /** The last 1024 requests are remembered. */
  lemma RemembersLast(issued: seq<Issued>, want: Issued)
    requires |issued| <= 1024
    ensures var r := Remembered(issued, want);
      && r[|r| - 1] == want
      && if |issued| < 1024 then r[..|r| - 1] == issued else |r| == 1024 && r[..|r| - 1] == issued[1..]
  {
  }

  predicate JudgedStale(issued: seq<Issued>, want: Issued) {
    Find(issued, want, true, 0) == |issued| && Find(issued, want, false, 0) < |issued|
  }

  function Consumed(issued: seq<Issued>, want: Issued): seq<Issued> {
    var current, any := Find(issued, want, true, 0), Find(issued, want, false, 0);
    if current < |issued| then Refreshed(Removed(issued, current), want)
    else if any < |issued| then Removed(issued, any)
    else issued
  }

  /** The subscription marks among the changes. */
  function Marks(changed: set<Change>): (r: set<Change>)
    ensures forall c :: c in r <==> c in changed && c.Subscription?
  {
    set c | c in changed && c.Subscription?
  }

  class PullLedger {
    var epochs: Epochs
    var issued: seq<Issued>
    var generation: nat

    constructor ()
      ensures epochs == map[] && issued == [] && generation == 0
    {
      epochs, issued, generation := map[], [], 0;
    }

    method Bump(channel: string)
      modifies this`epochs, this`generation
      ensures epochs == old(epochs)[channel := Epoch(old(epochs), channel) + 1] && generation == old(generation) + 1
    {
      epochs := epochs[channel := Epoch(epochs, channel) + 1];
      generation := generation + 1;
    }

    /** Apply and strip the subscription marks of a committed transaction. */
    method Absorb(changed: set<Change>) returns (rest: set<Change>)
      modifies this`epochs, this`generation
      ensures rest == changed - Marks(changed)
      ensures forall c :: Epoch(epochs, c) == Epoch(old(epochs), c) + if Subscription(c) in changed then 1 else 0
      ensures generation == old(generation) + |Marks(changed)|
    {
      var todo := Marks(changed);
      ghost var done: set<Change> := {};
      while todo != {}
        invariant done + todo == Marks(changed) && done !! todo
        invariant forall c :: Epoch(epochs, c) == Epoch(old(epochs), c) + if Subscription(c) in done then 1 else 0
        invariant generation == old(generation) + |done|
        decreases |todo|
      {
        var mark :| mark in todo;
        Bump(mark.channel);
        assert mark == Subscription(mark.channel);
        done := done + {mark};
        todo := todo - {mark};
      }
      rest := changed - Marks(changed);
      assert forall c :: Subscription(c) in done <==> Subscription(c) in changed;
    }

    method Issue(cursors: Cursors)
      modifies this`issued
      ensures issued == Remembered(old(issued), Request(epochs, cursors))
    {
      if |issued| == CAPACITY {
        issued := issued[1..];
      }
      issued := issued + [Request(epochs, cursors)];
    }

    /** Judge the page answering `cursors`, consuming the request it answers. */
    method Stale(cursors: Cursors) returns (stale: bool)
      modifies this`issued
      ensures stale == JudgedStale(old(issued), Request(epochs, cursors))
      ensures issued == Consumed(old(issued), Request(epochs, cursors))
    {
      var want := Request(epochs, cursors);
      var i := Position(want, true);
      if i < |issued| {
        issued := Removed(issued, i);
        ghost var removed := issued;
        var n := 0;
        while n < |issued|
          invariant 0 <= n <= |issued| == |removed|
          invariant forall j :: 0 <= j < n ==> issued[j] == Refreshed(removed, want)[j]
          invariant forall j :: n <= j < |removed| ==> issued[j] == removed[j]
        {
          if issued[n].cursors == cursors {
            issued := issued[n := want];
          }
          n := n + 1;
        }
        assert issued == Refreshed(removed, want);
        return false;
      }
      i := Position(want, false);
      if i < |issued| {
        issued := Removed(issued, i);
        return true;
      }
      return false;
    }

    method Position(want: Issued, exact: bool) returns (i: nat)
      ensures i == Find(issued, want, exact, 0)
    {
      i := 0;
      while i < |issued| && !Hit(issued[i], want, exact)
        invariant 0 <= i <= |issued|
        invariant Find(issued, want, exact, 0) == Find(issued, want, exact, i)
      {
        i := i + 1;
      }
    }
  }

  datatype Memory = Memory(epochs: Epochs, issued: seq<Issued>)

  /** Everything that can happen to the ledger between two pages. */
  datatype Event =
    | Resubscribed(channels: set<string>)
    | Requested(cursors: Cursors)
    | Answered(cursors: Cursors)

  function Step(m: Memory, e: Event): Memory {
    match e
    case Resubscribed(channels) => m.(epochs := Bumped(m.epochs, channels))
    case Requested(cursors) => m.(issued := Remembered(m.issued, Request(m.epochs, cursors)))
    case Answered(cursors) => m.(issued := Consumed(m.issued, Request(m.epochs, cursors)))
  }

  function Run(m: Memory, events: seq<Event>): Memory
    decreases |events|
  {
    if events == [] then m else Run(Step(m, events[0]), events[1..])
  }

  predicate Stale(m: Memory, cursors: Cursors) {
    JudgedStale(m.issued, Request(m.epochs, cursors))
  }

  predicate Touches(e: Event, cursors: Cursors) {
    e.Resubscribed? && exists c :: c in e.channels && c in cursors
  }

  /** Index of the latest entry for `cursors`; -1 when none is remembered. */
  function LastMatch(issued: seq<Issued>, cursors: Cursors): (k: int)
    ensures -1 <= k < |issued|
    ensures k >= 0 ==> issued[k].cursors == cursors
    ensures forall i :: k < i < |issued| ==> issued[i].cursors != cursors
  {
    if issued == [] then -1
    else if issued[|issued| - 1].cursors == cursors then |issued| - 1
    else LastMatch(issued[..|issued| - 1], cursors)
  }

  /** The latest entry for the cursors of `want`, if any is remembered, is `want` itself. */
  predicate Latest(issued: seq<Issued>, want: Issued) {
    var k := LastMatch(issued, want.cursors);
    k >= 0 ==> issued[k] == want
  }

  lemma LatestAt(issued: seq<Issued>, want: Issued, k: int)
    requires -1 <= k < |issued| && (k >= 0 ==> issued[k] == want)
    requires forall i :: k < i < |issued| ==> issued[i].cursors != want.cursors
    ensures Latest(issued, want)
  {
    assert k >= 0 ==> k <= LastMatch(issued, want.cursors);
  }

  lemma LatestRemembered(issued: seq<Issued>, want: Issued, other: Issued)
    requires Latest(issued, want)
    requires other.cursors == want.cursors ==> other == want
    ensures Latest(Remembered(issued, other), want)
  {
    var r, k := Remembered(issued, other), LastMatch(issued, want.cursors);
    var shift := if |issued| == CAPACITY then 1 else 0;
    var kept := issued[shift..];
    assert r == kept + [other];
    if other == want {
      LatestAt(r, want, |r| - 1);
    } else {
      LatestAt(r, want, if k < shift then -1 else k - shift);
    }
  }

  lemma LatestConsumedItself(issued: seq<Issued>, want: Issued)
    requires Latest(issued, want)
    ensures Latest(Consumed(issued, want), want)
  {
    var r, k := Consumed(issued, want), LastMatch(issued, want.cursors);
    var current, any := Find(issued, want, true, 0), Find(issued, want, false, 0);
    if current < |issued| {
      assert LastMatch(r, want.cursors) >= 0 ==> r[LastMatch(r, want.cursors)] == want;
    } else if any < |issued| {
      assert k >= any && Hit(issued[k], want, true);
      assert false;
    }
  }

  lemma LatestRemoved(issued: seq<Issued>, want: Issued, cut: nat)
    requires Latest(issued, want) && cut < |issued| && issued[cut].cursors != want.cursors
    ensures Latest(Removed(issued, cut), want)
  {
    var k := LastMatch(issued, want.cursors);
    LatestAt(Removed(issued, cut), want, if cut < k then k - 1 else k);
  }

  lemma LatestRefreshed(issued: seq<Issued>, want: Issued, other: Issued)
    requires Latest(issued, want) && other.cursors != want.cursors
    ensures Latest(Refreshed(issued, other), want)
  {
    LatestAt(Refreshed(issued, other), want, LastMatch(issued, want.cursors));
  }

  lemma LatestConsumed(issued: seq<Issued>, want: Issued, other: Issued)
    requires Latest(issued, want)
    requires other.cursors == want.cursors ==> other == want
    ensures Latest(Consumed(issued, other), want)
  {
    var current, any := Find(issued, other, true, 0), Find(issued, other, false, 0);
    if other == want {
      LatestConsumedItself(issued, want);
    } else if current < |issued| {
      LatestRemoved(issued, want, current);
      LatestRefreshed(Removed(issued, current), want, other);
    } else if any < |issued| {
      LatestRemoved(issued, want, any);
    }
  }

  lemma {:induction false} LatestRun(m: Memory, cursors: Cursors, events: seq<Event>)
    requires Latest(m.issued, Request(m.epochs, cursors))
    requires forall i :: 0 <= i < |events| ==> !Touches(events[i], cursors)
    ensures !Stale(Run(m, events), cursors)
    decreases |events|
  {
    var want := Request(m.epochs, cursors);
    if events == [] {
      var any := Find(m.issued, want, false, 0);
      if any < |m.issued| {
        assert Hit(m.issued[LastMatch(m.issued, cursors)], want, true);
      }
    } else {
      var e := events[0];
      assert !Touches(e, cursors);
      match e {
        case Resubscribed(channels) =>
          assert Request(Bumped(m.epochs, channels), cursors) == want;
        case Requested(other) => LatestRemembered(m.issued, want, Request(m.epochs, other));
        case Answered(other) => LatestConsumed(m.issued, want, Request(m.epochs, other));
      }
      LatestRun(Step(m, e), cursors, events[1..]);
    }
  }

  /** Once a pull is issued under the current subscriptions, no page answering its cursors is
      judged stale until one of its channels is resubscribed: whatever else is requested,
      answered, duplicated, reordered or evicted meanwhile. */
  lemma RequestedPageIsNeverStale(m: Memory, cursors: Cursors, events: seq<Event>)
    requires forall i :: 0 <= i < |events| ==> !Touches(events[i], cursors)
    ensures !Stale(Run(Step(m, Requested(cursors)), events), cursors)
  {
    var s := Step(m, Requested(cursors));
    assert s.issued[|s.issued| - 1] == Request(m.epochs, cursors);
    LatestRun(s, cursors, events);
  }

  /** Entries carry one epoch per channel they name, never one from the future. */
  ghost predicate Past(epochs: Epochs, entry: Issued) {
    && entry.epochs.Keys == entry.cursors.Keys
    && forall c :: c in entry.epochs ==> entry.epochs[c] <= Epoch(epochs, c)
  }

  ghost predicate Sound(m: Memory) {
    |m.issued| <= CAPACITY && forall i :: 0 <= i < |m.issued| ==> Past(m.epochs, m.issued[i])
  }

  lemma SoundStep(m: Memory, e: Event)
    requires Sound(m)
    ensures Sound(Step(m, e))
  {
    var n := Step(m, e);
    forall i | 0 <= i < |n.issued| ensures Past(n.epochs, n.issued[i]) {
      match e
      case Resubscribed(channels) =>
        assert Past(m.epochs, m.issued[i]);
      case Requested(cursors) =>
      case Answered(cursors) =>
    }
  }

  function Outstanding(issued: seq<Issued>, cursors: Cursors): nat {
    if issued == [] then 0
    else (if issued[0].cursors == cursors then 1 else 0) + Outstanding(issued[1..], cursors)
  }

  lemma {:induction false} OutstandingSplit(a: seq<Issued>, b: seq<Issued>, cursors: Cursors)
    ensures Outstanding(a + b, cursors) == Outstanding(a, cursors) + Outstanding(b, cursors)
  {
    if a == [] {
      assert a + b == b;
    } else {
      assert (a + b)[1..] == a[1..] + b;
      OutstandingSplit(a[1..], b, cursors);
    }
  }

  lemma {:induction false} OutstandingFound(issued: seq<Issued>, want: Issued, i: nat)
    requires i <= |issued|
    ensures Find(issued, want, false, i) < |issued| <==> Outstanding(issued[i..], want.cursors) > 0
    decreases |issued| - i
  {
    if i < |issued| {
      assert issued[i..][1..] == issued[i + 1..];
      OutstandingFound(issued, want, i + 1);
    }
  }

  /** No remembered entry was issued under the current subscriptions. */
  ghost predicate AllOld(m: Memory, cursors: Cursors) {
    forall i :: 0 <= i < |m.issued| ==> m.issued[i] != Request(m.epochs, cursors)
  }

  lemma ResubscribeMakesOld(m: Memory, cursors: Cursors, channels: set<string>, c: string)
    requires Sound(m) && c in channels && c in cursors
    ensures AllOld(Step(m, Resubscribed(channels)), cursors)
  {
    var n := Step(m, Resubscribed(channels));
    forall i | 0 <= i < |n.issued| ensures n.issued[i] != Request(n.epochs, cursors) {
      assert Past(m.epochs, m.issued[i]);
      assert Request(n.epochs, cursors).epochs[c] == Epoch(m.epochs, c) + 1;
    }
  }

  lemma AnsweredStaysOld(m: Memory, cursors: Cursors)
    requires AllOld(m, cursors)
    ensures AllOld(Step(m, Answered(cursors)), cursors)
  {
  }

  lemma OutstandingWithout(issued: seq<Issued>, i: nat, cursors: Cursors)
    requires i < |issued| && issued[i].cursors == cursors
    ensures Outstanding(issued, cursors) == Outstanding(Removed(issued, i), cursors) + 1
  {
    var front, entry, back := issued[..i], [issued[i]], issued[i + 1..];
    assert issued == front + (entry + back);
    OutstandingSplit(front, entry + back, cursors);
    OutstandingSplit(front, back, cursors);
    assert (entry + back)[1..] == back;
  }

  /** Until the same cursors are requested again, answers to requests from before a
      resubscription are stale one by one: exactly as many as are still remembered. */
  lemma OldAnswersAreStale(m: Memory, cursors: Cursors)
    requires AllOld(m, cursors)
    ensures Stale(m, cursors) <==> Outstanding(m.issued, cursors) > 0
    ensures AllOld(Step(m, Answered(cursors)), cursors)
    ensures Outstanding(Step(m, Answered(cursors)).issued, cursors) ==
      if Stale(m, cursors) then Outstanding(m.issued, cursors) - 1 else 0
  {
    var want := Request(m.epochs, cursors);
    AnsweredStaysOld(m, cursors);
    OutstandingFound(m.issued, want, 0);
    assert m.issued[0..] == m.issued;
    var any := Find(m.issued, want, false, 0);
    if any < |m.issued| { OutstandingWithout(m.issued, any, cursors); }
  }
}
