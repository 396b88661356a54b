/** What the live lane gets done: heads are chased, gaps recovered, responses land, sessions closed, pushes woken. */
module LaneProgress {
  import opened Options
  import opened Pages
  import Pulls
  import opened Lanes

  predicate Requests(actions: seq<Action>, epoch: nat, cursors: map<string, nat>) {
    exists i :: 0 <= i < |actions| && actions[i] == Request(epoch, cursors)
  }

  lemma RequestsThen(a: seq<Action>, b: seq<Action>, epoch: nat, cursors: map<string, nat>)
    ensures Requests(a + b, epoch, cursors) <==> Requests(a, epoch, cursors) || Requests(b, epoch, cursors)
  {
    if i :| 0 <= i < |a| && a[i] == Request(epoch, cursors) { assert (a + b)[i] == a[i]; }
    if i :| 0 <= i < |b| && b[i] == Request(epoch, cursors) { assert (a + b)[|a| + i] == b[i]; }
  }

  /** An acknowledgement the current session waits for, naming exactly its channels. */
  predicate Awaited(l: Lane, event: Event) {
    && l.session.Some? && l.session.value.generation == l.mail.generation && !l.session.value.acknowledged
    && event.Message? && event.epoch == l.session.value.epoch && event.frame.Acknowledged?
    && event.frame.cursors.Keys == l.session.value.channels
  }

  /** Some acknowledged head is beyond the client's cursor. */
  predicate Ahead(heads: map<string, nat>, cursors: map<string, nat>) {
    exists c :: c in heads && c in cursors && heads[c] > cursors[c]
  }

  /** It is taken up with a pull of every channel from its cursor exactly when the client is behind. */
  predicate TakenUp(l: Lane, heads: map<string, nat>, l': Lane, actions: seq<Action>)
    requires l.session.Some?
  {
    var s, cursors := l.session.value, l.mail.cursors;
    && l'.session.Some? && l'.session.value.epoch == s.epoch && l'.session.value.acknowledged
    && l'.mail.cursors == cursors
    && l'.session.value.active == (if Ahead(heads, cursors) then Some(cursors) else None)
    && (Requests(actions, s.epoch, cursors) <==> Ahead(heads, cursors))
  }

  lemma AcknowledgedPulls(l: Lane, event: Event, now: nat, entropy: nat)
    requires LaneOk(l) && Awaited(l, event)
    ensures Handled(l, event, now, entropy).Some?
    ensures var r := Handled(l, event, now, entropy).value; TakenUp(l, event.frame.cursors, r.lane, r.actions)
  {
    OutdatedKeeps(l, now);
    var s, heads := l.session.value, event.frame.cursors;
    var next := With(l, s.(acknowledged := true));
    assert Behind(l.mail, heads) <==> Ahead(heads, l.mail.cursors);
    var step := OnFrame(l, event.frame, now, entropy);
    if Ahead(heads, l.mail.cursors) {
      assert l.mail.cursors != map[];
      assert step.actions[0] == Request(s.epoch, l.mail.cursors);
    }
    RequestsThen([] + step.actions, [], s.epoch, l.mail.cursors);
    assert [] + step.actions == step.actions;
  }

  /** A pull in flight asks from where the cursors are, and its answer will not be stale. */
  predicate Asking(l: Lane) {
    l.session.Some? && Current(l) && l.session.value.active.Some? ==>
      && l.session.value.active.value == l.mail.cursors
      && !Pulls.JudgedStale(l.mail.issued, Pulls.Request(l.mail.epochs, l.mail.cursors))
  }

  lemma RememberedIsFresh(issued: seq<Pulls.Issued>, want: Pulls.Issued)
    ensures !Pulls.JudgedStale(Pulls.Remembered(issued, want), want)
  {
    var r := Pulls.Remembered(issued, want);
    assert Pulls.Hit(r[|r| - 1], want, true);
  }

  lemma PullingAsks(l: Lane)
    requires l.session.Some? && l.session.value.generation == l.mail.generation && Asking(l)
    ensures Asking(Pulling(l).lane)
    ensures l.mail.cursors != map[] ==> Pulling(l).lane.session.value.active.Some?
    ensures Pulling(l).lane.mail.cursors == l.mail.cursors
    ensures Pulling(l).lane.session.value.acknowledged == l.session.value.acknowledged
  {
    RememberedIsFresh(l.mail.issued, Pulls.Request(l.mail.epochs, l.mail.cursors));
  }

  /** The channels of these heads have reached them. */
  predicate Reached(heads: map<string, nat>, cursors: map<string, nat>) {
    forall c :: c in heads && c in cursors ==> cursors[c] >= heads[c]
  }

  /** Behind the heads only with a pull in flight. */
  predicate Chasing(l: Lane, heads: map<string, nat>) {
    l.session.Some? && (l.session.value.active.Some? || Reached(heads, l.mail.cursors))
  }

  lemma {:induction false} DrainingAsks(l: Lane, heads: map<string, nat>)
    requires l.session.Some? && l.session.value.generation == l.mail.generation && Asking(l) && Chasing(l, heads)
    requires l.mail.cursors != map[]
    ensures Asking(Draining(l).lane) && Chasing(Draining(l).lane, heads)
    ensures Draining(l).lane.session.value.acknowledged == l.session.value.acknowledged
    decreases |l.session.value.queue|
  {
    var s := l.session.value;
    if s.active.None? && s.queue != [] {
      TakenNoLess(l.mail, s.queue[0]);
      var next := l.(mail := Taken(l.mail, s.queue[0]));
      assert next.mail.cursors.Keys == l.mail.cursors.Keys;
      if Receipt(l.mail, s.queue[0]) == Recover {
        PullingAsks(next);
      } else {
        DrainingAsks(With(next, s.(queue := s.queue[1..])), heads);
      }
    }
  }

  /** Every range starts at its cursor. */
  predicate FromCursors(m: Mail, page: Page) {
    page.cursors.Keys == m.cursors.Keys && forall c :: c in m.cursors ==> page.cursors[c].from == m.cursors[c]
  }

  lemma LandedAt(m: Mail, page: Page)
    requires ValidPage(page) && FromCursors(m, page) && !StalePage(m, page)
    ensures Receipt(m, page) != Recover
    ensures forall c :: c in m.cursors ==> Taken(m, page).cursors[c] == page.cursors[c].to
  {
    assert !HasGap(m.cursors, page);
    forall c | c in m.cursors ensures Taken(m, page).cursors[c] == page.cursors[c].to {
      TakenAdvances(m, page, c);
      if page.cursors[c].to > m.cursors[c] { assert c in Moving(m.cursors, page); }
    }
  }

  /** A page that answers the pull in flight moves every cursor to the end of its range. */
  lemma AnswerLands(l: Lane, page: Page)
    requires LaneOk(l) && Current(l) && Asking(l) && l.session.value.active.Some?
    requires ValidPage(page) && Answers(page, l.session.value.active.value)
    ensures Taken(l.mail, page).cursors == map c | c in page.cursors :: page.cursors[c].to
  {
    assert Froms(page) == l.mail.cursors;
    LandedAt(l.mail, page);
  }

  /** Nothing the response tells is behind the heads. */
  predicate TellsOf(event: Event, epoch: nat, heads: map<string, nat>) {
    event.CatchUp? && event.epoch == epoch && event.body.Some? ==>
      forall c :: c in heads && c in event.body.value.cursors ==> event.body.value.cursors[c].head >= heads[c]
  }

  lemma ResponseChases(l: Lane, event: Event, now: nat, entropy: nat, heads: map<string, nat>)
    requires LaneOk(l) && Current(l) && Asking(l) && l.session.value.active.Some?
    requires event.CatchUp? && TellsOf(event, event.epoch, heads)
    ensures var r := OnResponse(l, event.body, now, entropy).lane;
      r.session.Some? ==> Asking(r) && r.session.value.acknowledged && Chasing(r, heads)
  {
    var s, body := l.session.value, event.body;
    if body.Some? && ValidPage(body.value) && Answers(body.value, s.active.value) {
      var page := body.value;
      AnswerLands(l, page);
      var next := With(l.(mail := Taken(l.mail, page)), s.(active := None));
      assert next.mail.cursors.Keys == l.mail.cursors.Keys;
      if More(page) {
        PullingAsks(next);
      } else if s.again {
        PullingAsks(With(next, s.(active := None, again := false)));
      } else {
        assert forall c :: c in page.cursors ==> !Continues(page.cursors[c]);
        assert Reached(heads, next.mail.cursors);
        DrainingAsks(next, heads);
      }
    }
  }

  lemma FrameChases(l: Lane, frame: Frame, now: nat, entropy: nat, heads: map<string, nat>)
    requires LaneOk(l) && Current(l) && Asking(l) && (l.session.value.acknowledged ==> Chasing(l, heads))
    requires !l.session.value.acknowledged && frame.Acknowledged? ==> heads == frame.cursors
    ensures var r := OnFrame(l, frame, now, entropy).lane;
      r.session.Some? ==> Asking(r) && r.session.value.acknowledged && Chasing(r, heads)
  {
    var s := l.session.value;
    match frame {
      case Garbled =>
      case Acknowledged(told) =>
        if !s.acknowledged && told.Keys == s.channels {
          var next := With(l, s.(acknowledged := true));
          if Behind(l.mail, told) { PullingAsks(next); } else { assert Reached(told, l.mail.cursors); }
        }
      case Streamed(page) =>
        if s.acknowledged {
          if |s.queue| >= QUEUED_FRAMES {
            PullingAsks(With(l, s.(queue := [])));
          } else {
            DrainingAsks(With(l, s.(queue := s.queue + [page])), heads);
          }
        }
    }
  }

  /** The session that acknowledged these heads, while it lasts, chases them. */
  predicate Chased(l: Lane, epoch: nat, heads: map<string, nat>) {
    && LaneOk(l) && Asking(l) && l.epoch >= epoch
    && (Names(l, epoch) && Current(l) ==> l.session.value.acknowledged && Chasing(l, heads))
  }

  /** An event of the session itself. */
  lemma OwnChases(l: Lane, event: Event, now: nat, entropy: nat, epoch: nat, heads: map<string, nat>)
    requires LaneOk(l) && Asking(l) && Names(l, epoch) && Current(l)
    requires l.session.value.acknowledged && Chasing(l, heads)
    requires Applying(l, event, now, entropy).Some? && TellsOf(event, epoch, heads)
    ensures var r := Applying(l, event, now, entropy).value.lane;
      r.session.Some? ==> r.session.value.acknowledged && Chasing(r, heads)
  {
    match event {
      case Message(e, frame) => if Names(l, e) { FrameChases(l, frame, now, entropy, heads); }
      case CatchUp(e, body) => if Names(l, e) { ResponseChases(l, event, now, entropy, heads); }
      case Overflow(e) => if Names(l, e) { PullingAsks(With(l, l.session.value.(queue := []))); }
      case _ =>
    }
  }

  /** A session keeps its epoch. */
  lemma SameEpoch(l: Lane, event: Event, now: nat, entropy: nat)
    requires LaneOk(l) && (l.session.Some? ==> Current(l)) && Applying(l, event, now, entropy).Some?
    ensures var r := Applying(l, event, now, entropy).value.lane;
      r.epoch == l.epoch && (r.session.Some? ==> l.session.Some? && r.session.value.epoch == l.session.value.epoch)
  {
    match event {
      case Message(e, frame) => if Names(l, e) { FrameKeeps(l, frame, now, entropy); }
      case CatchUp(e, body) => if Names(l, e) { ResponseKeeps(l, body, now, entropy); }
      case Overflow(e) => if Names(l, e) { OverflowingGates(l); }
      case _ =>
    }
  }

  lemma ApplyingChases(l: Lane, event: Event, now: nat, entropy: nat, epoch: nat, heads: map<string, nat>)
    requires Chased(l, epoch, heads) && (l.session.Some? ==> Current(l)) && !Restarts(l, event)
    requires Applying(l, event, now, entropy).Some? && TellsOf(event, epoch, heads)
    ensures Chased(Applying(l, event, now, entropy).value.lane, epoch, heads)
  {
    ApplyingKeeps(l, event, now, entropy);
    AnyAsks(l, event, now, entropy);
    SameEpoch(l, event, now, entropy);
    if Names(l, epoch) { OwnChases(l, event, now, entropy, epoch, heads); }
  }

  /** Whatever happens, pulls ask from where the cursors are. */
  lemma AnyAsks(l: Lane, event: Event, now: nat, entropy: nat)
    requires LaneOk(l) && Asking(l) && (l.session.Some? ==> Current(l)) && !Restarts(l, event)
    requires Applying(l, event, now, entropy).Some?
    ensures Asking(Applying(l, event, now, entropy).value.lane)
  {
    match event {
      case Message(e, frame) =>
        if Names(l, e) {
          if frame.Acknowledged? {
            FrameChases(l, frame, now, entropy, if l.session.value.acknowledged then map[] else frame.cursors);
          } else {
            FrameChases(l, frame, now, entropy, map[]);
          }
        }
      case CatchUp(e, body) => if Names(l, e) { ResponseChases(l, event, now, entropy, map[]); }
      case Overflow(e) =>
        if Names(l, e) && l.session.value.acknowledged { PullingAsks(With(l, l.session.value.(queue := []))); }
      case _ =>
    }
  }

  predicate TurnTells(turn: Turn, epoch: nat, heads: map<string, nat>) {
    turn.Told? ==> TellsOf(turn.event, epoch, heads)
  }

  lemma ChaseStep(l: Lane, turn: Turn, l': Lane, epoch: nat, heads: map<string, nat>)
    requires Chased(l, epoch, heads) && Turns(l, turn, l') && TurnTells(turn, epoch, heads)
    ensures Chased(l', epoch, heads)
  {
    TurnKeeps(l, turn, l');
    match turn {
      case Changed(channel, subscribed) =>
      case Told(event, now, entropy) =>
        var o := Outdated(l, now).lane;
        OutdatedKeeps(l, now);
        ApplyingChases(o, event, now, entropy, epoch, heads);
    }
  }

  lemma {:induction false} AskingAlways(lanes: seq<Lane>, turns: seq<Turn>, n: nat)
    requires LaneRun(lanes, turns) && n < |lanes|
    ensures LaneOk(lanes[n]) && Asking(lanes[n])
  {
    if n > 0 {
      AskingAlways(lanes, turns, n - 1);
      LaneTurn(lanes, turns, n);
      AskStep(lanes[n - 1], turns[n - 1], lanes[n]);
    }
  }

  lemma AskStep(l: Lane, turn: Turn, l': Lane)
    requires LaneOk(l) && Asking(l) && Turns(l, turn, l')
    ensures LaneOk(l') && Asking(l')
  {
    TurnKeeps(l, turn, l');
    match turn {
      case Changed(channel, subscribed) =>
      case Told(event, now, entropy) =>
        OutdatedKeeps(l, now);
        AnyAsks(Outdated(l, now).lane, event, now, entropy);
    }
  }

  /** Heads are chased: in every run, once a session acknowledged heads, and while no response tells of less, at every
      later turn that session has ended, a pull is in flight, or every cursor has reached its head. */
  lemma {:induction false} HeadsAreChased(lanes: seq<Lane>, turns: seq<Turn>, i: nat, n: nat)
    requires LaneRun(lanes, turns) && i < n <= |turns| && turns[i].Told? && Awaited(lanes[i], turns[i].event)
    requires forall j :: i < j < n ==> TurnTells(turns[j], lanes[i].epoch, turns[i].event.frame.cursors)
    ensures Chased(lanes[n], lanes[i].epoch, turns[i].event.frame.cursors)
  {
    var heads, epoch := turns[i].event.frame.cursors, lanes[i].epoch;
    LaneTurn(lanes, turns, n);
    if n == i + 1 {
      AskingAlways(lanes, turns, i);
      AskStep(lanes[i], turns[i], lanes[n]);
      AcknowledgedPulls(lanes[i], turns[i].event, turns[i].now, turns[i].entropy);
      assert Ahead(heads, lanes[i].mail.cursors) || Reached(heads, lanes[i].mail.cursors);
    } else {
      HeadsAreChased(lanes, turns, i, n - 1);
      ChaseStep(lanes[n - 1], turns[n - 1], lanes[n], epoch, heads);
    }
  }

  /** A page is applied exactly when cursors move. */
  lemma AppliedMoves(m: Mail, page: Page)
    ensures Receipt(m, page) == Received.Applied <==> Taken(m, page).cursors != m.cursors
  {
    if Receipt(m, page) == Received.Applied {
      var c :| c in Moving(m.cursors, page);
      TakenAdvances(m, page, c);
    }
  }

  /** The wake of one page and of what follows it. */
  lemma WakesThen(d: Received, step: Step)
    ensures WakePush in Then(Settled(d), step).actions <==> d == Received.Applied || WakePush in step.actions
  {
  }

  lemma {:induction false} DrainingWakes(l: Lane)
    requires l.session.Some?
    ensures WakePush in Draining(l).actions <==> Draining(l).lane.mail.cursors != l.mail.cursors
    decreases |l.session.value.queue|
  {
    var s := l.session.value;
    if s.active.None? && s.queue != [] && Receipt(l.mail, s.queue[0]) != Recover {
      var rest := With(l.(mail := Taken(l.mail, s.queue[0])), s.(queue := s.queue[1..]));
      DrainingWakes(rest);
      WakesThen(Receipt(l.mail, s.queue[0]), Draining(rest));
      MovesOn(l.mail, s.queue[0], rest);
    }
  }

  /** After a page the rest of the queue moves no cursor back to where it was. */
  lemma MovesOn(m: Mail, page: Page, rest: Lane)
    requires rest.session.Some? && rest.mail == Taken(m, page)
    ensures Draining(rest).lane.mail.cursors != m.cursors <==>
      Receipt(m, page) == Received.Applied || Draining(rest).lane.mail.cursors != rest.mail.cursors
  {
    AppliedMoves(m, page);
    TakenNoLess(m, page);
    DrainingNoLess(rest);
    if Draining(rest).lane.mail.cursors == m.cursors { NoLessTwice(m, rest.mail, Draining(rest).lane.mail); }
  }

  /** Cursors that only advance come back to where they were only by standing still. */
  lemma NoLessTwice(a: Mail, b: Mail, c: Mail)
    requires NoLess(a, b) && NoLess(b, c) && b.cursors.Keys == a.cursors.Keys && c.cursors == a.cursors
    ensures b.cursors == a.cursors
  {
  }

  lemma ResponseWakes(l: Lane, body: Option<Page>, now: nat, entropy: nat)
    requires l.session.Some? && l.session.value.active.Some?
    ensures var r := OnResponse(l, body, now, entropy); WakePush in r.actions <==> r.lane.mail.cursors != l.mail.cursors
  {
    var s := l.session.value;
    if body.Some? && ValidPage(body.value) && Answers(body.value, s.active.value) {
      var page := body.value;
      var next := l.(mail := Taken(l.mail, page));
      AppliedMoves(l.mail, page);
      if !More(page) && !s.again {
        var rest := With(next, s.(active := None));
        DrainingWakes(rest);
        WakesThen(Receipt(l.mail, page), Draining(rest));
        MovesOn(l.mail, page, rest);
      }
    }
  }

  lemma ApplyingWakes(l: Lane, event: Event, now: nat, entropy: nat)
    requires Applying(l, event, now, entropy).Some?
    ensures var r := Applying(l, event, now, entropy).value;
      WakePush in r.actions <==> r.lane.mail.cursors != l.mail.cursors
  {
    match event {
      case Message(e, Streamed(page)) =>
        if Names(l, e) && l.session.value.acknowledged && |l.session.value.queue| < QUEUED_FRAMES {
          DrainingWakes(With(l, l.session.value.(queue := l.session.value.queue + [page])));
        }
      case CatchUp(e, body) => if Names(l, e) { ResponseWakes(l, body, now, entropy); }
      case _ =>
    }
  }

  /** A push is woken exactly when an event moved cursors. */
  lemma WakesExactly(l: Lane, event: Event, now: nat, entropy: nat)
    requires Handled(l, event, now, entropy).Some?
    ensures var r := Handled(l, event, now, entropy).value;
      WakePush in r.actions <==> r.lane.mail.cursors != l.mail.cursors
  {
    var o := Outdated(l, now);
    ApplyingWakes(o.lane, event, now, entropy);
    var step := Applying(o.lane, event, now, entropy).value;
    NoWakes(l, now);
    NoWakes(step.lane, now);
  }

  lemma NoWakes(l: Lane, now: nat)
    ensures WakePush !in Outdated(l, now).actions && Outdated(l, now).lane.mail == l.mail
    ensures WakePush !in Scheduling(l, now).actions && Scheduling(l, now).lane.mail == l.mail
  {
  }

  lemma SchedulingOpens(l: Lane, now: nat)
    ensures var r := Scheduling(l, now);
      && r.lane.mail == l.mail && (forall e :: Close(e) !in r.actions)
      && (l.session.Some? ==> r.lane == l)
      && (l.session.None? && r.lane.session.Some? ==>
            r.lane.epoch == l.epoch + 1 == r.lane.session.value.epoch
            && r.actions == [Open(l.epoch + 1, l.mail.cursors.Keys)])
  {
  }

  lemma OutdatedCloses(l: Lane, now: nat)
    requires LaneOk(l)
    ensures var r := Outdated(l, now);
      if l.session.Some? && !Current(l) then r.actions == [Close(l.epoch)] && r.lane.session.None?
      else r.actions == [] && r.lane == l
  {
  }

  /** A session that is over is closed, and one that begins is opened on every channel. */
  lemma SessionsClose(l: Lane, event: Event, now: nat, entropy: nat)
    requires LaneOk(l) && Handled(l, event, now, entropy).Some?
    ensures var r := Handled(l, event, now, entropy).value;
      && (l.session.Some? ==> (Close(l.epoch) in r.actions <==> !Names(r.lane, l.epoch)))
      && (r.lane.session.Some? && !Names(l, r.lane.epoch) ==>
            r.lane.epoch == l.epoch + 1 && Open(r.lane.epoch, r.lane.mail.cursors.Keys) in r.actions)
  {
    var o := Outdated(l, now);
    OutdatedKeeps(l, now);
    OutdatedCloses(l, now);
    SameEpoch(o.lane, event, now, entropy);
    AppliedCloses(o.lane, event, now, entropy);
    var step := Applying(o.lane, event, now, entropy).value;
    SchedulingOpens(step.lane, now);
    InThree(Close(l.epoch), o.actions, step.actions, Scheduling(step.lane, now).actions);
    InThree(Open(l.epoch + 1, l.mail.cursors.Keys), o.actions, step.actions, Scheduling(step.lane, now).actions);
    SameChannels(o.lane, event, now, entropy);
  }

  lemma InThree(x: Action, a: seq<Action>, b: seq<Action>, c: seq<Action>)
    ensures x in a + b + c <==> x in a || x in b || x in c
  {
  }

  /** No event subscribes. */
  lemma SameChannels(l: Lane, event: Event, now: nat, entropy: nat)
    requires LaneOk(l) && (l.session.Some? ==> Current(l)) && Applying(l, event, now, entropy).Some?
    ensures Applying(l, event, now, entropy).value.lane.mail.cursors.Keys == l.mail.cursors.Keys
  {
    match event {
      case Message(e, Streamed(page)) =>
        if Names(l, e) && l.session.value.acknowledged && |l.session.value.queue| < QUEUED_FRAMES {
          DrainingKeysStay(With(l, l.session.value.(queue := l.session.value.queue + [page])));
        }
      case CatchUp(e, body) => if Names(l, e) { ResponseKeysStay(l, body, now, entropy); }
      case _ =>
    }
  }

  lemma {:induction false} DrainingKeysStay(l: Lane)
    requires l.session.Some?
    ensures Draining(l).lane.mail.cursors.Keys == l.mail.cursors.Keys
    decreases |l.session.value.queue|
  {
    var s := l.session.value;
    if s.active.None? && s.queue != [] && Receipt(l.mail, s.queue[0]) != Recover {
      DrainingKeysStay(With(l.(mail := Taken(l.mail, s.queue[0])), s.(queue := s.queue[1..])));
    }
  }

  lemma ResponseKeysStay(l: Lane, body: Option<Page>, now: nat, entropy: nat)
    requires l.session.Some? && l.session.value.active.Some?
    ensures OnResponse(l, body, now, entropy).lane.mail.cursors.Keys == l.mail.cursors.Keys
  {
    if body.Some? && ValidPage(body.value) && Answers(body.value, l.session.value.active.value) {
      DrainingKeysStay(With(l.(mail := Taken(l.mail, body.value)), l.session.value.(active := None)));
    }
  }

  lemma {:induction false} DrainingCloses(l: Lane, e: nat)
    requires l.session.Some?
    ensures Close(e) !in Draining(l).actions && Draining(l).lane.session.Some?
    decreases |l.session.value.queue|
  {
    var s := l.session.value;
    if s.active.None? && s.queue != [] && Receipt(l.mail, s.queue[0]) != Recover {
      DrainingCloses(With(l.(mail := Taken(l.mail, s.queue[0])), s.(queue := s.queue[1..])), e);
    }
  }

  lemma AppliedCloses(l: Lane, event: Event, now: nat, entropy: nat)
    requires LaneOk(l) && (l.session.Some? ==> Current(l)) && Applying(l, event, now, entropy).Some?
    ensures var r := Applying(l, event, now, entropy).value;
      if l.session.Some? then Close(l.epoch) in r.actions <==> r.lane.session.None?
      else forall e :: Close(e) !in r.actions
  {
    match event {
      case Message(e, Streamed(page)) =>
        if Names(l, e) && l.session.value.acknowledged && |l.session.value.queue| < QUEUED_FRAMES {
          DrainingCloses(With(l, l.session.value.(queue := l.session.value.queue + [page])), l.epoch);
        }
      case CatchUp(e, body) =>
        if Names(l, e) && body.Some? && ValidPage(body.value) && Answers(body.value, l.session.value.active.value) {
          DrainingCloses(With(l.(mail := Taken(l.mail, body.value)), l.session.value.(active := None)), l.epoch);
        }
      case _ =>
    }
  }

  /** A streamed page that comes while a pull is in flight waits behind it. */
  lemma StreamedWaits(l: Lane, page: Page, now: nat, entropy: nat)
    requires LaneOk(l) && Current(l) && l.session.value.acknowledged && l.session.value.active.Some?
    requires |l.session.value.queue| < 64
    ensures var r := Handled(l, Message(l.epoch, Streamed(page)), now, entropy);
      && r.Some? && r.value.actions == []
      && r.value.lane == With(l, l.session.value.(queue := l.session.value.queue + [page]))
  {
    OutdatedKeeps(l, now);
  }

  lemma TakenEnds(m: Mail, page: Page)
    requires Receipt(m, page) != Recover && !StalePage(m, page)
    ensures forall c :: c in m.cursors && c in page.cursors ==>
      Taken(m, page).cursors[c] == if page.cursors[c].to > m.cursors[c] then page.cursors[c].to else m.cursors[c]
  {
    forall c | c in m.cursors && c in page.cursors
      ensures Taken(m, page).cursors[c] ==
        if page.cursors[c].to > m.cursors[c] then page.cursors[c].to else m.cursors[c]
    {
      TakenAdvances(m, page, c);
      if page.cursors[c].to > m.cursors[c] {
        assert !Gap(m.cursors, c, page.cursors[c]) && Moves(m.cursors, c, page.cursors[c]);
        assert c in Moving(m.cursors, page);
      }
    }
  }

  lemma DrainOne(l: Lane, page: Page)
    requires l.session.Some? && l.session.value.queue == [page] && l.session.value.active.None?
    ensures var next := l.(mail := Taken(l.mail, page));
      if Receipt(l.mail, page) == Recover then Draining(l) == Pulling(next)
      else Draining(l) == Step(With(next, l.session.value.(queue := [])), Settled(Receipt(l.mail, page)))
  {
    var rest := With(l.(mail := Taken(l.mail, page)), l.session.value.(queue := []));
    assert [page][1..] == [] && Draining(rest) == Step(rest, []);
    assert forall d :: Settled(d) + [] == Settled(d);
  }

  /** Where a page that does not wait leaves the channels: at least at the ends of its ranges, unless it is stale. */
  predicate Landed(m: Mail, page: Page, m': Mail) {
    && m'.cursors.Keys == m.cursors.Keys
    && (!StalePage(m, page) ==>
          forall c :: c in m.cursors && c in page.cursors ==>
            m'.cursors[c] == if page.cursors[c].to > m.cursors[c] then page.cursors[c].to else m.cursors[c])
  }

  lemma HandledFrame(l: Lane, frame: Frame, now: nat, entropy: nat)
    requires LaneOk(l) && Current(l) && OnFrame(l, frame, now, entropy).lane.session.Some?
    ensures Handled(l, Message(l.epoch, frame), now, entropy) == Some(OnFrame(l, frame, now, entropy))
  {
    OutdatedKeeps(l, now);
    var step := OnFrame(l, frame, now, entropy);
    assert [] + step.actions + [] == step.actions;
  }

  /** Without one it is taken at once: a page that leaves a gap stays and every channel is pulled from its cursor; any
      other leaves nothing queued, and unless it is stale its channels are at least where its ranges end. */
  lemma StreamedIsTaken(l: Lane, page: Page, now: nat, entropy: nat)
    requires LaneOk(l) && Current(l) && l.session.value.acknowledged && l.session.value.active.None?
    ensures var r := Handled(l, Message(l.epoch, Streamed(page)), now, entropy);
      && r.Some? && Names(r.value.lane, l.epoch)
      && var s, cursors := r.value.lane.session.value, l.mail.cursors;
         if !StalePage(l.mail, page) && LeavesGap(cursors, page)
         then s.queue == [page] && s.active == Some(cursors) && Requests(r.value.actions, l.epoch, cursors)
         else s.queue == [] && s.active.None? && Landed(l.mail, page, r.value.lane.mail)
  {
    var s := l.session.value;
    var queued := With(l, s.(queue := s.queue + [page]));
    assert s.queue == [] && s.queue + [page] == [page];
    DrainOne(queued, page);
    MovingMoves(l.mail.cursors, page);
    if Receipt(l.mail, page) == Recover {
      assert Taken(l.mail, page).cursors == l.mail.cursors && l.mail.cursors != map[];
      assert Draining(queued).actions[0] == Request(l.epoch, l.mail.cursors);
    } else if !StalePage(l.mail, page) {
      TakenEnds(l.mail, page);
    }
    HandledFrame(l, Streamed(page), now, entropy);
  }

  /** A page too many: whatever was queued is dropped and, once the pull in flight is answered, everything is pulled
      again. */
  lemma StreamedOverflows(l: Lane, page: Page, now: nat, entropy: nat)
    requires LaneOk(l) && Current(l) && l.session.value.acknowledged && |l.session.value.queue| == 64
    ensures Handled(l, Message(l.epoch, Streamed(page)), now, entropy) ==
      Some(Step(With(l, l.session.value.(queue := [], again := true)), []))
  {
    HandledFrame(l, Streamed(page), now, entropy);
  }

  /** Stopped or paused. */
  predicate Resting(l: Lane) {
    l.session.None? && (!l.driver.running || l.driver.paused)
  }

  /** A stop or a pause ends the session. */
  lemma StopsResting(l: Lane, event: Event, now: nat, entropy: nat)
    requires event.Stop? || event.Pause?
    ensures Handled(l, event, now, entropy).Some? && Resting(Handled(l, event, now, entropy).value.lane)
    ensures l.session.Some? ==> Close(l.session.value.epoch) in Handled(l, event, now, entropy).value.actions
  {
    var o := Outdated(l, now);
    var step := Applying(o.lane, event, now, entropy).value;
    assert forall a :: a in o.actions + step.actions ==>
      a in Handled(l, event, now, entropy).value.actions;
    if l.session.Some? { assert Close(l.session.value.epoch) in o.actions + step.actions; }
  }

  predicate Rouses(turn: Turn) {
    turn.Told? && (turn.event.Start? || turn.event.Resume?)
  }

  lemma RestStep(l: Lane, turn: Turn, l': Lane)
    requires Resting(l) && Turns(l, turn, l') && !Rouses(turn)
    ensures Resting(l')
  {
  }

  /** Then no session begins until the next start or resume, whatever else happens. */
  lemma {:induction false} RestsOn(lanes: seq<Lane>, turns: seq<Turn>, n: nat)
    requires |lanes| == |turns| + 1 && n < |lanes| && Resting(lanes[0])
    requires forall i :: 0 <= i < |turns| ==> TurnsAt(lanes, turns, i) && !Rouses(turns[i])
    ensures Resting(lanes[n])
  {
    if n > 0 {
      RestsOn(lanes, turns, n - 1);
      assert TurnsAt(lanes, turns, n - 1);
      RestStep(lanes[n - 1], turns[n - 1], lanes[n]);
    }
  }

  /** A start, or a resume of a driver that was started, opens a session at once on every channel there is. */
  lemma RousedOpens(l: Lane, event: Event, now: nat, entropy: nat)
    requires LaneOk(l) && l.session.None? && l.mail.cursors != map[]
    requires event.Start? || (event.Resume? && l.driver.running)
    ensures Handled(l, event, now, entropy).Some?
    ensures var r := Handled(l, event, now, entropy).value;
      Names(r.lane, l.epoch + 1) && r.actions == [Open(l.epoch + 1, l.mail.cursors.Keys)]
  {
    var step := Applying(l, event, now, entropy).value;
    assert l.mail.cursors.Keys != {};
    assert [] + ([] + Scheduling(step.lane, now).actions) == Scheduling(step.lane, now).actions;
  }

  /** A pause ends the session as a success: nothing is left to wait for. */
  lemma PauseForgives(l: Lane, now: nat, entropy: nat)
    requires LaneOk(l) && Current(l)
    ensures var r := Handled(l, Pause, now, entropy).value.lane; r.driver.attempt == 0 && r.driver.due == now
  {
  }

  /** A session of an earlier subscription set is replaced at the next event by one on the channels there are now. */
  lemma ResubscribedReopens(l: Lane, now: nat, entropy: nat)
    requires LaneOk(l) && l.session.Some? && l.session.value.generation != l.mail.generation && l.mail.cursors != map[]
    requires !l.driver.paused
    ensures var r := Handled(l, Tick, now, entropy).value;
      && Names(r.lane, l.epoch + 1) && r.lane.session.value.channels == l.mail.cursors.Keys
      && r.actions == [Close(l.epoch), Open(l.epoch + 1, l.mail.cursors.Keys)] && r.lane.driver.attempt == 0
  {
    OutdatedCloses(l, now);
    var o := Outdated(l, now).lane;
    SchedulingOpens(o, now);
    assert l.mail.cursors.Keys != {};
    assert [Close(l.epoch)] + [] == [Close(l.epoch)];
  }

  /** A subscription starts at zero and outdates every pull of its channel; one that changes nothing leaves
      everything. */
  lemma SubscriptionStartsOver(m: Mail, channel: string, subscribed: bool)
    ensures var r := Resubscribed(m, channel, subscribed);
      && (channel in r.cursors <==> subscribed)
      && (forall c :: c != channel ==>
            (c in r.cursors <==> c in m.cursors) && (c in m.cursors ==> r.cursors[c] == m.cursors[c]))
      && r.issued == m.issued
      && if subscribed == (channel in m.cursors) then r == m
         else r.generation == m.generation + 1
              && Pulls.Epoch(r.epochs, channel) == Pulls.Epoch(m.epochs, channel) + 1
              && (subscribed ==> r.cursors[channel] == 0)
  {
  }
}
