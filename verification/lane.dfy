/** The client's live lane as values: a driver that schedules sessions, and one session at a time with a
    gated queue of streamed pages and at most one pull in flight. */
module Lanes {
  import opened Options
  import opened Pages
  import Pulls

  const QUEUED_FRAMES: nat := 64
  const FIRST_DELAY: nat := 250
  const LONGEST_DELAY: nat := 30000

  datatype Driver = Driver(running: bool, paused: bool, dirty: bool, inFlight: bool, attempt: nat, due: nat)

  datatype Decision = Idle | Sync | Wait(millis: nat)

  function Power(n: nat): (r: nat)
    ensures r >= 1
  {
    if n == 0 then 1 else 2 * Power(n - 1)
  }

  /** The delay after so many failures in a row, spread by a fifth either way. */
  function Backoff(attempt: nat, entropy: nat): nat {
    var doubled := FIRST_DELAY * Power(if attempt < 7 then attempt else 7);
    (if doubled < LONGEST_DELAY then doubled else LONGEST_DELAY) * (800 + entropy % 401) / 1000
  }

  lemma BackoffIsBounded(attempt: nat, entropy: nat)
    ensures 200 <= Backoff(attempt, entropy) <= 36000
  {
    var doubled := FIRST_DELAY * Power(if attempt < 7 then attempt else 7);
    var base := if doubled < LONGEST_DELAY then doubled else LONGEST_DELAY;
    assert FIRST_DELAY <= base <= LONGEST_DELAY;
    var spread := 800 + entropy % 401;
    assert 250 * 800 <= base * spread <= 30000 * 1200;
  }

  /** The delays by number of failures: doubled from 250 milliseconds, capped at 30 seconds. */
  const DELAYS: seq<nat> := [250, 500, 1000, 2000, 4000, 8000, 16000, 30000]

  lemma BackoffDoubles(attempt: nat, entropy: nat)
    ensures Backoff(attempt, entropy) == DELAYS[if attempt < 7 then attempt else 7] * (800 + entropy % 401) / 1000
  {
    assert Power(0) == 1 && Power(1) == 2 && Power(2) == 4 && Power(3) == 8;
    assert Power(4) == 16 && Power(5) == 32 && Power(6) == 64 && Power(7) == 128;
  }

  lemma {:induction false} PowerGrows(a: nat, b: nat)
    requires a <= b
    ensures Power(a) <= Power(b)
  {
    if a < b { PowerGrows(a, b - 1); }
  }

  /** One failure more never shortens the delay. */
  lemma BackoffGrows(a: nat, b: nat, entropy: nat)
    requires a <= b
    ensures Backoff(a, entropy) <= Backoff(b, entropy)
  {
    PowerGrows(if a < 7 then a else 7, if b < 7 then b else 7);
    var x, y := FIRST_DELAY * Power(if a < 7 then a else 7), FIRST_DELAY * Power(if b < 7 then b else 7);
    ScaledGrows(if x < LONGEST_DELAY then x else LONGEST_DELAY, if y < LONGEST_DELAY then y else LONGEST_DELAY,
                800 + entropy % 401);
  }

  lemma ScaledGrows(x: nat, y: nat, spread: nat)
    requires x <= y
    ensures x * spread / 1000 <= y * spread / 1000
  {
    assert x * spread <= y * spread;
  }

  function Started(now: nat): Driver {
    Driver(true, false, true, false, 0, now)
  }

  const STOPPED: Driver := Driver(false, false, false, false, 0, 0)

  function Decide(d: Driver, now: nat): Decision {
    if !d.running || d.paused || d.inFlight || !d.dirty then Idle
    else if d.due > now then Wait(d.due - now)
    else Sync
  }

  function Decided(d: Driver, now: nat): Driver {
    if Decide(d, now) == Sync then d.(dirty := false, inFlight := true) else d
  }

  function Completed(d: Driver, success: bool, now: nat, entropy: nat): Driver {
    if !d.running || !d.inFlight then d
    else if success then d.(inFlight := false, attempt := 0, due := now)
    else d.(inFlight := false, attempt := d.attempt + 1, due := now + Backoff(d.attempt, entropy), dirty := true)
  }

  /** What the lane sees of the client: its subscribed cursors and the memory of its pulls. */
  datatype Mail = Mail(cursors: map<string, nat>, epochs: Pulls.Epochs, issued: seq<Pulls.Issued>, generation: nat)

  datatype Received = Applied | Covered | Recover

  function Froms(page: Page): map<string, nat> {
    map c | c in page.cursors :: page.cursors[c].from
  }

  predicate StalePage(m: Mail, page: Page) {
    Pulls.JudgedStale(m.issued, Pulls.Request(m.epochs, Froms(page)))
  }

  /** A page moves the cursors unless it is stale, covered, or leaves a gap. */
  function Receipt(m: Mail, page: Page): Received {
    if StalePage(m, page) then Covered
    else if HasGap(m.cursors, page) then Recover
    else if Moving(m.cursors, page) == map[] then Covered
    else Applied
  }

  function Taken(m: Mail, page: Page): (r: Mail)
    ensures r.cursors.Keys == m.cursors.Keys && r.generation == m.generation
  {
    var cursors := if Receipt(m, page) == Applied then m.cursors + Moving(m.cursors, page) else m.cursors;
    assert cursors.Keys == m.cursors.Keys;
    m.(cursors := cursors, issued := Pulls.Consumed(m.issued, Pulls.Request(m.epochs, Froms(page))))
  }

  function Asked(m: Mail): Mail {
    if m.cursors == map[] then m else m.(issued := Pulls.Remembered(m.issued, Pulls.Request(m.epochs, m.cursors)))
  }

  function Resubscribed(m: Mail, channel: string, subscribed: bool): Mail {
    if (channel in m.cursors) == subscribed then m
    else m.(cursors := if subscribed then m.cursors[channel := 0] else m.cursors - {channel},
            epochs := m.epochs[channel := Pulls.Epoch(m.epochs, channel) + 1], generation := m.generation + 1)
  }

  predicate Answers(page: Page, request: map<string, nat>) {
    page.cursors.Keys == request.Keys && forall c :: c in request ==> page.cursors[c].from == request[c]
  }

  predicate More(page: Page) {
    exists c :: c in page.cursors && Continues(page.cursors[c])
  }

  datatype Frame = Acknowledged(cursors: map<string, nat>) | Streamed(page: Page) | Garbled

  datatype Event =
    | Start | Stop | Pause | Resume | Wake | Tick
    | Message(epoch: nat, frame: Frame)
    | CatchUp(epoch: nat, body: Option<Page>)
    | Overflow(epoch: nat)
    | Closed(epoch: nat)

  datatype Action = Open(epoch: nat, channels: set<string>) | Request(epoch: nat, cursors: map<string, nat>)
    | Close(epoch: nat) | WakePush | Later(millis: nat)

  datatype Session = Session(epoch: nat, generation: nat, channels: set<string>, acknowledged: bool,
                             active: Option<map<string, nat>>, again: bool, queue: seq<Page>)

  datatype Lane = Lane(driver: Driver, mail: Mail, epoch: nat, session: Option<Session>)

  datatype Step = Step(lane: Lane, actions: seq<Action>)

  function With(l: Lane, s: Session): Lane {
    l.(session := Some(s))
  }

  function Ended(l: Lane): Step {
    Step(l.(session := None), if l.session.Some? then [Close(l.session.value.epoch)] else [])
  }

  /** The session ends and the lane retries with backoff. */
  function Failing(l: Lane, now: nat, entropy: nat): Step {
    Step(l.(session := None, driver := Completed(l.driver, false, now, entropy)), Ended(l).actions)
  }

  /** One pull when none is in flight; otherwise remember that another is needed. */
  function Pulling(l: Lane): Step
    requires l.session.Some?
  {
    var s := l.session.value;
    if s.active.Some? then Step(With(l, s.(again := true)), [])
    else if l.mail.cursors == map[] then Step(l, [])
    else Step(With(l.(mail := Asked(l.mail)), s.(active := Some(l.mail.cursors))), [Request(s.epoch, l.mail.cursors)])
  }

  function Then(actions: seq<Action>, step: Step): Step {
    Step(step.lane, actions + step.actions)
  }

  function Settled(d: Received): seq<Action> {
    if d == Applied then [WakePush] else []
  }

  /** Queued pages from the front while no pull is in flight; one with a gap stays and a pull runs. */
  function Draining(l: Lane): Step
    requires l.session.Some?
    decreases |l.session.value.queue|
  {
    var s := l.session.value;
    if s.active.Some? || s.queue == [] then Step(l, [])
    else
      var d, next := Receipt(l.mail, s.queue[0]), l.(mail := Taken(l.mail, s.queue[0]));
      if d == Recover then Pulling(next)
      else Then(Settled(d), Draining(With(next, s.(queue := s.queue[1..]))))
  }

  /** Frames were lost: the queue is discarded and every channel recovers from its cursor. */
  function Overflowing(l: Lane): Step
    requires l.session.Some?
  {
    if !l.session.value.acknowledged then Step(l, []) else Pulling(With(l, l.session.value.(queue := [])))
  }

  predicate Behind(m: Mail, heads: map<string, nat>) {
    exists c :: c in heads && c in m.cursors && heads[c] > m.cursors[c]
  }

  function OnFrame(l: Lane, frame: Frame, now: nat, entropy: nat): Step
    requires l.session.Some?
  {
    var s := l.session.value;
    match frame
    case Garbled => Failing(l, now, entropy)
    case Acknowledged(heads) =>
      if s.acknowledged || heads.Keys != s.channels then Failing(l, now, entropy)
      else
        var next := With(l, s.(acknowledged := true));
        if Behind(l.mail, heads) then Pulling(next) else Step(next, [])
    case Streamed(page) =>
      if !s.acknowledged then Failing(l, now, entropy)
      else if |s.queue| >= QUEUED_FRAMES then Overflowing(l)
      else Draining(With(l, s.(queue := s.queue + [page])))
  }

  /** The response to the pull in flight. */
  function OnResponse(l: Lane, body: Option<Page>, now: nat, entropy: nat): Step
    requires l.session.Some? && l.session.value.active.Some?
  {
    var s := l.session.value;
    if body.None? || !ValidPage(body.value) || !Answers(body.value, s.active.value) then
      Failing(With(l, s.(active := None)), now, entropy)
    else
      var page := body.value;
      var next := l.(mail := Taken(l.mail, page));
      Then(Settled(Receipt(l.mail, page)),
           if More(page) then Pulling(With(next, s.(active := None)))
           else if s.again then Pulling(With(next, s.(active := None, again := false)))
           else Draining(With(next, s.(active := None))))
  }

  predicate Current(l: Lane) {
    l.session.Some? && l.session.value.generation == l.mail.generation
  }

  /** A session of an earlier subscription set is over, without backoff. */
  function Outdated(l: Lane, now: nat): Step {
    if l.session.Some? && !Current(l) then
      Step(l.(session := None, driver := Completed(l.driver, true, now, 0).(dirty := true)), Ended(l).actions)
    else Step(l, [])
  }

  predicate Names(l: Lane, epoch: nat) {
    l.session.Some? && l.session.value.epoch == epoch
  }

  /** The event itself; none when a response arrives that no pull asked for. */
  function Applying(l: Lane, event: Event, now: nat, entropy: nat): Option<Step> {
    match event
    case Start => Some(Step(l.(driver := Started(now)), []))
    case Stop => Some(Step(Ended(l).lane.(driver := STOPPED), Ended(l).actions))
    case Pause =>
      var driver := if l.session.Some? then Completed(l.driver, true, now, 0) else l.driver;
      Some(Step(Ended(l).lane.(driver := driver.(paused := true)), Ended(l).actions))
    case Resume => Some(Step(l.(driver := l.driver.(paused := false, dirty := true, due := now)), []))
    case Wake => Some(Step(l.(driver := l.driver.(dirty := true)), []))
    case Tick => Some(Step(l, []))
    case Message(e, frame) => Some(if Names(l, e) then OnFrame(l, frame, now, entropy) else Step(l, []))
    case CatchUp(e, body) =>
      if !Names(l, e) then Some(Step(l, []))
      else if l.session.value.active.None? then None
      else Some(OnResponse(l, body, now, entropy))
    case Overflow(e) => Some(if Names(l, e) then Overflowing(l) else Step(l, []))
    case Closed(e) => Some(if Names(l, e) then Failing(l, now, entropy) else Step(l, []))
  }

  /** With no session the driver decides; with no channels the session ends at once, successfully. */
  function Scheduling(l: Lane, now: nat): Step {
    if l.session.Some? then Step(l, [])
    else
      var driver := Decided(l.driver, now);
      match Decide(l.driver, now)
      case Idle => Step(l, [])
      case Wait(millis) => Step(l, [Later(millis)])
      case Sync =>
        var channels := l.mail.cursors.Keys;
        if channels == {} then Step(l.(driver := Completed(driver, true, now, 0)), [])
        else
          Step(l.(driver := driver, epoch := l.epoch + 1,
                  session := Some(Session(l.epoch + 1, l.mail.generation, channels, false, None, false, []))),
               [Open(l.epoch + 1, channels)])
  }

  function Handled(l: Lane, event: Event, now: nat, entropy: nat): Option<Step> {
    var outdated := Outdated(l, now);
    match Applying(outdated.lane, event, now, entropy)
    case None => None
    case Some(step) => Some(Then(outdated.actions + step.actions, Scheduling(step.lane, now)))
  }

  /** The gate: streamed pages wait only behind a pull, and never too many. */
  predicate Gated(s: Session) {
    && |s.queue| <= QUEUED_FRAMES
    && (s.queue != [] ==> s.active.Some?)
    && (s.again ==> s.active.Some?)
    && (!s.acknowledged ==> s.queue == [] && s.active.None?)
  }

  /** A session of the current subscriptions follows exactly their channels. */
  predicate Follows(l: Lane) {
    l.session.Some? ==>
      && l.session.value.epoch == l.epoch && l.session.value.generation <= l.mail.generation
      && (Current(l) ==> l.mail.cursors.Keys == l.session.value.channels && l.session.value.channels != {})
  }

  predicate LaneOk(l: Lane) {
    && (l.driver.inFlight ==> l.driver.running) && (l.driver.inFlight <==> l.session.Some?)
    && (l.session.Some? ==> Gated(l.session.value))
    && Follows(l)
  }

  predicate Asks(actions: seq<Action>) {
    exists i :: 0 <= i < |actions| && actions[i].Request?
  }

  lemma AsksThen(a: seq<Action>, b: seq<Action>)
    ensures Asks(a + b) <==> Asks(a) || Asks(b)
  {
    if Asks(a) {
      var i :| 0 <= i < |a| && a[i].Request?;
      assert (a + b)[i].Request?;
    }
    if Asks(b) {
      var i :| 0 <= i < |b| && b[i].Request?;
      assert (a + b)[|a| + i].Request?;
    }
  }

  /** The parts of a lane a running session may not touch, and what it must leave. */
  predicate GoesOn(l: Lane, l': Lane) {
    && l.session.Some? && l'.session.Some? && l'.driver == l.driver && l'.epoch == l.epoch
    && l'.mail.generation == l.mail.generation && l'.mail.cursors.Keys == l.mail.cursors.Keys
    && l'.session.value.epoch == l.session.value.epoch && l'.session.value.generation == l.session.value.generation
    && l'.session.value.channels == l.session.value.channels
  }

  lemma PullingGoesOn(l: Lane)
    requires l.session.Some? && l.mail.cursors.Keys != {} && l.session.value.acknowledged
    requires |l.session.value.queue| <= QUEUED_FRAMES
    ensures var r := Pulling(l);
      && GoesOn(l, r.lane) && Gated(r.lane.session.value) && r.lane.session.value.active.Some?
      && r.lane.session.value.queue == l.session.value.queue
      && (if l.session.value.active.Some? then r.lane.session.value.again else Asks(r.actions))
      && (l.session.value.again ==> r.lane.session.value.again)
  {
    assert l.mail.cursors != map[];
    var r := Pulling(l);
    if l.session.value.active.None? { assert r.actions[0].Request?; }
  }

  /** Draining leaves the lane going on, gated. */
  lemma {:induction false} DrainingGates(l: Lane)
    requires l.session.Some? && l.mail.cursors.Keys != {} && l.session.value.acknowledged
    requires |l.session.value.queue| <= QUEUED_FRAMES
    requires l.session.value.again ==> l.session.value.active.Some?
    ensures var r := Draining(l);
      GoesOn(l, r.lane) && Gated(r.lane.session.value) && r.lane.session.value.again == l.session.value.again
    decreases |l.session.value.queue|
  {
    var s := l.session.value;
    if s.active.None? && s.queue != [] {
      var d, next := Receipt(l.mail, s.queue[0]), l.(mail := Taken(l.mail, s.queue[0]));
      if d == Recover {
        PullingGoesOn(next);
      } else {
        DrainingGates(With(next, s.(queue := s.queue[1..])));
      }
    }
  }

  lemma OverflowingGates(l: Lane)
    requires l.session.Some? && Gated(l.session.value) && l.mail.cursors.Keys != {}
    ensures var r := Overflowing(l);
      && GoesOn(l, r.lane) && Gated(r.lane.session.value)
      && (l.session.value.acknowledged ==> r.lane.session.value.queue == [])
      && (l.session.value.acknowledged ==>
            r.lane.session.value.active.Some? && (r.lane.session.value.again || Asks(r.actions)))
      && (l.session.value.again ==> r.lane.session.value.again)
  {
    if l.session.value.acknowledged { PullingGoesOn(With(l, l.session.value.(queue := []))); }
  }

  /** A session ends cleanly or goes on, gated. */
  predicate Kept(l: Lane, l': Lane) {
    if l'.session.Some? then GoesOn(l, l') && Gated(l'.session.value)
    else !l'.driver.inFlight && l'.epoch == l.epoch && l'.mail.generation == l.mail.generation
  }

  lemma FrameKeeps(l: Lane, frame: Frame, now: nat, entropy: nat)
    requires LaneOk(l) && Current(l)
    ensures var r := OnFrame(l, frame, now, entropy);
      && Kept(l, r.lane)
      && (r.lane.session.Some? && l.session.value.again ==> r.lane.session.value.again || Asks(r.actions))
  {
    var s := l.session.value;
    match frame {
      case Garbled =>
      case Acknowledged(heads) =>
        if !s.acknowledged && heads.Keys == s.channels && Behind(l.mail, heads) {
          PullingGoesOn(With(l, s.(acknowledged := true)));
        }
      case Streamed(page) =>
        if s.acknowledged {
          if |s.queue| >= QUEUED_FRAMES {
            OverflowingGates(l);
          } else {
            DrainingGates(With(l, s.(queue := s.queue + [page])));
          }
        }
    }
  }

  lemma ResponseKeeps(l: Lane, body: Option<Page>, now: nat, entropy: nat)
    requires LaneOk(l) && Current(l) && l.session.value.active.Some?
    ensures var r := OnResponse(l, body, now, entropy);
      && Kept(l, r.lane)
      && (r.lane.session.Some? && (l.session.value.again || More(body.value)) ==> Asks(r.actions))
  {
    var s := l.session.value;
    if body.Some? && ValidPage(body.value) && Answers(body.value, s.active.value) {
      var page := body.value;
      var next := l.(mail := Taken(l.mail, page));
      var settled := Settled(Receipt(l.mail, page));
      if More(page) {
        PullingGoesOn(With(next, s.(active := None)));
        AsksThen(settled, Pulling(With(next, s.(active := None))).actions);
      } else if s.again {
        PullingGoesOn(With(next, s.(active := None, again := false)));
        AsksThen(settled, Pulling(With(next, s.(active := None, again := false))).actions);
      } else {
        DrainingGates(With(next, s.(active := None)));
      }
    }
  }

  lemma OutdatedKeeps(l: Lane, now: nat)
    requires LaneOk(l)
    ensures var r := Outdated(l, now).lane;
      LaneOk(r) && (r.session.Some? ==> Current(r) && r == l) && r.epoch == l.epoch && r.mail == l.mail
  {
  }

  lemma SchedulingKeeps(l: Lane, now: nat)
    requires LaneOk(l)
    ensures LaneOk(Scheduling(l, now).lane)
  {
  }

  predicate Restarts(l: Lane, event: Event) {
    event.Start? && Current(l)
  }

  lemma ApplyingKeeps(l: Lane, event: Event, now: nat, entropy: nat)
    requires LaneOk(l) && (l.session.Some? ==> Current(l)) && Applying(l, event, now, entropy).Some?
    ensures var r := Applying(l, event, now, entropy).value;
      && (LaneOk(r.lane) <==> !Restarts(l, event))
      && (Restarts(l, event) ==> r.lane.session.Some? && !r.lane.driver.inFlight)
      && (r.lane.session.Some? && l.session.Some? && l.session.value.again ==>
            r.lane.session.value.again || Asks(r.actions))
  {
    match event {
      case Message(e, frame) => if Names(l, e) { FrameKeeps(l, frame, now, entropy); }
      case CatchUp(e, body) => if Names(l, e) { ResponseKeeps(l, body, now, entropy); }
      case Overflow(e) => if Names(l, e) { OverflowingGates(l); }
      case _ =>
    }
  }

  /** The live gate: after every successful event frames wait only behind a pull and never more than 64,
      and the driver is in flight exactly while a session exists, if and only if the driver was not
      started over under a current session. A pull owed for lost frames stays owed until one is issued. */
  lemma HandledKeeps(l: Lane, event: Event, now: nat, entropy: nat)
    requires LaneOk(l) && Handled(l, event, now, entropy).Some?
    ensures var r := Handled(l, event, now, entropy).value;
      && (LaneOk(r.lane) <==> !Restarts(l, event))
      && (Restarts(l, event) ==> r.lane.session.Some? && !r.lane.driver.inFlight)
      && (Current(l) && Names(r.lane, l.epoch) && l.session.value.again ==>
            r.lane.session.value.again || Asks(r.actions))
  {
    var outdated := Outdated(l, now);
    OutdatedKeeps(l, now);
    ApplyingKeeps(outdated.lane, event, now, entropy);
    var step := Applying(outdated.lane, event, now, entropy).value;
    var begun := Scheduling(step.lane, now);
    if LaneOk(step.lane) { SchedulingKeeps(step.lane, now); }
    AsksThen(outdated.actions + step.actions, begun.actions);
    AsksThen(outdated.actions, step.actions);
  }

  /** Frames lost in an overflow, at the socket or in a full queue, are owed a pull from the cursors. */
  lemma LostFramesAreOwed(l: Lane, event: Event, now: nat, entropy: nat)
    requires LaneOk(l) && Current(l) && l.session.value.acknowledged
    requires event == Overflow(l.epoch)
             || (event.Message? && event.epoch == l.epoch && event.frame.Streamed?
                 && |l.session.value.queue| >= QUEUED_FRAMES)
    ensures Handled(l, event, now, entropy).Some?
    ensures var r := Handled(l, event, now, entropy).value;
      Names(r.lane, l.epoch) && r.lane.session.value.queue == [] && (r.lane.session.value.again || Asks(r.actions))
  {
    OutdatedKeeps(l, now);
    OverflowingGates(l);
    var step := Overflowing(l);
    AsksThen([] + step.actions, Scheduling(step.lane, now).actions);
    assert [] + step.actions == step.actions;
  }

  lemma ResubscribedKeeps(l: Lane, channel: string, subscribed: bool)
    requires LaneOk(l)
    ensures LaneOk(l.(mail := Resubscribed(l.mail, channel, subscribed)))
  {
  }

  /** What may happen to a lane: an event, or a committed subscription change. */
  datatype Turn = Told(event: Event, now: nat, entropy: nat) | Changed(channel: string, subscribed: bool)

  predicate Turns(l: Lane, turn: Turn, l': Lane) {
    match turn
    case Changed(channel, subscribed) => l' == l.(mail := Resubscribed(l.mail, channel, subscribed))
    case Told(event, now, entropy) =>
      !Restarts(l, event) && Handled(l, event, now, entropy).Some? && l' == Handled(l, event, now, entropy).value.lane
  }

  ghost predicate LaneRun(lanes: seq<Lane>, turns: seq<Turn>) {
    && |lanes| == |turns| + 1 && lanes[0] == Lane(STOPPED, lanes[0].mail, 0, None)
    && forall i :: 0 <= i < |turns| ==> TurnsAt(lanes, turns, i)
  }

  predicate TurnsAt(lanes: seq<Lane>, turns: seq<Turn>, i: int)
    requires 0 <= i < |turns| && |lanes| == |turns| + 1
  {
    Turns(lanes[i], turns[i], lanes[i + 1])
  }

  lemma LaneTurn(lanes: seq<Lane>, turns: seq<Turn>, n: nat)
    requires LaneRun(lanes, turns) && 0 < n < |lanes|
    ensures Turns(lanes[n - 1], turns[n - 1], lanes[n])
  {
    assert TurnsAt(lanes, turns, n - 1);
  }

  lemma TurnKeeps(l: Lane, turn: Turn, l': Lane)
    requires LaneOk(l) && Turns(l, turn, l')
    ensures LaneOk(l')
  {
    match turn {
      case Changed(channel, subscribed) => ResubscribedKeeps(l, channel, subscribed);
      case Told(event, now, entropy) => HandledKeeps(l, event, now, entropy);
    }
  }

  lemma {:induction false} GateAlways(lanes: seq<Lane>, turns: seq<Turn>, n: nat)
    requires LaneRun(lanes, turns) && n < |lanes|
    ensures LaneOk(lanes[n])
  {
    if n > 0 {
      GateAlways(lanes, turns, n - 1);
      LaneTurn(lanes, turns, n);
      TurnKeeps(lanes[n - 1], turns[n - 1], lanes[n]);
    }
  }

  /** What a turn tells the host to do. */
  function Acts(l: Lane, turn: Turn): seq<Action> {
    match turn
    case Changed(_, _) => []
    case Told(event, now, entropy) =>
      match Handled(l, event, now, entropy)
      case None => []
      case Some(step) => step.actions
  }

  /** Frames of the current session are lost: at the socket, or because its queue is full. */
  predicate Loses(l: Lane, turn: Turn) {
    && Current(l) && l.session.value.acknowledged && turn.Told?
    && (turn.event == Overflow(l.epoch)
        || (turn.event.Message? && turn.event.epoch == l.epoch && turn.event.frame.Streamed?
            && |l.session.value.queue| >= QUEUED_FRAMES))
  }

  predicate Owed(l: Lane, epoch: nat) {
    Names(l, epoch) && l.session.value.again
  }

  lemma StaysOwed(l: Lane, turn: Turn, l': Lane)
    requires LaneOk(l) && Turns(l, turn, l') && Owed(l, l.epoch)
    ensures !Names(l', l.epoch) || Asks(Acts(l, turn)) || Owed(l', l.epoch)
  {
    if turn.Told? {
      HandledKeeps(l, turn.event, turn.now, turn.entropy);
      OutdatedKeeps(l, turn.now);
    }
  }

  /** What became of frames lost at turn `i`, seen at turn `n`. */
  ghost predicate Recovered(lanes: seq<Lane>, turns: seq<Turn>, i: nat, n: nat)
    requires i < n < |lanes| == |turns| + 1
  {
    || (exists j :: i < j <= n && !Names(lanes[j], lanes[i].epoch))
    || (exists j :: i <= j < n && Asks(Acts(lanes[j], turns[j])))
    || Owed(lanes[n], lanes[i].epoch)
  }

  lemma RecoveredFirst(lanes: seq<Lane>, turns: seq<Turn>, i: nat)
    requires i < |turns| && |lanes| == |turns| + 1 && LaneOk(lanes[i])
    requires Loses(lanes[i], turns[i]) && Turns(lanes[i], turns[i], lanes[i + 1])
    ensures Recovered(lanes, turns, i, i + 1)
  {
    LostFramesAreOwed(lanes[i], turns[i].event, turns[i].now, turns[i].entropy);
    assert Asks(Acts(lanes[i], turns[i])) || Owed(lanes[i + 1], lanes[i].epoch);
  }

  lemma RecoveredNext(lanes: seq<Lane>, turns: seq<Turn>, i: nat, n: nat)
    requires i < n < |turns| && |lanes| == |turns| + 1 && LaneOk(lanes[n])
    requires Recovered(lanes, turns, i, n) && Turns(lanes[n], turns[n], lanes[n + 1])
    ensures Recovered(lanes, turns, i, n + 1)
  {
    var e := lanes[i].epoch;
    if Owed(lanes[n], e) {
      StaysOwed(lanes[n], turns[n], lanes[n + 1]);
      assert !Names(lanes[n + 1], e) || Asks(Acts(lanes[n], turns[n])) || Owed(lanes[n + 1], e);
    }
  }

  /** Over every run: once frames were lost, at every later turn their session has ended, or a pull was issued
      since, or one is still owed behind the pull in flight. */
  lemma {:induction false} LostFramesStayOwed(lanes: seq<Lane>, turns: seq<Turn>, i: nat, n: nat)
    requires LaneRun(lanes, turns) && i < n <= |turns| && Loses(lanes[i], turns[i])
    ensures Recovered(lanes, turns, i, n)
  {
    GateAlways(lanes, turns, n - 1);
    LaneTurn(lanes, turns, n);
    if n == i + 1 {
      RecoveredFirst(lanes, turns, i);
    } else {
      LostFramesStayOwed(lanes, turns, i, n - 1);
      RecoveredNext(lanes, turns, i, n - 1);
    }
  }

  /** Events that neither start, stop, pause nor resume the driver. */
  predicate Ordinary(event: Event) {
    !event.Start? && !event.Stop? && !event.Pause? && !event.Resume?
  }

  predicate Waiting(l: Lane, due: nat) {
    && l.session.None? && l.driver.running && !l.driver.paused && !l.driver.inFlight && l.driver.dirty
    && l.driver.due == due
  }

  /** A failed session leaves the lane waiting, longer after each failure in a row, between a fifth of a
      second and thirty-six seconds. */
  lemma FailingWaits(l: Lane, now: nat, entropy: nat)
    requires LaneOk(l) && l.session.Some? && !l.driver.paused
    ensures var r := Failing(l, now, entropy).lane;
      && Waiting(r, now + Backoff(l.driver.attempt, entropy)) && r.driver.attempt == l.driver.attempt + 1
      && now + 200 <= r.driver.due <= now + 36000 && r.mail == l.mail
  {
    BackoffIsBounded(l.driver.attempt, entropy);
  }

  predicate Early(turn: Turn, due: nat) {
    turn.Told? ==> Ordinary(turn.event) && turn.now < due
  }

  /** Whatever wakes, frames, responses or subscription changes arrive before the delay is over, no session
      begins. */
  lemma {:induction false} BackoffHolds(lanes: seq<Lane>, turns: seq<Turn>, n: nat, due: nat)
    requires |lanes| == |turns| + 1 && n < |lanes| && Waiting(lanes[0], due)
    requires forall i :: 0 <= i < |turns| ==> Turns(lanes[i], turns[i], lanes[i + 1]) && Early(turns[i], due)
    ensures Waiting(lanes[n], due) && lanes[n].driver == lanes[0].driver && lanes[n].epoch == lanes[0].epoch
  {
    if n > 0 {
      BackoffHolds(lanes, turns, n - 1, due);
      assert Turns(lanes[n - 1], turns[n - 1], lanes[n - 1 + 1]) && Early(turns[n - 1], due);
    }
  }

  /** Once it is over the next ordinary event begins one, exactly when there are channels to follow. */
  lemma BackoffEnds(l: Lane, event: Event, now: nat, entropy: nat, due: nat)
    requires Waiting(l, due) && Ordinary(event) && due <= now
    ensures Handled(l, event, now, entropy).Some?
    ensures var r := Handled(l, event, now, entropy).value;
      && (r.lane.session.Some? <==> l.mail.cursors != map[])
      && (r.lane.session.Some? ==> r.actions == [Open(l.epoch + 1, l.mail.cursors.Keys)] && Names(r.lane, l.epoch + 1))
  {
    var cursors := l.mail.cursors;
    assert cursors == map[] <==> cursors.Keys == {};
    assert Outdated(l, now) == Step(l, []);
    assert [] + ([] + Scheduling(l, now).actions) == Scheduling(l, now).actions;
  }

  /** A page moves cursors only when it is applied, only forward, and only from where they stand. */
  lemma TakenAdvances(m: Mail, page: Page, c: string)
    requires c in m.cursors
    ensures var r := Taken(m, page);
      if Receipt(m, page) == Applied && c in page.cursors && page.cursors[c].to > m.cursors[c]
      then r.cursors[c] == page.cursors[c].to && page.cursors[c].from <= m.cursors[c]
      else r.cursors[c] == m.cursors[c]
  {
    if c in page.cursors { assert Gap(m.cursors, c, page.cursors[c]) ==> HasGap(m.cursors, page); }
  }

  /** An applied page is never applied again. */
  lemma AppliedOnce(m: Mail, page: Page)
    requires Receipt(m, page) == Applied
    ensures Receipt(Taken(m, page), page) == Covered
  {
    var r := Taken(m, page);
    forall c | c in page.cursors ensures !Gap(r.cursors, c, page.cursors[c]) && !Moves(r.cursors, c, page.cursors[c]) {
      if c in m.cursors { TakenAdvances(m, page, c); }
    }
    assert Moving(r.cursors, page) == map[];
  }

  predicate NoLess(m: Mail, m': Mail) {
    forall c :: c in m.cursors ==> c in m'.cursors && m'.cursors[c] >= m.cursors[c]
  }

  lemma TakenNoLess(m: Mail, page: Page)
    ensures NoLess(m, Taken(m, page))
  {
    forall c | c in m.cursors { TakenAdvances(m, page, c); }
  }

  lemma {:induction false} DrainingNoLess(l: Lane)
    requires l.session.Some?
    ensures NoLess(l.mail, Draining(l).lane.mail)
    decreases |l.session.value.queue|
  {
    var s := l.session.value;
    if s.active.None? && s.queue != [] {
      TakenNoLess(l.mail, s.queue[0]);
      var next := l.(mail := Taken(l.mail, s.queue[0]));
      if Receipt(l.mail, s.queue[0]) != Recover { DrainingNoLess(With(next, s.(queue := s.queue[1..]))); }
    }
  }

  /** No event moves a cursor back. */
  lemma CursorsOnlyAdvance(l: Lane, event: Event, now: nat, entropy: nat)
    requires Handled(l, event, now, entropy).Some?
    ensures NoLess(l.mail, Handled(l, event, now, entropy).value.lane.mail)
  {
    var o := Outdated(l, now).lane;
    match event {
      case Message(e, Streamed(page)) =>
        if Names(o, e) && o.session.value.acknowledged && |o.session.value.queue| < QUEUED_FRAMES {
          DrainingNoLess(With(o, o.session.value.(queue := o.session.value.queue + [page])));
        }
      case CatchUp(e, body) =>
        if Names(o, e) { ResponseNoLess(o, body, now, entropy); }
      case _ =>
    }
  }

  lemma ResponseNoLess(l: Lane, body: Option<Page>, now: nat, entropy: nat)
    requires l.session.Some? && l.session.value.active.Some?
    ensures NoLess(l.mail, OnResponse(l, body, now, entropy).lane.mail)
  {
    var s := l.session.value;
    if body.Some? && ValidPage(body.value) && Answers(body.value, s.active.value) {
      TakenNoLess(l.mail, body.value);
      DrainingNoLess(With(l.(mail := Taken(l.mail, body.value)), s.(active := None)));
    }
  }
}
