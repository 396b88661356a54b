/** The objects of the live lane: each event updates the driver, the session and the client's cursors in
    place, exactly as the lane's values say. */
module LiveLanes {
  import opened Options
  import opened Pages
  import Pulls
  import opened Lanes
  import opened LaneProgress

  class ConnectionDriver {
    var running: bool
    var paused: bool
    var dirty: bool
    var inFlight: bool
    var attempt: nat
    var due: nat

    function State(): Driver
      reads this
    {
      Driver(running, paused, dirty, inFlight, attempt, due)
    }

    constructor ()
      ensures State() == STOPPED
    {
      running, paused, dirty, inFlight, attempt, due := false, false, false, false, 0, 0;
    }

    method Start(now: nat)
      modifies this
      ensures State() == Started(now)
    {
      running, paused, dirty, inFlight, attempt, due := true, false, true, false, 0, now;
    }

    method Stop()
      modifies this
      ensures State() == STOPPED
    {
      running, paused, dirty, inFlight, attempt, due := false, false, false, false, 0, 0;
    }

    method Pause()
      modifies this
      ensures State() == old(State()).(paused := true)
    {
      paused := true;
    }

    method Resume(now: nat)
      modifies this
      ensures State() == old(State()).(paused := false, dirty := true, due := now)
    {
      paused, dirty, due := false, true, now;
    }

    method Wake()
      modifies this
      ensures State() == old(State()).(dirty := true)
    {
      dirty := true;
    }

    method Next(now: nat) returns (d: Decision)
      modifies this
      ensures d == Decide(old(State()), now) && State() == Decided(old(State()), now)
    {
      if !running || paused || inFlight || !dirty {
        return Idle;
      }
      if due > now {
        return Wait(due - now);
      }
      dirty, inFlight := false, true;
      d := Sync;
    }

    method Complete(success: bool, now: nat, entropy: nat)
      modifies this
      ensures State() == Completed(old(State()), success, now, entropy)
    {
      if !running || !inFlight {
        return;
      }
      inFlight := false;
      if success {
        attempt, due := 0, now;
      } else {
        due := now + Backoff(attempt, entropy);
        attempt, dirty := attempt + 1, true;
      }
    }
  }

  /** The lane's view of the client: its cursors and the ledger of its pulls. */
  class Inbox {
    const ledger: Pulls.PullLedger
    var cursors: map<string, nat>

    constructor (ledger: Pulls.PullLedger)
      ensures this.ledger == ledger && cursors == map[]
    {
      this.ledger, cursors := ledger, map[];
    }

    function State(): Mail
      reads this, ledger
    {
      Mail(cursors, ledger.epochs, ledger.issued, ledger.generation)
    }

    /** A committed subscribe or unsubscribe. */
    method Resubscribe(channel: string, subscribed: bool)
      modifies this, ledger
      ensures State() == Resubscribed(old(State()), channel, subscribed)
    {
      if (channel in cursors) != subscribed {
        cursors := if subscribed then cursors[channel := 0] else cursors - {channel};
        ledger.Bump(channel);
      }
    }

    /** One pull for every subscribed channel from its cursor. */
    method Request() returns (r: Option<map<string, nat>>)
      modifies ledger
      ensures r == (if cursors == map[] then None else Some(cursors)) && State() == Asked(old(State()))
    {
      if cursors == map[] {
        return None;
      }
      ledger.Issue(cursors);
      r := Some(cursors);
    }

    method Receive(page: Page) returns (d: Received)
      modifies this, ledger
      ensures d == Receipt(old(State()), page) && State() == Taken(old(State()), page)
    {
      var stale := ledger.Stale(Froms(page));
      if stale {
        return Covered;
      }
      if HasGap(cursors, page) {
        return Recover;
      }
      var moving := Moving(cursors, page);
      if moving == map[] {
        return Covered;
      }
      cursors := cursors + moving;
      d := Applied;
    }
  }

  class LiveSession {
    const driver: ConnectionDriver
    const inbox: Inbox
    var epoch: nat
    var session: Option<Session>

    function State(): Lane
      reads this, driver, inbox, inbox.ledger
    {
      Lane(driver.State(), inbox.State(), epoch, session)
    }

    constructor (driver: ConnectionDriver, inbox: Inbox)
      requires driver.State() == STOPPED
      ensures this.driver == driver && this.inbox == inbox && State() == Lane(STOPPED, inbox.State(), 0, None)
    {
      this.driver, this.inbox := driver, inbox;
      epoch, session := 0, None;
    }

    method End() returns (actions: seq<Action>)
      modifies this`session
      ensures Step(State(), actions) == Ended(old(State()))
    {
      actions := if session.Some? then [Close(session.value.epoch)] else [];
      session := None;
    }

    method Fail(now: nat, entropy: nat) returns (actions: seq<Action>)
      modifies this`session, driver
      ensures Step(State(), actions) == Failing(old(State()), now, entropy)
    {
      actions := End();
      driver.Complete(false, now, entropy);
    }

    method Pull() returns (actions: seq<Action>)
      requires session.Some?
      modifies this`session, inbox, inbox.ledger
      ensures Step(State(), actions) == Pulling(old(State()))
    {
      if session.value.active.Some? {
        session := Some(session.value.(again := true));
        return [];
      }
      var request := inbox.Request();
      if request.None? {
        return [];
      }
      session := Some(session.value.(active := request));
      actions := [Request(session.value.epoch, request.value)];
    }

    method Drain() returns (actions: seq<Action>)
      requires session.Some?
      modifies this`session, inbox, inbox.ledger
      ensures Step(State(), actions) == Draining(old(State()))
    {
      actions := [];
      ghost var l := State();
      ThenNothing(Draining(l));
      while session.value.active.None? && session.value.queue != []
        invariant session.Some? && Then(actions, Draining(State())) == Draining(l)
        decreases |session.value.queue|
      {
        var front := session.value.queue[0];
        var d := inbox.Receive(front);
        if d == Recover {
          var pull := Pull();
          actions := actions + pull;
          return;
        }
        session := Some(session.value.(queue := session.value.queue[1..]));
        ThenTwice(actions, Settled(d), Draining(State()));
        actions := actions + Settled(d);
      }
      assert actions + [] == actions;
    }

    method Overflowed() returns (actions: seq<Action>)
      requires session.Some?
      modifies this`session, inbox, inbox.ledger
      ensures Step(State(), actions) == Overflowing(old(State()))
    {
      if !session.value.acknowledged {
        return [];
      }
      session := Some(session.value.(queue := []));
      actions := Pull();
    }

    method Receive(frame: Frame, now: nat, entropy: nat) returns (actions: seq<Action>)
      requires session.Some?
      modifies this`session, driver, inbox, inbox.ledger
      ensures Step(State(), actions) == OnFrame(old(State()), frame, now, entropy)
    {
      match frame {
        case Garbled => actions := Fail(now, entropy);
        case Acknowledged(heads) =>
          if session.value.acknowledged || heads.Keys != session.value.channels {
            actions := Fail(now, entropy);
            return;
          }
          session := Some(session.value.(acknowledged := true));
          actions := [];
          if Behind(inbox.State(), heads) {
            actions := Pull();
          }
        case Streamed(page) =>
          if !session.value.acknowledged {
            actions := Fail(now, entropy);
            return;
          }
          if |session.value.queue| >= QUEUED_FRAMES {
            actions := Overflowed();
            return;
          }
          session := Some(session.value.(queue := session.value.queue + [page]));
          actions := Drain();
      }
    }

    /** The response to the pull in flight; refused when no pull is. */
    method Caught(body: Option<Page>, now: nat, entropy: nat) returns (ok: bool, actions: seq<Action>)
      requires session.Some?
      modifies this`session, driver, inbox, inbox.ledger
      ensures ok <==> old(session).value.active.Some?
      ensures ok ==> Step(State(), actions) == OnResponse(old(State()), body, now, entropy)
      ensures !ok ==> State() == old(State())
    {
      if session.value.active.None? {
        return false, [];
      }
      ok := true;
      var request := session.value.active.value;
      session := Some(session.value.(active := None));
      if body.None? || !ValidPage(body.value) || !Answers(body.value, request) {
        actions := Fail(now, entropy);
        return;
      }
      var d := inbox.Receive(body.value);
      if More(body.value) || session.value.again {
        if !More(body.value) {
          session := Some(session.value.(again := false));
        }
        actions := Pull();
      } else {
        actions := Drain();
      }
      actions := Settled(d) + actions;
    }

    method Apply(event: Event, now: nat, entropy: nat) returns (ok: bool, actions: seq<Action>)
      modifies this`session, driver, inbox, inbox.ledger
      ensures ok <==> Applying(old(State()), event, now, entropy).Some?
      ensures ok ==> Some(Step(State(), actions)) == Applying(old(State()), event, now, entropy)
    {
      ok, actions := true, [];
      match event {
        case Start => driver.Start(now);
        case Stop =>
          actions := End();
          driver.Stop();
        case Pause =>
          if session.Some? {
            actions := End();
            driver.Complete(true, now, 0);
          }
          driver.Pause();
        case Resume => driver.Resume(now);
        case Wake => driver.Wake();
        case Tick =>
        case Message(e, frame) =>
          if session.Some? && session.value.epoch == e {
            actions := Receive(frame, now, entropy);
          }
        case CatchUp(e, body) =>
          if session.Some? && session.value.epoch == e {
            ok, actions := Caught(body, now, entropy);
          }
        case Overflow(e) =>
          if session.Some? && session.value.epoch == e {
            actions := Overflowed();
          }
        case Closed(e) =>
          if session.Some? && session.value.epoch == e {
            actions := Fail(now, entropy);
          }
      }
    }

    method EndOutdated(now: nat) returns (actions: seq<Action>)
      modifies this`session, driver
      ensures Step(State(), actions) == Outdated(old(State()), now)
    {
      actions := [];
      if session.Some? && session.value.generation != inbox.ledger.generation {
        actions := End();
        driver.Complete(true, now, 0);
        driver.Wake();
      }
    }

    method Begin(now: nat) returns (actions: seq<Action>)
      requires session.None?
      modifies this`session, this`epoch, driver
      ensures Step(State(), actions) == Scheduling(old(State()), now)
    {
      var d := driver.Next(now);
      match d {
        case Idle => actions := [];
        case Wait(millis) => actions := [Later(millis)];
        case Sync =>
          var channels := inbox.cursors.Keys;
          if channels == {} {
            driver.Complete(true, now, 0);
            return [];
          }
          epoch := epoch + 1;
          session := Some(Session(epoch, inbox.ledger.generation, channels, false, None, false, []));
          actions := [Open(epoch, channels)];
      }
    }

    /** One event of the host; refused only when a response arrives that no pull asked for. */
    method Handle(event: Event, now: nat, entropy: nat) returns (ok: bool, actions: seq<Action>)
      modifies this, driver, inbox, inbox.ledger
      ensures ok <==> Handled(old(State()), event, now, entropy).Some?
      ensures ok ==> Some(Step(State(), actions)) == Handled(old(State()), event, now, entropy)
      ensures LaneOk(old(State())) && Awaited(old(State()), event) ==>
        ok && TakenUp(old(State()), event.frame.cursors, State(), actions)
    {
      ghost var l := State();
      if LaneOk(l) && Awaited(l, event) { AcknowledgedPulls(l, event, now, entropy); }
      actions := EndOutdated(now);
      var more, begun := [], [];
      ok, more := Apply(event, now, entropy);
      if !ok {
        return;
      }
      if session.None? {
        begun := Begin(now);
      }
      actions := actions + more + begun;
    }
  }

  lemma ThenNothing(step: Step)
    ensures Then([], step) == step
  {
    assert [] + step.actions == step.actions;
  }

  lemma ThenTwice(a: seq<Action>, b: seq<Action>, step: Step)
    ensures Then(a, Then(b, step)) == Then(a + b, step)
  {
    assert a + (b + step.actions) == a + b + step.actions;
  }
}
