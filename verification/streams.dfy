/** The server's live stream: one pull outstanding at a time, covering every scope with a commit that was
    not pulled yet. */
module Streams {
  import opened Options
  import opened Graphs
  import opened Pages

  /** The cursor streamed so far, and whether a commit arrived that has not been pulled yet. */
  datatype Scope = Scope(cursor: nat, pending: bool)

  datatype Stream = Stream(scopes: map<string, Scope>, running: Option<map<string, nat>>, closed: bool)

  datatype Action =
    | Listen(scope: string) | Acknowledge(heads: map<string, nat>) | Send(page: Page) | Pull(cursors: map<string, nat>)

  datatype Fault = InvalidEvent | InvalidPage

  datatype Reaction = Acts(actions: seq<Action>) | Fails(fault: Fault)

  function Cursors(scopes: map<string, Scope>): map<string, nat> {
    map c | c in scopes :: scopes[c].cursor
  }

  function Opened(heads: map<string, nat>): Stream {
    Stream(map c | c in heads :: Scope(heads[c], false), Some(heads), false)
  }

  function Asked(scopes: map<string, Scope>): map<string, nat> {
    map c | c in scopes && scopes[c].pending :: scopes[c].cursor
  }

  predicate Waiting(scopes: map<string, Scope>) {
    exists c :: c in scopes && scopes[c].pending
  }

  /** The next pull takes every pending scope and clears its flag. */
  function Next(s: Stream): Stream {
    if !Waiting(s.scopes) then s
    else s.(scopes := map c | c in s.scopes :: s.scopes[c].(pending := false), running := Some(Asked(s.scopes)))
  }

  function Marked(s: Stream, scope: string): Stream
    requires scope in s.scopes
  {
    s.(scopes := s.scopes[scope := s.scopes[scope].(pending := true)])
  }

  function AfterCommit(s: Stream, scope: string): Stream
    requires scope in s.scopes
  {
    var marked := Marked(s, scope);
    if s.closed || s.running.Some? then marked else Next(marked)
  }

  /** A page must answer exactly the cursors that were asked. */
  predicate Progresses(page: Page, asked: map<string, nat>) {
    && ValidPage(page) && page.cursors.Keys == asked.Keys
    && forall c :: c in asked ==> page.cursors[c].from == asked[c]
  }

  predicate Advanced(page: Page) {
    exists c :: c in page.cursors && page.cursors[c].to > page.cursors[c].from
  }

  function Moved(scopes: map<string, Scope>, page: Page): map<string, Scope> {
    map c | c in scopes ::
      if c in page.cursors then Scope(page.cursors[c].to, scopes[c].pending || Continues(page.cursors[c]))
      else scopes[c]
  }

  function AfterPull(s: Stream, page: Page): Stream {
    Next(s.(scopes := Moved(s.scopes, page), running := None))
  }

  function Closing(s: Stream): Stream {
    s.(scopes := map c | c in s.scopes :: s.scopes[c].(pending := false), closed := true)
  }

  /** The pull outstanding asks for exactly these scopes, each from its cursor; without any there is none. */
  ghost predicate AsksFor(s: Stream, pending: set<string>) {
    if pending == {} then s.running.None?
    else s.running.Some? && s.running.value.Keys == pending
         && forall c :: c in pending && c in s.scopes ==> s.running.value[c] == s.scopes[c].cursor
  }

  predicate Unflagged(s: Stream) {
    forall c :: c in s.scopes ==> !s.scopes[c].pending
  }

  function PendingIn(s: Stream): (r: set<string>)
    ensures forall c :: c in r <==> c in s.scopes && s.scopes[c].pending
  {
    set c | c in s.scopes && s.scopes[c].pending
  }

  lemma NextAsks(s: Stream)
    requires s.running.None?
    ensures AsksFor(Next(s), PendingIn(s)) && Unflagged(Next(s)) && Next(s).closed == s.closed
    ensures Next(s).scopes.Keys == s.scopes.Keys
    ensures forall c :: c in s.scopes ==> Next(s).scopes[c].cursor == s.scopes[c].cursor
  {
    assert Waiting(s.scopes) <==> PendingIn(s) != {} by {
      if Waiting(s.scopes) {
        var c :| c in s.scopes && s.scopes[c].pending;
        assert c in PendingIn(s);
      }
      if PendingIn(s) != {} {
        var c :| c in PendingIn(s);
      }
    }
  }

  /** A commit on an open stream: without a pull outstanding one starts for the scope and whatever else was pending;
      otherwise, or when closed, only its flag is set. */
  lemma CommitAsks(s: Stream, scope: string)
    requires scope in s.scopes
    ensures var r := AfterCommit(s, scope);
      && r.scopes.Keys == s.scopes.Keys && r.closed == s.closed
      && (forall c :: c in s.scopes ==> r.scopes[c].cursor == s.scopes[c].cursor)
      && if s.closed || s.running.Some?
         then r.running == s.running
              && forall c :: c in s.scopes ==> r.scopes[c].pending == (s.scopes[c].pending || c == scope)
         else AsksFor(r, PendingIn(s) + {scope}) && Unflagged(r)
  {
    if !s.closed && s.running.None? {
      NextAsks(Marked(s, scope));
      assert PendingIn(Marked(s, scope)) == PendingIn(s) + {scope};
    }
  }

  /** A page that answers the pull: its scopes are at the ends of its ranges, and the next pull asks for exactly the
      scopes that were flagged or whose range ends before the head. */
  lemma PageAsks(s: Stream, page: Page)
    requires s.running.Some? && Progresses(page, s.running.value) && page.cursors.Keys <= s.scopes.Keys
    ensures var r := AfterPull(s, page);
      && r.scopes.Keys == s.scopes.Keys && r.closed == s.closed && Unflagged(r)
      && (forall c :: c in s.scopes ==>
            r.scopes[c].cursor == if c in page.cursors then page.cursors[c].to else s.scopes[c].cursor)
      && AsksFor(r, PendingIn(s) + Unfinished(page))
  {
    var moved := s.(scopes := Moved(s.scopes, page), running := None);
    NextAsks(moved);
    assert PendingIn(moved) == PendingIn(s) + Unfinished(page);
  }

  /** The scopes of a page that end before their heads. */
  function Unfinished(page: Page): set<string> {
    set c | c in page.cursors && page.cursors[c].to < page.cursors[c].head
  }

  class Subscriptions {
    var scopes: map<string, Scope>
    var running: Option<map<string, nat>>
    var closed: bool

    ghost function State(): Stream
      reads this
    {
      Stream(scopes, running, closed)
    }

    /** What is asked is among the scopes. */
    predicate Valid()
      reads this
    {
      running.Some? ==> running.value.Keys <= scopes.Keys
    }

    constructor (heads: map<string, nat>)
      ensures Valid() && State() == Opened(heads) && running == Some(Cursors(scopes)) && Cursors(scopes) == heads
    {
      scopes := map c | c in heads :: Scope(heads[c], false);
      running, closed := Some(heads), false;
      new;
      assert Cursors(scopes) == heads;
    }

    /** Listen on every scope, each once, then acknowledge the negotiated heads, then pull everything from
        exactly those. */
    method Opening(order: seq<string>) returns (actions: seq<Action>)
      requires running == Some(Cursors(scopes))
      requires NoDuplicates(order) && forall c :: c in order <==> c in scopes
      ensures |actions| == |order| + 2
      ensures forall i :: 0 <= i < |order| ==> actions[i] == Listen(order[i])
      ensures forall c :: c in scopes ==> Listen(c) in actions[..|order|]
      ensures actions[|order|] == Acknowledge(Cursors(scopes)) && actions[|order| + 1] == Pull(Cursors(scopes))
    {
      actions := seq(|order|, i requires 0 <= i < |order| => Listen(order[i]));
      ghost var listens := actions;
      forall c | c in scopes ensures Listen(c) in listens {
        assert c in order;
        var i :| 0 <= i < |order| && order[i] == c;
        assert listens[i] == Listen(c);
      }
      actions := actions + [Acknowledge(Cursors(scopes)), Pull(running.value)];
      assert actions[..|order|] == listens;
    }

    method Committed(scope: string) returns (r: Reaction)
      requires Valid()
      modifies this
      ensures Valid()
      ensures scope !in old(scopes) ==> r == Fails(InvalidEvent) && State() == old(State())
      ensures scope in old(scopes) ==> State() == AfterCommit(old(State()), scope)
      ensures scope in old(scopes) ==>
        r == Acts(if !old(closed) && old(running).None? && running.Some? then [Pull(running.value)] else [])
    {
      if scope !in scopes {
        return Fails(InvalidEvent);
      }
      scopes := scopes[scope := scopes[scope].(pending := true)];
      if closed || running.Some? {
        return Acts([]);
      }
      var pull := NextPull();
      r := Acts(pull);
    }

    /** A page no pull is outstanding for is the host's fault and changes nothing; one that does not answer the
        pull is refused, and the pull is over. */
    method Pulled(page: Page) returns (r: Reaction)
      requires Valid()
      modifies this
      ensures Valid()
      ensures old(running).None? ==> r == Fails(InvalidEvent) && State() == old(State())
      ensures old(running).Some? && old(closed) ==> r == Acts([]) && State() == old(State()).(running := None)
      ensures old(running).Some? && !old(closed) && !Progresses(page, old(running).value) ==>
        r == Fails(InvalidPage) && State() == old(State()).(running := None)
      ensures old(running).Some? && !old(closed) && Progresses(page, old(running).value) ==>
        && State() == AfterPull(old(State()), page)
        && r == Acts((if Advanced(page) then [Send(page)] else [])
                     + (if running.Some? then [Pull(running.value)] else []))
    {
      if running.None? {
        return Fails(InvalidEvent);
      }
      var asked := running.value;
      running := None;
      if closed {
        return Acts([]);
      }
      if !Progresses(page, asked) {
        return Fails(InvalidPage);
      }
      var actions := if Advanced(page) then [Send(page)] else [];
      scopes := Moved(scopes, page);
      var pull := NextPull();
      r := Acts(actions + pull);
    }

    method Closed()
      requires Valid()
      modifies this
      ensures Valid() && State() == Closing(old(State()))
    {
      closed := true;
      scopes := map c | c in scopes :: scopes[c].(pending := false);
    }

    method NextPull() returns (pull: seq<Action>)
      requires running.None?
      modifies this
      ensures Valid() && State() == Next(old(State()))
      ensures pull == if running.Some? then [Pull(running.value)] else []
      ensures AsksFor(State(), PendingIn(old(State()))) && Unflagged(State())
    {
      NextAsks(State());
      if !Waiting(scopes) {
        return [];
      }
      running := Some(Asked(scopes));
      scopes := map c | c in scopes :: scopes[c].(pending := false);
      pull := [Pull(running.value)];
    }
  }

  /** The host around one stream: heads move with commits, each commit is reported once for every scope it
      touched that is listened on, the outstanding pull runs at some moment and its page is reported later. */
  datatype Session = Session(stream: Stream, heads: map<string, nat>, listening: set<string>, events: multiset<string>,
                             answer: Option<Page>, sent: seq<Page>)

  ghost predicate Negotiated(s: Session, heads: map<string, nat>) {
    s == Session(Opened(heads), heads, {}, multiset{}, None, [])
  }

  /** One transaction: it may move every head it touches by any number of rows, and no other. Each scope it
      touched gets one event if it is listened on; one only listened on by the time it is told may get one too. */
  ghost predicate CommitStep(s: Session, s': Session, touched: set<string>, woken: set<string>) {
    && touched <= s.heads.Keys && s'.heads.Keys == s.heads.Keys && touched * s.listening <= woken <= touched
    && (forall c :: c in s.heads ==> s.heads[c] <= s'.heads[c] && (c !in touched ==> s'.heads[c] == s.heads[c]))
    && s' == s.(heads := s'.heads, events := s.events + multiset(woken))
  }

  /** Scopes are listened on one by one. */
  ghost predicate ListenStep(s: Session, s': Session, scope: string) {
    scope in s.heads && s' == s.(listening := s.listening + {scope})
  }

  /** The pull runs in one transaction, after every scope is listened on. */
  ghost predicate RunStep(s: Session, s': Session) {
    && s.heads.Keys <= s.listening && s.stream.running.Some? && s.answer.None? && s'.answer.Some?
    && s' == s.(answer := s'.answer)
    && Progresses(s'.answer.value, s.stream.running.value)
    && forall c :: c in s'.answer.value.cursors ==> c in s.heads && AtHead(s'.answer.value.cursors[c], s.heads[c])
  }

  /** A range built at this head, advancing unless there is nothing more. */
  predicate AtHead(range: Range, head: nat) {
    range.head == head && (range.from < head ==> range.from < range.to)
  }

  ghost predicate ReportStep(s: Session, s': Session) {
    && s.answer.Some? && !s.stream.closed && s.stream.running.Some?
    && s' == s.(stream := AfterPull(s.stream, s.answer.value), answer := None,
                sent := s.sent + if Advanced(s.answer.value) then [s.answer.value] else [])
  }

  ghost predicate NotifyStep(s: Session, s': Session, scope: string) {
    && scope in s.events && scope in s.stream.scopes
    && s' == s.(stream := AfterCommit(s.stream, scope), events := s.events - multiset{scope})
  }

  ghost predicate CloseStep(s: Session, s': Session) {
    s' == s.(stream := Closing(s.stream))
  }

  ghost predicate Moves(s: Session, s': Session) {
    || (exists touched, woken :: CommitStep(s, s', touched, woken))
    || (exists scope :: ListenStep(s, s', scope))
    || RunStep(s, s') || ReportStep(s, s')
    || (exists scope :: NotifyStep(s, s', scope))
    || CloseStep(s, s')
  }

  /** A scope's progress so far has a reason to go on: a flag, an undelivered event, or the outstanding
      pull, unless that already saw the head. */
  predicate Obliged(s: Session, c: string)
    requires c in s.stream.scopes && c in s.heads
  {
    || s.stream.scopes[c].pending || c in s.events
    || (s.stream.running.Some? && c in s.stream.running.value &&
        (s.answer.None? || (c in s.answer.value.cursors && s.answer.value.cursors[c].head == s.heads[c])))
  }

  ghost predicate ScopeOk(s: Session, c: string) {
    c in s.stream.scopes ==>
      && c in s.heads && s.stream.scopes[c].cursor <= s.heads[c]
      && (!s.stream.closed && s.stream.scopes[c].cursor < s.heads[c] ==> Obliged(s, c))
      && (s.stream.running.Some? && c in s.stream.running.value ==>
            s.stream.running.value[c] == s.stream.scopes[c].cursor)
      && (s.answer.Some? && c in s.answer.value.cursors ==> s.answer.value.cursors[c].head <= s.heads[c])
  }

  /** Until a scope is listened on the first pull is outstanding and covers it. */
  ghost predicate FirstPull(s: Session) {
    !(s.heads.Keys <= s.listening) ==>
      s.answer.None? && s.stream.running.Some? && s.stream.scopes.Keys <= s.stream.running.value.Keys
  }

  ghost predicate Sound(s: Session) {
    && (forall c :: ScopeOk(s, c))
    && s.stream.scopes.Keys == s.heads.Keys
    && FirstPull(s)
    && (s.stream.running.Some? ==> s.stream.running.value.Keys <= s.stream.scopes.Keys)
    && (s.answer.Some? ==> s.stream.running.Some? && Progresses(s.answer.value, s.stream.running.value))
    && (s.stream.running.None? && !s.stream.closed ==> !Waiting(s.stream.scopes))
  }

  lemma Starts(s: Session, heads: map<string, nat>)
    requires Negotiated(s, heads)
    ensures Sound(s)
  {
  }

  lemma CommitSound(s: Session, s': Session, touched: set<string>, woken: set<string>)
    requires Sound(s) && CommitStep(s, s', touched, woken)
    ensures Sound(s')
  {
    forall c ensures ScopeOk(s', c) {
      assert ScopeOk(s, c);
      if c in woken { assert c in s'.events; }
    }
  }

  lemma RunSound(s: Session, s': Session)
    requires Sound(s) && RunStep(s, s')
    ensures Sound(s')
  {
    forall c ensures ScopeOk(s', c) { assert ScopeOk(s, c); }
  }

  /** Taking the pending scopes moves each flag into the pull. */
  lemma NextTakes(s: Stream)
    requires s.running.None?
    ensures var n := Next(s);
      && n.scopes.Keys == s.scopes.Keys && n.closed == s.closed
      && (forall c :: c in s.scopes ==> n.scopes[c] == Scope(s.scopes[c].cursor, false))
      && (forall c :: c in s.scopes && s.scopes[c].pending ==> n.running.Some? && c in n.running.value)
      && (n.running.Some? ==>
            forall c :: c in n.running.value ==> c in s.scopes && n.running.value[c] == s.scopes[c].cursor)
  {
    var n := Next(s);
    if !Waiting(s.scopes) {
      forall c | c in s.scopes ensures s.scopes[c] == Scope(s.scopes[c].cursor, false) { }
    }
  }

  lemma NotifySound(s: Session, s': Session, scope: string)
    requires Sound(s) && NotifyStep(s, s', scope)
    ensures Sound(s')
  {
    var marked := Marked(s.stream, scope);
    if s.stream.running.None? { NextTakes(marked); }
    forall c ensures ScopeOk(s', c) { assert ScopeOk(s, c); }
  }

  lemma ReportSound(s: Session, s': Session)
    requires Sound(s) && ReportStep(s, s')
    ensures Sound(s')
  {
    var page := s.answer.value;
    var moved := s.stream.(scopes := Moved(s.stream.scopes, page), running := None);
    NextTakes(moved);
    forall c ensures ScopeOk(s', c) {
      assert ScopeOk(s, c);
      if c in s.stream.scopes && c in page.cursors { assert page.cursors[c].to <= page.cursors[c].head; }
    }
  }

  lemma CloseSound(s: Session, s': Session)
    requires Sound(s) && CloseStep(s, s')
    ensures Sound(s')
  {
    forall c ensures ScopeOk(s', c) { assert ScopeOk(s, c); }
  }

  lemma MovesSound(s: Session, s': Session)
    requires Sound(s) && Moves(s, s')
    ensures Sound(s')
  {
    if exists touched, woken :: CommitStep(s, s', touched, woken) {
      var touched, woken :| CommitStep(s, s', touched, woken);
      CommitSound(s, s', touched, woken);
    } else if exists scope :: ListenStep(s, s', scope) {
      forall c ensures ScopeOk(s', c) { assert ScopeOk(s, c); }
    } else if RunStep(s, s') {
      RunSound(s, s');
    } else if ReportStep(s, s') {
      ReportSound(s, s');
    } else if exists scope :: NotifyStep(s, s', scope) {
      var scope :| NotifyStep(s, s', scope);
      NotifySound(s, s', scope);
    } else {
      CloseSound(s, s');
    }
  }

  /** No wake-up is lost: an open stream with no pull outstanding and no event undelivered has streamed
      every scope to its head. */
  lemma QuietMeansCurrent(s: Session, c: string)
    requires Sound(s) && !s.stream.closed && s.stream.running.None? && c !in s.events && c in s.stream.scopes
    ensures s.stream.scopes[c].cursor == s.heads[c]
  {
    assert ScopeOk(s, c);
  }

  /** Where a scope's pages lead from a cursor, if each starts where the one before it ended. */
  function Streamed(sent: seq<Page>, c: string, from: nat): Option<nat> {
    if sent == [] then Some(from)
    else
      var front, last := sent[..|sent| - 1], sent[|sent| - 1];
      match Streamed(front, c, from)
      case None => None
      case Some(at) =>
        if c !in last.cursors then Some(at)
        else if last.cursors[c].from == at then Some(last.cursors[c].to)
        else None
  }

  predicate ChainOk(s: Session, heads: map<string, nat>, c: string) {
    c in s.stream.scopes ==> c in heads && Streamed(s.sent, c, heads[c]) == Some(s.stream.scopes[c].cursor)
  }

  ghost predicate Chained(s: Session, heads: map<string, nat>) {
    forall c :: ChainOk(s, heads, c)
  }

  lemma StreamedSnoc(sent: seq<Page>, page: Page, c: string, from: nat)
    ensures Streamed(sent + [page], c, from) ==
      match Streamed(sent, c, from)
      case None => None
      case Some(at) =>
        if c !in page.cursors then Some(at) else if page.cursors[c].from == at then Some(page.cursors[c].to) else None
  {
    assert (sent + [page])[..|sent|] == sent;
  }

  lemma ScopeChained(s: Session, heads: map<string, nat>, page: Page, c: string)
    requires ScopeOk(s, c) && ChainOk(s, heads, c) && c in s.stream.scopes
    requires s.stream.running.Some? && Progresses(page, s.stream.running.value)
    ensures Streamed(s.sent + (if Advanced(page) then [page] else []), c, heads[c]) ==
      Some(if c in page.cursors then page.cursors[c].to else s.stream.scopes[c].cursor)
  {
    StreamedSnoc(s.sent, page, c, heads[c]);
    assert s.sent + [] == s.sent;
    if c in page.cursors {
      assert page.cursors[c].from == s.stream.running.value[c] == s.stream.scopes[c].cursor;
      assert page.cursors[c].from <= page.cursors[c].to;
    }
  }

  lemma ReportChained(s: Session, s': Session, heads: map<string, nat>)
    requires Sound(s) && Chained(s, heads) && ReportStep(s, s')
    ensures Chained(s', heads)
  {
    var page := s.answer.value;
    NextTakes(s.stream.(scopes := Moved(s.stream.scopes, page), running := None));
    forall c ensures ChainOk(s', heads, c) {
      assert ChainOk(s, heads, c) && ScopeOk(s, c);
      if c in s.stream.scopes { ScopeChained(s, heads, page, c); }
    }
  }

  lemma MovesChained(s: Session, s': Session, heads: map<string, nat>)
    requires Sound(s) && Chained(s, heads) && Moves(s, s')
    ensures Chained(s', heads)
  {
    if ReportStep(s, s') {
      ReportChained(s, s', heads);
    } else {
      SameCursors(s, s');
      forall c ensures ChainOk(s', heads, c) { assert ChainOk(s, heads, c); }
    }
  }

  predicate Stays(s: Session, s': Session) {
    && s'.sent == s.sent && s'.stream.scopes.Keys == s.stream.scopes.Keys
    && forall c :: c in s.stream.scopes ==> s'.stream.scopes[c].cursor == s.stream.scopes[c].cursor
  }

  /** Only a reported page moves cursors or sends anything. */
  lemma SameCursors(s: Session, s': Session)
    requires Moves(s, s') && !ReportStep(s, s')
    ensures Stays(s, s')
  {
    if exists scope :: NotifyStep(s, s', scope) {
      var scope :| NotifyStep(s, s', scope);
      NotifyStays(s, s', scope);
    } else if CloseStep(s, s') {
      CloseStays(s, s');
    }
  }

  lemma CloseStays(s: Session, s': Session)
    requires CloseStep(s, s')
    ensures Stays(s, s')
  {
  }

  lemma NotifyStays(s: Session, s': Session, scope: string)
    requires NotifyStep(s, s', scope)
    ensures Stays(s, s')
  {
    if s.stream.running.None? { NextTakes(Marked(s.stream, scope)); }
  }

  ghost predicate Session0(states: seq<Session>, heads: map<string, nat>) {
    && states != [] && Negotiated(states[0], heads)
    && forall i :: 0 <= i < |states| - 1 ==> Moves(states[i], states[i + 1])
  }

  lemma {:induction false} StreamAlways(states: seq<Session>, heads: map<string, nat>, n: nat)
    requires Session0(states, heads) && n < |states|
    ensures Sound(states[n]) && Chained(states[n], heads)
  {
    if n == 0 {
      Starts(states[0], heads);
    } else {
      StreamAlways(states, heads, n - 1);
      assert Moves(states[n - 1], states[n - 1 + 1]);
      MovesSound(states[n - 1], states[n]);
      MovesChained(states[n - 1], states[n], heads);
    }
  }

  /** No wake-up is lost, in any run: while the stream is open a scope behind its head has a flag, an
      undelivered event or an outstanding pull that will see it; with none of these it is at its head;
      and what was sent leads from the negotiated head to the cursor without a hole. */
  lemma NoLostWakeUp(states: seq<Session>, heads: map<string, nat>, n: nat, c: string)
    requires Session0(states, heads) && n < |states| && c in states[n].stream.scopes && c in states[n].heads
    ensures var s := states[n];
      && c in heads && Streamed(s.sent, c, heads[c]) == Some(s.stream.scopes[c].cursor)
      && (!s.stream.closed && s.stream.scopes[c].cursor < s.heads[c] ==> Obliged(s, c))
      && (!s.stream.closed && s.stream.running.None? && c !in s.events ==> s.stream.scopes[c].cursor == s.heads[c])
  {
    StreamAlways(states, heads, n);
    assert ChainOk(states[n], heads, c) && ScopeOk(states[n], c);
    if !states[n].stream.closed && states[n].stream.running.None? && c !in states[n].events {
      QuietMeansCurrent(states[n], c);
    }
  }
}
