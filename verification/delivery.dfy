/** Exactly once, end to end. */
module Delivery {
  import opened Options
  import opened Records
  import opened Queue
  import opened Optimism
  import opened Authorities
  import opened Foldings
  import opened Upkeep
  import opened Messages
  import opened Graphs
  import opened Engines
  import opened Batches
  import opened Storage
  import opened Servers
  import opened Protocol
  import opened Pushing
  import Pages

  predicate Answered(act: Act, rejected: set<nat>, covered: set<Key>) {
    act.ordinal !in rejected ==> KeysOf(act.operations) <= covered
  }

  predicate AllAnswered(acts: seq<Act>, rejected: set<nat>, covered: set<Key>) {
    forall i :: 0 <= i < |acts| ==> Answered(acts[i], rejected, covered)
  }

  /** The receipt fits the batch: it rejects nothing else, and answers every record the rest uploaded. */
  ghost predicate Fits(acts: seq<Act>, receipt: Receipt) {
    && (forall o :: o in receipt.rejections ==> Ordinal(acts, o))
    && AllAnswered(acts, receipt.rejections.Keys, CoveredKeys(receipt.records))
  }

  function Claim(w: World, s: System, id: string): Claimed {
    ClaimOf(s.server.clients, w.owners(id), id)
  }

  /** The server is level with the client, or one batch ahead: the one in flight. */
  ghost predicate InStep(c: Replica, claimed: Claimed) {
    || claimed.sequence == c.books.completed
    || (Ahead(c, claimed) && c.declared.Some? && claimed.receipt.Some?
        && Fits(Flight(c.books.queue), claimed.receipt.value))
  }

  predicate Ahead(c: Replica, claimed: Claimed) {
    claimed.sequence == c.books.completed + 1
  }

  /** The last receipt is remembered and was sent. */
  predicate Remembered(id: string, claimed: Claimed, network: set<Message>) {
    claimed.sequence > 0 ==>
      claimed.receipt.Some? && Reply(claimed.receipt.value) in network
      && claimed.receipt.value.clientId == id && claimed.receipt.value.sequence == claimed.sequence
  }

  /** What took effect is what receipts accepted, and what the receipt under way accepts; each once. */
  ghost predicate Accounted(c: Replica, claimed: Claimed, done: seq<nat>) {
    && NoDuplicates(done)
    && forall o :: o in done <==> o in c.books.accepted || Pending(c, claimed, o)
  }

  predicate Pending(c: Replica, claimed: Claimed, o: nat) {
    && Ahead(c, claimed) && claimed.receipt.Some? && o in InPush(c.books.queue, claimed.sequence)
    && o !in claimed.receipt.value.rejections
  }

  ghost predicate ClientOk(id: string, owner: string, c: Replica, claimed: Claimed, network: set<Message>,
                           done: seq<nat>)
  {
    && Steady(c.books) && (c.declared.Some? <==> c.books.frozen)
    && claimed.owner == owner
    && InStep(c, claimed) && Remembered(id, claimed, network) && Accounted(c, claimed, done)
  }

  predicate UploadOk(id: string, c: Replica, request: Request) {
    && 1 <= request.sequence <= c.books.completed + 1
    && (request.sequence == c.books.completed + 1 ==> c.declared.Some? && request == Sends(id, c))
  }

  predicate ReplyOk(claimed: Claimed, receipt: Receipt) {
    && 1 <= receipt.sequence <= claimed.sequence
    && (receipt.sequence == claimed.sequence ==> claimed.receipt == Some(receipt))
  }

  ghost predicate MessageOk(w: World, s: System, m: Message) {
    match m
    case Upload(request) =>
      request.clientId in s.clients && UploadOk(request.clientId, s.clients[request.clientId], request)
    case Reply(receipt) => receipt.clientId in s.clients && ReplyOk(Claim(w, s, receipt.clientId), receipt)
    case Changes(_) => true
  }

  ghost predicate SameReplies(network: set<Message>) {
    forall a, b ::
      Reply(a) in network && Reply(b) in network && a.clientId == b.clientId && a.sequence == b.sequence ==>
      a == b
  }

  ghost predicate IdOk(w: World, s: System, id: string) {
    id in s.clients ==> ClientOk(id, w.owners(id), s.clients[id], Claim(w, s, id), s.network, CommitsOf(s, id))
  }

  ghost predicate DeliveryOk(w: World, s: System) {
    && (forall id :: IdOk(w, s, id))
    && (forall id :: id !in s.clients ==> id !in s.server.clients && id !in s.commits)
    && (forall m :: m in s.network ==> MessageOk(w, s, m))
    && SameReplies(s.network)
    && WellKept(s.server.tables)
  }

  lemma {:induction false} FlightHas(queue: seq<Queued>, o: nat)
    ensures Ordinal(Flight(queue), o) <==> exists i :: 0 <= i < |queue| && queue[i].push.Some? && queue[i].ordinal == o
  {
    if queue != [] {
      FlightHas(queue[1..], o);
      var rest := Flight(queue[1..]);
      if queue[0].push.Some? {
        OrdinalCons([Sent(queue[0])] + rest);
        assert ([Sent(queue[0])] + rest)[1..] == rest;
      } else {
        assert Flight(queue) == rest;
      }
      if exists i :: 0 <= i < |queue| && queue[i].push.Some? && queue[i].ordinal == o {
        var i :| 0 <= i < |queue| && queue[i].push.Some? && queue[i].ordinal == o;
        assert i > 0 ==> queue[1..][i - 1] == queue[i];
      }
      if exists i :: 0 <= i < |queue[1..]| && queue[1..][i].push.Some? && queue[1..][i].ordinal == o {
        var i :| 0 <= i < |queue[1..]| && queue[1..][i].push.Some? && queue[1..][i].ordinal == o;
        assert queue[i + 1] == queue[1..][i];
      }
    }
  }

  /** The encoded mutations are those of the push in flight. */
  lemma FlightIsPush(queue: seq<Queued>, nextPush: nat, completed: nat, o: nat)
    requires Launched(queue, nextPush, completed)
    ensures Ordinal(Flight(queue), o) <==> o in InPush(queue, completed + 1)
  {
    FlightHas(queue, o);
  }

  lemma {:induction false} FlightDistinct(queue: seq<Queued>)
    requires Increasing(queue)
    ensures Distinct(Flight(queue))
  {
    if queue != [] {
      var tail := queue[1..];
      forall i, j | 0 <= i < j < |tail| ensures tail[i].ordinal < tail[j].ordinal {
        assert tail[i] == queue[i + 1] && tail[j] == queue[j + 1];
      }
      FlightDistinct(tail);
      if queue[0].push.Some? {
        var rest := Flight(tail);
        forall j | 0 <= j < |rest| ensures rest[j].ordinal != queue[0].ordinal {
          assert Ordinal(rest, rest[j].ordinal);
          FlightHas(tail, rest[j].ordinal);
          var i :| 0 <= i < |tail| && tail[i].push.Some? && tail[i].ordinal == rest[j].ordinal;
          assert tail[i] == queue[i + 1];
        }
      }
    }
  }

  predicate Takes(queue: seq<Queued>, took: set<nat>, rejected: set<nat>) {
    forall i :: 0 <= i < |queue| && queue[i].ordinal in took ==> queue[i].push.Some? && queue[i].ordinal !in rejected
  }

  lemma {:induction false} AcceptedWire(queue: seq<Queued>, took: set<nat>, rejected: set<nat>, covered: set<Key>)
    requires Takes(queue, took, rejected) && AllAnswered(Flight(queue), rejected, covered)
    ensures WireKeys(Only(queue, took)) <= covered
  {
    if queue != [] {
      var tail := queue[1..];
      TakesTail(queue, took, rejected);
      AnsweredTail(queue, rejected, covered);
      AcceptedWire(tail, took, rejected, covered);
      if queue[0].ordinal in took {
        assert Answered(Sent(queue[0]), rejected, covered);
        assert Only(queue, took)[1..] == Only(tail, took);
      } else {
        assert Only(queue, took) == Only(tail, took);
      }
    }
  }

  lemma TakesTail(queue: seq<Queued>, took: set<nat>, rejected: set<nat>)
    requires queue != [] && Takes(queue, took, rejected)
    ensures Takes(queue[1..], took, rejected)
  {
    var tail := queue[1..];
    forall i | 0 <= i < |tail| && tail[i].ordinal in took ensures tail[i].push.Some? && tail[i].ordinal !in rejected {
      assert tail[i] == queue[i + 1];
    }
  }

  lemma AnsweredTail(queue: seq<Queued>, rejected: set<nat>, covered: set<Key>)
    requires queue != [] && AllAnswered(Flight(queue), rejected, covered)
    ensures AllAnswered(Flight(queue[1..]), rejected, covered)
    ensures queue[0].push.Some? ==> Answered(Sent(queue[0]), rejected, covered)
  {
    var acts, rest := Flight(queue), Flight(queue[1..]);
    assert queue[0].push.None? ==> acts == rest;
    assert queue[0].push.Some? ==> acts[0] == Sent(queue[0]);
    forall i | 0 <= i < |rest| ensures Answered(rest[i], rejected, covered) {
      assert rest[i] == acts[if queue[0].push.Some? then i + 1 else i];
    }
  }

  /** A receipt that fits the push in flight completes it: nothing about it is refused. */
  lemma FittingCompletes(id: string, b: Books, receipt: Receipt)
    requires Steady(b) && b.frozen && Fits(Flight(b.queue), receipt)
    requires receipt.clientId == id && receipt.sequence == b.completed + 1
    ensures Judge(id, b.completed, b.queue, receipt.sequence, receipt) == None
  {
    var took := Taken(b.queue, receipt);
    forall o | o in receipt.rejections ensures o in InPush(b.queue, receipt.sequence) {
      FlightIsPush(b.queue, b.nextPush, b.completed, o);
    }
    forall i | 0 <= i < |b.queue| && b.queue[i].ordinal in took
      ensures b.queue[i].push.Some? && b.queue[i].ordinal !in receipt.rejections.Keys
    {
      var j :| 0 <= j < |b.queue| && b.queue[j].push == Some(receipt.sequence)
               && b.queue[j].ordinal == b.queue[i].ordinal;
      SameOrdinal(b.queue, i, j);
    }
    AcceptedWire(b.queue, took, receipt.rejections.Keys, CoveredKeys(receipt.records));
  }

  lemma {:induction false} EffectsAre(acts: seq<Act>, rejected: set<nat>)
    requires Distinct(acts)
    ensures NoDuplicates(Effects(acts, rejected))
    ensures forall o :: o in Effects(acts, rejected) <==> Ordinal(acts, o) && o !in rejected
  {
    if acts != [] {
      var tail := acts[1..];
      forall i, j | 0 <= i < j < |tail| ensures tail[i].ordinal != tail[j].ordinal {
        assert tail[i] == acts[i + 1] && tail[j] == acts[j + 1];
      }
      EffectsAre(tail, rejected);
      OrdinalCons(acts);
      forall i | 0 <= i < |tail| ensures tail[i].ordinal != acts[0].ordinal {
        assert tail[i] == acts[i + 1];
      }
      if acts[0].ordinal !in rejected { Appended([acts[0].ordinal], Effects(tail, rejected)); }
    }
  }

  /** No receipt the network may deliver is ever refused: it is the one for the push in flight, or stale. */
  lemma ReceiptsAreNeverRefused(w: World, s: System, receipt: Receipt)
    requires DeliveryOk(w, s) && Reply(receipt) in s.network
    ensures receipt.clientId in s.clients
    ensures var c := s.clients[receipt.clientId];
      var verdict := Judge(receipt.clientId, c.books.completed, c.books.queue, receipt.sequence, receipt);
      if receipt.sequence <= c.books.completed then verdict == Some(Stale) else verdict == None
  {
    assert MessageOk(w, s, Reply(receipt));
    var id := receipt.clientId;
    assert IdOk(w, s, id);
    var c := s.clients[id];
    if receipt.sequence > c.books.completed { FittingCompletes(id, c.books, receipt); }
  }

  lemma SamePush(queue: seq<Queued>, queue': seq<Queued>, nextPush: nat, nextPush': nat, completed: nat)
    requires Launched(queue, nextPush, completed) && Launched(queue', nextPush', completed)
    requires Flight(queue') == Flight(queue)
    ensures InPush(queue', completed + 1) == InPush(queue, completed + 1)
  {
    var after, before := InPush(queue', completed + 1), InPush(queue, completed + 1);
    forall o ensures o in after <==> o in before {
      FlightIsPush(queue, nextPush, completed, o);
      FlightIsPush(queue', nextPush', completed, o);
    }
  }

  /** Anything that leaves the push in flight alone. */
  lemma SameFlightKeeps(id: string, owner: string, c: Replica, c': Replica, claimed: Claimed, network: set<Message>,
                        done: seq<nat>)
    requires ClientOk(id, owner, c, claimed, network, done)
    requires Steady(c'.books) && Flight(c'.books.queue) == Flight(c.books.queue) && c'.declared == c.declared
    requires c'.books.completed == c.books.completed && c'.books.frozen == c.books.frozen
    requires c'.books.accepted == c.books.accepted
    ensures ClientOk(id, owner, c', claimed, network, done)
    ensures forall request :: UploadOk(id, c, request) ==> UploadOk(id, c', request)
  {
    SamePush(c.books.queue, c'.books.queue, c.books.nextPush, c'.books.nextPush, c.books.completed);
    forall o ensures Pending(c', claimed, o) <==> Pending(c, claimed, o) {
    }
  }

  lemma FreezeKeeps(id: string, owner: string, c: Replica, c': Replica, claimed: Claimed, network: set<Message>,
                    done: seq<nat>)
    requires ClientOk(id, owner, c, claimed, network, done) && FreezeStep(c, c')
    ensures ClientOk(id, owner, c', claimed, network, done)
    ensures forall request :: UploadOk(id, c, request) ==> UploadOk(id, c', request)
    ensures UploadOk(id, c', Sends(id, c'))
  {
    var size, maxBytes :| Freezes(c.books, c'.books, size, maxBytes);
    SteadyFreezes(c.books, size, maxBytes);
    forall o ensures !Pending(c', claimed, o) && !Pending(c, claimed, o) {
    }
  }

  /** The receipt of the push in flight completes it: what it accepts moves from pending to accepted. */
  lemma ReceiptKeeps(w: World, id: string, c: Replica, c': Replica, claimed: Claimed, network: set<Message>,
                     done: seq<nat>, receipt: Receipt)
    requires ClientOk(id, w.owners(id), c, claimed, network, done) && ReceiptStep(w, id, c, c', receipt)
    requires receipt.clientId == id ==> ReplyOk(claimed, receipt)
    ensures ClientOk(id, w.owners(id), c', claimed, network, done)
    ensures forall request :: UploadOk(id, c, request) ==> UploadOk(id, c', request)
  {
    if Judge(id, c.books.completed, c.books.queue, receipt.sequence, receipt) == None {
      CompletingIsSteady(c.books, id, receipt);
      SteadyExtends(Completing(c.books, receipt), c'.books.queue);
      assert claimed.sequence == receipt.sequence && claimed.receipt == Some(receipt);
      forall o
        ensures !Pending(c', claimed, o)
        ensures (o in c'.books.accepted <==> o in c.books.accepted || Pending(c, claimed, o))
      {
      }
    }
  }

  lemma PageKeeps(w: World, id: string, c: Replica, c': Replica, claimed: Claimed, network: set<Message>,
                  done: seq<nat>, page: Pages.Page)
    requires ClientOk(id, w.owners(id), c, claimed, network, done) && PageStep(w, c, c', page)
    ensures ClientOk(id, w.owners(id), c', claimed, network, done)
    ensures forall request :: UploadOk(id, c, request) ==> UploadOk(id, c', request)
  {
    if c' != c {
      SteadyExtends(c.books, c'.books.queue);
      SameFlightKeeps(id, w.owners(id), c, c', claimed, network, done);
    }
  }

  lemma MoreNetwork(id: string, owner: string, c: Replica, claimed: Claimed, network: set<Message>,
                    network': set<Message>, done: seq<nat>)
    requires ClientOk(id, owner, c, claimed, network, done) && network <= network'
    ensures ClientOk(id, owner, c, claimed, network', done)
  {
  }

  lemma AnyReceiptKeeps(w: World, s: System, id: string, c': Replica, done: seq<nat>)
    requires DeliveryOk(w, s) && id in s.clients && GetsReceipt(w, s.network, id, s.clients[id], c')
    requires ClientOk(id, w.owners(id), s.clients[id], Claim(w, s, id), s.network, done)
    ensures ClientOk(id, w.owners(id), c', Claim(w, s, id), s.network, done)
    ensures forall request :: UploadOk(id, s.clients[id], request) ==> UploadOk(id, c', request)
  {
    var receipt :| Reply(receipt) in s.network && ReceiptStep(w, id, s.clients[id], c', receipt);
    assert MessageOk(w, s, Reply(receipt));
    ReceiptKeeps(w, id, s.clients[id], c', Claim(w, s, id), s.network, done, receipt);
  }

  lemma AnyPageKeeps(w: World, s: System, id: string, c': Replica, done: seq<nat>)
    requires id in s.clients && GetsPage(w, s.network, s.clients[id], c')
    requires ClientOk(id, w.owners(id), s.clients[id], Claim(w, s, id), s.network, done)
    ensures ClientOk(id, w.owners(id), c', Claim(w, s, id), s.network, done)
    ensures forall request :: UploadOk(id, s.clients[id], request) ==> UploadOk(id, c', request)
  {
    var page :| Changes(page) in s.network && PageStep(w, s.clients[id], c', page);
    PageKeeps(w, id, s.clients[id], c', Claim(w, s, id), s.network, done, page);
  }

  /** Every step of one client keeps that client. */
  lemma ClientKeeps(w: World, s: System, s': System, id: string)
    requires DeliveryOk(w, s) && ClientMoves(w, s, s', id)
    ensures IdOk(w, s', id) && s.network <= s'.network
    ensures forall request :: UploadOk(id, s.clients[id], request) ==> UploadOk(id, s'.clients[id], request)
    ensures forall m :: m in s'.network && m !in s.network ==>
      m.Upload? && m.request.clientId == id && UploadOk(id, s'.clients[id], m.request)
  {
    var c, c', claimed, owner, done := s.clients[id], s'.clients[id], Claim(w, s, id), w.owners(id), CommitsOf(s, id);
    assert IdOk(w, s, id);
    if MovesLocally(c, c') && s'.network == s.network {
      SameFlightKeeps(id, owner, c, c', claimed, s.network, done);
    } else if FreezeStep(c, c') && s'.network == s.network + {Upload(Sends(id, c'))} {
      FreezeKeeps(id, owner, c, c', claimed, s.network, done);
      MoreNetwork(id, owner, c', claimed, s.network, s'.network, done);
    } else if c' == c && c.declared.Some? && s'.network == s.network + {Upload(Sends(id, c))} {
      MoreNetwork(id, owner, c, claimed, s.network, s'.network, done);
    } else if GetsReceipt(w, s.network, id, c, c') {
      AnyReceiptKeeps(w, s, id, c', done);
    } else if GetsPage(w, s.network, c, c') {
      AnyPageKeeps(w, s, id, c', done);
    } else {
      assert SubscribeStep(c, c') && s'.network == s.network;
      SameFlightKeeps(id, owner, c, c', claimed, s.network, done);
    }
  }

  lemma ClientMoveKeeps(w: World, s: System, s': System, id: string)
    requires DeliveryOk(w, s) && ClientMoves(w, s, s', id)
    ensures DeliveryOk(w, s')
  {
    ClientKeeps(w, s, s', id);
    forall other ensures IdOk(w, s', other) {
      assert IdOk(w, s, other);
      if other != id && other in s.clients {
        MoreNetwork(other, w.owners(other), s.clients[other], Claim(w, s, other), s.network, s'.network,
                    CommitsOf(s, other));
      }
    }
    forall m | m in s'.network ensures MessageOk(w, s', m) {
      if m in s.network { assert MessageOk(w, s, m); }
    }
  }

  /** A new batch is accepted only when it is the one in flight and the server had not seen it. */
  lemma NewBatchIsFlight(w: World, s: System, request: Request)
    requires DeliveryOk(w, s) && Upload(request) in s.network
    requires request.sequence == Claim(w, s, request.clientId).sequence + 1
    ensures request.clientId in s.clients
    ensures var c := s.clients[request.clientId];
      c.declared.Some? && request == Sends(request.clientId, c) && request.sequence == c.books.completed + 1
  {
    assert MessageOk(w, s, Upload(request));
    assert IdOk(w, s, request.clientId);
  }

  /** No upload ever arrives ahead of the server: retries and reordering cannot open a gap, and the push
      in flight is either new or answered from storage, never an overlap. */
  lemma NeverAGap(w: World, s: System, request: Request)
    requires DeliveryOk(w, s) && Upload(request) in s.network
    ensures var claimed := Claim(w, s, request.clientId);
      var decided := Decided(claimed, w.owners(request.clientId), request.sequence);
      && decided != Some(Erred(Gap)) && decided != Some(Erred(OwnerMismatch)) && decided != Some(Erred(ReceiptMissing))
      && request.clientId in s.clients
      && (request.sequence == s.clients[request.clientId].books.completed + 1 ==> decided != Some(Erred(Overlap)))
  {
    assert MessageOk(w, s, Upload(request));
    assert IdOk(w, s, request.clientId);
  }

  lemma NewCommits(c: Replica, claimed: Claimed, claimed': Claimed, done: seq<nat>, receipt: Receipt)
    requires Steady(c.books) && c.books.frozen && c.declared.Some? && Accounted(c, claimed, done)
    requires claimed.sequence == c.books.completed
    requires claimed' == Claimed(claimed.owner, c.books.completed + 1, Some(receipt))
    ensures Accounted(c, claimed', done + Effects(Flight(c.books.queue), receipt.rejections.Keys))
  {
    var acts, rejected := Flight(c.books.queue), receipt.rejections.Keys;
    FlightDistinct(c.books.queue);
    EffectsAre(acts, rejected);
    forall o ensures o in Effects(acts, rejected) <==> Pending(c, claimed', o) {
      FlightIsPush(c.books.queue, c.books.nextPush, c.books.completed, o);
    }
    forall o | o in Effects(acts, rejected) ensures o !in done {
      assert o in InPush(c.books.queue, claimed'.sequence);
      assert o in Ordinals(c.books.queue);
    }
    Appended(done, Effects(acts, rejected));
  }

  /** Accepting the batch in flight: its receipt fits, and its effects are new. */
  lemma AcceptKeeps(w: World, b: Backend, s: System, s': System, request: Request)
    requires DeliveryOk(w, s) && DeliverStep(w, b, s, s', request)
    requires Delivered(b, w.owners(request.clientId), request, s.server).0.Answered?
    requires request.sequence == Claim(w, s, request.clientId).sequence + 1
    ensures IdOk(w, s', request.clientId)
    ensures var receipt := Delivered(b, w.owners(request.clientId), request, s.server).0.receipt;
      && Claim(w, s', request.clientId) == Claimed(w.owners(request.clientId), request.sequence, Some(receipt))
      && receipt.clientId == request.clientId && receipt.sequence == request.sequence
  {
    var id := request.clientId;
    var owner, claimed := w.owners(id), Claim(w, s, id);
    NewBatchIsFlight(w, s, request);
    assert IdOk(w, s, id);
    var c := s.clients[id];
    FlightDistinct(c.books.queue);
    NextBatchCompletes(b, owner, request, s.server);
    var receipt := Delivered(b, owner, request, s.server).0.receipt;
    assert Fits(Flight(c.books.queue), receipt);
    NewCommits(c, claimed, Claim(w, s', id), CommitsOf(s, id), receipt);
  }

  lemma DeliverKeeps(w: World, b: Backend, s: System, s': System, request: Request)
    requires DeliveryOk(w, s) && DeliverStep(w, b, s, s', request)
    ensures DeliveryOk(w, s')
  {
    var id := request.clientId;
    var owner, claimed := w.owners(id), Claim(w, s, id);
    var r := Delivered(b, owner, request, s.server);
    DeliveredKeeps(b, owner, request, s.server);
    NeverAGap(w, s, request);
    if r.0.Answered? && request.sequence == claimed.sequence + 1 {
      AcceptKeeps(w, b, s, s', request);
      NewReply(w, s, s', id, r.0.receipt);
    } else {
      OldReply(w, b, s, s', request);
    }
  }

  /** Everyone else is untouched by a new receipt. */
  lemma NewReply(w: World, s: System, s': System, id: string, receipt: Receipt)
    requires DeliveryOk(w, s) && IdOk(w, s', id) && id in s.clients && s'.clients == s.clients
    requires WellKept(s'.server.tables)
    requires s'.network == s.network + {Reply(receipt)} && receipt.clientId == id
    requires receipt.sequence == Claim(w, s, id).sequence + 1
    requires Claim(w, s', id) == Claimed(w.owners(id), receipt.sequence, Some(receipt))
    requires forall other :: other != id ==>
      Claim(w, s', other) == Claim(w, s, other) && CommitsOf(s', other) == CommitsOf(s, other)
    requires forall other :: other !in s.clients ==> other !in s'.server.clients && other !in s'.commits
    ensures DeliveryOk(w, s')
  {
    forall other ensures IdOk(w, s', other) {
      assert IdOk(w, s, other);
      if other != id && other in s.clients {
        MoreNetwork(other, w.owners(other), s.clients[other], Claim(w, s, other), s.network, s'.network,
                    CommitsOf(s, other));
      }
    }
    forall m | m in s'.network ensures MessageOk(w, s', m) {
      if m in s.network { assert MessageOk(w, s, m); }
    }
    forall x, y | Reply(x) in s'.network && Reply(y) in s'.network
                  && x.clientId == y.clientId && x.sequence == y.sequence
      ensures x == y
    {
      if Reply(x) in s.network { assert MessageOk(w, s, Reply(x)); }
      if Reply(y) in s.network { assert MessageOk(w, s, Reply(y)); }
    }
  }

  /** A repeat is answered with the stored receipt; a refused or broken delivery changes nothing. */
  lemma OldReply(w: World, b: Backend, s: System, s': System, request: Request)
    requires DeliveryOk(w, s) && DeliverStep(w, b, s, s', request) && WellKept(s'.server.tables)
    requires request.clientId in s.clients
    requires var r := Delivered(b, w.owners(request.clientId), request, s.server);
      !(r.0.Answered? && request.sequence == Claim(w, s, request.clientId).sequence + 1)
    ensures DeliveryOk(w, s')
  {
    var id := request.clientId;
    assert IdOk(w, s, id);
    assert s'.network == s.network;
    forall other ensures Claim(w, s', other) == Claim(w, s, other) {
    }
    forall other ensures IdOk(w, s', other) { assert IdOk(w, s, other); }
    forall m | m in s'.network ensures MessageOk(w, s', m) { assert MessageOk(w, s, m); }
  }

  lemma JoinKeeps(w: World, s: System, s': System, id: string)
    requires DeliveryOk(w, s) && Joins(s, s', id)
    ensures DeliveryOk(w, s')
  {
    forall other ensures IdOk(w, s', other) { assert IdOk(w, s, other); }
    forall m | m in s'.network ensures MessageOk(w, s', m) { assert MessageOk(w, s, m); }
    NewbornIsSteady();
  }

  lemma NewbornIsSteady()
    ensures Steady(Newborn().books)
  {
  }

  lemma NetworkGrows(w: World, s: System, s': System)
    requires DeliveryOk(w, s) && s'.clients == s.clients && s'.server.clients == s.server.clients
    requires s'.commits == s.commits
    requires WellKept(s'.server.tables) && s.network <= s'.network
    requires forall m :: m in s'.network && m !in s.network ==> m.Changes?
    ensures DeliveryOk(w, s')
  {
    forall other ensures IdOk(w, s', other) {
      assert IdOk(w, s, other);
      if other in s.clients {
        MoreNetwork(other, w.owners(other), s.clients[other], Claim(w, s, other), s.network, s'.network,
                    CommitsOf(s, other));
      }
    }
    forall m | m in s'.network ensures MessageOk(w, s', m) {
      if m in s.network { assert MessageOk(w, s, m); }
    }
  }

  lemma NextKeeps(w: World, s: System, s': System)
    requires DeliveryOk(w, s) && Next(w, s, s')
    ensures DeliveryOk(w, s')
  {
    if s' == s {
    } else if exists id :: ClientMoves(w, s, s', id) {
      var id :| ClientMoves(w, s, s', id);
      ClientMoveKeeps(w, s, s', id);
    } else if exists id :: Joins(s, s', id) {
      var id :| Joins(s, s', id);
      JoinKeeps(w, s, s', id);
    } else if exists b, request :: DeliverStep(w, b, s, s', request) {
      var b, request :| DeliverStep(w, b, s, s', request);
      DeliverKeeps(w, b, s, s', request);
    } else {
      NetworkGrows(w, s, s');
    }
  }

  lemma InitOk(w: World, s: System)
    requires Init(s)
    ensures DeliveryOk(w, s)
  {
  }

  lemma Stepped(w: World, states: seq<System>, n: nat)
    requires Run(w, states) && 0 < n < |states|
    ensures Next(w, states[n - 1], states[n])
  {
    assert Follows(w, states, n - 1);
  }

  lemma {:induction false} DeliveryAlways(w: World, states: seq<System>, n: nat)
    requires Run(w, states) && n < |states|
    ensures DeliveryOk(w, states[n])
  {
    if n == 0 {
      InitOk(w, states[0]);
    } else {
      DeliveryAlways(w, states, n - 1);
      Stepped(w, states, n);
      NextKeeps(w, states[n - 1], states[n]);
    }
  }

  /** Every repeat of an accepted upload is answered with the same receipt. */
  lemma RepeatsGetTheSameReceipt(w: World, states: seq<System>, n: nat, a: Receipt, b: Receipt)
    requires Run(w, states) && n < |states| && Reply(a) in states[n].network && Reply(b) in states[n].network
    requires a.clientId == b.clientId && a.sequence == b.sequence
    ensures a == b
  {
    DeliveryAlways(w, states, n);
  }

  /** Exactly once: in every run no mutation of a client takes effect twice; what took effect is what
      its receipts accepted plus what the batch under way settled; and every ordinal the client gave
      out is one of queued, accepted or rejected. */
  lemma ExactlyOnce(w: World, states: seq<System>, n: nat, id: string)
    requires Run(w, states) && n < |states| && id in states[n].clients
    ensures var s := states[n];
      var c, claimed, done := s.clients[id], Claim(w, s, id), CommitsOf(s, id);
      && NoDuplicates(done)
      && (forall o :: o in done <==> o in c.books.accepted || Pending(c, claimed, o))
      && Partition(c.books.nextOrdinal, Ordinals(c.books.queue), c.books.accepted, c.books.rejected)
  {
    DeliveryAlways(w, states, n);
    assert IdOk(w, states[n], id);
  }
}
