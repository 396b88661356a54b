/** The server: one transaction per delivery over the host's tables, one savepoint per mutation. */
module Servers {
  import opened Options
  import opened Texts
  import opened Records
  import opened Queue
  import opened Optimism
  import opened Authorities
  import opened Storage
  import opened Messages
  import opened Pushing
  import opened Graphs
  import opened Batches

  /** What the server remembers of a client: its owner, the last accepted batch and that batch's receipt. */
  datatype Claimed = Claimed(owner: string, sequence: nat, receipt: Option<Receipt>)

  datatype Failure = PrincipalInvalid | OwnerMismatch | ReceiptMissing | Overlap | Gap | Infrastructure

  datatype Answer = Answered(receipt: Receipt) | Erred(why: Failure)

  /** Everything a committed delivery may change. */
  datatype State = State(tables: Tables, clients: map<string, Claimed>)

  function ClaimOf(clients: map<string, Claimed>, owner: string, clientId: string): Claimed {
    if clientId in clients then clients[clientId] else Claimed(owner, 0, None)
  }

  /** What the claim alone decides; none when the batch is the next one. */
  function Decided(claimed: Claimed, owner: string, sequence: nat): Option<Answer> {
    if claimed.owner != owner then Some(Erred(OwnerMismatch))
    else if sequence == claimed.sequence then
      Some(if claimed.receipt.Some? then Answered(claimed.receipt.value) else Erred(ReceiptMissing))
    else if sequence < claimed.sequence then Some(Erred(Overlap))
    else if sequence != claimed.sequence + 1 then Some(Erred(Gap))
    else None
  }

  function ReceiptOf(b: Backend, request: Request, s: Batch): Receipt {
    Receipt(request.clientId, request.sequence, s.rejections, InOrder(b.order(s.results.Keys), s.results))
  }

  function InOrder(keys: seq<Key>, results: map<Key, Authority>): seq<Authority> {
    if keys == [] then []
    else (if keys[0] in results then [results[keys[0]]] else []) + InOrder(keys[1..], results)
  }

  /** One delivery: the answer and what it leaves. A failed one leaves at most the claim. */
  function Delivered(b: Backend, owner: string, request: Request, s: State): (Answer, State) {
    if Blank(owner) then (Erred(PrincipalInvalid), s)
    else
      var claimed := ClaimOf(s.clients, owner, request.clientId);
      var clients := s.clients[request.clientId := claimed];
      match Decided(claimed, owner, request.sequence)
      case Some(answer) => (answer, s.(clients := clients))
      case None =>
        match RunBatch(b, request.models, request.acts, Batch(s.tables, map[], map[]))
        case None => (Erred(Infrastructure), s.(clients := clients))
        case Some(batch) =>
          var receipt := ReceiptOf(b, request, batch);
          (Answered(receipt),
            State(batch.tables, clients[request.clientId := Claimed(owner, request.sequence, Some(receipt))]))
  }

  datatype Verdict = Records(records: seq<Authority>) | Refused(code: string) | Aborted

  predicate SameVerdict(v: Verdict, o: Outcome) {
    match o
    case Kept(records, _) => v == Records(records)
    case Turned(code) => v == Refused(code)
    case Halted => v == Aborted
  }

  class Server {
    const backend: Backend
    var tables: Tables
    var savepoints: seq<Tables>
    var clients: map<string, Claimed>

    constructor (backend: Backend)
      ensures this.backend == backend && tables == Tables(map[], map[], map[], map[]) && savepoints == []
      ensures clients == map[]
      ensures WellKept(tables)
    {
      this.backend := backend;
      tables, savepoints, clients := Tables(map[], map[], map[], map[]), [], map[];
    }

    method AdvanceStamp(k: Key) returns (stamp: nat)
      modifies this`tables
      ensures tables == Advance(old(tables), k) && stamp == StampOf(tables, k)
    {
      tables := Advance(tables, k);
      stamp := tables.stamps[k];
    }

    method EnsureStamp(k: Key) returns (stamp: nat)
      modifies this`tables
      ensures tables == Ensure(old(tables), k) && stamp == StampOf(tables, k)
    {
      tables := Ensure(tables, k);
      stamp := tables.stamps[k];
    }

    method Publish(channel: string, k: Key, stamp: nat) returns (ok: bool)
      modifies this`tables
      ensures ok <==> PublishAt(old(tables), channel, k, stamp).Some?
      ensures tables == if ok then PublishAt(old(tables), channel, k, stamp).value else old(tables)
    {
      var r := PublishAt(tables, channel, k, stamp);
      ok := r.Some?;
      if ok { tables := r.value; }
    }

    /** One stamp per changed record, in canonical order. */
    method AllocateStamps(keys: seq<Key>) returns (stamps: map<Key, nat>)
      requires NoDuplicates(keys)
      modifies this`tables
      ensures tables == AdvanceAll(old(tables), Members(keys))
      ensures stamps == Given(tables, Members(keys))
    {
      stamps := map[];
      ghost var t := tables;
      AdvanceNone(t);
      var i := 0;
      assert Members(keys[..0]) == {};
      while i < |keys|
        invariant 0 <= i <= |keys|
        invariant tables == AdvanceAll(t, Members(keys[..i])) && stamps == Given(tables, Members(keys[..i]))
      {
        stamps := AllocateNext(keys, i, stamps, t);
        i := i + 1;
      }
      assert keys[..i] == keys;
    }

    method AllocateNext(keys: seq<Key>, i: nat, stamps: map<Key, nat>, ghost t: Tables) returns (stamps': map<Key, nat>)
      requires NoDuplicates(keys) && i < |keys|
      requires tables == AdvanceAll(t, Members(keys[..i])) && stamps == Given(tables, Members(keys[..i]))
      modifies this`tables
      ensures tables == AdvanceAll(t, Members(keys[..i + 1])) && stamps' == Given(tables, Members(keys[..i + 1]))
    {
      MembersSnoc(keys, i);
      AdvanceMore(t, Members(keys[..i]), keys[i]);
      GivenMore(tables, Members(keys[..i]), keys[i]);
      var stamp := AdvanceStamp(keys[i]);
      stamps' := stamps[keys[i] := stamp];
    }

    /** Load the changed records model by model, as the client declared them. */
    method LoadRecords(declared: map<string, nat>, keys: seq<Key>) returns (r: Read)
      requires forall m :: m in Models(keys) ==> m in declared
      ensures r == LoadAll(backend, declared, Models(keys), keys, tables)
    {
      var models := Models(keys);
      var records: seq<Authority> := [];
      var i := 0;
      assert models[0..] == models;
      while i < |models|
        invariant 0 <= i <= |models|
        invariant LoadAll(backend, declared, models, keys, tables) ==
          Prepend(records, LoadAll(backend, declared, models[i..], keys, tables))
      {
        var group := Group(keys, models[i]);
        var read := LoadGroup(backend, declared[models[i]], models[i], group, tables);
        assert models[i..][0] == models[i] && models[i..][1..] == models[i + 1..];
        match read {
          case Bad(code) => return Bad(code);
          case Good(more) =>
            PrependTwice(records, more, LoadAll(backend, declared, models[i + 1..], keys, tables));
            records := records + more;
        }
        i := i + 1;
      }
      assert records + [] == records;
      r := Good(records);
    }

    method PublishTo(channel: string, members: seq<Key>, stamps: map<Key, nat>) returns (ok: bool)
      requires Allocated(tables, stamps) && WellKept(tables)
      modifies this`tables
      ensures ok && Allocated(tables, stamps) && WellKept(tables)
      ensures Some(tables) == PublishMembers(old(tables), channel, members)
    {
      var i := 0;
      ghost var t := tables;
      assert members[0..] == members;
      while i < |members|
        invariant 0 <= i <= |members| && Allocated(tables, stamps) && WellKept(tables)
        invariant PublishMembers(t, channel, members) == PublishMembers(tables, channel, members[i..])
      {
        var k, stamp := members[i], 0;
        assert members[i..][0] == k && members[i..][1..] == members[i + 1..];
        EnsureKeeps(tables, k);
        ghost var t1 := Ensure(tables, k);
        if k in stamps {
          stamp := stamps[k];
        } else {
          stamp := EnsureStamp(k);
        }
        assert tables == t1;
        PublishKeeps(t1, channel, k, stamp);
        ok := Publish(channel, k, stamp);
        i := i + 1;
      }
      ok := true;
    }

    /** Carry out the publications at the allocated stamps. */
    method PublishAll(changes: set<Key>, stamps: map<Key, nat>, intents: seq<Intent>) returns (ok: bool)
      requires Allocated(tables, stamps) && WellKept(tables)
      modifies this`tables
      ensures ok <==> PublishIntents(backend, old(tables), changes, intents).Some?
      ensures ok ==> Some(tables) == PublishIntents(backend, old(tables), changes, intents)
    {
      ghost var t := tables;
      var i := 0;
      assert intents[0..] == intents;
      while i < |intents|
        invariant 0 <= i <= |intents| && Allocated(tables, stamps) && WellKept(tables)
        invariant PublishIntents(backend, t, changes, intents) == PublishIntents(backend, tables, changes, intents[i..])
      {
        var intent := intents[i];
        assert intents[i..][0] == intent && intents[i..][1..] == intents[i + 1..];
        if intent.channel == "" || (intent.records.Some? && Unloadable(backend, intent.records.value)) {
          return false;
        }
        var members := backend.order(if intent.records.None? then changes else intent.records.value);
        var _ := PublishTo(intent.channel, members, stamps);
        i := i + 1;
      }
      ok := true;
    }

    /** Stamp, read back and publish, inside the mutation's savepoint. */
    method ReadBackChanges(declared: map<string, nat>, changes: set<Key>, intents: seq<Intent>, ghost before: Tables)
      returns (v: Verdict)
      requires Lists(backend) && WellKept(before)
      requires tables == before.(rows := tables.rows)
      modifies this`tables
      ensures SameVerdict(v, ReadBack(backend, declared, changes, intents, old(tables)))
      ensures v.Records? ==> tables == ReadBack(backend, declared, changes, intents, old(tables)).tables
    {
      var keys := backend.order(changes);
      var undeclared := Undeclared(backend, declared, keys);
      if undeclared.Some? {
        return if undeclared.value.Turned? then Refused(undeclared.value.code) else Aborted;
      }
      UndeclaredNot(backend, declared, keys);
      ChangeKeeps(before, tables.rows, changes);
      assert Members(keys) == changes;
      var stamps := AllocateStamps(keys);
      var read := LoadRecords(declared, keys);
      if read.Bad? {
        return Refused(read.code);
      }
      var ok := PublishAll(changes, stamps, intents);
      v := if ok then Records(read.records) else Aborted;
    }

    /** Run the handler and settle what it changed. */
    method Handle(declared: map<string, nat>, act: Act) returns (v: Verdict)
      requires Lists(backend) && WellKept(tables) && backend.refuses(act).None?
      modifies this`tables
      ensures SameVerdict(v, Mutate(backend, declared, act, old(tables)))
      ensures v.Records? ==> tables == Mutate(backend, declared, act, old(tables)).tables
    {
      ghost var t := tables;
      match backend.handle(act, tables.rows) {
        case Broken => v := Aborted;
        case Declined(rows, code) => tables := tables.(rows := rows); v := Refused(code);
        case Crashed(rows) => tables := tables.(rows := rows); v := Refused(HANDLER_FAILED);
        case Settled(rows, changes, intents) =>
          tables := tables.(rows := rows);
          if Unloadable(backend, changes) {
            return Aborted;
          }
          v := ReadBackChanges(declared, KeysOf(act.operations) + changes, intents, t);
      }
    }

    /** One mutation in its own savepoint; a refusal rolls everything it did back. */
    method RunMutation(declared: map<string, nat>, act: Act) returns (v: Verdict)
      requires Lists(backend) && WellKept(tables)
      modifies this`tables, this`savepoints
      ensures SameVerdict(v, Mutate(backend, declared, act, old(tables)))
      ensures v.Records? ==> tables == Mutate(backend, declared, act, old(tables)).tables
      ensures v.Refused? ==> tables == old(tables)
      ensures !v.Aborted? ==> savepoints == old(savepoints)
      ensures old(savepoints) <= savepoints
    {
      var refused := backend.refuses(act);
      if refused.Some? {
        return Refused(refused.value);
      }
      savepoints := savepoints + [tables];
      v := Handle(declared, act);
      if v.Aborted? {
        return;
      }
      if v.Refused? {
        tables := savepoints[|savepoints| - 1];
      }
      savepoints := savepoints[..|savepoints| - 1];
    }

    /** The whole batch: refusals and the last authority of every record. */
    method RunAll(request: Request) returns (r: Option<Batch>)
      requires Lists(backend) && WellKept(tables)
      modifies this`tables, this`savepoints
      ensures var run := RunBatch(backend, request.models, request.acts, Batch(old(tables), map[], map[]));
        && (r.Some? <==> run.Some?)
        && (r.Some? ==> r == run && tables == run.value.tables && savepoints == old(savepoints))
      ensures old(savepoints) <= savepoints
    {
      var rejections: map<nat, string> := map[];
      var results: map<Key, Authority> := map[];
      var acts := request.acts;
      var i := 0;
      ghost var start := Batch(tables, map[], map[]);
      assert acts[0..] == acts;
      while i < |acts|
        invariant 0 <= i <= |acts| && WellKept(tables) && savepoints == old(savepoints)
        invariant RunBatch(backend, request.models, acts, start) ==
          RunBatch(backend, request.models, acts[i..], Batch(tables, rejections, results))
      {
        var act := acts[i];
        assert acts[i..][0] == act && acts[i..][1..] == acts[i + 1..];
        ghost var t := tables;
        var v := RunMutation(request.models, act);
        match v {
          case Aborted => return None;
          case Refused(code) => rejections := rejections[act.ordinal := code];
          case Records(records) =>
            MutateSettles(backend, request.models, act, t);
            results := Gather(results, records);
        }
        i := i + 1;
      }
      r := Some(Batch(tables, rejections, results));
    }

    /** Process one push inside its delivery's transaction. */
    method ProcessPush(owner: string, request: Request) returns (answer: Answer)
      requires Lists(backend) && WellKept(tables)
      modifies this`tables, this`savepoints, this`clients
      ensures answer == Delivered(backend, owner, request, State(old(tables), old(clients))).0
      ensures clients == Delivered(backend, owner, request, State(old(tables), old(clients))).1.clients
      ensures answer.Answered? ==>
        State(tables, clients) == Delivered(backend, owner, request, State(old(tables), old(clients))).1
      ensures answer.Answered? ==> savepoints == old(savepoints)
      ensures old(savepoints) <= savepoints
    {
      if Blank(owner) {
        return Erred(PrincipalInvalid);
      }
      var claimed := ClaimOf(clients, owner, request.clientId);
      clients := clients[request.clientId := claimed];
      var settled := Decided(claimed, owner, request.sequence);
      if settled.Some? {
        return settled.value;
      }
      var batch := RunAll(request);
      if batch.None? {
        return Erred(Infrastructure);
      }
      var receipt := ReceiptOf(backend, request, batch.value);
      clients := clients[request.clientId := Claimed(owner, request.sequence, Some(receipt))];
      answer := Answered(receipt);
    }

    /** A delivery: a failed one is rolled back whole, savepoints included. */
    method Push(owner: string, request: Request) returns (answer: Answer)
      requires Lists(backend) && WellKept(tables)
      modifies this`tables, this`savepoints, this`clients
      ensures (answer, State(tables, clients)) == Delivered(backend, owner, request, State(old(tables), old(clients)))
      ensures savepoints == old(savepoints) && WellKept(tables)
    {
      var before, depth := tables, |savepoints|;
      DeliveredKeeps(backend, owner, request, State(tables, clients));
      answer := ProcessPush(owner, request);
      if answer.Erred? {
        tables := before;
        savepoints := savepoints[..depth];
      }
    }
  }

  function Members(keys: seq<Key>): set<Key> {
    set k | k in keys
  }

  lemma MembersSnoc(keys: seq<Key>, i: nat)
    requires i < |keys| && NoDuplicates(keys)
    ensures Members(keys[..i + 1]) == Members(keys[..i]) + {keys[i]} && keys[i] !in Members(keys[..i])
  {
    assert keys[..i + 1] == keys[..i] + [keys[i]];
  }

  /** The stamps the tables give some records. */
  function Given(t: Tables, keys: set<Key>): map<Key, nat> {
    map k | k in keys :: StampOf(t, k)
  }

  lemma GivenMore(t: Tables, keys: set<Key>, k: Key)
    requires k !in keys
    ensures Given(t, keys)[k := StampOf(Advance(t, k), k)] == Given(Advance(t, k), keys + {k})
  {
    var a, b := Given(t, keys)[k := StampOf(Advance(t, k), k)], Given(Advance(t, k), keys + {k});
    assert a.Keys == b.Keys;
  }

  lemma AdvanceNone(t: Tables)
    ensures AdvanceAll(t, {}) == t
  {
    var r := AdvanceAll(t, {});
    assert r.stamps.Keys == t.stamps.Keys;
    forall k | k in t.stamps ensures r.stamps[k] == t.stamps[k] {
      assert StampOf(r, k) == StampOf(t, k);
    }
    assert r.stamps == t.stamps;
  }

  function Prepend(records: seq<Authority>, read: Read): Read {
    match read
    case Bad(code) => read
    case Good(more) => Good(records + more)
  }

  lemma PrependTwice(a: seq<Authority>, b: seq<Authority>, read: Read)
    ensures Prepend(a, Prepend(b, read)) == Prepend(a + b, read)
  {
    if read.Good? { assert a + (b + read.records) == (a + b) + read.records; }
  }

  /** The stamps given out are still the current ones. */
  predicate Allocated(t: Tables, stamps: map<Key, nat>) {
    forall k :: k in stamps ==> k in t.stamps && t.stamps[k] == stamps[k]
  }

  /** Whatever a delivery answers, and whatever handlers and loaders do, the tables stay well kept and only
      grow; a failed one changes nothing. */
  lemma DeliveredKeeps(b: Backend, owner: string, request: Request, s: State)
    requires Lists(b) && WellKept(s.tables)
    ensures var r := Delivered(b, owner, request, s);
      WellKept(r.1.tables) && Grows(s.tables, r.1.tables) && (r.0.Erred? ==> r.1.tables == s.tables)
  {
    GrowsSelf(s.tables);
    var start := Batch(s.tables, map[], map[]);
    if RunBatch(b, request.models, request.acts, start).Some? {
      BatchKeeps(b, request.models, request.acts, start);
    }
  }

  /** With honest handlers and faithful loaders a delivery changes content only with stamps. */
  lemma DeliveredTells(b: Backend, owner: string, request: Request, s: State)
    requires Lists(b) && Honest(b) && Faithful(b) && WellKept(s.tables)
    ensures Tells(s.tables, Delivered(b, owner, request, s).1.tables)
  {
    var start := Batch(s.tables, map[], map[]);
    if RunBatch(b, request.models, request.acts, start).Some? {
      BatchTells(b, request.models, request.acts, start);
    }
  }

  ghost predicate OwnKeys(results: map<Key, Authority>) {
    forall k :: k in results ==> results[k].key == k
  }

  lemma {:induction false} InOrderMembers(keys: seq<Key>, results: map<Key, Authority>, a: Authority)
    requires OwnKeys(results)
    ensures a in InOrder(keys, results) <==> a.key in keys && a.key in results && results[a.key] == a
  {
    if keys != [] { InOrderMembers(keys[1..], results, a); }
  }

  lemma {:induction false} InOrderUnique(keys: seq<Key>, results: map<Key, Authority>)
    requires OwnKeys(results) && NoDuplicates(keys)
    ensures UniqueKeys(InOrder(keys, results))
  {
    if keys != [] {
      var rest := InOrder(keys[1..], results);
      InOrderUnique(keys[1..], results);
      forall j | 0 <= j < |rest| ensures rest[j].key != keys[0] {
        InOrderMembers(keys[1..], results, rest[j]);
        var n :| 0 <= n < |keys[1..]| && keys[1..][n] == rest[j].key;
        assert keys[1..][n] == keys[n + 1];
      }
    }
  }

  /** A receipt that completes a batch: rejections lie in it, what it answers is unique and at its current
      stamp, and every record an accepted mutation uploaded is among the answers. */
  ghost predicate Completes(request: Request, t: Tables, receipt: Receipt) {
    && receipt.clientId == request.clientId && receipt.sequence == request.sequence
    && (forall o :: o in receipt.rejections ==> Ordinal(request.acts, o))
    && UniqueKeys(receipt.records) && AllStamped(t, receipt.records)
    && forall i :: 0 <= i < |request.acts| && request.acts[i].ordinal !in receipt.rejections ==>
         KeysOf(request.acts[i].operations) <= CoveredKeys(receipt.records)
  }

  ghost predicate Fresh(b: Backend, owner: string, request: Request, s: State) {
    && !Blank(owner) && Decided(ClaimOf(s.clients, owner, request.clientId), owner, request.sequence) == None
    && Delivered(b, owner, request, s).0.Answered?
  }

  /** The next batch is answered with a receipt that completes it, and becomes the client's last, whatever
      handlers and loaders do. */
  lemma NextBatchCompletes(b: Backend, owner: string, request: Request, s: State)
    requires Lists(b) && WellKept(s.tables) && Distinct(request.acts) && Fresh(b, owner, request, s)
    ensures var r := Delivered(b, owner, request, s);
      && Completes(request, r.1.tables, r.0.receipt)
      && request.clientId in r.1.clients
      && r.1.clients[request.clientId] == Claimed(owner, request.sequence, Some(r.0.receipt))
  {
    var start := Batch(s.tables, map[], map[]);
    var r := RunBatch(b, request.models, request.acts, start).value;
    BatchKeeps(b, request.models, request.acts, start);
    BatchCovers(b, request.models, request.acts, start);
    var keys := b.order(r.results.Keys);
    assert NoDuplicates(keys) && forall k :: k in keys <==> k in r.results;
    assert OwnKeys(r.results);
    InOrderUnique(keys, r.results);
    var records := InOrder(keys, r.results);
    forall i | 0 <= i < |records| ensures AsStamped(r.tables, records[i]) {
      InOrderMembers(keys, r.results, records[i]);
    }
    forall k | k in r.results ensures k in CoveredKeys(records) {
      InOrderMembers(keys, r.results, r.results[k]);
    }
  }

  /** With honest handlers and faithful loaders every answer of the next batch is as it is stored. */
  lemma NextBatchTells(b: Backend, owner: string, request: Request, s: State)
    requires Lists(b) && Honest(b) && Faithful(b) && WellKept(s.tables) && Fresh(b, owner, request, s)
    ensures var r := Delivered(b, owner, request, s); AllStored(r.1.tables, r.0.receipt.records)
  {
    var start := Batch(s.tables, map[], map[]);
    var r := RunBatch(b, request.models, request.acts, start).value;
    BatchKeeps(b, request.models, request.acts, start);
    BatchTells(b, request.models, request.acts, start);
    var keys := b.order(r.results.Keys);
    assert OwnKeys(r.results);
    var records := InOrder(keys, r.results);
    forall i | 0 <= i < |records| ensures AsStored(r.tables, records[i]) {
      InOrderMembers(keys, r.results, records[i]);
    }
  }
}
