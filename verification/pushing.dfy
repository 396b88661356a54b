/** What processing a push means: each mutation in its own savepoint, its changed records stamped and
    read back, its publications sent; a refusal leaves no trace. */
module Pushing {
  import opened Options
  import opened Records
  import opened Queue
  import opened Optimism
  import opened Authorities
  import opened Storage

  /** Publish the given records on a channel, or the whole change set. */
  datatype Intent = Intent(channel: string, records: Option<set<Key>>)

  /** What a handler answers. Whatever it did to the rows before declining or crashing is in `rows`. */
  datatype Handled =
    | Settled(rows: Table, changes: set<Key>, publications: seq<Intent>)
    | Declined(rows: Table, code: string)
    | Crashed(rows: Table)
    | Broken

  datatype Loaded = Rows(states: seq<Row>) | Unwilling(code: string) | Thrown

  /** The application behind the server. `order` lists records in canonical key order; `refuses` is the
      code an upload that cannot be decoded is refused with. */
  datatype Backend = Backend(
    order: set<Key> -> seq<Key>,
    loaders: set<string>,
    contract: (string, nat) -> bool,
    accepts: (string, nat, Key, Fields) -> bool,
    refuses: Act -> Option<string>,
    handle: (Act, Table) -> Handled,
    load: (string, nat, seq<Key>, Table) -> Loaded)

  datatype Outcome = Kept(records: seq<Authority>, tables: Tables) | Turned(code: string) | Halted

  const UNSUPPORTED := "model_version_unsupported"
  const HANDLER_FAILED := "handler.failed"
  const LOADER_FAILED := "loader.failed"
  const LOADER_INVALID := "loader.invalid"

  /** Every changed model needs a loader and a retained contract at the declared version. */
  function Undeclared(b: Backend, declared: map<string, nat>, keys: seq<Key>): (r: Option<Outcome>)
    ensures r.Some? ==> !r.value.Kept?
  {
    if keys == [] then None
    else if keys[0].model !in b.loaders then Some(Halted)
    else if keys[0].model !in declared || !b.contract(keys[0].model, declared[keys[0].model])
    then Some(Turned(UNSUPPORTED))
    else Undeclared(b, declared, keys[1..])
  }

  /** The models of the records, each once. */
  function Models(keys: seq<Key>): seq<string> {
    if keys == [] then []
    else
      var rest := Models(keys[1..]);
      if keys[0].model in rest then rest else [keys[0].model] + rest
  }

  function Group(keys: seq<Key>, model: string): seq<Key> {
    if keys == [] then []
    else (if keys[0].model == model then [keys[0]] else []) + Group(keys[1..], model)
  }

  datatype Read = Good(records: seq<Authority>) | Bad(code: string)

  function Accepted(b: Backend, version: nat, k: Key, state: Row): bool {
    state.Some? ==> b.accepts(k.model, version, k, state.value)
  }

  /** The authority of one group, in step with its loaded states. */
  function Answers(b: Backend, version: nat, keys: seq<Key>, states: seq<Row>, t: Tables): Read
    requires |states| == |keys|
  {
    if keys == [] then Good([])
    else if !Accepted(b, version, keys[0], states[0]) then Bad(LOADER_INVALID)
    else
      match Answers(b, version, keys[1..], states[1..], t)
      case Bad(code) => Bad(code)
      case Good(records) => Good([Authority(keys[0], StampOf(t, keys[0]), states[0], None)] + records)
  }

  function LoadGroup(b: Backend, version: nat, model: string, keys: seq<Key>, t: Tables): Read {
    match b.load(model, version, keys, t.rows)
    case Unwilling(code) => Bad(code)
    case Thrown => Bad(LOADER_FAILED)
    case Rows(states) => if |states| != |keys| then Bad(LOADER_INVALID) else Answers(b, version, keys, states, t)
  }

  /** Model by model, ending at the first refusal. */
  function LoadAll(b: Backend, declared: map<string, nat>, models: seq<string>, keys: seq<Key>, t: Tables): Read
    requires forall m :: m in models ==> m in declared
  {
    if models == [] then Good([])
    else
      match LoadGroup(b, declared[models[0]], models[0], Group(keys, models[0]), t)
      case Bad(code) => Bad(code)
      case Good(records) =>
        match LoadAll(b, declared, models[1..], keys, t)
        case Bad(code) => Bad(code)
        case Good(more) => Good(records + more)
  }

  /** Publish records at their stamps; one outside the change set keeps its stamp, or gets its first. */
  function PublishMembers(t: Tables, channel: string, members: seq<Key>): Option<Tables>
    decreases |members|
  {
    if members == [] then Some(t)
    else
      var t1 := Ensure(t, members[0]);
      match PublishAt(t1, channel, members[0], StampOf(t1, members[0]))
      case None => None
      case Some(t2) => PublishMembers(t2, channel, members[1..])
  }

  predicate Unloadable(b: Backend, keys: set<Key>) {
    exists k :: k in keys && k.model !in b.loaders
  }

  function PublishIntents(b: Backend, t: Tables, changes: set<Key>, intents: seq<Intent>): Option<Tables>
    decreases |intents|
  {
    if intents == [] then Some(t)
    else
      var intent := intents[0];
      if intent.channel == "" || (intent.records.Some? && Unloadable(b, intent.records.value)) then None
      else
        match PublishMembers(t, intent.channel, b.order(if intent.records.None? then changes else intent.records.value))
        case None => None
        case Some(t1) => PublishIntents(b, t1, changes, intents[1..])
  }

  /** Stamp the changed records, read them back and publish, over the rows the handler left. */
  function ReadBack(b: Backend, declared: map<string, nat>, changes: set<Key>, intents: seq<Intent>,
                    t: Tables): Outcome
  {
    var keys := b.order(changes);
    match Undeclared(b, declared, keys)
    case Some(outcome) => outcome
    case None =>
      UndeclaredNot(b, declared, keys);
      var t1 := AdvanceAll(t, changes);
      match LoadAll(b, declared, Models(keys), keys, t1)
      case Bad(code) => Turned(code)
      case Good(records) =>
        match PublishIntents(b, t1, changes, intents)
        case None => Halted
        case Some(t2) => Kept(records, t2)
  }

  lemma {:induction false} UndeclaredNot(b: Backend, declared: map<string, nat>, keys: seq<Key>)
    requires Undeclared(b, declared, keys) == None
    ensures forall m :: m in Models(keys) ==> m in declared
  {
    if keys != [] { UndeclaredNot(b, declared, keys[1..]); }
  }

  function Mutate(b: Backend, declared: map<string, nat>, act: Act, t: Tables): Outcome {
    match b.refuses(act)
    case Some(code) => Turned(code)
    case None =>
      match b.handle(act, t.rows)
      case Broken => Halted
      case Declined(_, code) => Turned(code)
      case Crashed(_) => Turned(HANDLER_FAILED)
      case Settled(rows, changes, intents) =>
        if Unloadable(b, changes) then Halted
        else ReadBack(b, declared, KeysOf(act.operations) + changes, intents, t.(rows := rows))
  }

  /** A batch so far: the tables, what was refused, and the last authority of each record. */
  datatype Batch = Batch(tables: Tables, rejections: map<nat, string>, results: map<Key, Authority>)

  function Gather(results: map<Key, Authority>, records: seq<Authority>): map<Key, Authority>
    decreases |records|
  {
    if records == [] then results else Gather(results[records[0].key := records[0]], records[1..])
  }

  /** One mutation after another; none when an infrastructure error ends the delivery. */
  function RunBatch(b: Backend, declared: map<string, nat>, acts: seq<Act>, s: Batch): Option<Batch>
    decreases |acts|
  {
    if acts == [] then Some(s)
    else
      match Mutate(b, declared, acts[0], s.tables)
      case Halted => None
      case Turned(code) => RunBatch(b, declared, acts[1..], s.(rejections := s.rejections[acts[0].ordinal := code]))
      case Kept(records, t) => RunBatch(b, declared, acts[1..], s.(tables := t, results := Gather(s.results, records)))
  }
}
