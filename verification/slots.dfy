/** Slot codec. A mutation's arguments travel as a flat list of operations that
    carry no slot name: the generated client emits them slot by slot, and both
    the server and the client group them again greedily, in slot order. The
    compiler refuses slot lists it finds ambiguous. */
module Slots {

  import opened Options

  datatype Cardinality = Single | Optional | List

  datatype Slot = Slot(name: string, model: string, operation: string, cardinality: Cardinality)

  /** `payload` stands for the canonical identity and values of the operation. */
  datatype Operation = Operation(model: string, op: string, payload: string)

  /** One list of payloads per slot. */
  type Arguments = seq<seq<string>>

  predicate Fits(slots: seq<Slot>, args: Arguments) {
    && |args| == |slots|
    && forall i :: 0 <= i < |slots| ==> Arity(slots[i].cardinality, |args[i]|)
  }

  predicate Arity(cardinality: Cardinality, n: nat) {
    match cardinality
    case Single => n == 1
    case Optional => n <= 1
    case List => true
  }

  predicate Matches(slot: Slot, op: Operation) {
    op.model == slot.model && op.op == slot.operation
  }

  /** The operations one slot emits. */
  function EmitSlot(slot: Slot, values: seq<string>): (ops: seq<Operation>)
    ensures |ops| == |values|
    ensures forall i :: 0 <= i < |ops| ==> Matches(slot, ops[i]) && ops[i].payload == values[i]
  {
    seq(|values|, i requires 0 <= i < |values| => Operation(slot.model, slot.operation, values[i]))
  }

  function Emit(slots: seq<Slot>, args: Arguments): seq<Operation>
    requires |slots| == |args|
  {
    if slots == [] then [] else EmitSlot(slots[0], args[0]) + Emit(slots[1..], args[1..])
  }

  /** How many leading operations the greedy decoder gives to `slot`. */
  function Take(slot: Slot, ops: seq<Operation>): (n: nat)
    ensures n <= |ops|
    ensures slot.cardinality != List ==> n <= 1
    ensures forall i :: 0 <= i < n ==> Matches(slot, ops[i])
  {
    if ops == [] || !Matches(slot, ops[0]) then 0
    else if slot.cardinality != List then 1
    else 1 + Take(slot, ops[1..])
  }

  function Payloads(ops: seq<Operation>): (r: seq<string>)
    ensures |r| == |ops|
    ensures forall i :: 0 <= i < |r| ==> r[i] == ops[i].payload
  {
    seq(|ops|, i requires 0 <= i < |ops| => ops[i].payload)
  }

  /** The server's grouping: a single slot must get its operation and nothing may be left over. */
  function Decode(slots: seq<Slot>, ops: seq<Operation>): Option<Arguments> {
    if slots == [] then
      if ops == [] then Some([]) else None
    else
      var n := Take(slots[0], ops);
      if slots[0].cardinality == Single && n != 1 then None
      else Extend([Payloads(ops[..n])], Decode(slots[1..], ops[n..]))
  }

  function Extend(front: Arguments, rest: Option<Arguments>): Option<Arguments> {
    match rest
    case None => None
    case Some(args) => Some(front + args)
  }

  /** The client's grouping (for sequence policies): the same walk, never refusing. */
  function Group(slots: seq<Slot>, ops: seq<Operation>): Arguments {
    if slots == [] then []
    else
      var n := Take(slots[0], ops);
      [Payloads(ops[..n])] + Group(slots[1..], ops[n..])
  }

  predicate SameKind(a: Slot, b: Slot) {
    a.model == b.model && a.operation == b.operation
  }

  /** Slot `j` cannot be told apart from the earlier slot `i`. */
  predicate Confused(slots: seq<Slot>, i: int, j: int)
  {
    && 0 <= i < j < |slots|
    && SameKind(slots[i], slots[j])
    && slots[i].cardinality != Single
    && forall m :: i < m < j ==> slots[m].cardinality != Single
  }

  ghost predicate Ambiguous(slots: seq<Slot>) {
    exists i, j :: Confused(slots, i, j)
  }

  /** The compiler's nested scan: for each slot, backwards to the nearest single slot. */
  method CheckAmbiguity(slots: seq<Slot>) returns (accepted: bool)
    ensures accepted <==> !Ambiguous(slots)
  {
    var j := 1;
    while j < |slots|
      invariant 1 <= j
      invariant forall i, k :: k < j ==> !Confused(slots, i, k)
    {
      var i := j - 1;
      while 0 <= i
        invariant -1 <= i < j
        invariant forall m :: i < m < j ==> slots[m].cardinality != Single
        invariant forall m :: i < m < j ==> !Confused(slots, m, j)
      {
        if SameKind(slots[i], slots[j]) && slots[i].cardinality != Single {
          assert Confused(slots, i, j);
          return false;
        }
        if slots[i].cardinality == Single {
          break;
        }
        i := i - 1;
      }
      j := j + 1;
    }
    accepted := true;
  }

  /** The generated encoder. */
  method EmitOperations(slots: seq<Slot>, args: Arguments) returns (operations: seq<Operation>)
    requires Fits(slots, args)
    ensures operations == Emit(slots, args)
  {
    operations := [];
    var i := 0;
    assert slots[0..] == slots && args[0..] == args;
    while i < |slots|
      invariant 0 <= i <= |slots|
      invariant operations + Emit(slots[i..], args[i..]) == Emit(slots, args)
    {
      EmitStep(slots, args, i, operations);
      var own := EmitValues(slots[i], args[i]);
      operations := operations + own;
      i := i + 1;
    }
  }

  method EmitValues(slot: Slot, values: seq<string>) returns (operations: seq<Operation>)
    ensures operations == EmitSlot(slot, values)
  {
    operations := [];
    var v := 0;
    while v < |values|
      invariant 0 <= v <= |values| && operations == EmitSlot(slot, values)[..v]
    {
      operations := operations + [Operation(slot.model, slot.operation, values[v])];
      v := v + 1;
    }
  }

  lemma EmitStep(slots: seq<Slot>, args: Arguments, i: nat, done: seq<Operation>)
    requires |slots| == |args| && i < |slots|
    ensures done + Emit(slots[i..], args[i..]) ==
      done + EmitSlot(slots[i], args[i]) + Emit(slots[i + 1..], args[i + 1..])
  {
    assert slots[i..][1..] == slots[i + 1..] && args[i..][1..] == args[i + 1..];
  }

  lemma DecodeStep(slots: seq<Slot>, ops: seq<Operation>, groups: Arguments, i: nat, start: nat, at: nat)
    requires i < |slots| && start <= at <= |ops| && at == start + Take(slots[i], ops[start..])
    requires !(slots[i].cardinality == Single && at - start != 1)
    ensures Extend(groups, Decode(slots[i..], ops[start..]))
         == Extend(groups + [Payloads(ops[start..at])], Decode(slots[i + 1..], ops[at..]))
  {
    var own, left := slots[i..], ops[start..];
    assert own[0] == slots[i] && own[1..] == slots[i + 1..];
    assert left[at - start..] == ops[at..] && left[..at - start] == ops[start..at];
    var rest := Decode(slots[i + 1..], ops[at..]);
    if rest.Some? {
      var one := [Payloads(ops[start..at])];
      assert groups + (one + rest.value) == groups + one + rest.value;
    }
  }

  /** The server's loop over slots and operations. */
  method DecodeOperations(slots: seq<Slot>, ops: seq<Operation>) returns (args: Option<Arguments>)
    ensures args == Decode(slots, ops)
  {
    var at, i := 0, 0;
    var groups: Arguments := [];
    assert slots[0..] == slots && ops[0..] == ops;
    assert Extend([], Decode(slots, ops)) == Decode(slots, ops) by {
      if Decode(slots, ops).Some? { assert [] + Decode(slots, ops).value == Decode(slots, ops).value; }
    }
    while i < |slots|
      invariant 0 <= i <= |slots| && 0 <= at <= |ops|
      invariant Decode(slots, ops) == Extend(groups, Decode(slots[i..], ops[at..]))
    {
      var start := at;
      at := TakeLoop(slots[i], ops, start);
      if slots[i].cardinality == Single && at - start != 1 {
        return None;
      }
      DecodeStep(slots, ops, groups, i, start, at);
      groups := groups + [Payloads(ops[start..at])];
      i := i + 1;
    }
    if at != |ops| {
      return None;
    }
    assert groups + [] == groups;
    args := Some(groups);
  }

  /** The client's loop for sequence policies. */
  method GroupOperations(slots: seq<Slot>, ops: seq<Operation>) returns (groups: Arguments)
    ensures groups == Group(slots, ops)
  {
    groups := [];
    var at, i := 0, 0;
    while i < |slots|
      invariant 0 <= i <= |slots| && 0 <= at <= |ops|
      invariant Group(slots, ops) == groups + Group(slots[i..], ops[at..])
    {
      var start := at;
      at := TakeLoop(slots[i], ops, start);
      GroupStep(slots, ops, groups, i, start, at);
      groups := groups + [Payloads(ops[start..at])];
      i := i + 1;
    }
  }

  lemma GroupAt(own: seq<Slot>, left: seq<Operation>, n: nat, groups: Arguments)
    requires own != [] && n == Take(own[0], left)
    ensures groups + Group(own, left) == groups + [Payloads(left[..n])] + Group(own[1..], left[n..])
  {
  }

  lemma Slices<T>(s: seq<T>, start: nat, at: nat)
    requires start <= at <= |s|
    ensures s[start..][at - start..] == s[at..] && s[start..][..at - start] == s[start..at]
  {
  }

  lemma GroupStep(slots: seq<Slot>, ops: seq<Operation>, groups: Arguments, i: nat, start: nat, at: nat)
    requires i < |slots| && start <= at <= |ops| && at == start + Take(slots[i], ops[start..])
    ensures groups + Group(slots[i..], ops[start..]) ==
      groups + [Payloads(ops[start..at])] + Group(slots[i + 1..], ops[at..])
  {
    Slices(slots, i, i + 1);
    Slices(ops, start, at);
    GroupAt(slots[i..], ops[start..], at - start, groups);
  }

  /** The inner `while` both decoders share: stops at a mismatch, or after one unless the slot is a list. */
  method TakeLoop(slot: Slot, ops: seq<Operation>, start: nat) returns (at: nat)
    requires start <= |ops|
    ensures at == start + Take(slot, ops[start..])
  {
    at := start;
    while at < |ops| && Matches(slot, ops[at])
      invariant start <= at <= |ops|
      invariant slot.cardinality != List ==> at == start
      invariant start + Take(slot, ops[start..]) == at + Take(slot, ops[at..])
    {
      assert ops[at..][1..] == ops[at + 1..];
      at := at + 1;
      if slot.cardinality != List {
        break;
      }
    }
  }

  /** Whatever the server accepts, the client groups the same way. */
  lemma {:induction false} GroupAgrees(slots: seq<Slot>, ops: seq<Operation>)
    requires Decode(slots, ops).Some?
    ensures Group(slots, ops) == Decode(slots, ops).value
  {
    if slots != [] {
      GroupAgrees(slots[1..], ops[Take(slots[0], ops)..]);
    }
  }

  lemma EmitCons(slots: seq<Slot>, head: seq<string>, tail: Arguments)
    requires slots != [] && |tail| == |slots| - 1
    ensures Emit(slots, [head] + tail) == EmitSlot(slots[0], head) + Emit(slots[1..], tail)
  {
    assert ([head] + tail)[1..] == tail;
  }

  lemma FitsCons(slots: seq<Slot>, head: seq<string>, tail: Arguments)
    requires slots != []
    ensures Fits(slots, [head] + tail) <==> Fits(slots[1..], tail) && Arity(slots[0].cardinality, |head|)
  {
    var args := [head] + tail;
    if Fits(slots, args) {
      forall i | 0 <= i < |tail| ensures Arity(slots[1..][i].cardinality, |tail[i]|) {
        assert tail[i] == args[i + 1];
      }
    }
    if Fits(slots[1..], tail) && Arity(slots[0].cardinality, |head|) {
      forall i | 0 <= i < |slots| ensures Arity(slots[i].cardinality, |args[i]|) {
        if i > 0 { assert slots[i] == slots[1..][i - 1] && args[i] == tail[i - 1]; }
      }
    }
  }

  lemma EmitPayloads(slot: Slot, ops: seq<Operation>)
    requires forall i :: 0 <= i < |ops| ==> Matches(slot, ops[i])
    ensures EmitSlot(slot, Payloads(ops)) == ops
  {
  }

  /** Decoding never invents or drops an operation: what it accepts is exactly what the encoder would emit. */
  lemma {:induction false} DecodeThenEmit(slots: seq<Slot>, ops: seq<Operation>)
    requires Decode(slots, ops).Some?
    ensures Fits(slots, Decode(slots, ops).value)
    ensures Emit(slots, Decode(slots, ops).value) == ops
  {
    if slots != [] {
      var n := Take(slots[0], ops);
      var own, others := ops[..n], ops[n..];
      DecodeThenEmit(slots[1..], others);
      var rest := Decode(slots[1..], others).value;
      EmitPayloads(slots[0], own);
      FitsCons(slots, Payloads(own), rest);
      EmitCons(slots, Payloads(own), rest);
      assert ops == own + others;
    }
  }

  /** The first operation emitted belongs to the first slot that holds anything. */
  lemma {:induction false} FirstEmitted(slots: seq<Slot>, args: Arguments) returns (j: nat)
    requires |slots| == |args| && Emit(slots, args) != []
    ensures j < |slots| && args[j] != [] && Matches(slots[j], Emit(slots, args)[0])
    ensures forall m :: 0 <= m < j ==> args[m] == []
  {
    if args[0] != [] {
      j := 0;
    } else {
      var k := FirstEmitted(slots[1..], args[1..]);
      j := k + 1;
      forall m | 0 <= m < j ensures args[m] == [] {
        if m > 0 { assert args[m] == args[1..][m - 1]; }
      }
    }
  }

  lemma {:induction false} TakeOwn(slot: Slot, own: seq<Operation>, rest: seq<Operation>)
    requires forall i :: 0 <= i < |own| ==> Matches(slot, own[i])
    requires Arity(slot.cardinality, |own|)
    requires slot.cardinality == List || own == [] ==> rest == [] || !Matches(slot, rest[0])
    ensures Take(slot, own + rest) == |own|
    decreases |own|
  {
    if own == [] {
      assert own + rest == rest;
    } else if slot.cardinality == List {
      assert (own + rest)[1..] == own[1..] + rest;
      TakeOwn(slot, own[1..], rest);
    } else {
      assert (own + rest)[0] == own[0];
    }
  }

  lemma AmbiguousTail(slots: seq<Slot>, i: int, j: int)
    requires slots != [] && Confused(slots[1..], i, j)
    ensures Confused(slots, i + 1, j + 1)
  {
    forall m | i + 1 < m < j + 1 ensures slots[m].cardinality != Single {
      assert slots[m] == slots[1..][m - 1];
    }
  }

  /** Anything a non-single slot could take from the slots after it makes the list ambiguous. */
  lemma StealMeansAmbiguous(slots: seq<Slot>, args: Arguments)
    requires slots != [] && Fits(slots, args) && slots[0].cardinality != Single
    requires var rest := Emit(slots[1..], args[1..]); rest != [] && Matches(slots[0], rest[0])
    ensures Ambiguous(slots)
  {
    var k := FirstEmitted(slots[1..], args[1..]);
    forall m | 0 < m < k + 1 ensures slots[m].cardinality != Single {
      assert args[m] == args[1..][m - 1];
    }
    assert Confused(slots, 0, k + 1);
  }

  lemma {:induction false} EmitThenDecode(slots: seq<Slot>, args: Arguments)
    requires !Ambiguous(slots) && Fits(slots, args)
    ensures Decode(slots, Emit(slots, args)) == Some(args)
  {
    if slots != [] {
      var head, tail := args[0], args[1..];
      assert [head] + tail == args;
      FitsCons(slots, head, tail);
      assert !Ambiguous(slots[1..]) by {
        if i, j :| Confused(slots[1..], i, j) { AmbiguousTail(slots, i, j); }
      }
      EmitThenDecode(slots[1..], tail);
      var rest := Emit(slots[1..], tail);
      assert slots[0].cardinality != Single ==> rest == [] || !Matches(slots[0], rest[0]) by {
        if slots[0].cardinality != Single && rest != [] && Matches(slots[0], rest[0]) {
          StealMeansAmbiguous(slots, args);
        }
      }
      DecodeOwn(slots, head, rest);
    }
  }

  lemma DecodeOwn(slots: seq<Slot>, head: seq<string>, rest: seq<Operation>)
    requires slots != [] && Arity(slots[0].cardinality, |head|)
    requires slots[0].cardinality != Single ==> rest == [] || !Matches(slots[0], rest[0])
    ensures Decode(slots, EmitSlot(slots[0], head) + rest) == Extend([head], Decode(slots[1..], rest))
  {
    var own := EmitSlot(slots[0], head);
    TakeOwn(slots[0], own, rest);
    assert (own + rest)[..|own|] == own && (own + rest)[|own|..] == rest;
    assert Payloads(own) == head;
  }

  /** One value in every single slot and in slot `j`, nothing anywhere else. */
  function Sparse(slots: seq<Slot>, j: nat): (args: Arguments)
    requires j < |slots|
    ensures Fits(slots, args) && args[j] == ["x"]
    ensures forall m :: 0 <= m < |slots| && m != j && slots[m].cardinality != Single ==> args[m] == []
  {
    seq(|slots|, m requires 0 <= m < |slots| =>
      if m == j || slots[m].cardinality == Single then ["x"] else [])
  }

  /** Decoding gives back `args` only if each slot takes exactly its own. */
  lemma DecodedTail(slots: seq<Slot>, ops: seq<Operation>, args: Arguments)
    requires slots != [] && Decode(slots, ops) == Some(args)
    ensures args != [] && |args[0]| == Take(slots[0], ops)
    ensures Decode(slots[1..], ops[Take(slots[0], ops)..]) == Some(args[1..])
  {
    var n := Take(slots[0], ops);
    var rest := Decode(slots[1..], ops[n..]);
    assert args == [Payloads(ops[..n])] + rest.value;
    assert args[1..] == rest.value;
  }

  lemma {:induction false} StealsFirst(slots: seq<Slot>, i: nat, j: nat, args: Arguments)
    requires Confused(slots, i, j) && |slots| == |args|
    requires args[j] != [] && forall m :: i <= m < j ==> args[m] == []
    ensures Decode(slots, Emit(slots, args)) != Some(args)
    decreases |slots|
  {
    var ops := Emit(slots, args);
    if Decode(slots, ops) == Some(args) {
      DecodedTail(slots, ops, args);
      if i > 0 {
        EmittedTail(slots, args);
        ConfusedTail(slots, i, j);
        forall m | i - 1 <= m < j - 1 ensures args[1..][m] == [] { assert args[m + 1] == []; }
        assert args[1..][j - 1] == args[j];
        StealsFirst(slots[1..], i - 1, j - 1, args[1..]);
      } else {
        EmptyPrefix(slots, args, j);
      }
    }
  }

  lemma EmittedTail(slots: seq<Slot>, args: Arguments)
    requires slots != [] && |slots| == |args|
    ensures |args[0]| <= |Emit(slots, args)| && Emit(slots, args)[|args[0]|..] == Emit(slots[1..], args[1..])
  {
  }

  lemma ConfusedTail(slots: seq<Slot>, i: nat, j: nat)
    requires Confused(slots, i, j) && i > 0
    ensures Confused(slots[1..], i - 1, j - 1)
  {
    forall m | i - 1 < m < j - 1 ensures slots[1..][m].cardinality != Single {
      assert slots[1..][m] == slots[m + 1];
    }
  }

  lemma {:induction false} EmptyPrefix(slots: seq<Slot>, args: Arguments, j: nat)
    requires |slots| == |args| && j < |slots|
    requires args[j] != [] && forall m :: 0 <= m < j ==> args[m] == []
    ensures Emit(slots, args) != [] && Matches(slots[j], Emit(slots, args)[0])
  {
    if j > 0 {
      EmptyPrefix(slots[1..], args[1..], j - 1);
    }
  }

  /** The ambiguity check is exact: it accepts a slot list if and only if greedy decoding
      gives back every assignment of arguments. */
  lemma CodecExact(slots: seq<Slot>)
    ensures !Ambiguous(slots) <==> forall args | Fits(slots, args) :: Decode(slots, Emit(slots, args)) == Some(args)
  {
    if !Ambiguous(slots) {
      forall args | Fits(slots, args) ensures Decode(slots, Emit(slots, args)) == Some(args) {
        EmitThenDecode(slots, args);
      }
    } else {
      var i, j :| Confused(slots, i, j);
      var args := Sparse(slots, j);
      StealsFirst(slots, i, j, args);
    }
  }
}
