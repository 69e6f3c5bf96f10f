/**
 Strict JSON over object graphs: what `copyJson` and `isJsonValue` decide, as functions on a
 finite heap, and the independent meaning of that decision.

 Both functions carry the set of nodes on the path from the root (`active`): a node met
 again below itself is a cycle, a node met again beside itself is only shared.
 */
module StrictJson {
  import opened Wrappers

  type NodeId = nat

  datatype Number = Finite(value: real) | NaN | PositiveInfinity | NegativeInfinity

  /** `Opaque` is every other typeof: function, symbol, bigint. */
  datatype Value =
    | Null
    | Bool(b: bool)
    | Str(s: string)
    | Num(n: Number)
    | Undefined
    | Opaque(kind: string)
    | Ref(id: NodeId)

  datatype Slot = Data(value: Value, enumerable: bool) | Accessor(enumerable: bool)
  datatype Key = Name(name: string) | Symbol(tag: nat)
  datatype Prototype = ArrayPrototype | ObjectPrototype | NullPrototype | OtherPrototype

  /** An array's own keys are its present indices, `length`, and whatever `extra` holds. */
  datatype Node =
    | Arr(prototype: Prototype, length: nat, slots: map<nat, Slot>, extra: seq<Key>)
    | Obj(prototype: Prototype, keys: seq<Key>, props: seq<Slot>)

  type Heap = map<NodeId, Node>

  /** The alias-free result: a finite tree. */
  datatype Json =
    | JNull
    | JBool(b: bool)
    | JStr(s: string)
    | JNum(value: real)
    | JArr(items: seq<Json>)
    | JObj(prototype: Prototype, names: seq<string>, members: seq<Json>)

  datatype Fault =
    | NonFiniteNumber
    | NonJson(kind: string)
    | Cycle
    | NotDensePlainArray
    | NotIndexedData
    | NotPlainObject
    | SymbolKey
    | NotEnumerableData

  // ---------------------------------------------------------------- heaps

  predicate InHeap(h: Heap, v: Value) {
    v.Ref? ==> v.id in h
  }

  predicate SlotInHeap(h: Heap, slot: Slot) {
    slot.Data? ==> InHeap(h, slot.value)
  }

  /** Indices lie below `length`, keys and properties correspond, and no reference dangles. */
  predicate NodeOk(h: Heap, node: Node) {
    match node
    case Arr(_, length, slots, _) => forall k | k in slots :: k < length && SlotInHeap(h, slots[k])
    case Obj(_, keys, props) => |keys| == |props| && forall k | 0 <= k < |props| :: SlotInHeap(h, props[k])
  }

  ghost predicate HeapOk(h: Heap) {
    forall id | id in h :: NodeOk(h, h[id])
  }

  // ---------------------------------------------------------------- the copy

  function CopyPrimitive(v: Value): (r: Result<Json, Fault>)
    requires !v.Ref?
    ensures r.Success? <==> IsPrimitiveJson(v)
  {
    match v
    case Null => Success(JNull)
    case Bool(b) => Success(JBool(b))
    case Str(s) => Success(JStr(s))
    case Num(Finite(value)) => Success(JNum(value))
    case Num(_) => Failure(NonFiniteNumber)
    case Undefined => Failure(NonJson("undefined"))
    case Opaque(kind) => Failure(NonJson(kind))
  }

  predicate IsPrimitiveJson(v: Value) {
    v.Null? || v.Bool? || v.Str? || (v.Num? && v.n.Finite?)
  }

  predicate DensePlain(node: Node)
    requires node.Arr?
  {
    node.prototype == ArrayPrototype && |node.slots| + |node.extra| == node.length
  }

  predicate PlainObject(node: Node)
    requires node.Obj?
  {
    node.prototype == ObjectPrototype || node.prototype == NullPrototype
  }

  /** `copy`: the tree it returns or the first fault it meets. */
  function Copied(h: Heap, v: Value, active: set<NodeId>, omit: bool): Result<Json, Fault>
    requires HeapOk(h) && InHeap(h, v)
    decreases h.Keys - active, 1, 0
  {
    if !v.Ref? then CopyPrimitive(v)
    else if v.id in active then Failure(Cycle)
    else
      var node := h[v.id];
      assert h.Keys - (active + {v.id}) < h.Keys - active by { Smaller(h, active, v.id); }
      if node.Arr? then
        if !DensePlain(node) then Failure(NotDensePlainArray) else
        match CopiedItems(h, node, 0, active + {v.id}, omit)
        case Success(items) => Success(JArr(items))
        case Failure(fault) => Failure(fault)
      else
        if !PlainObject(node) then Failure(NotPlainObject) else
        match CopiedMembers(h, node, 0, active + {v.id}, omit)
        case Success(pairs) => Success(JObj(node.prototype, pairs.0, pairs.1))
        case Failure(fault) => Failure(fault)
  }

  lemma Smaller(h: Heap, active: set<NodeId>, id: NodeId)
    requires id in h && id !in active
    ensures h.Keys - (active + {id}) < h.Keys - active
  {
    assert id in h.Keys - active && id !in h.Keys - (active + {id});
  }

  /** The array loop from `index` on. */
  function CopiedItems(h: Heap, node: Node, index: nat, active: set<NodeId>, omit: bool): Result<seq<Json>, Fault>
    requires HeapOk(h) && node.Arr? && NodeOk(h, node) && index <= node.length
    decreases h.Keys - active, 2, node.length - index
  {
    if index == node.length then Success([])
    else if !Readable(node, index) then Failure(NotIndexedData)
    else
      match Copied(h, node.slots[index].value, active, omit)
      case Failure(fault) => Failure(fault)
      case Success(item) =>
        match CopiedItems(h, node, index + 1, active, omit)
        case Failure(fault) => Failure(fault)
        case Success(items) => Success([item] + items)
  }

  predicate Readable(node: Node, index: nat)
    requires node.Arr?
  {
    index in node.slots && node.slots[index].Data? && node.slots[index].enumerable
  }

  predicate Omitted(slot: Slot, omit: bool) {
    omit && slot == Data(Undefined, true)
  }

  /** The object loop from `index` on: names and values of the properties kept. */
  function CopiedMembers(h: Heap, node: Node, index: nat, active: set<NodeId>, omit: bool)
    : (r: Result<(seq<string>, seq<Json>), Fault>)
    requires HeapOk(h) && node.Obj? && NodeOk(h, node) && index <= |node.keys|
    decreases h.Keys - active, 2, |node.keys| - index
  {
    if index == |node.keys| then Success(([], []))
    else if node.keys[index].Symbol? then Failure(SymbolKey)
    else if !(node.props[index].Data? && node.props[index].enumerable) then Failure(NotEnumerableData)
    else if Omitted(node.props[index], omit) then CopiedMembers(h, node, index + 1, active, omit)
    else
      match Copied(h, node.props[index].value, active, omit)
      case Failure(fault) => Failure(fault)
      case Success(member) =>
        match CopiedMembers(h, node, index + 1, active, omit)
        case Failure(fault) => Failure(fault)
        case Success(pairs) => Success(([node.keys[index].name] + pairs.0, [member] + pairs.1))
  }

  // ---------------------------------------------------------------- the check

  predicate AllNames(keys: seq<Key>) {
    forall k | 0 <= k < |keys| :: keys[k].Name?
  }

  /** `check`: its tests come in another order and treat arrays and symbols differently. */
  predicate Checked(h: Heap, v: Value, active: set<NodeId>)
    requires HeapOk(h) && InHeap(h, v)
    decreases h.Keys - active, 1, 0
  {
    if !v.Ref? then IsPrimitiveJson(v)
    else
      var node := h[v.id];
      if node.Arr? then
        && node.prototype == ArrayPrototype
        && |node.slots| + |node.extra| == node.length && AllNames(node.extra)
        && v.id !in active
        && (Smaller(h, active, v.id); CheckedItems(h, node, 0, active + {v.id}))
      else
        && PlainObject(node)
        && AllNames(node.keys)
        && v.id !in active
        && (Smaller(h, active, v.id); CheckedMembers(h, node, 0, active + {v.id}))
  }

  predicate CheckedItems(h: Heap, node: Node, index: nat, active: set<NodeId>)
    requires HeapOk(h) && node.Arr? && NodeOk(h, node) && index <= node.length
    decreases h.Keys - active, 2, node.length - index
  {
    index == node.length ||
    (Readable(node, index) && Checked(h, node.slots[index].value, active) && CheckedItems(h, node, index + 1, active))
  }

  predicate CheckedMembers(h: Heap, node: Node, index: nat, active: set<NodeId>)
    requires HeapOk(h) && node.Obj? && NodeOk(h, node) && index <= |node.props|
    decreases h.Keys - active, 2, |node.props| - index
  {
    index == |node.props| ||
    (node.props[index].Data? && node.props[index].enumerable &&
     Checked(h, node.props[index].value, active) && CheckedMembers(h, node, index + 1, active))
  }

  // ---------------------------------------------------------------- what the decision means

  /** A node is strict when it is a plain container of enumerable data under string keys. */
  ghost predicate StrictNode(node: Node, omit: bool) {
    match node
    case Arr(prototype, length, slots, extra) =>
      prototype == ArrayPrototype && extra == [] &&
      forall k: nat | k < length :: Readable(node, k) && StrictLeaf(slots[k].value)
    case Obj(prototype, keys, props) =>
      PlainObject(node) && AllNames(keys) &&
      forall k | 0 <= k < |props| ::
        props[k].Data? && props[k].enumerable && (Omitted(props[k], omit) || StrictLeaf(props[k].value))
  }

  /** A value that is not a reference must itself be JSON. */
  predicate StrictLeaf(v: Value) {
    v.Ref? || IsPrimitiveJson(v)
  }

  /** One reference step between containers. */
  ghost predicate Edge(h: Heap, a: NodeId, b: NodeId) {
    a in h && match h[a]
              case Arr(_, length, slots, _) => exists k :: k in slots && slots[k].Data? && slots[k].value == Ref(b)
              case Obj(_, _, props) => exists k :: 0 <= k < |props| && props[k].Data? && props[k].value == Ref(b)
  }

  ghost predicate Path(h: Heap, p: seq<NodeId>) {
    |p| > 0 && p[0] in h && forall k | 0 < k < |p| :: Edge(h, p[k - 1], p[k])
  }

  ghost predicate Reachable(h: Heap, a: NodeId, b: NodeId) {
    exists p :: Path(h, p) && p[0] == a && p[|p| - 1] == b
  }

  ghost predicate OnCycle(h: Heap, a: NodeId) {
    exists p :: Path(h, p) && |p| > 1 && p[0] == a && p[|p| - 1] == a
  }

  /** Every reachable node is strict and none of them lies on a cycle. */
  ghost predicate StrictGraph(h: Heap, v: Value, omit: bool) {
    if !v.Ref? then IsPrimitiveJson(v)
    else forall b | Reachable(h, v.id, b) :: b in h && StrictNode(h[b], omit) && !OnCycle(h, b)
  }

  /** The path form of the same condition that the recursion on `active` follows. */
  ghost predicate CleanPath(h: Heap, p: seq<NodeId>, active: set<NodeId>, omit: bool) {
    && (forall k | 0 <= k < |p| :: p[k] in h && StrictNode(h[p[k]], omit) && p[k] !in active)
    && (forall j, k | 0 <= j < k < |p| :: p[j] != p[k])
  }

  ghost predicate CleanFrom(h: Heap, id: NodeId, active: set<NodeId>, omit: bool) {
    forall p | Path(h, p) && p[0] == id :: CleanPath(h, p, active, omit)
  }
}
