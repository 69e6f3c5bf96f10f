/**
 `copy` as the program runs it: one shared, mutable set of ancestors, and a heap in which the
 result is allocated.  The result is a tree of fresh nodes with exactly one owner each.
 */
module StrictJsonCopy {
  import opened Wrappers
  import opened StrictJson
  import opened StrictJsonProofs

  // ---------------------------------------------------------------- a tree laid out in a heap

  /** Containers in a tree: the nodes its copy allocates. */
  function Size(t: Json): nat
    decreases t
  {
    match t
    case JArr(items) => 1 + SizeTo(items, |items|)
    case JObj(_, _, members) => 1 + SizeTo(members, |members|)
    case _ => 0
  }

  function SizeTo(items: seq<Json>, n: nat): nat
    requires n <= |items|
    decreases items, n
  {
    if n == 0 then 0 else SizeTo(items, n - 1) + Size(items[n - 1])
  }

  function Filled(values: seq<Value>): map<nat, Slot> {
    map k: nat | k < |values| :: Data(values[k], true)
  }

  function ArrayOf(values: seq<Value>): Node {
    Arr(ArrayPrototype, |values|, Filled(values), [])
  }

  function Props(values: seq<Value>): seq<Slot> {
    seq(|values|, k requires 0 <= k < |values| => Data(values[k], true))
  }

  function Keys(names: seq<string>): seq<Key> {
    seq(|names|, k requires 0 <= k < |names| => Name(names[k]))
  }

  /** What a container's slots hold. */
  function Values(node: Node): seq<Value> {
    match node
    case Arr(_, length, slots, _) =>
      seq(length, (k: nat) => if k in slots && slots[k].Data? then slots[k].value else Undefined)
    case Obj(_, _, props) =>
      seq(|props|, k requires 0 <= k < |props| => if props[k].Data? then props[k].value else Undefined)
  }

  /** `v` stands for `t` in `h`, in nodes `lo`, `lo + 1`, ... in the order the copy allocates them. */
  ghost predicate Stands(h: Heap, v: Value, t: Json, lo: nat)
    decreases t
  {
    match t
    case JNull => v == Null
    case JBool(b) => v == Bool(b)
    case JStr(s) => v == Str(s)
    case JNum(value) => v == Num(Finite(value))
    case JArr(items) =>
      && v == Ref(lo) && lo in h
      && h[lo] == ArrayOf(Values(h[lo]))
      && AllStand(h, Values(h[lo]), items, lo + 1)
    case JObj(prototype, names, members) =>
      && v == Ref(lo) && lo in h
      && (prototype == ObjectPrototype || prototype == NullPrototype)
      && |names| == |members|
      && h[lo] == Obj(prototype, Keys(names), Props(Values(h[lo])))
      && AllStand(h, Values(h[lo]), members, lo + 1)
  }

  ghost predicate AllStand(h: Heap, values: seq<Value>, items: seq<Json>, lo: nat)
    decreases items, |items| + 1
  {
    |values| == |items| && FirstStand(h, values, items, |items|, lo)
  }

  ghost predicate FirstStand(h: Heap, values: seq<Value>, items: seq<Json>, n: nat, lo: nat)
    requires n <= |items| && n <= |values|
    decreases items, n
  {
    n == 0 ||
    (FirstStand(h, values, items, n - 1, lo) && Stands(h, values[n - 1], items[n - 1], lo + SizeTo(items, n - 1)))
  }

  lemma ValuesOfArray(values: seq<Value>)
    ensures Values(ArrayOf(values)) == values
  {
  }

  lemma ValuesOfObject(prototype: Prototype, keys: seq<Key>, values: seq<Value>)
    ensures Values(Obj(prototype, keys, Props(values))) == values
  {
  }

  lemma {:induction false} SizeToMonotone(items: seq<Json>, m: nat, n: nat)
    requires m <= n <= |items|
    ensures SizeTo(items, m) <= SizeTo(items, n)
    decreases n
  {
    if m < n {
      SizeToMonotone(items, m, n - 1);
    }
  }

  lemma ChildFits(items: seq<Json>, k: nat)
    requires k < |items|
    ensures SizeTo(items, k) + Size(items[k]) <= SizeTo(items, |items|)
  {
    SizeToMonotone(items, k + 1, |items|);
  }

  ghost predicate SameRange(h: Heap, g: Heap, lo: nat, hi: nat) {
    forall id | lo <= id < hi && id in h :: id in g && g[id] == h[id]
  }

  /** A laid-out tree is untouched by changes outside its nodes. */
  lemma {:induction false} StandsFrame(h: Heap, g: Heap, v: Value, t: Json, lo: nat)
    requires Stands(h, v, t, lo) && SameRange(h, g, lo, lo + Size(t))
    ensures Stands(g, v, t, lo)
    decreases t
  {
    match t
    case JArr(items) => AllStandFrame(h, g, Values(h[lo]), items, lo + 1);
    case JObj(_, _, members) => AllStandFrame(h, g, Values(h[lo]), members, lo + 1);
    case _ =>
  }

  lemma AllStandFrame(h: Heap, g: Heap, values: seq<Value>, items: seq<Json>, lo: nat)
    requires AllStand(h, values, items, lo) && SameRange(h, g, lo, lo + SizeTo(items, |items|))
    ensures AllStand(g, values, items, lo)
    decreases items, |items| + 1
  {
    FirstStandFrame(h, g, values, items, |items|, lo);
  }

  lemma {:induction false} FirstStandFrame(h: Heap, g: Heap, values: seq<Value>, items: seq<Json>, n: nat, lo: nat)
    requires n <= |items| == |values|
    requires FirstStand(h, values, items, n, lo) && SameRange(h, g, lo, lo + SizeTo(items, n))
    ensures FirstStand(g, values, items, n, lo)
    decreases items, n
  {
    if n == 0 {
    } else {
      FirstStandFrame(h, g, values, items, n - 1, lo);
      StandsFrame(h, g, values[n - 1], items[n - 1], lo + SizeTo(items, n - 1));
    }
  }

  lemma {:induction false} FirstStandPrefix(
    h: Heap, values: seq<Value>, items: seq<Json>, v: Value, t: Json, n: nat, lo: nat)
    requires n <= |items| == |values| && FirstStand(h, values, items, n, lo)
    ensures FirstStand(h, values + [v], items + [t], n, lo)
    ensures SizeTo(items + [t], n) == SizeTo(items, n)
    decreases n
  {
    if n == 0 {
    } else {
      FirstStandPrefix(h, values, items, v, t, n - 1, lo);
      assert (values + [v])[n - 1] == values[n - 1] && (items + [t])[n - 1] == items[n - 1];
    }
  }

  lemma AllStandSnoc(h: Heap, values: seq<Value>, items: seq<Json>, v: Value, t: Json, lo: nat)
    requires AllStand(h, values, items, lo) && Stands(h, v, t, lo + SizeTo(items, |items|))
    ensures AllStand(h, values + [v], items + [t], lo)
    ensures SizeTo(items + [t], |items| + 1) == SizeTo(items, |items|) + Size(t)
  {
    FirstStandPrefix(h, values, items, v, t, |items|, lo);
    assert (values + [v])[|items|] == v && (items + [t])[|items|] == t;
  }

  // ---------------------------------------------------------------- the program

  class JsHeap {
    var nodes: Heap
    var next: NodeId

    constructor (nodes: Heap, next: NodeId)
      ensures this.nodes == nodes && this.next == next
    {
      this.nodes, this.next := nodes, next;
    }

    ghost predicate Valid()
      reads this
    {
      HeapOk(nodes) && forall id | id in nodes :: id < next
    }
  }

  class Ancestors {
    var members: set<NodeId>

    constructor ()
      ensures members == {}
    {
      members := {};
    }
  }

  ghost predicate Extends(h: Heap, g: Heap) {
    forall id | id in h :: id in g && g[id] == h[id]
  }

  lemma HeapOkPut(h: Heap, id: NodeId, node: Node)
    requires HeapOk(h) && NodeOk(h[id := node], node)
    ensures HeapOk(h[id := node])
  {
    var g := h[id := node];
    forall other | other in g ensures NodeOk(g, g[other]) {
      if other != id {
        assert NodeOk(h, h[other]);
      }
    }
  }

  /** Results of a loop that has produced `done` and still has `rest` to say. */
  function Prepend(done: seq<Json>, rest: Result<seq<Json>, Fault>): Result<seq<Json>, Fault> {
    match rest
    case Success(items) => Success(done + items)
    case Failure(fault) => Failure(fault)
  }

  function PrependMembers(names: seq<string>, done: seq<Json>, rest: Result<(seq<string>, seq<Json>), Fault>)
    : Result<(seq<string>, seq<Json>), Fault>
  {
    match rest
    case Success(pairs) => Success((names + pairs.0, done + pairs.1))
    case Failure(fault) => Failure(fault)
  }

  lemma NothingDoneYet(rest: Result<seq<Json>, Fault>, pairs: Result<(seq<string>, seq<Json>), Fault>)
    ensures Prepend([], rest) == rest && PrependMembers([], [], pairs) == pairs
  {
    assert rest.Success? ==> [] + rest.value == rest.value;
    assert pairs.Success? ==> [] + pairs.value.0 == pairs.value.0 && [] + pairs.value.1 == pairs.value.1;
  }

  /** What a call to copy leaves behind: the answer of `Copied`, as fresh nodes from `lo` on. */
  ghost predicate Answers(spec: Result<Json, Fault>, r: Result<Value, Fault>, h: Heap, lo: nat, next: nat) {
    match spec
    case Success(t) => r.Success? && Stands(h, r.value, t, lo) && next == lo + Size(t)
    case Failure(fault) => r == Failure(fault)
  }

  /** What one turn of the array loop produces. */
  function ItemAt(source: Heap, node: Node, index: nat, below: set<NodeId>, omit: bool): Result<Json, Fault>
    requires HeapOk(source) && node.Arr? && NodeOk(source, node) && index < node.length
  {
    if Readable(node, index) then Copied(source, node.slots[index].value, below, omit) else Failure(NotIndexedData)
  }

  /** The result array after some turns: its leading slots hold copies laid out behind it. */
  ghost predicate GrowingArray(h: Heap, next: NodeId, root: NodeId, length: nat, values: seq<Value>, items: seq<Json>) {
    && root in h && h[root] == Arr(ArrayPrototype, length, Filled(values), [])
    && AllStand(h, values, items, root + 1) && next == root + 1 + SizeTo(items, |items|)
  }

  ghost predicate GrowingObject(
    h: Heap, next: NodeId, root: NodeId, prototype: Prototype,
    names: seq<string>, values: seq<Value>, members: seq<Json>)
  {
    && |names| == |members|
    && root in h && h[root] == Obj(prototype, Keys(names), Props(values))
    && AllStand(h, values, members, root + 1) && next == root + 1 + SizeTo(members, |members|)
  }

  lemma OneMoreItem(source: Heap, node: Node, index: nat, below: set<NodeId>, omit: bool, items: seq<Json>, t: Json)
    requires HeapOk(source) && node.Arr? && NodeOk(source, node) && index < node.length
    requires CopiedItems(source, node, 0, below, omit) == Prepend(items, CopiedItems(source, node, index, below, omit))
    requires ItemAt(source, node, index, below, omit) == Success(t)
    ensures CopiedItems(source, node, 0, below, omit) ==
            Prepend(items + [t], CopiedItems(source, node, index + 1, below, omit))
  {
    var rest := CopiedItems(source, node, index + 1, below, omit);
    assert rest.Success? ==> items + ([t] + rest.value) == items + [t] + rest.value;
  }

  lemma OneMoreMember(
    source: Heap, node: Node, index: nat, below: set<NodeId>, omit: bool,
    names: seq<string>, members: seq<Json>, name: string, t: Json)
    requires HeapOk(source) && node.Obj? && NodeOk(source, node) && index < |node.keys|
    requires node.keys[index] == Name(name) && node.props[index].Data? && node.props[index].enumerable
    requires !Omitted(node.props[index], omit)
    requires CopiedMembers(source, node, 0, below, omit) ==
             PrependMembers(names, members, CopiedMembers(source, node, index, below, omit))
    requires Copied(source, node.props[index].value, below, omit) == Success(t)
    ensures CopiedMembers(source, node, 0, below, omit) ==
            PrependMembers(names + [name], members + [t], CopiedMembers(source, node, index + 1, below, omit))
  {
    var rest := CopiedMembers(source, node, index + 1, below, omit);
    assert rest.Success? ==> names + ([name] + rest.value.0) == names + [name] + rest.value.0;
    assert rest.Success? ==> members + ([t] + rest.value.1) == members + [t] + rest.value.1;
  }

  lemma ArrayDone(source: Heap, id: NodeId, below: set<NodeId>, omit: bool, items: seq<Json>)
    requires HeapOk(source) && id in source && source[id].Arr? && NodeOk(source, source[id]) && DensePlain(source[id])
    requires id in below
    requires CopiedItems(source, source[id], 0, below, omit) == Prepend(items, Success([]))
    ensures Copied(source, Ref(id), below - {id}, omit) == Success(JArr(items))
  {
    assert items + [] == items && below - {id} + {id} == below;
  }

  lemma ObjectDone(
    source: Heap, id: NodeId, below: set<NodeId>, omit: bool, names: seq<string>, members: seq<Json>)
    requires HeapOk(source) && id in source && source[id].Obj? && NodeOk(source, source[id]) && PlainObject(source[id])
    requires id in below
    requires CopiedMembers(source, source[id], 0, below, omit) == PrependMembers(names, members, Success(([], [])))
    ensures Copied(source, Ref(id), below - {id}, omit) == Success(JObj(source[id].prototype, names, members))
  {
    assert names + [] == names && members + [] == members && below - {id} + {id} == below;
  }

  lemma ArrayStands(h: Heap, values: seq<Value>, items: seq<Json>, root: NodeId)
    requires root in h && h[root] == ArrayOf(values) && AllStand(h, values, items, root + 1)
    ensures Stands(h, Ref(root), JArr(items), root) && Size(JArr(items)) == 1 + SizeTo(items, |items|)
  {
    ValuesOfArray(values);
  }

  lemma ObjectStands(
    h: Heap, prototype: Prototype, names: seq<string>, values: seq<Value>, members: seq<Json>, root: NodeId)
    requires root in h && h[root] == Obj(prototype, Keys(names), Props(values)) && |names| == |members|
    requires prototype == ObjectPrototype || prototype == NullPrototype
    requires AllStand(h, values, members, root + 1)
    ensures Stands(h, Ref(root), JObj(prototype, names, members), root)
    ensures Size(JObj(prototype, names, members)) == 1 + SizeTo(members, |members|)
  {
    ValuesOfObject(prototype, Keys(names), values);
  }

  method Copy(heap: JsHeap, value: Value, active: Ancestors, omit: bool, ghost source: Heap)
    returns (r: Result<Value, Fault>)
    requires heap.Valid() && HeapOk(source) && Extends(source, heap.nodes) && InHeap(source, value)
    modifies heap, active
    ensures heap.Valid() && Extends(old(heap.nodes), heap.nodes) && old(heap.next) <= heap.next
    ensures active.members == old(active.members)
    ensures r.Success? ==> InHeap(heap.nodes, r.value)
    ensures Answers(Copied(source, value, old(active.members), omit), r, heap.nodes, old(heap.next), heap.next)
    decreases source.Keys - active.members, 2
  {
    if !value.Ref? {
      r := CopyLeaf(value);
      return;
    }
    var id := value.id;
    if id in active.members {
      return Failure(Cycle);
    }
    Smaller(source, active.members, id);
    active.members := active.members + {id};
    if heap.nodes[id].Arr? {
      r := CopyArray(heap, id, active, omit, source);
    } else {
      r := CopyObject(heap, id, active, omit, source);
    }
    active.members := active.members - {id};
  }

  method CopyLeaf(value: Value) returns (r: Result<Value, Fault>)
    requires !value.Ref?
    ensures match CopyPrimitive(value)
            case Success(t) => Size(t) == 0 && r == Success(value) && forall h, lo :: Stands(h, value, t, lo)
            case Failure(fault) => r == Failure(fault)
  {
    if value.Null? || value.Str? || value.Bool? {
      return Success(value);
    }
    if value.Num? {
      if value.n.Finite? {
        return Success(value);
      }
      return Failure(NonFiniteNumber);
    }
    return Failure(NonJson(if value.Undefined? then "undefined" else value.kind));
  }

  method CopyArray(heap: JsHeap, id: NodeId, active: Ancestors, omit: bool, ghost source: Heap)
    returns (r: Result<Value, Fault>)
    requires heap.Valid() && HeapOk(source) && Extends(source, heap.nodes)
    requires id in source && source[id].Arr? && id in active.members
    modifies heap, active
    ensures heap.Valid() && Extends(old(heap.nodes), heap.nodes) && old(heap.next) <= heap.next
    ensures active.members == old(active.members)
    ensures r.Success? ==> InHeap(heap.nodes, r.value)
    ensures Answers(Copied(source, Ref(id), old(active.members) - {id}, omit), r, heap.nodes, old(heap.next), heap.next)
    decreases source.Keys - active.members, 4
  {
    ghost var below := active.members;
    assert below - {id} + {id} == below;
    var node := heap.nodes[id];
    assert NodeOk(source, node);
    if node.prototype != ArrayPrototype || |node.slots| + |node.extra| != node.length {
      return Failure(NotDensePlainArray);
    }
    ghost var before := heap.nodes;
    var root := Allocate(heap, Arr(ArrayPrototype, node.length, map[], []));
    var index := 0;
    var values: seq<Value> := [];
    ghost var items: seq<Json> := [];
    assert Filled([]) == map[];
    NothingDoneYet(CopiedItems(source, node, 0, below, omit), Success(([], [])));
    while index < node.length
      invariant index == |values| == |items| <= node.length
      invariant heap.Valid() && Extends(before, heap.nodes)
      invariant active.members == below
      invariant GrowingArray(heap.nodes, heap.next, root, node.length, values, items)
      invariant CopiedItems(source, node, 0, below, omit) ==
                Prepend(items, CopiedItems(source, node, index, below, omit))
    {
      var item := CopyItem(heap, root, node, values, active, omit, source, items);
      if item.Failure? {
        return Failure(item.error);
      }
      ghost var t := ItemAt(source, node, index, below, omit).value;
      OneMoreItem(source, node, index, below, omit, items, t);
      values, items, index := values + [item.value], items + [t], index + 1;
    }
    ArrayDone(source, id, below, omit, items);
    ArrayStands(heap.nodes, values, items, root);
    r := Success(Ref(root));
  }

  method Allocate(heap: JsHeap, node: Node) returns (root: NodeId)
    requires heap.Valid() && NodeOk(heap.nodes, node)
    modifies heap
    ensures heap.Valid() && root == old(heap.next) && heap.next == root + 1
    ensures root !in old(heap.nodes) && heap.nodes == old(heap.nodes)[root := node]
    ensures Extends(old(heap.nodes), heap.nodes)
  {
    root := heap.next;
    HeapOkPut(heap.nodes, root, node);
    heap.nodes, heap.next := heap.nodes[root := node], root + 1;
  }

  /** One turn of the array loop. */
  method CopyItem(
    heap: JsHeap, root: NodeId, node: Node, values: seq<Value>, active: Ancestors, omit: bool,
    ghost source: Heap, ghost items: seq<Json>)
    returns (r: Result<Value, Fault>)
    requires heap.Valid() && HeapOk(source) && Extends(source, heap.nodes) && root !in source
    requires node.Arr? && NodeOk(source, node) && |values| == |items| < node.length
    requires GrowingArray(heap.nodes, heap.next, root, node.length, values, items)
    modifies heap, active
    ensures heap.Valid() && forall id | id in old(heap.nodes) && id != root ::
              id in heap.nodes && heap.nodes[id] == old(heap.nodes[id])
    ensures active.members == old(active.members)
    ensures match ItemAt(source, node, |values|, old(active.members), omit)
            case Failure(fault) => r == Failure(fault) && old(heap.next) <= heap.next
            case Success(t) =>
              r.Success? && GrowingArray(heap.nodes, heap.next, root, node.length, values + [r.value], items + [t])
    decreases source.Keys - active.members, 3
  {
    var index := |values|;
    if !(index in node.slots && node.slots[index].Data? && node.slots[index].enumerable) {
      return Failure(NotIndexedData);
    }
    ghost var h := heap.nodes;
    r := Copy(heap, node.slots[index].value, active, omit, source);
    if r.Success? {
      ghost var t := ItemAt(source, node, index, active.members, omit).value;
      AllStandFrame(h, heap.nodes, values, items, root + 1);
      AllStandSnoc(heap.nodes, values, items, r.value, t, root + 1);
      ghost var g := heap.nodes;
      StoreSlot(heap, root, values + [r.value]);
      AllStandFrame(g, heap.nodes, values + [r.value], items + [t], root + 1);
    }
  }

  /** `defineData(result, String(index), ...)` */
  method StoreSlot(heap: JsHeap, root: NodeId, values: seq<Value>)
    requires heap.Valid() && root in heap.nodes && |values| > 0
    requires heap.nodes[root].Arr? && heap.nodes[root].slots == Filled(values[..|values| - 1])
    requires |values| <= heap.nodes[root].length && InHeap(heap.nodes, values[|values| - 1])
    modifies heap
    ensures heap.Valid() && heap.next == old(heap.next)
    ensures heap.nodes == old(heap.nodes)[root := old(heap.nodes[root]).(slots := Filled(values))]
  {
    var node := heap.nodes[root];
    var index := |values| - 1;
    assert NodeOk(heap.nodes, node);
    var filled := node.(slots := node.slots[index := Data(values[index], true)]);
    assert filled.slots == Filled(values);
    forall k | k in filled.slots ensures k < node.length && SlotInHeap(heap.nodes[root := filled], filled.slots[k]) {
      if k != index {
        assert filled.slots[k] == node.slots[k];
      }
    }
    HeapOkPut(heap.nodes, root, filled);
    heap.nodes := heap.nodes[root := filled];
  }

  method CopyObject(heap: JsHeap, id: NodeId, active: Ancestors, omit: bool, ghost source: Heap)
    returns (r: Result<Value, Fault>)
    requires heap.Valid() && HeapOk(source) && Extends(source, heap.nodes)
    requires id in source && source[id].Obj? && id in active.members
    modifies heap, active
    ensures heap.Valid() && Extends(old(heap.nodes), heap.nodes) && old(heap.next) <= heap.next
    ensures active.members == old(active.members)
    ensures r.Success? ==> InHeap(heap.nodes, r.value)
    ensures Answers(Copied(source, Ref(id), old(active.members) - {id}, omit), r, heap.nodes, old(heap.next), heap.next)
    decreases source.Keys - active.members, 4
  {
    ghost var below := active.members;
    assert below - {id} + {id} == below;
    var node := heap.nodes[id];
    assert NodeOk(source, node);
    if node.prototype != ObjectPrototype && node.prototype != NullPrototype {
      return Failure(NotPlainObject);
    }
    ghost var before := heap.nodes;
    var root := Allocate(heap, Obj(node.prototype, [], []));
    var index := 0;
    var names: seq<string> := [];
    var values: seq<Value> := [];
    ghost var members: seq<Json> := [];
    NothingDoneYet(Success([]), CopiedMembers(source, node, 0, below, omit));
    while index < |node.keys|
      invariant index <= |node.keys|
      invariant heap.Valid() && Extends(before, heap.nodes)
      invariant active.members == below
      invariant GrowingObject(heap.nodes, heap.next, root, node.prototype, names, values, members)
      invariant CopiedMembers(source, node, 0, below, omit) ==
                PrependMembers(names, members, CopiedMembers(source, node, index, below, omit))
    {
      if node.keys[index].Symbol? {
        return Failure(SymbolKey);
      }
      if !(node.props[index].Data? && node.props[index].enumerable) {
        return Failure(NotEnumerableData);
      }
      if node.props[index].value == Undefined && omit {
        index := index + 1;
        continue;
      }
      var name := node.keys[index].name;
      var member := CopyMember(heap, root, node.prototype, name, node.props[index].value, names, values,
                               active, omit, source, members);
      if member.Failure? {
        return Failure(member.error);
      }
      ghost var t := Copied(source, node.props[index].value, below, omit).value;
      OneMoreMember(source, node, index, below, omit, names, members, name, t);
      names, values, members := names + [name], values + [member.value], members + [t];
      index := index + 1;
    }
    ObjectDone(source, id, below, omit, names, members);
    ObjectStands(heap.nodes, node.prototype, names, values, members, root);
    r := Success(Ref(root));
  }

  /** The copying part of one turn of the object loop. */
  method CopyMember(
    heap: JsHeap, root: NodeId, prototype: Prototype, name: string, value: Value,
    names: seq<string>, values: seq<Value>, active: Ancestors, omit: bool, ghost source: Heap, ghost members: seq<Json>)
    returns (r: Result<Value, Fault>)
    requires heap.Valid() && HeapOk(source) && Extends(source, heap.nodes) && root !in source && InHeap(source, value)
    requires GrowingObject(heap.nodes, heap.next, root, prototype, names, values, members)
    modifies heap, active
    ensures heap.Valid() && forall id | id in old(heap.nodes) && id != root ::
              id in heap.nodes && heap.nodes[id] == old(heap.nodes[id])
    ensures active.members == old(active.members)
    ensures match Copied(source, value, old(active.members), omit)
            case Failure(fault) => r == Failure(fault) && old(heap.next) <= heap.next
            case Success(t) =>
              r.Success? &&
              GrowingObject(heap.nodes, heap.next, root, prototype, names + [name], values + [r.value], members + [t])
    decreases source.Keys - active.members, 3
  {
    ghost var h := heap.nodes;
    r := Copy(heap, value, active, omit, source);
    if r.Success? {
      ghost var t := Copied(source, value, active.members, omit).value;
      AllStandFrame(h, heap.nodes, values, members, root + 1);
      AllStandSnoc(heap.nodes, values, members, r.value, t, root + 1);
      ghost var g := heap.nodes;
      StoreProperty(heap, root, names + [name], values + [r.value]);
      AllStandFrame(g, heap.nodes, values + [r.value], members + [t], root + 1);
    }
  }

  /** `defineData(result, key, ...)` */
  method StoreProperty(heap: JsHeap, root: NodeId, names: seq<string>, values: seq<Value>)
    requires heap.Valid() && root in heap.nodes && |names| == |values| > 0
    requires heap.nodes[root].Obj? && InHeap(heap.nodes, values[|values| - 1])
    requires heap.nodes[root].keys == Keys(names[..|names| - 1])
    requires heap.nodes[root].props == Props(values[..|values| - 1])
    modifies heap
    ensures heap.Valid() && heap.next == old(heap.next)
    ensures heap.nodes == old(heap.nodes)[root := old(heap.nodes[root]).(keys := Keys(names), props := Props(values))]
  {
    var node := heap.nodes[root];
    var last := |values| - 1;
    assert NodeOk(heap.nodes, node);
    var filled := node.(keys := node.keys + [Name(names[last])], props := node.props + [Data(values[last], true)]);
    assert filled.keys == Keys(names) && filled.props == Props(values);
    HeapOkPut(heap.nodes, root, filled);
    heap.nodes := heap.nodes[root := filled];
  }

  method CopyJson(heap: JsHeap, value: Value, omit: bool) returns (r: Result<Value, Fault>)
    requires heap.Valid() && InHeap(heap.nodes, value)
    modifies heap
    ensures heap.Valid() && Extends(old(heap.nodes), heap.nodes)
    ensures r.Success? <==> StrictGraph(old(heap.nodes), value, omit)
    ensures Answers(Copied(old(heap.nodes), value, {}, omit), r, heap.nodes, old(heap.next), heap.next)
  {
    CopyDecidesStrictness(heap.nodes, value, omit);
    var active := new Ancestors();
    r := Copy(heap, value, active, omit, heap.nodes);
  }
}
