/** Which fault a failing copy reports, and which properties it may omit. */
module StrictJsonFaults {
  import opened Wrappers
  import opened StrictJson
  import opened StrictJsonProofs
  import opened StrictJsonResults

  // ---------------------------------------------------------------- values that are faults themselves

  /** A value that is no container: numbers must be finite, and other types are not JSON. */
  lemma {:induction false} LeafFault(h: Heap, v: Value, active: set<NodeId>, omit: bool)
    requires HeapOk(h) && !v.Ref?
    ensures Copied(h, v, active, omit) ==
            match v
            case Null => Success(JNull)
            case Bool(b) => Success(JBool(b))
            case Str(s) => Success(JStr(s))
            case Num(n) => if n.Finite? then Success(JNum(n.value)) else Failure(NonFiniteNumber)
            case Undefined => Failure(NonJson("undefined"))
            case Opaque(kind) => Failure(NonJson(kind))
            case Ref(_) => Failure(Cycle)
  {}

  // ---------------------------------------------------------------- the first fault of an array

  /** The slot is there, enumerable, and holds data. */
  predicate HasItem(node: Node, k: nat)
    requires node.Arr?
  {
    k in node.slots && node.slots[k].Data? && node.slots[k].enumerable
  }

  /** Item `k` fails with this fault: because of its slot, else because of its value. */
  predicate ItemFails(h: Heap, node: Node, k: nat, active: set<NodeId>, omit: bool, fault: Fault)
    requires HeapOk(h) && node.Arr? && NodeOk(h, node) && k < node.length
  {
    if !HasItem(node, k) then fault == NotIndexedData
    else Copied(h, node.slots[k].value, active, omit) == Failure(fault)
  }

  predicate ItemCopies(h: Heap, node: Node, k: nat, active: set<NodeId>, omit: bool)
    requires HeapOk(h) && node.Arr? && NodeOk(h, node) && k < node.length
  {
    HasItem(node, k) && Copied(h, node.slots[k].value, active, omit).Success?
  }

  ghost predicate FirstItemFails(
    h: Heap, node: Node, index: nat, active: set<NodeId>, omit: bool, fault: Fault, k: nat)
    requires HeapOk(h) && node.Arr? && NodeOk(h, node)
  {
    && index <= k < node.length && ItemFails(h, node, k, active, omit, fault)
    && forall j: nat | index <= j < k :: ItemCopies(h, node, j, active, omit)
  }

  lemma {:induction false} FirstItemFurther(
    h: Heap, node: Node, index: nat, next: nat, active: set<NodeId>, omit: bool, fault: Fault)
    requires HeapOk(h) && node.Arr? && NodeOk(h, node) && index < node.length && next == index + 1
    requires ItemCopies(h, node, index, active, omit)
    ensures (exists k: nat :: FirstItemFails(h, node, index, active, omit, fault, k)) <==>
            exists k: nat :: FirstItemFails(h, node, next, active, omit, fault, k)
  {
    if k: nat :| FirstItemFails(h, node, next, active, omit, fault, k) {
      assert FirstItemFails(h, node, index, active, omit, fault, k);
    }
    if k: nat :| FirstItemFails(h, node, index, active, omit, fault, k) {
      assert k != index;
      assert FirstItemFails(h, node, next, active, omit, fault, k);
    }
  }

  lemma {:induction false} FirstItemAtOnce(
    h: Heap, node: Node, index: nat, active: set<NodeId>, omit: bool, fault: Fault)
    requires HeapOk(h) && node.Arr? && NodeOk(h, node) && index < node.length
    requires !ItemCopies(h, node, index, active, omit)
    ensures (exists k: nat :: FirstItemFails(h, node, index, active, omit, fault, k)) <==>
            ItemFails(h, node, index, active, omit, fault)
  {
    if k: nat :| FirstItemFails(h, node, index, active, omit, fault, k) {
      assert k == index;
    }
    if ItemFails(h, node, index, active, omit, fault) {
      assert FirstItemFails(h, node, index, active, omit, fault, index);
    }
  }

  /** One item's part in the loop. */
  lemma {:induction false} ItemStep(h: Heap, node: Node, index: nat, active: set<NodeId>, omit: bool, fault: Fault)
    requires HeapOk(h) && node.Arr? && NodeOk(h, node) && index < node.length
    ensures ItemCopies(h, node, index, active, omit) ==>
              (CopiedItems(h, node, index, active, omit) == Failure(fault) <==>
               CopiedItems(h, node, index + 1, active, omit) == Failure(fault))
    ensures !ItemCopies(h, node, index, active, omit) ==>
              (CopiedItems(h, node, index, active, omit) == Failure(fault) <==>
               ItemFails(h, node, index, active, omit, fault))
  {}

  lemma {:induction false} ItemsFail(h: Heap, node: Node, index: nat, active: set<NodeId>, omit: bool, fault: Fault)
    requires HeapOk(h) && node.Arr? && NodeOk(h, node) && index <= node.length
    ensures CopiedItems(h, node, index, active, omit) == Failure(fault) <==>
            exists k: nat :: FirstItemFails(h, node, index, active, omit, fault, k)
    decreases node.length - index
  {
    if index == node.length {
    } else {
      ItemStep(h, node, index, active, omit, fault);
      if ItemCopies(h, node, index, active, omit) {
        ItemsFail(h, node, index + 1, active, omit, fault);
        FirstItemFurther(h, node, index, index + 1, active, omit, fault);
      } else {
        FirstItemAtOnce(h, node, index, active, omit, fault);
      }
    }
  }

  /** An array fails as a cycle, else for its shape, else with the fault of its first item that fails. */
  lemma {:induction false} ArrayFault(h: Heap, id: NodeId, active: set<NodeId>, omit: bool, fault: Fault)
    requires HeapOk(h) && id in h && h[id].Arr?
    ensures NodeOk(h, h[id])
    ensures Copied(h, Ref(id), active, omit) == Failure(fault) <==>
            if id in active then fault == Cycle
            else if h[id].prototype != ArrayPrototype || |h[id].slots| + |h[id].extra| != h[id].length
            then fault == NotDensePlainArray
            else exists k: nat :: FirstItemFails(h, h[id], 0, active + {id}, omit, fault, k)
  {
    assert NodeOk(h, h[id]);
    if id !in active {
      Smaller(h, active, id);
      ItemsFail(h, h[id], 0, active + {id}, omit, fault);
    }
  }

  // ---------------------------------------------------------------- the first fault of an object

  /** Property `k` fails with this fault: for its key, else for its slot, else for a value that is not omitted. */
  predicate PropertyFails(h: Heap, node: Node, k: nat, active: set<NodeId>, omit: bool, fault: Fault)
    requires HeapOk(h) && node.Obj? && NodeOk(h, node) && k < |node.keys|
  {
    var slot := node.props[k];
    if node.keys[k].Symbol? then fault == SymbolKey
    else if slot.Accessor? || !slot.enumerable then fault == NotEnumerableData
    else !(omit && slot.value == Undefined) && Copied(h, slot.value, active, omit) == Failure(fault)
  }

  predicate PropertyCopies(h: Heap, node: Node, k: nat, active: set<NodeId>, omit: bool)
    requires HeapOk(h) && node.Obj? && NodeOk(h, node) && k < |node.keys|
  {
    var slot := node.props[k];
    && node.keys[k].Name? && slot.Data? && slot.enumerable
    && ((omit && slot.value == Undefined) || Copied(h, slot.value, active, omit).Success?)
  }

  ghost predicate FirstPropertyFails(
    h: Heap, node: Node, index: nat, active: set<NodeId>, omit: bool, fault: Fault, k: nat)
    requires HeapOk(h) && node.Obj? && NodeOk(h, node)
  {
    && index <= k < |node.keys| && PropertyFails(h, node, k, active, omit, fault)
    && forall j: nat | index <= j < k :: PropertyCopies(h, node, j, active, omit)
  }

  lemma {:induction false} FirstPropertyFurther(
    h: Heap, node: Node, index: nat, next: nat, active: set<NodeId>, omit: bool, fault: Fault)
    requires HeapOk(h) && node.Obj? && NodeOk(h, node) && index < |node.keys| && next == index + 1
    requires PropertyCopies(h, node, index, active, omit)
    ensures (exists k: nat :: FirstPropertyFails(h, node, index, active, omit, fault, k)) <==>
            exists k: nat :: FirstPropertyFails(h, node, next, active, omit, fault, k)
  {
    if k: nat :| FirstPropertyFails(h, node, next, active, omit, fault, k) {
      assert FirstPropertyFails(h, node, index, active, omit, fault, k);
    }
    if k: nat :| FirstPropertyFails(h, node, index, active, omit, fault, k) {
      assert k != index;
      assert FirstPropertyFails(h, node, next, active, omit, fault, k);
    }
  }

  lemma {:induction false} FirstPropertyAtOnce(
    h: Heap, node: Node, index: nat, active: set<NodeId>, omit: bool, fault: Fault)
    requires HeapOk(h) && node.Obj? && NodeOk(h, node) && index < |node.keys|
    requires !PropertyCopies(h, node, index, active, omit)
    ensures (exists k: nat :: FirstPropertyFails(h, node, index, active, omit, fault, k)) <==>
            PropertyFails(h, node, index, active, omit, fault)
  {
    if k: nat :| FirstPropertyFails(h, node, index, active, omit, fault, k) {
      assert k == index;
    }
    if PropertyFails(h, node, index, active, omit, fault) {
      assert FirstPropertyFails(h, node, index, active, omit, fault, index);
    }
  }

  /** One property's part in the loop. */
  lemma {:induction false} MemberStep(h: Heap, node: Node, index: nat, active: set<NodeId>, omit: bool, fault: Fault)
    requires HeapOk(h) && node.Obj? && NodeOk(h, node) && index < |node.keys|
    ensures PropertyCopies(h, node, index, active, omit) ==>
              (CopiedMembers(h, node, index, active, omit) == Failure(fault) <==>
               CopiedMembers(h, node, index + 1, active, omit) == Failure(fault))
    ensures !PropertyCopies(h, node, index, active, omit) ==>
              (CopiedMembers(h, node, index, active, omit) == Failure(fault) <==>
               PropertyFails(h, node, index, active, omit, fault))
  {}

  lemma {:induction false} MembersFail(h: Heap, node: Node, index: nat, active: set<NodeId>, omit: bool, fault: Fault)
    requires HeapOk(h) && node.Obj? && NodeOk(h, node) && index <= |node.keys|
    ensures CopiedMembers(h, node, index, active, omit) == Failure(fault) <==>
            exists k: nat :: FirstPropertyFails(h, node, index, active, omit, fault, k)
    decreases |node.keys| - index
  {
    if index == |node.keys| {
    } else {
      MemberStep(h, node, index, active, omit, fault);
      if PropertyCopies(h, node, index, active, omit) {
        MembersFail(h, node, index + 1, active, omit, fault);
        FirstPropertyFurther(h, node, index, index + 1, active, omit, fault);
      } else {
        FirstPropertyAtOnce(h, node, index, active, omit, fault);
      }
    }
  }

  /** An object fails as a cycle, else for its prototype, else with the fault of its first property that fails. */
  lemma {:induction false} ObjectFault(h: Heap, id: NodeId, active: set<NodeId>, omit: bool, fault: Fault)
    requires HeapOk(h) && id in h && h[id].Obj?
    ensures NodeOk(h, h[id])
    ensures Copied(h, Ref(id), active, omit) == Failure(fault) <==>
            if id in active then fault == Cycle
            else if h[id].prototype != ObjectPrototype && h[id].prototype != NullPrototype
            then fault == NotPlainObject
            else exists k: nat :: FirstPropertyFails(h, h[id], 0, active + {id}, omit, fault, k)
  {
    assert NodeOk(h, h[id]);
    if id !in active {
      Smaller(h, active, id);
      MembersFail(h, h[id], 0, active + {id}, omit, fault);
    }
  }

  // ---------------------------------------------------------------- what may be omitted

  /** A property that the option deletes: a named, enumerable one that holds undefined. */
  predicate Deletable(key: Key, slot: Slot) {
    key.Name? && slot.Data? && slot.enumerable && slot.value == Undefined
  }

  /** Deleting keeps the other properties in their order. */
  lemma {:induction false} KeptIs(keys: seq<Key>, props: seq<Slot>, index: nat)
    requires |keys| == |props| && index < |keys|
    ensures var kept, rest := Kept(keys, props, index), Kept(keys, props, index + 1);
      kept == if Deletable(keys[index], props[index]) then rest
              else ([keys[index]] + rest.0, [props[index]] + rest.1)
    ensures Kept(keys, props, |keys|) == ([], [])
  {}
}
