/** The check as a program, and what the copy's result is worth: strict again, unshared, the same tree. */
module StrictJsonResults {
  import opened Wrappers
  import opened StrictJson
  import opened StrictJsonProofs
  import opened StrictJsonCopy

  // ---------------------------------------------------------------- the check as a program

  method Check(h: Heap, value: Value, active: Ancestors) returns (ok: bool)
    requires HeapOk(h) && InHeap(h, value)
    modifies active
    ensures active.members == old(active.members)
    ensures ok == Checked(h, value, old(active.members))
    decreases h.Keys - active.members, 2
  {
    if !value.Ref? {
      return value.Null? || value.Str? || value.Bool? || (value.Num? && value.n.Finite?);
    }
    var id := value.id;
    var node := h[id];
    assert NodeOk(h, node);
    if node.Arr? {
      if node.prototype != ArrayPrototype {
        return false;
      }
      if |node.slots| + |node.extra| != node.length || exists k | 0 <= k < |node.extra| :: !node.extra[k].Name? {
        return false;
      }
    } else {
      if node.prototype != ObjectPrototype && node.prototype != NullPrototype {
        return false;
      }
      if exists k | 0 <= k < |node.keys| :: !node.keys[k].Name? {
        return false;
      }
    }
    if id in active.members {
      return false;
    }
    Smaller(h, active.members, id);
    active.members := active.members + {id};
    if node.Arr? {
      ok := CheckArray(h, node, active);
    } else {
      ok := CheckObject(h, node, active);
    }
    active.members := active.members - {id};
  }

  method CheckArray(h: Heap, node: Node, active: Ancestors) returns (ok: bool)
    requires HeapOk(h) && node.Arr? && NodeOk(h, node)
    modifies active
    ensures active.members == old(active.members)
    ensures ok == CheckedItems(h, node, 0, old(active.members))
    decreases h.Keys - active.members, 3
  {
    var index := 0;
    while index < node.length
      invariant index <= node.length
      invariant active.members == old(active.members)
      invariant CheckedItems(h, node, 0, active.members) == CheckedItems(h, node, index, active.members)
    {
      if !(index in node.slots && node.slots[index].enumerable && node.slots[index].Data?) {
        return false;
      }
      var below := Check(h, node.slots[index].value, active);
      if !below {
        return false;
      }
      index := index + 1;
    }
    return true;
  }

  method CheckObject(h: Heap, node: Node, active: Ancestors) returns (ok: bool)
    requires HeapOk(h) && node.Obj? && NodeOk(h, node)
    modifies active
    ensures active.members == old(active.members)
    ensures ok == CheckedMembers(h, node, 0, old(active.members))
    decreases h.Keys - active.members, 3
  {
    var index := 0;
    while index < |node.props|
      invariant index <= |node.props|
      invariant active.members == old(active.members)
      invariant CheckedMembers(h, node, 0, active.members) == CheckedMembers(h, node, index, active.members)
    {
      if !(node.props[index].enumerable && node.props[index].Data?) {
        return false;
      }
      var below := Check(h, node.props[index].value, active);
      if !below {
        return false;
      }
      index := index + 1;
    }
    return true;
  }

  method IsJsonValue(h: Heap, value: Value) returns (ok: bool)
    requires HeapOk(h) && InHeap(h, value)
    ensures ok <==> StrictGraph(h, value, false)
  {
    CheckDecidesStrictness(h, value);
    var active := new Ancestors();
    ok := Check(h, value, active);
  }

  // ---------------------------------------------------------------- copying a copy

  ghost predicate Apart(active: set<NodeId>, lo: nat, hi: nat) {
    forall id | id in active :: id < lo || hi <= id
  }

  lemma {:induction false} CopyOfCopy(h: Heap, v: Value, t: Json, lo: nat, active: set<NodeId>, omit: bool)
    requires HeapOk(h) && InHeap(h, v) && Stands(h, v, t, lo) && Apart(active, lo, lo + Size(t))
    ensures Copied(h, v, active, omit) == Success(t)
    decreases t
  {
    match t
    case JArr(items) =>
      var node := h[lo];
      assert NodeOk(h, node);
      assert node.slots == Filled(Values(node)) && |node.slots| == |node.slots.Keys|;
      DenseMeansNoExtra(node.slots, node.length, node.extra);
      CopyOfItems(h, node, items, 0, lo + 1, active + {lo}, omit);
      assert items[0..] == items;
    case JObj(_, names, members) =>
      assert NodeOk(h, h[lo]);
      CopyOfMembers(h, h[lo], names, members, 0, lo + 1, active + {lo}, omit);
      assert names[0..] == names && members[0..] == members;
    case _ =>
  }

  lemma {:induction false} FirstStandAt(h: Heap, values: seq<Value>, items: seq<Json>, n: nat, lo: nat, k: nat)
    requires k < n <= |items| && n <= |values| && FirstStand(h, values, items, n, lo)
    ensures Stands(h, values[k], items[k], lo + SizeTo(items, k))
    decreases n
  {
    if k < n - 1 {
      FirstStandAt(h, values, items, n - 1, lo, k);
    }
  }

  lemma {:induction false} CopyOfItems(
    h: Heap, node: Node, items: seq<Json>, k: nat, lo: nat, active: set<NodeId>, omit: bool)
    requires HeapOk(h) && node.Arr? && NodeOk(h, node) && node == ArrayOf(Values(node))
    requires AllStand(h, Values(node), items, lo) && k <= |items|
    requires Apart(active, lo, lo + SizeTo(items, |items|))
    ensures CopiedItems(h, node, k, active, omit) == Success(items[k..])
    decreases items, |items| - k
  {
    if k < |items| {
      var values := Values(node);
      FirstStandAt(h, values, items, |items|, lo, k);
      ChildFits(items, k);
      assert Readable(node, k) && node.slots[k].value == values[k];
      CopyOfCopy(h, values[k], items[k], lo + SizeTo(items, k), active, omit);
      CopyOfItems(h, node, items, k + 1, lo, active, omit);
      assert [items[k]] + items[k + 1..] == items[k..];
    }
  }

  lemma {:induction false} CopyOfMembers(
    h: Heap, node: Node, names: seq<string>, members: seq<Json>, k: nat, lo: nat, active: set<NodeId>, omit: bool)
    requires HeapOk(h) && node.Obj? && NodeOk(h, node) && node.keys == Keys(names) && node.props == Props(Values(node))
    requires AllStand(h, Values(node), members, lo) && k <= |members| == |names|
    requires Apart(active, lo, lo + SizeTo(members, |members|))
    ensures CopiedMembers(h, node, k, active, omit) == Success((names[k..], members[k..]))
    decreases members, |members| - k
  {
    if k < |members| {
      var values := Values(node);
      FirstStandAt(h, values, members, |members|, lo, k);
      ChildFits(members, k);
      assert node.props[k] == Data(values[k], true) && node.keys[k] == Name(names[k]);
      CopyOfCopy(h, values[k], members[k], lo + SizeTo(members, k), active, omit);
      CopyOfMembers(h, node, names, members, k + 1, lo, active, omit);
      assert [members[k]] + members[k + 1..] == members[k..] && [names[k]] + names[k + 1..] == names[k..];
    }
  }

  /** What copyJson returns passes isJsonValue, and copying it again gives the same tree. */
  lemma CopyIsStrict(h: Heap, v: Value, t: Json, lo: nat, omit: bool)
    requires HeapOk(h) && InHeap(h, v) && Stands(h, v, t, lo)
    ensures Checked(h, v, {}) && StrictGraph(h, v, omit)
    ensures Copied(h, v, {}, omit) == Success(t)
  {
    CopyOfCopy(h, v, t, lo, {}, omit);
    CopyOfCopy(h, v, t, lo, {}, false);
    CopyDecidesStrictness(h, v, omit);
    CheckDecidesStrictness(h, v);
  }

  // ---------------------------------------------------------------- no sharing in the result

  /** Slot `k` of node `a` refers to `b`. */
  ghost predicate Owns(h: Heap, a: NodeId, k: nat, b: NodeId) {
    a in h && k < |Values(h[a])| && Values(h[a])[k] == Ref(b)
  }

  ghost function Children(t: Json): seq<Json> {
    match t
    case JArr(items) => items
    case JObj(_, _, members) => members
    case _ => []
  }

  /** The child a node number falls into. */
  lemma {:induction false} ChildOf(items: seq<Json>, n: nat, at: nat) returns (k: nat)
    requires n <= |items| && at < SizeTo(items, n)
    ensures k < n && SizeTo(items, k) <= at < SizeTo(items, k) + Size(items[k])
    decreases n
  {
    if at < SizeTo(items, n - 1) {
      k := ChildOf(items, n - 1, at);
    } else {
      k := n - 1;
    }
  }

  lemma ChildStands(h: Heap, v: Value, t: Json, lo: nat, k: nat)
    requires Stands(h, v, t, lo) && k < |Children(t)|
    ensures v == Ref(lo) && lo in h && |Values(h[lo])| == |Children(t)|
    ensures Stands(h, Values(h[lo])[k], Children(t)[k], lo + 1 + SizeTo(Children(t), k))
    ensures lo + 1 + SizeTo(Children(t), k) + Size(Children(t)[k]) <= lo + Size(t)
    ensures Children(t)[k] < t
  {
    var items := Children(t);
    FirstStandAt(h, Values(h[lo]), items, |items|, lo + 1, k);
    ChildFits(items, k);
  }

  /** References of a laid-out tree point forward and stay inside it. */
  lemma {:induction false} OwnsForward(h: Heap, v: Value, t: Json, lo: nat, a: NodeId, k: nat, b: NodeId)
    requires Stands(h, v, t, lo) && lo <= a < lo + Size(t) && Owns(h, a, k, b)
    ensures a < b < lo + Size(t)
    decreases t
  {
    var items := Children(t);
    if a == lo {
      assert v == Ref(lo);
      assert |Values(h[lo])| == |items|;
      ChildStands(h, v, t, lo, k);
    } else {
      var j := ChildOf(items, |items|, a - lo - 1);
      ChildStands(h, v, t, lo, j);
      OwnsForward(h, Values(h[lo])[j], items[j], lo + 1 + SizeTo(items, j), a, k, b);
    }
  }

  lemma {:induction false} StartsDiffer(items: seq<Json>, j: nat, k: nat)
    requires j < k < |items|
    ensures SizeTo(items, j) + Size(items[j]) <= SizeTo(items, k)
  {
    var next := j + 1;
    assert SizeTo(items, next) == SizeTo(items, j) + Size(items[j]);
    SizeToMonotone(items, next, k);
  }

  /** The child range a reference points into, and that only the root points at its first node. */
  lemma OwnedChild(h: Heap, v: Value, t: Json, lo: nat, a: NodeId, k: nat, b: NodeId) returns (j: nat)
    requires Stands(h, v, t, lo) && lo <= a < lo + Size(t) && Owns(h, a, k, b)
    ensures j < |Children(t)|
    ensures var start := lo + 1 + SizeTo(Children(t), j);
            start <= b < start + Size(Children(t)[j]) && (b == start <==> a == lo) &&
            (a == lo ==> j == k) && (a != lo ==> start <= a < start + Size(Children(t)[j]))
  {
    var items := Children(t);
    if a == lo {
      j := k;
      ChildStands(h, v, t, lo, k);
    } else {
      j := ChildOf(items, |items|, a - lo - 1);
      ChildStands(h, v, t, lo, j);
      OwnsForward(h, Values(h[lo])[j], items[j], lo + 1 + SizeTo(items, j), a, k, b);
    }
  }

  /** Two references to one node come from the root's same slot, or from inside the same child. */
  lemma {:induction false} SameChild(
    h: Heap, v: Value, t: Json, lo: nat, a: NodeId, k: nat, a': NodeId, k': nat, b: NodeId) returns (j: nat)
    requires Stands(h, v, t, lo)
    requires lo <= a < lo + Size(t) && lo <= a' < lo + Size(t)
    requires Owns(h, a, k, b) && Owns(h, a', k', b)
    ensures j < |Children(t)| && (a == lo <==> a' == lo) && (a == lo ==> k == k')
    ensures var start := lo + 1 + SizeTo(Children(t), j);
      a != lo ==> start <= a < start + Size(Children(t)[j]) && start <= a' < start + Size(Children(t)[j])
  {
    j := OwnedChild(h, v, t, lo, a, k, b);
    var j' := OwnedChild(h, v, t, lo, a', k', b);
    if j < j' {
      StartsDiffer(Children(t), j, j');
    } else if j' < j {
      StartsDiffer(Children(t), j', j);
    }
  }

  /** No node of the result is referred to from two places: the copy shares nothing with itself. */
  lemma {:induction false} SingleOwner(
    h: Heap, v: Value, t: Json, lo: nat, a: NodeId, k: nat, a': NodeId, k': nat, b: NodeId)
    requires Stands(h, v, t, lo)
    requires lo <= a < lo + Size(t) && lo <= a' < lo + Size(t)
    requires Owns(h, a, k, b) && Owns(h, a', k', b)
    ensures a == a' && k == k' && b != lo
    decreases t
  {
    OwnsForward(h, v, t, lo, a, k, b);
    var j := SameChild(h, v, t, lo, a, k, a', k', b);
    if a != lo {
      ChildStands(h, v, t, lo, j);
      SingleOwner(h, Values(h[lo])[j], Children(t)[j], lo + 1 + SizeTo(Children(t), j), a, k, a', k', b);
    }
  }

  // ---------------------------------------------------------------- omitting undefined properties

  /** The properties from `index` on that the option keeps. */
  function Kept(keys: seq<Key>, props: seq<Slot>, index: nat): (r: (seq<Key>, seq<Slot>))
    requires |keys| == |props| && index <= |keys|
    ensures |r.0| == |r.1|
    decreases |keys| - index
  {
    if index == |keys| then ([], []) else
    var rest := Kept(keys, props, index + 1);
    if keys[index].Name? && Omitted(props[index], true) then rest
    else ([keys[index]] + rest.0, [props[index]] + rest.1)
  }

  function WithoutUndefined(node: Node): Node
    requires node.Obj? ==> |node.keys| == |node.props|
  {
    match node
    case Arr(_, _, _, _) => node
    case Obj(prototype, keys, props) => var kept := Kept(keys, props, 0); Obj(prototype, kept.0, kept.1)
  }

  /** The same graph with every undefined property deleted. */
  ghost function Stripped(h: Heap): (g: Heap)
    requires HeapOk(h)
    ensures g.Keys == h.Keys
  {
    map id | id in h :: (assert NodeOk(h, h[id]); WithoutUndefined(h[id]))
  }

  lemma {:induction false} KeptInHeap(h: Heap, g: Heap, keys: seq<Key>, props: seq<Slot>, index: nat)
    requires |keys| == |props| && index <= |keys| && g.Keys == h.Keys
    requires forall k | 0 <= k < |props| :: SlotInHeap(h, props[k])
    ensures forall k | 0 <= k < |Kept(keys, props, index).1| :: SlotInHeap(g, Kept(keys, props, index).1[k])
    decreases |keys| - index
  {
    if index < |keys| {
      assert SlotInHeap(h, props[index]);
      KeptInHeap(h, g, keys, props, index + 1);
    }
  }

  lemma StrippedOk(h: Heap)
    requires HeapOk(h)
    ensures HeapOk(Stripped(h))
  {
    var g := Stripped(h);
    forall id | id in g ensures NodeOk(g, g[id]) {
      assert NodeOk(h, h[id]);
      if h[id].Obj? {
        KeptInHeap(h, g, h[id].keys, h[id].props, 0);
      } else {
        forall k | k in g[id].slots ensures k < g[id].length && SlotInHeap(g, g[id].slots[k]) {
          assert SlotInHeap(h, h[id].slots[k]);
        }
      }
    }
  }

  /** The option is exactly a deletion beforehand: same tree, same fault. */
  lemma {:induction false} OmitIsDeletion(h: Heap, v: Value, active: set<NodeId>)
    requires HeapOk(h) && InHeap(h, v)
    ensures HeapOk(Stripped(h)) && InHeap(Stripped(h), v)
    ensures Copied(h, v, active, true) == Copied(Stripped(h), v, active, false)
    decreases h.Keys - active, 1, 0
  {
    StrippedOk(h);
    var g := Stripped(h);
    if v.Ref? && v.id !in active {
      var node := h[v.id];
      assert NodeOk(h, node) && NodeOk(g, g[v.id]);
      Smaller(h, active, v.id);
      if node.Arr? {
        OmitInItems(h, node, 0, active + {v.id});
      } else {
        OmitInMembers(h, node, 0, g[v.id], 0, active + {v.id});
      }
    }
  }

  lemma {:induction false} OmitInItems(h: Heap, node: Node, index: nat, active: set<NodeId>)
    requires HeapOk(h) && HeapOk(Stripped(h)) && node.Arr? && NodeOk(h, node) && NodeOk(Stripped(h), node)
    requires index <= node.length
    ensures CopiedItems(h, node, index, active, true) == CopiedItems(Stripped(h), node, index, active, false)
    decreases h.Keys - active, 2, node.length - index
  {
    if index < node.length && Readable(node, index) {
      OmitIsDeletion(h, node.slots[index].value, active);
      OmitInItems(h, node, index + 1, active);
    }
  }

  lemma {:induction false} OmitInMembers(h: Heap, node: Node, index: nat, kept: Node, at: nat, active: set<NodeId>)
    requires HeapOk(h) && HeapOk(Stripped(h)) && node.Obj? && NodeOk(h, node)
    requires kept.Obj? && NodeOk(Stripped(h), kept)
    requires index <= |node.keys| && at <= |kept.keys|
    requires (kept.keys[at..], kept.props[at..]) == Kept(node.keys, node.props, index)
    ensures CopiedMembers(h, node, index, active, true) == CopiedMembers(Stripped(h), kept, at, active, false)
    decreases h.Keys - active, 2, |node.keys| - index
  {
    if index < |node.keys| {
      if node.keys[index].Name? && Omitted(node.props[index], true) {
        OmitInMembers(h, node, index + 1, kept, at, active);
      } else {
        assert |kept.keys[at..]| > 0;
        assert kept.keys[at] == kept.keys[at..][0] == node.keys[index];
        assert kept.props[at] == kept.props[at..][0] == node.props[index];
        assert kept.keys[at + 1..] == kept.keys[at..][1..] && kept.props[at + 1..] == kept.props[at..][1..];
        OmitInMembers(h, node, index + 1, kept, at + 1, active);
        if node.props[index].Data? {
          OmitIsDeletion(h, node.props[index].value, active);
        }
      }
    }
  }
}
