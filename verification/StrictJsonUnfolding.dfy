/**
 What the tree of a copy has to do with its source, said without the copy: a tree unfolds a value
 when it agrees with the graph node by node, shared nodes once for every reference to them.
 */
module StrictJsonUnfolding {
  import opened Wrappers
  import opened StrictJson
  import opened StrictJsonProofs
  import opened StrictJsonCopy
  import opened StrictJsonResults

  /** `t` is the value read off the graph, following references. */
  ghost predicate Unfolds(h: Heap, v: Value, t: Json)
    decreases t, 1
  {
    match t
    case JNull => v == Null
    case JBool(b) => v == Bool(b)
    case JStr(s) => v == Str(s)
    case JNum(value) => v == Num(Finite(value))
    case JArr(items) =>
      && v.Ref? && v.id in h && h[v.id].Arr? && h[v.id].length == |items|
      && forall k: nat | k < |items| :: ItemUnfolds(h, h[v.id], k, items[k])
    case JObj(prototype, names, members) =>
      && v.Ref? && v.id in h && h[v.id].Obj? && h[v.id].prototype == prototype
      && |names| == |members| == |h[v.id].keys| == |h[v.id].props|
      && forall k: nat | k < |members| :: MemberUnfolds(h, h[v.id], k, names[k], members[k])
  }

  ghost predicate ItemUnfolds(h: Heap, node: Node, at: nat, item: Json)
    requires node.Arr?
    decreases item, 2
  {
    at in node.slots && node.slots[at].Data? && Unfolds(h, node.slots[at].value, item)
  }

  ghost predicate MemberUnfolds(h: Heap, node: Node, at: nat, name: string, member: Json)
    requires node.Obj? && at < |node.props| == |node.keys|
    decreases member, 2
  {
    node.keys[at] == Name(name) && node.props[at].Data? && Unfolds(h, node.props[at].value, member)
  }

  /** A value unfolds to one tree at most. */
  lemma {:induction false} OneUnfolding(h: Heap, v: Value, t: Json, u: Json)
    requires Unfolds(h, v, t) && Unfolds(h, v, u)
    ensures t == u
    decreases t
  {
    match t
    case JArr(items) =>
      forall k: nat | k < |items| ensures items[k] == u.items[k] {
        assert ItemUnfolds(h, h[v.id], k, items[k]) && ItemUnfolds(h, h[v.id], k, u.items[k]);
        OneUnfolding(h, h[v.id].slots[k].value, items[k], u.items[k]);
      }
    case JObj(_, names, members) =>
      forall k: nat | k < |members| ensures names[k] == u.names[k] && members[k] == u.members[k] {
        assert MemberUnfolds(h, h[v.id], k, names[k], members[k]);
        assert MemberUnfolds(h, h[v.id], k, u.names[k], u.members[k]);
        OneUnfolding(h, h[v.id].props[k].value, members[k], u.members[k]);
      }
    case _ =>
  }

  /** Whatever lies on the path, what a copy returns unfolds its source. */
  lemma {:induction false} CopyUnfolds(h: Heap, v: Value, active: set<NodeId>)
    requires HeapOk(h) && InHeap(h, v) && Copied(h, v, active, false).Success?
    ensures Unfolds(h, v, Copied(h, v, active, false).value)
    decreases h.Keys - active, 1, 0
  {
    if v.Ref? {
      var node := h[v.id];
      assert NodeOk(h, node);
      Smaller(h, active, v.id);
      if node.Arr? {
        ItemsUnfold(h, node, 0, active + {v.id});
        var items := CopiedItems(h, node, 0, active + {v.id}, false).value;
        assert forall k: nat | k < |items| :: ItemUnfolds(h, node, 0 + k, items[k]);
      } else {
        MembersUnfold(h, node, 0, active + {v.id});
        var pairs := CopiedMembers(h, node, 0, active + {v.id}, false).value;
        assert forall k: nat | k < |pairs.1| :: MemberUnfolds(h, node, 0 + k, pairs.0[k], pairs.1[k]);
      }
    }
  }

  lemma {:induction false} ItemsUnfold(h: Heap, node: Node, index: nat, active: set<NodeId>)
    requires HeapOk(h) && node.Arr? && NodeOk(h, node) && index <= node.length
    requires CopiedItems(h, node, index, active, false).Success?
    ensures var items := CopiedItems(h, node, index, active, false).value;
      |items| == node.length - index && forall k: nat | k < |items| :: ItemUnfolds(h, node, index + k, items[k])
    decreases h.Keys - active, 2, node.length - index
  {
    if index < node.length {
      var value := node.slots[index].value;
      CopyUnfolds(h, value, active);
      ItemsUnfold(h, node, index + 1, active);
      var items := CopiedItems(h, node, index, active, false).value;
      var rest := CopiedItems(h, node, index + 1, active, false).value;
      assert items == [Copied(h, value, active, false).value] + rest;
      forall k: nat | k < |items| ensures ItemUnfolds(h, node, index + k, items[k]) {
        if k > 0 {
          var j: nat := k - 1;
          assert items[k] == rest[j] && ItemUnfolds(h, node, index + 1 + j, rest[j]);
        }
      }
    }
  }

  lemma {:induction false} MembersUnfold(h: Heap, node: Node, index: nat, active: set<NodeId>)
    requires HeapOk(h) && node.Obj? && NodeOk(h, node) && index <= |node.keys|
    requires CopiedMembers(h, node, index, active, false).Success?
    ensures var pairs := CopiedMembers(h, node, index, active, false).value;
      && |pairs.0| == |pairs.1| == |node.keys| - index
      && forall k: nat | k < |pairs.1| :: MemberUnfolds(h, node, index + k, pairs.0[k], pairs.1[k])
    decreases h.Keys - active, 2, |node.keys| - index
  {
    if index < |node.keys| {
      var value := node.props[index].value;
      CopyUnfolds(h, value, active);
      MembersUnfold(h, node, index + 1, active);
      var pairs := CopiedMembers(h, node, index, active, false).value;
      var rest := CopiedMembers(h, node, index + 1, active, false).value;
      assert pairs.1 == [Copied(h, value, active, false).value] + rest.1;
      forall k: nat | k < |pairs.1| ensures MemberUnfolds(h, node, index + k, pairs.0[k], pairs.1[k]) {
        if k > 0 {
          var j: nat := k - 1;
          assert pairs.1[k] == rest.1[j] && pairs.0[k] == rest.0[j];
          assert MemberUnfolds(h, node, index + 1 + j, rest.0[j], rest.1[j]);
        }
      }
    }
  }

  /** A copy succeeds with exactly the unfolding of a strict graph. */
  lemma {:induction false} CopyIsUnfolding(h: Heap, v: Value, t: Json)
    requires HeapOk(h) && InHeap(h, v)
    ensures Copied(h, v, {}, false) == Success(t) <==> StrictGraph(h, v, false) && Unfolds(h, v, t)
  {
    CopyDecidesStrictness(h, v, false);
    if StrictGraph(h, v, false) {
      CopyUnfolds(h, v, {});
      if Unfolds(h, v, t) {
        OneUnfolding(h, v, t, Copied(h, v, {}, false).value);
      }
    }
  }

  /** Omitting undefined properties, it is the unfolding of the graph without them. */
  lemma {:induction false} OmittingCopyIsUnfolding(h: Heap, v: Value, t: Json)
    requires HeapOk(h) && InHeap(h, v)
    ensures HeapOk(Stripped(h)) && InHeap(Stripped(h), v)
    ensures Copied(h, v, {}, true) == Success(t) <==> StrictGraph(h, v, true) && Unfolds(Stripped(h), v, t)
  {
    OmitIsDeletion(h, v, {});
    CopyDecidesStrictness(h, v, true);
    CopyDecidesStrictness(Stripped(h), v, false);
    CopyIsUnfolding(Stripped(h), v, t);
  }

  /** Source and result of a copy unfold to the same tree, each in its own heap. */
  lemma {:induction false} ResultUnfoldsAlike(h: Heap, v: Value, g: Heap, r: Value, t: Json, lo: nat)
    requires HeapOk(h) && InHeap(h, v) && Copied(h, v, {}, false) == Success(t)
    requires HeapOk(g) && InHeap(g, r) && Stands(g, r, t, lo)
    ensures Unfolds(h, v, t) && Unfolds(g, r, t)
    ensures forall u :: Unfolds(h, v, u) <==> Unfolds(g, r, u)
  {
    CopyIsUnfolding(h, v, t);
    CopyIsStrict(g, r, t, lo, false);
    CopyIsUnfolding(g, r, t);
    forall u ensures Unfolds(h, v, u) <==> Unfolds(g, r, u) {
      if Unfolds(h, v, u) {
        OneUnfolding(h, v, t, u);
      }
      if Unfolds(g, r, u) {
        OneUnfolding(g, r, t, u);
      }
    }
  }
}
