/** `copyJson` succeeds exactly when `isJsonValue` holds, exactly when the graph is strict and acyclic. */
module StrictJsonProofs {
  import opened Wrappers
  import opened StrictJson

  // ---------------------------------------------------------------- one node

  lemma {:induction false} ItemsSucceed(h: Heap, node: Node, index: nat, active: set<NodeId>, omit: bool)
    requires HeapOk(h) && node.Arr? && NodeOk(h, node) && index <= node.length
    ensures CopiedItems(h, node, index, active, omit).Success? <==>
            forall k | index <= k < node.length ::
              Readable(node, k) && Copied(h, node.slots[k].value, active, omit).Success?
    decreases node.length - index
  {
    if index < node.length {
      ItemsSucceed(h, node, index + 1, active, omit);
    }
  }

  ghost predicate MemberOk(h: Heap, node: Node, k: nat, active: set<NodeId>, omit: bool)
    requires HeapOk(h) && node.Obj? && NodeOk(h, node) && k < |node.props|
  {
    && node.keys[k].Name? && node.props[k].Data? && node.props[k].enumerable
    && (Omitted(node.props[k], omit) || Copied(h, node.props[k].value, active, omit).Success?)
  }

  lemma {:induction false} MembersSucceed(h: Heap, node: Node, index: nat, active: set<NodeId>, omit: bool)
    requires HeapOk(h) && node.Obj? && NodeOk(h, node) && index <= |node.keys|
    ensures CopiedMembers(h, node, index, active, omit).Success? <==>
            forall k | index <= k < |node.props| :: MemberOk(h, node, k, active, omit)
    decreases |node.keys| - index
  {
    if index < |node.keys| {
      MembersSucceed(h, node, index + 1, active, omit);
      assert CopiedMembers(h, node, index, active, omit).Success? <==>
             MemberOk(h, node, index, active, omit) && CopiedMembers(h, node, index + 1, active, omit).Success?;
    }
  }

  /** A dense array has no room for extra keys, and conversely. */
  lemma DenseMeansNoExtra(slots: map<nat, Slot>, length: nat, extra: seq<Key>)
    requires forall k | k in slots :: k < length
    requires forall k: nat | k < length :: k in slots
    ensures |slots| + |extra| == length <==> extra == []
  {
    assert slots.Keys == Below(length);
    assert |slots| == |slots.Keys|;
  }

  ghost function Below(n: nat): (r: set<nat>)
    ensures |r| == n && forall k: nat :: k in r <==> k < n
  {
    if n == 0 then {} else Below(n - 1) + {n - 1}
  }

  /** Copying a node succeeds when it is off the path, strict, and everything one step below succeeds. */
  lemma CopyStep(h: Heap, id: NodeId, active: set<NodeId>, omit: bool)
    requires HeapOk(h) && id in h
    ensures Copied(h, Ref(id), active, omit).Success? <==>
            id !in active && StrictNode(h[id], omit) &&
            forall b | Edge(h, id, b) :: b in h && Copied(h, Ref(b), active + {id}, omit).Success?
  {
    var node := h[id];
    assert NodeOk(h, node);
    if id !in active {
      if node.Arr? {
        ArrayStep(h, id, active, omit);
      } else {
        ObjectStep(h, id, active, omit);
      }
    }
  }

  lemma ArrayStep(h: Heap, id: NodeId, active: set<NodeId>, omit: bool)
    requires HeapOk(h) && id in h && h[id].Arr? && id !in active
    ensures Copied(h, Ref(id), active, omit).Success? <==>
            StrictNode(h[id], omit) &&
            forall b | Edge(h, id, b) :: b in h && Copied(h, Ref(b), active + {id}, omit).Success?
  {
    var node, below := h[id], active + {id};
    assert NodeOk(h, node);
    ItemsSucceed(h, node, 0, below, omit);
    if Copied(h, Ref(id), active, omit).Success? {
      forall k: nat | k < node.length ensures Readable(node, k) && StrictLeaf(node.slots[k].value) {
        assert Readable(node, k) && Copied(h, node.slots[k].value, below, omit).Success?;
      }
      assert forall k: nat | k < node.length && Readable(node, k) :: k in node.slots;
      DenseMeansNoExtra(node.slots, node.length, node.extra);
    }
    if StrictNode(node, omit) && forall b | Edge(h, id, b) :: b in h && Copied(h, Ref(b), below, omit).Success? {
      forall k: nat | k < node.length ensures k in node.slots {
        assert Readable(node, k);
      }
      DenseMeansNoExtra(node.slots, node.length, node.extra);
      forall k: nat | k < node.length
        ensures Readable(node, k) && Copied(h, node.slots[k].value, below, omit).Success?
      {
        assert Readable(node, k);
        if node.slots[k].value.Ref? {
          assert Edge(h, id, node.slots[k].value.id);
        }
      }
    }
  }

  lemma ObjectStep(h: Heap, id: NodeId, active: set<NodeId>, omit: bool)
    requires HeapOk(h) && id in h && h[id].Obj? && id !in active
    ensures Copied(h, Ref(id), active, omit).Success? <==>
            StrictNode(h[id], omit) &&
            forall b | Edge(h, id, b) :: b in h && Copied(h, Ref(b), active + {id}, omit).Success?
  {
    var node, below := h[id], active + {id};
    assert NodeOk(h, node);
    MembersSucceed(h, node, 0, below, omit);
    if Copied(h, Ref(id), active, omit).Success? {
      forall k | 0 <= k < |node.props|
        ensures node.keys[k].Name? && node.props[k].Data? && node.props[k].enumerable
        ensures Omitted(node.props[k], omit) || StrictLeaf(node.props[k].value)
      {
        assert MemberOk(h, node, k, below, omit);
      }
      forall b | Edge(h, id, b) ensures b in h && Copied(h, Ref(b), below, omit).Success? {
        var k :| 0 <= k < |node.props| && node.props[k].Data? && node.props[k].value == Ref(b);
        assert MemberOk(h, node, k, below, omit);
      }
    }
    if StrictNode(node, omit) && forall b | Edge(h, id, b) :: b in h && Copied(h, Ref(b), below, omit).Success? {
      forall k | 0 <= k < |node.props| ensures MemberOk(h, node, k, below, omit) {
        if node.props[k].value.Ref? {
          assert Edge(h, id, node.props[k].value.id);
        }
      }
    }
  }

  // ---------------------------------------------------------------- paths

  lemma {:induction false} CopyFollowsPaths(h: Heap, id: NodeId, active: set<NodeId>, omit: bool)
    requires HeapOk(h) && id in h
    ensures Copied(h, Ref(id), active, omit).Success? <==> CleanFrom(h, id, active, omit)
    decreases h.Keys - active
  {
    CopyStep(h, id, active, omit);
    if id in active {
      assert Path(h, [id]) && !CleanPath(h, [id], active, omit);
    } else {
      Smaller(h, active, id);
      forall b | Edge(h, id, b)
        ensures b in h && (Copied(h, Ref(b), active + {id}, omit).Success? <==> CleanFrom(h, b, active + {id}, omit))
      {
        assert NodeOk(h, h[id]);
        CopyFollowsPaths(h, b, active + {id}, omit);
      }
      CleanStep(h, id, active, omit);
    }
  }

  lemma CleanStep(h: Heap, id: NodeId, active: set<NodeId>, omit: bool)
    requires HeapOk(h) && id in h && id !in active
    ensures CleanFrom(h, id, active, omit) <==>
            StrictNode(h[id], omit) && forall b | Edge(h, id, b) :: b in h && CleanFrom(h, b, active + {id}, omit)
  {
    assert NodeOk(h, h[id]);
    if CleanFrom(h, id, active, omit) {
      assert Path(h, [id]) && CleanPath(h, [id], active, omit);
      forall b, p | Edge(h, id, b) && Path(h, p) && p[0] == b ensures CleanPath(h, p, active + {id}, omit) {
        var q := [id] + p;
        assert Path(h, q) && CleanPath(h, q, active, omit);
        forall k | 0 <= k < |p| ensures p[k] == q[k + 1] {}
      }
    }
    if StrictNode(h[id], omit) && forall b | Edge(h, id, b) :: b in h && CleanFrom(h, b, active + {id}, omit) {
      forall p | Path(h, p) && p[0] == id ensures CleanPath(h, p, active, omit) {
        if |p| > 1 {
          var q := p[1..];
          assert Edge(h, id, q[0]);
          assert Path(h, q) && CleanPath(h, q, active + {id}, omit);
          forall k | 0 < k < |p| ensures p[k] == q[k - 1] {}
        }
      }
    }
  }

  lemma PathsInHeap(h: Heap, p: seq<NodeId>, k: nat)
    requires HeapOk(h) && Path(h, p) && k < |p|
    ensures p[k] in h
  {
    if k > 0 {
      assert Edge(h, p[k - 1], p[k]) && NodeOk(h, h[p[k - 1]]);
    }
  }

  lemma CleanMeansStrict(h: Heap, id: NodeId, omit: bool)
    requires HeapOk(h) && id in h
    ensures CleanFrom(h, id, {}, omit) <==> StrictGraph(h, Ref(id), omit)
  {
    if CleanFrom(h, id, {}, omit) {
      forall b | Reachable(h, id, b) ensures b in h && StrictNode(h[b], omit) && !OnCycle(h, b) {
        var p :| Path(h, p) && p[0] == id && p[|p| - 1] == b;
        assert CleanPath(h, p, {}, omit);
        forall q | Path(h, q) && |q| > 1 && q[0] == b ensures q[|q| - 1] != b {
          var pq := p + q[1..];
          JoinPaths(h, p, q);
          assert CleanPath(h, pq, {}, omit);
          assert pq[|p| - 1] == b && pq[|pq| - 1] == q[|q| - 1];
        }
      }
    }
    if StrictGraph(h, Ref(id), omit) {
      forall p | Path(h, p) && p[0] == id ensures CleanPath(h, p, {}, omit) {
        forall k | 0 <= k < |p| ensures p[k] in h && StrictNode(h[p[k]], omit) && !OnCycle(h, p[k]) {
          assert Path(h, p[..k + 1]);
          assert Reachable(h, id, p[k]);
        }
        forall j, k | 0 <= j < k < |p| ensures p[j] != p[k] {
          var q := p[j..k + 1];
          PathsInHeap(h, p, j);
          assert Path(h, q);
          assert |q| > 1 && q[0] == p[j] && q[|q| - 1] == p[k];
        }
      }
    }
  }

  lemma JoinPaths(h: Heap, p: seq<NodeId>, q: seq<NodeId>)
    requires Path(h, p) && Path(h, q) && p[|p| - 1] == q[0]
    ensures Path(h, p + q[1..])
  {
    var pq := p + q[1..];
    forall k | 0 < k < |pq| ensures Edge(h, pq[k - 1], pq[k]) {
      if k >= |p| {
        assert pq[k] == q[k - |p| + 1] && pq[k - 1] == q[k - |p|];
      }
    }
  }

  // ---------------------------------------------------------------- the check agrees

  lemma {:induction false} CheckedItemsHold(h: Heap, node: Node, index: nat, active: set<NodeId>)
    requires HeapOk(h) && node.Arr? && NodeOk(h, node) && index <= node.length
    ensures CheckedItems(h, node, index, active) <==>
            forall k | index <= k < node.length :: Readable(node, k) && Checked(h, node.slots[k].value, active)
    decreases node.length - index
  {
    if index < node.length {
      CheckedItemsHold(h, node, index + 1, active);
    }
  }

  ghost predicate CheckedMember(h: Heap, node: Node, k: nat, active: set<NodeId>)
    requires HeapOk(h) && node.Obj? && NodeOk(h, node) && k < |node.props|
  {
    node.props[k].Data? && node.props[k].enumerable && Checked(h, node.props[k].value, active)
  }

  lemma {:induction false} CheckedMembersHold(h: Heap, node: Node, index: nat, active: set<NodeId>)
    requires HeapOk(h) && node.Obj? && NodeOk(h, node) && index <= |node.props|
    ensures CheckedMembers(h, node, index, active) <==>
            forall k | index <= k < |node.props| :: CheckedMember(h, node, k, active)
    decreases |node.props| - index
  {
    if index < |node.props| {
      CheckedMembersHold(h, node, index + 1, active);
      assert CheckedMembers(h, node, index, active) <==>
             CheckedMember(h, node, index, active) && CheckedMembers(h, node, index + 1, active);
    }
  }

  /** The two recursions, written differently, decide the same thing at every point of the walk. */
  lemma {:induction false} CheckAgreesWithCopy(h: Heap, v: Value, active: set<NodeId>)
    requires HeapOk(h) && InHeap(h, v)
    ensures Checked(h, v, active) <==> Copied(h, v, active, false).Success?
    decreases h.Keys - active
  {
    if v.Ref? && v.id !in active {
      var node, below := h[v.id], active + {v.id};
      assert NodeOk(h, node);
      Smaller(h, active, v.id);
      if node.Arr? {
        ItemsSucceed(h, node, 0, below, false);
        CheckedItemsHold(h, node, 0, below);
        forall k: nat | k in node.slots && node.slots[k].Data?
          ensures Checked(h, node.slots[k].value, below) <==> Copied(h, node.slots[k].value, below, false).Success?
        {
          CheckAgreesWithCopy(h, node.slots[k].value, below);
        }
        if forall k: nat | k < node.length :: k in node.slots {
          DenseMeansNoExtra(node.slots, node.length, node.extra);
        }
        assert forall k: nat | k < node.length && Readable(node, k) :: k in node.slots;
      } else {
        MembersSucceed(h, node, 0, below, false);
        CheckedMembersHold(h, node, 0, below);
        forall k: nat | k < |node.props| && node.props[k].Data?
          ensures Checked(h, node.props[k].value, below) <==> Copied(h, node.props[k].value, below, false).Success?
        {
          CheckAgreesWithCopy(h, node.props[k].value, below);
        }
        assert forall k: nat | k < |node.props| ::
          MemberOk(h, node, k, below, false) <==> node.keys[k].Name? && CheckedMember(h, node, k, below);
      }
    }
  }

  // ---------------------------------------------------------------- main results

  /** Copying, with or without omitting undefined properties, succeeds exactly on strict acyclic graphs. */
  lemma CopyDecidesStrictness(h: Heap, v: Value, omit: bool)
    requires HeapOk(h) && InHeap(h, v)
    ensures Copied(h, v, {}, omit).Success? <==> StrictGraph(h, v, omit)
  {
    if v.Ref? {
      CopyFollowsPaths(h, v.id, {}, omit);
      CleanMeansStrict(h, v.id, omit);
    }
  }

  /** The check accepts exactly what the copy without options copies, which is exactly the strict acyclic graphs. */
  lemma CheckDecidesStrictness(h: Heap, v: Value)
    requires HeapOk(h) && InHeap(h, v)
    ensures Checked(h, v, {}) <==> StrictGraph(h, v, false)
    ensures Checked(h, v, {}) <==> Copied(h, v, {}, false).Success?
  {
    CheckAgreesWithCopy(h, v, {});
    CopyDecidesStrictness(h, v, false);
  }
}
