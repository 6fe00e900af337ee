/** The per-timestep cache of a layer's feed-forward pass and the doubly-linked
    chain its nodes form (neural_network/LayerCache.py). The three splice
    operations only reassign `predecessor`/`successor` fields; they are modelled
    with field-granular frames, so every data field and boundary flag of every
    node is untouched by construction of the frame. */
module LayerCaches {

  datatype Option<T> = None | Some(value: T)

  /** A numeric array as recorded in a cache: rows of reals. */
  type Values = seq<seq<real>>

  class LayerCache {
    var inputValues: Option<Values>
    var outputValues: Option<Values>
    var loss: Option<Values>
    var predecessor: LayerCache?
    var successor: LayerCache?
    var isFirstCache: bool
    var isLastCache: bool

    /** Everything a node records besides its two chain pointers. */
    function Data(): (d: (Option<Values>, Option<Values>, Option<Values>, bool, bool))
      reads this
    {
      (inputValues, outputValues, loss, isFirstCache, isLastCache)
    }

    /** A fresh cache records nothing and is linked nowhere. */
    constructor ()
      ensures inputValues == None && outputValues == None && loss == None
      ensures predecessor == null && successor == null
      ensures !isFirstCache && !isLastCache
    {
      inputValues := None;
      outputValues := None;
      loss := None;
      predecessor := null;
      successor := null;
      isFirstCache := false;
      isLastCache := false;
    }

    /** Splices `cache` in front of this node. The old predecessor is
        dereferenced, so it must exist. The postconditions give the exact
        outcome of the four assignments, including the degenerate cases where
        `cache` is this node or its predecessor. */
    method InsertBefore(cache: LayerCache)
      requires predecessor != null
      modifies cache`predecessor, cache`successor, predecessor`successor, this`predecessor
      ensures predecessor == cache
      ensures old(predecessor).successor == cache
      ensures cache.successor == if cache == old(predecessor) then cache else this
      ensures cache.predecessor == if cache == this then cache else old(predecessor)
      ensures successor == if old(predecessor) == this then cache
                           else if cache == this then this
                           else old(successor)
      ensures Data() == old(Data()) && cache.Data() == old(cache.Data())
      ensures old(predecessor).Data() == old(predecessor.Data())
    {
      var p := predecessor;
      cache.predecessor := p;
      cache.successor := this;
      p.successor := cache;
      predecessor := cache;
    }

    /** Splices `cache` behind this node. The old successor `s` is NOT
        touched: its `predecessor` keeps pointing at this node rather than at
        `cache`. */
    method InsertAfter(cache: LayerCache)
      modifies cache`predecessor, cache`successor, this`successor
      ensures successor == cache
      ensures cache.predecessor == this
      ensures cache.successor == if cache == this then cache else old(successor)
      ensures predecessor == if cache == this then this else old(predecessor)
      ensures old(successor) != null && old(successor) != cache ==>
                old(successor).predecessor == old(successor.predecessor)
      ensures Data() == old(Data()) && cache.Data() == old(cache.Data())
    {
      cache.successor := successor;
      cache.predecessor := this;
      successor := cache;
    }

    /** Unlinks this node by joining its two neighbours, both of which are
        dereferenced. The node's own pointers are left as they were. */
    method Remove()
      requires predecessor != null && successor != null
      modifies predecessor`successor, successor`predecessor
      ensures old(predecessor).successor == old(successor)
      ensures old(successor).predecessor == old(predecessor)
      ensures predecessor == old(predecessor) && successor == old(successor)
      ensures Data() == old(Data())
    {
      predecessor.successor := successor;
      successor.predecessor := predecessor;
    }
  }

  /** The objects of a sequence of nodes, for frames. */
  function Nodes(nodes: seq<LayerCache>): (s: set<LayerCache>)
  {
    set i | 0 <= i < |nodes| :: nodes[i]
  }

  ghost predicate Distinct(nodes: seq<LayerCache>)
  {
    forall i, j :: 0 <= i < j < |nodes| ==> nodes[i] != nodes[j]
  }

  /** Each node's successor is the next node of the sequence. */
  ghost predicate ForwardLinked(nodes: seq<LayerCache>)
    reads Nodes(nodes)
  {
    forall i :: 0 <= i < |nodes| - 1 ==> nodes[i].successor == nodes[i + 1]
  }

  /** Each node's predecessor is the previous node of the sequence. */
  ghost predicate BackwardLinked(nodes: seq<LayerCache>)
    reads Nodes(nodes)
  {
    forall i :: 0 < i < |nodes| ==> nodes[i].predecessor == nodes[i - 1]
  }

  ghost predicate DoublyLinked(nodes: seq<LayerCache>)
    reads Nodes(nodes)
  {
    ForwardLinked(nodes) && BackwardLinked(nodes)
  }

  /** The nodes met by following `successor` at most `steps` times from `n`,
      stopping early at a null successor. */
  ghost function WalkForward(n: LayerCache, steps: nat): (r: seq<LayerCache>)
    reads *
    ensures 1 <= |r| <= steps + 1 && r[0] == n
    decreases steps
  {
    if steps == 0 || n.successor == null then [n]
    else [n] + WalkForward(n.successor, steps - 1)
  }

  /** The nodes met by following `predecessor` at most `steps` times from `n`. */
  ghost function WalkBackward(n: LayerCache, steps: nat): (r: seq<LayerCache>)
    reads *
    ensures 1 <= |r| <= steps + 1 && r[0] == n
    decreases steps
  {
    if steps == 0 || n.predecessor == null then [n]
    else [n] + WalkBackward(n.predecessor, steps - 1)
  }

  function Reverse<T>(s: seq<T>): (r: seq<T>)
    ensures |r| == |s|
  {
    if s == [] then [] else Reverse(s[1..]) + [s[0]]
  }

  lemma {:induction false} ReverseAt<T>(s: seq<T>, k: nat)
    requires k < |s|
    ensures Reverse(s)[k] == s[|s| - 1 - k]
  {
    if k < |s| - 1 {
      ReverseAt(s[1..], k);
    }
  }

  /** Walking `successor` from the head of a forward-linked sequence visits
      its nodes in order. With exactly |nodes| - 1 steps this holds always;
      with more steps it holds when the last node has no successor, since
      the walk stops there. */
  lemma {:induction false} WalkForwardVisits(nodes: seq<LayerCache>, steps: nat)
    requires |nodes| > 0 && ForwardLinked(nodes)
    requires steps == |nodes| - 1 || (steps >= |nodes| - 1 && nodes[|nodes| - 1].successor == null)
    ensures WalkForward(nodes[0], steps) == nodes
    decreases |nodes|
  {
    if |nodes| > 1 {
      var rest := nodes[1..];
      assert ForwardLinked(rest) by {
        forall i | 0 <= i < |rest| - 1 ensures rest[i].successor == rest[i + 1] {
          assert nodes[i + 1].successor == nodes[i + 2];
        }
      }
      assert rest[|rest| - 1] == nodes[|nodes| - 1];
      WalkForwardVisits(rest, steps - 1);
      assert nodes[0].successor == nodes[1];
      assert nodes == [nodes[0]] + rest;
    }
  }

  /** Walking `predecessor` from the last node of a backward-linked sequence
      visits its nodes in reverse order: in exactly |nodes| - 1 steps, or in
      any larger number of steps when the first node has no predecessor. */
  lemma {:induction false} WalkBackwardVisits(nodes: seq<LayerCache>, steps: nat)
    requires |nodes| > 0 && BackwardLinked(nodes)
    requires steps == |nodes| - 1 || (steps >= |nodes| - 1 && nodes[0].predecessor == null)
    ensures WalkBackward(nodes[|nodes| - 1], steps) == Reverse(nodes)
    decreases |nodes|
  {
    var n := |nodes|;
    if n > 1 {
      var init := nodes[..n - 1];
      assert BackwardLinked(init);
      assert init[0] == nodes[0];
      WalkBackwardVisits(init, steps - 1);
      assert nodes[n - 1].predecessor == nodes[n - 2];
      var w := WalkBackward(nodes[n - 1], steps);
      assert w == [nodes[n - 1]] + Reverse(init);
      forall k | 0 <= k < n ensures w[k] == Reverse(nodes)[k] {
        ReverseAt(nodes, k);
        if k > 0 {
          ReverseAt(init, k - 1);
        }
      }
    }
  }

  /** Inserting `c` before `node` and then removing `c` gives the old
      predecessor and `node` back their links to each other; `c` keeps its
      stale pointers. */
  method InsertBeforeThenRemove(node: LayerCache, c: LayerCache)
    requires node.predecessor != null && c != node && c != node.predecessor
    modifies node`predecessor, node`successor, c`predecessor, c`successor, node.predecessor`successor
    ensures node.predecessor == old(node.predecessor)
    ensures old(node.predecessor).successor == node
    ensures c.predecessor == old(node.predecessor) && c.successor == node
    ensures old(node.predecessor) != node ==> node.successor == old(node.successor)
    ensures old(node.predecessor) != node && old(node.predecessor) != c ==>
              old(node.predecessor).predecessor == old(node.predecessor.predecessor)
    ensures node.Data() == old(node.Data()) && c.Data() == old(c.Data())
    ensures old(node.predecessor).Data() == old(node.predecessor.Data())
  {
    ghost var p := node.predecessor;
    node.InsertBefore(c);
    assert p.successor == c && c.predecessor == p && c.successor == node;
    c.Remove();
  }

  /** One step of BuildByInsertBefore: `InsertBefore` on the last node of a
      doubly-linked chain, with a node not yet in the chain, yields the chain
      with that node in front of its last node, still doubly linked. */
  method InsertBeforeLast(chain: seq<LayerCache>, c: LayerCache)
    requires |chain| >= 2 && Distinct(chain) && DoublyLinked(chain) && c !in Nodes(chain)
    modifies Nodes(chain + [c])`predecessor, Nodes(chain + [c])`successor
    ensures DoublyLinked(chain[..|chain| - 1] + [c, chain[|chain| - 1]])
    ensures chain[0].predecessor == old(chain[0].predecessor)
    ensures chain[|chain| - 1].successor == old(chain[|chain| - 1].successor)
  {
    var n := |chain|;
    var tail := chain[n - 1];
    assert tail.predecessor == chain[n - 2];
    assert c != chain[n - 1] && c != chain[n - 2];
    ghost var ext := chain + [c];
    assert ext[n - 2] == chain[n - 2] && ext[n - 1] == tail && ext[n] == c;
    tail.InsertBefore(c);
    var next := chain[..n - 1] + [c, tail];
    forall k | 0 <= k < |next| - 1 ensures next[k].successor == next[k + 1] {
      if k < n - 2 {
        assert next[k] == chain[k] && next[k + 1] == chain[k + 1];
      }
    }
    forall k | 0 < k < |next| ensures next[k].predecessor == next[k - 1] {
      if k < n - 1 {
        assert next[k] == chain[k] && next[k - 1] == chain[k - 1];
      }
    }
  }

  /** Repeated `InsertBefore` on the tail of a two-node chain `[head, tail]`
      yields the chain `[head] + cs + [tail]`, doubly linked, so walking
      `successor` from the head visits the inserted nodes in insertion order. */
  method BuildByInsertBefore(head: LayerCache, tail: LayerCache, cs: seq<LayerCache>)
    requires head.successor == tail && tail.predecessor == head
    requires Distinct([head] + cs + [tail])
    modifies Nodes([head] + cs + [tail])`predecessor, Nodes([head] + cs + [tail])`successor
    ensures DoublyLinked([head] + cs + [tail])
    ensures WalkForward(head, |cs| + 1) == [head] + cs + [tail]
    ensures head.predecessor == old(head.predecessor) && tail.successor == old(tail.successor)
    ensures forall n | n in Nodes([head] + cs + [tail]) :: n.Data() == old(n.Data())
  {
    var i := 0;
    while i < |cs|
      invariant 0 <= i <= |cs|
      invariant DoublyLinked([head] + cs[..i] + [tail])
      invariant head.predecessor == old(head.predecessor) && tail.successor == old(tail.successor)
    {
      var chain := [head] + cs[..i] + [tail];
      var all := [head] + cs + [tail];
      var c := cs[i];
      assert all[i + 1] == c && all[|cs| + 1] == tail && chain[i + 1] == tail;
      assert forall k :: 0 <= k <= i ==> chain[k] == all[k];
      assert c !in Nodes(chain) by {
        forall k | 0 <= k < |chain| ensures chain[k] != c {
          if k == i + 1 {
            assert chain[k] == all[|cs| + 1];
          }
        }
      }
      assert Distinct(chain) by {
        forall a, b | 0 <= a < b < |chain| ensures chain[a] != chain[b] {
          var a', b' := if a == i + 1 then |cs| + 1 else a, if b == i + 1 then |cs| + 1 else b;
          assert chain[a] == all[a'] && chain[b] == all[b'];
        }
      }
      InsertBeforeLast(chain, c);
      assert [head] + cs[..i + 1] + [tail] == chain[..|chain| - 1] + [c, tail];
      i := i + 1;
    }
    assert cs[..|cs|] == cs;
    WalkForwardVisits([head] + cs + [tail], |cs| + 1);
  }

  /** Repeated `InsertAfter` on the last node, starting from a single node
      with no successor, appends in insertion order: the result is doubly
      linked, the forward walk from `first` visits every node in order and
      the backward walk from the last node visits them in reverse. Both
      walks stop at the ends: the last node has no successor, and the first
      node keeps its predecessor, so when it had none any longer backward
      walk also ends at `first`. */
  method BuildByInsertAfter(first: LayerCache, cs: seq<LayerCache>) returns (last: LayerCache)
    requires first.successor == null
    requires Distinct([first] + cs)
    modifies Nodes([first] + cs)`predecessor, Nodes([first] + cs)`successor
    ensures last == ([first] + cs)[|cs|] && last.successor == null
    ensures first.predecessor == old(first.predecessor)
    ensures DoublyLinked([first] + cs)
    ensures forall steps :: steps >= |cs| ==> WalkForward(first, steps) == [first] + cs
    ensures WalkBackward(last, |cs|) == Reverse([first] + cs)
    ensures first.predecessor == null ==>
              forall steps :: steps >= |cs| ==> WalkBackward(last, steps) == Reverse([first] + cs)
    ensures forall n | n in Nodes([first] + cs) :: n.Data() == old(n.Data())
  {
    last := first;
    var i := 0;
    while i < |cs|
      invariant 0 <= i <= |cs|
      invariant last == ([first] + cs[..i])[i] && last.successor == null
      invariant first.predecessor == old(first.predecessor)
      invariant DoublyLinked([first] + cs[..i])
    {
      var chain := [first] + cs[..i];
      var all := [first] + cs;
      var c := cs[i];
      assert all[i + 1] == c && all[0] == first;
      assert forall k :: 0 <= k < |chain| ==> chain[k] == all[k];
      assert c !in Nodes(chain);
      assert c != first;
      assert last in Nodes(all) && c in Nodes(all);
      last.InsertAfter(c);
      var next := [first] + cs[..i + 1];
      assert next == chain + [c];
      forall k | 0 <= k < |next| - 1 ensures next[k].successor == next[k + 1] {
        if k < |chain| - 1 {
          assert next[k] == chain[k] && next[k + 1] == chain[k + 1];
        }
      }
      forall k | 0 < k < |next| ensures next[k].predecessor == next[k - 1] {
        if k < |chain| {
          assert next[k] == chain[k] && next[k - 1] == chain[k - 1];
        }
      }
      last := c;
      i := i + 1;
    }
    assert cs[..|cs|] == cs;
    var nodes := [first] + cs;
    assert nodes[|nodes| - 1] == last && nodes[0] == first;
    forall steps | steps >= |cs| ensures WalkForward(first, steps) == nodes {
      WalkForwardVisits(nodes, steps);
    }
    WalkBackwardVisits(nodes, |cs|);
    if first.predecessor == null {
      forall steps | steps >= |cs| ensures WalkBackward(last, steps) == Reverse(nodes) {
        WalkBackwardVisits(nodes, steps);
      }
    }
  }

  /** `InsertAfter` on an interior node: the forward chain becomes
      `a, c, b`, but `b.predecessor` still names `a`, whose successor is now
      `c`, so the chain is no longer doubly linked. */
  method InsertAfterInterior(a: LayerCache, b: LayerCache, c: LayerCache)
    requires a.successor == b && b.predecessor == a
    requires a != b && c != a && c != b
    modifies a`successor, c`predecessor, c`successor
    ensures ForwardLinked([a, c, b]) && c.predecessor == a
    ensures b.predecessor == a && b.predecessor.successor != b
    ensures !DoublyLinked([a, c, b])
    ensures WalkBackward(b, 1) == [b, a]
    ensures a.Data() == old(a.Data()) && b.Data() == old(b.Data()) && c.Data() == old(c.Data())
  {
    a.InsertAfter(c);
    assert [a, c, b][2].predecessor != [a, c, b][1];
  }
}
