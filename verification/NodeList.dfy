/** Tagged pointers into a fixed array of nodes, and the lists that `next` pointers make. */
module NodeList {

  // A DoublePointer: the 128-bit value 0 is Nil, anything else is a tag and a node.
  datatype Ptr = Nil | At(tag: nat, node: nat)

  predicate PtrOk(p: Ptr, max: nat) { p.At? ==> p.node < max }

  predicate NodePtr(p: Ptr, max: nat) { p.At? && p.node < max }

  predicate SameNode(p: Ptr, q: Ptr) {
    (p == Nil && q == Nil) || (p.At? && q.At? && p.node == q.node)
  }

  function DropLast<T>(s: seq<T>): seq<T> { if s == [] then [] else s[..|s| - 1] }

  ghost predicate NoDup(xs: seq<nat>) {
    forall a, b :: 0 <= a < b < |xs| ==> xs[a] != xs[b]
  }

  // The nodes met by following `next` from p, at most `fuel` of them.
  function Walk(next: seq<Ptr>, p: Ptr, fuel: nat): (nodes: seq<nat>)
    ensures forall k :: 0 <= k < |nodes| ==> nodes[k] < |next|
    decreases fuel
  {
    if p == Nil || fuel == 0 || p.node >= |next| then []
    else [p.node] + Walk(next, next[p.node], fuel - 1)
  }

  // The nodes are exactly those on the way from p to null.
  ghost predicate Path(next: seq<Ptr>, p: Ptr, nodes: seq<nat>) {
    && (forall j :: 0 <= j < |nodes| ==> nodes[j] < |next|)
    && (if nodes == [] then p == Nil
        else p.At? && p.node == nodes[0] && next[nodes[|nodes| - 1]] == Nil)
    && (forall j {:trigger next[nodes[j]]} :: 0 <= j < |nodes| - 1 ==>
          next[nodes[j]].At? && next[nodes[j]].node == nodes[j + 1])
  }

  lemma {:induction false} WalkPath(next: seq<Ptr>, p: Ptr, nodes: seq<nat>, fuel: nat)
    requires Path(next, p, nodes) && |nodes| <= fuel
    ensures Walk(next, p, fuel) == nodes
    decreases fuel
  {
    if nodes != [] {
      var q := next[nodes[0]];
      assert Path(next, q, nodes[1..]) by {
        assert forall j :: 0 <= j < |nodes| - 1 ==> nodes[1..][j] == nodes[j + 1];
      }
      WalkPath(next, q, nodes[1..], fuel - 1);
    }
  }

  // Distinct nodes fit into the node array.
  lemma {:induction false} DistinctFit(xs: seq<nat>, max: nat)
    requires NoDup(xs) && forall k :: 0 <= k < |xs| ==> xs[k] < max
    ensures |xs| <= max
  {
    if xs != [] {
      var first := xs[0];
      if top :| 0 <= top < |xs| && xs[top] == max - 1 {
        var ys := xs[..top] + xs[top + 1..];
        assert forall k :: 0 <= k < |ys| ==> ys[k] == xs[if k < top then k else k + 1];
        DistinctFit(ys, max - 1);
      } else {
        DistinctFit(xs, max - 1);
      }
    }
  }

  // ----- A free list given by its nodes, bottom first -----

  predicate PointsTo(p: Ptr, free: seq<nat>, len: int)
    requires len <= |free|
  {
    if len <= 0 then p == Nil else p.At? && p.node == free[len - 1]
  }

  ghost function Down(free: seq<nat>, len: nat): (r: seq<nat>)
    requires len <= |free|
    ensures |r| == len && forall j :: 0 <= j < len ==> r[j] == free[len - 1 - j]
  {
    seq(len, j requires 0 <= j < len => free[len - 1 - j])
  }

  lemma DownPath(next: seq<Ptr>, p: Ptr, free: seq<nat>, len: nat)
    requires len <= |free| && PointsTo(p, free, len) && forall j :: 0 <= j < |free| ==> free[j] < |next|
    requires forall j {:trigger next[free[j]]} :: 0 <= j < |free| ==> PointsTo(next[free[j]], free, j)
    ensures Path(next, p, Down(free, len))
  {
    var nodes := Down(free, len);
    assert forall j {:trigger nodes[j]} :: 0 <= j < len ==> PointsTo(next[nodes[j]], free, len - 1 - j);
  }

  // `free` lists, bottom first, the nodes from head to null.
  ghost predicate Listed(next: seq<Ptr>, head: Ptr, free: seq<nat>) {
    && (forall j :: 0 <= j < |free| ==> free[j] < |next|)
    && PointsTo(head, free, |free|)
    && (forall j {:trigger next[free[j]]} :: 0 <= j < |free| ==> PointsTo(next[free[j]], free, j))
  }

  lemma FreeWalk(next: seq<Ptr>, head: Ptr, free: seq<nat>)
    requires Listed(next, head, free) && NoDup(free)
    ensures |free| <= |next| && Walk(next, head, |next|) == Down(free, |free|)
    ensures NoDup(Down(free, |free|)) && Path(next, head, Down(free, |free|))
  {
    DistinctFit(free, |next|);
    DownPath(next, head, free, |free|);
    WalkPath(next, head, Down(free, |free|), |next|);
  }

  lemma DownHas(free: seq<nat>, n: nat)
    ensures n in Down(free, |free|) <==> n in free
  {
    var down := Down(free, |free|);
    if n in free {
      var j :| 0 <= j < |free| && free[j] == n;
      assert down[|free| - 1 - j] == n;
    }
    if n in down {
      var j :| 0 <= j < |down| && down[j] == n;
      assert free[|free| - 1 - j] == n;
    }
  }

  lemma ListedPush(next: seq<Ptr>, head: Ptr, free: seq<nat>, p: Ptr)
    requires Listed(next, head, free) && NodePtr(p, |next|) && next[p.node] == head
    ensures Listed(next, p, free + [p.node])
  {
    var more := free + [p.node];
    forall j {:trigger next[more[j]]} | 0 <= j < |more|
      ensures PointsTo(next[more[j]], more, j)
    {
      if j < |free| { assert more[j] == free[j] && PointsTo(next[free[j]], free, j); }
    }
  }

  // ----- The first place where something is true -----

  lemma FirstTrue(b: seq<bool>, j: nat) returns (k: nat)
    requires j < |b| && b[j]
    ensures k < |b| && b[k] && forall i :: 0 <= i < k ==> !b[i]
  {
    k := 0;
    while !b[k]
      invariant k <= j && forall i :: 0 <= i < k ==> !b[i]
      decreases j - k
    {
      k := k + 1;
    }
  }
}
