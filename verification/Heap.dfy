/**
  std::priority_queue over a vector: the array heap behind the controller's up and down queues.

  The proofs need less of the comparator than a strict weak order: a total preorder `le` that the
  comparator never contradicts.  Both `<` and `>=` on floors are of that kind.
 */
module Heap {

  ghost predicate Respects<T(!new)>(comp: (T, T) -> bool, le: (T, T) -> bool) {
    && (forall a, b :: comp(a, b) ==> le(a, b))
    && (forall a, b :: !comp(a, b) ==> le(b, a))
    && (forall a, b, c :: le(a, b) && le(b, c) ==> le(a, c))
  }

  function Parent(k: nat): nat
    requires k > 0
  {
    (k - 1) / 2
  }

  ghost predicate Below<T>(h: seq<T>, k: nat, le: (T, T) -> bool)
    requires 1 <= k < |h|
  {
    le(h[k], h[Parent(k)])
  }

  // No element is above its parent.
  ghost predicate IsHeap<T>(h: seq<T>, le: (T, T) -> bool) {
    forall k :: 1 <= k < |h| ==> Below(h, k, le)
  }

  // Each element is at or below the one before it.
  ghost predicate Descending<T>(s: seq<T>, le: (T, T) -> bool) {
    forall i, j :: 0 <= i < j < |s| ==> le(s[j], s[i])
  }

  // ---------- the heap operations ----------

  // Move a hole up until v fits.
  function SiftUp<T>(h: seq<T>, hole: nat, v: T, comp: (T, T) -> bool): (r: seq<T>)
    requires hole < |h|
    ensures |r| == |h|
    decreases hole
  {
    if hole > 0 && comp(h[Parent(hole)], v)
    then SiftUp(h[hole := h[Parent(hole)]], Parent(hole), v, comp)
    else h[hole := v]
  }

  // The larger child of a node with two children.
  function Larger<T>(h: seq<T>, k: nat, comp: (T, T) -> bool): (c: nat)
    requires 2 * k + 2 < |h|
    ensures c == 2 * k + 1 || c == 2 * k + 2
  {
    if comp(h[2 * k + 2], h[2 * k + 1]) then 2 * k + 1 else 2 * k + 2
  }

  // Move a hole down to a leaf along the larger children.
  function SiftDown<T>(h: seq<T>, hole: nat, comp: (T, T) -> bool): (r: (seq<T>, nat))
    requires hole < |h|
    ensures |r.0| == |h| && r.1 < |h|
    decreases |h| - hole
  {
    if 2 * hole + 2 < |h| then
      SiftDown(h[hole := h[Larger(h, hole, comp)]], Larger(h, hole, comp), comp)
    else if 2 * hole + 2 == |h| then (h[hole := h[2 * hole + 1]], 2 * hole + 1)
    else (h, hole)
  }

  function Push<T>(h: seq<T>, x: T, comp: (T, T) -> bool): (r: seq<T>)
    ensures |r| == |h| + 1
  {
    SiftUp(h + [x], |h|, x, comp)
  }

  function Pop<T>(h: seq<T>, comp: (T, T) -> bool): (r: seq<T>)
    requires h != []
    ensures |r| == |h| - 1
  {
    if |h| == 1 then []
    else
      var r := SiftDown(h[..|h| - 1], 0, comp);
      SiftUp(r.0, r.1, h[|h| - 1], comp)
  }

  // Top and pop until empty.
  function Drain<T>(h: seq<T>, comp: (T, T) -> bool): (s: seq<T>)
    ensures |s| == |h|
    decreases |h|
  {
    if h == [] then [] else [h[0]] + Drain(Pop(h, comp), comp)
  }

  // ---------- they keep the heap and its contents ----------

  ghost predicate ChildrenBelow<T>(h: seq<T>, hole: nat, v: T, le: (T, T) -> bool) {
    forall k :: 1 <= k < |h| && Parent(k) == hole ==> le(h[k], v)
  }

  // A heap except at the hole, whose children are below its parent.
  ghost predicate HoleHeap<T>(h: seq<T>, hole: nat, le: (T, T) -> bool)
    requires hole < |h|
  {
    && (forall k :: 1 <= k < |h| && k != hole && Parent(k) != hole ==> Below(h, k, le))
    && (hole > 0 ==> ChildrenBelow(h, hole, h[Parent(hole)], le))
  }

  lemma MoveHole<T>(h: seq<T>, i: nat, j: nat, v: T)
    requires i < |h| && j < |h| && i != j
    ensures multiset(h[i := h[j]][j := v]) == multiset(h[i := v])
  {
  }

  lemma FillHole<T(!new)>(h: seq<T>, hole: nat, v: T, le: (T, T) -> bool)
    requires hole < |h| && HoleHeap(h, hole, le) && ChildrenBelow(h, hole, v, le)
    requires hole > 0 ==> le(v, h[Parent(hole)])
    ensures IsHeap(h[hole := v], le)
  {
    var r := h[hole := v];
    forall k | 1 <= k < |r|
      ensures Below(r, k, le)
    {
      if k != hole && Parent(k) != hole {
        assert Below(h, k, le);
      }
    }
  }

  lemma HoleUp<T(!new)>(h: seq<T>, hole: nat, v: T, comp: (T, T) -> bool, le: (T, T) -> bool)
    requires Respects(comp, le) && 0 < hole < |h| && HoleHeap(h, hole, le) && comp(h[Parent(hole)], v)
    ensures var p := Parent(hole); var g := h[hole := h[p]]; HoleHeap(g, p, le) && ChildrenBelow(g, p, v, le)
  {
    var p := Parent(hole);
    var g := h[hole := h[p]];
    forall k | 1 <= k < |g| && k != p && Parent(k) != p
      ensures Below(g, k, le)
    {
      if Parent(k) != hole {
        assert Below(h, k, le);
      }
    }
    forall k | 1 <= k < |g| && Parent(k) == p
      ensures le(g[k], h[p])
    {
      if k == hole {
        assert comp(h[p], h[p]) || !comp(h[p], h[p]);
      } else {
        assert Below(h, k, le);
      }
    }
    if p > 0 {
      assert Below(h, p, le);
    }
  }

  lemma {:induction false} SiftUpKeeps<T(!new)>(h: seq<T>, hole: nat, v: T, comp: (T, T) -> bool, le: (T, T) -> bool)
    requires Respects(comp, le) && hole < |h| && HoleHeap(h, hole, le) && ChildrenBelow(h, hole, v, le)
    ensures IsHeap(SiftUp(h, hole, v, comp), le)
    ensures multiset(SiftUp(h, hole, v, comp)) == multiset(h[hole := v])
    decreases hole
  {
    if hole > 0 && comp(h[Parent(hole)], v) {
      HoleUp(h, hole, v, comp, le);
      MoveHole(h, hole, Parent(hole), v);
      SiftUpKeeps(h[hole := h[Parent(hole)]], Parent(hole), v, comp, le);
    } else {
      FillHole(h, hole, v, le);
    }
  }

  lemma HoleDown<T(!new)>(h: seq<T>, hole: nat, c: nat, le: (T, T) -> bool)
    requires hole < c < |h| && Parent(c) == hole && HoleHeap(h, hole, le)
    requires forall k :: 1 <= k < |h| && Parent(k) == hole ==> le(h[k], h[c])
    ensures HoleHeap(h[hole := h[c]], c, le)
  {
    var g := h[hole := h[c]];
    forall k | 1 <= k < |g| && k != c && Parent(k) != c
      ensures Below(g, k, le)
    {
      if k != hole && Parent(k) != hole {
        assert Below(h, k, le);
      }
    }
    forall k | 1 <= k < |g| && Parent(k) == c
      ensures le(g[k], g[hole])
    {
      assert Below(h, k, le);
    }
  }

  lemma LargestChild<T(!new)>(h: seq<T>, hole: nat, c: nat, comp: (T, T) -> bool, le: (T, T) -> bool)
    requires Respects(comp, le) && 2 * hole + 2 <= |h|
    requires c == if 2 * hole + 2 < |h| then Larger(h, hole, comp) else 2 * hole + 1
    ensures forall k :: 1 <= k < |h| && Parent(k) == hole ==> le(h[k], h[c])
  {
    assert comp(h[c], h[c]) || !comp(h[c], h[c]);
    forall k | 1 <= k < |h| && Parent(k) == hole
      ensures le(h[k], h[c])
    {
      assert k == 2 * hole + 1 || k == 2 * hole + 2;
    }
  }

  lemma {:induction false} SiftDownKeeps<T(!new)>(h: seq<T>, hole: nat, v: T, comp: (T, T) -> bool, le: (T, T) -> bool)
    requires Respects(comp, le) && hole < |h| && HoleHeap(h, hole, le)
    ensures var r := SiftDown(h, hole, comp);
      && HoleHeap(r.0, r.1, le) && 2 * r.1 + 1 >= |h|
      && multiset(r.0[r.1 := v]) == multiset(h[hole := v])
    decreases |h| - hole
  {
    if 2 * hole + 2 <= |h| {
      var c := if 2 * hole + 2 < |h| then Larger(h, hole, comp) else 2 * hole + 1;
      LargestChild(h, hole, c, comp, le);
      HoleDown(h, hole, c, le);
      MoveHole(h, hole, c, v);
      if 2 * hole + 2 < |h| {
        SiftDownKeeps(h[hole := h[c]], c, v, comp, le);
      }
    }
  }

  lemma PushKeeps<T(!new)>(h: seq<T>, x: T, comp: (T, T) -> bool, le: (T, T) -> bool)
    requires Respects(comp, le) && IsHeap(h, le)
    ensures IsHeap(Push(h, x, comp), le)
    ensures multiset(Push(h, x, comp)) == multiset(h) + multiset{x}
  {
    var g := h + [x];
    forall k | 1 <= k < |h|
      ensures Below(g, k, le)
    {
      assert Below(h, k, le);
    }
    SiftUpKeeps(g, |h|, x, comp, le);
    assert g[|h| := x] == g;
  }

  lemma FirstForLast<T>(h: seq<T>)
    requires |h| > 1
    ensures multiset(h) == multiset{h[0]} + multiset(h[..|h| - 1][0 := h[|h| - 1]])
  {
    var n := |h| - 1;
    assert h == [h[0]] + h[1..n] + [h[n]];
    assert h[..n][0 := h[n]] == [h[n]] + h[1..n];
  }

  lemma PopKeeps<T(!new)>(h: seq<T>, comp: (T, T) -> bool, le: (T, T) -> bool)
    requires Respects(comp, le) && IsHeap(h, le) && h != []
    ensures IsHeap(Pop(h, comp), le)
    ensures multiset(h) == multiset{h[0]} + multiset(Pop(h, comp))
  {
    var n := |h| - 1;
    if n == 0 {
      assert h == [h[0]];
    } else {
      var g, v := h[..n], h[n];
      assert HoleHeap(g, 0, le) by {
        forall k | 1 <= k < |g|
          ensures Below(g, k, le)
        {
          assert Below(h, k, le);
        }
      }
      SiftDownKeeps(g, 0, v, comp, le);
      var r := SiftDown(g, 0, comp);
      assert ChildrenBelow(r.0, r.1, v, le);
      SiftUpKeeps(r.0, r.1, v, comp, le);
      FirstForLast(h);
    }
  }

  lemma {:induction false} TopIsGreatest<T(!new)>(h: seq<T>, k: nat, comp: (T, T) -> bool, le: (T, T) -> bool)
    requires Respects(comp, le) && IsHeap(h, le) && k < |h|
    ensures le(h[k], h[0])
  {
    if k == 0 {
      assert comp(h[0], h[0]) || !comp(h[0], h[0]);
    } else {
      assert Below(h, k, le);
      TopIsGreatest(h, Parent(k), comp, le);
    }
  }

  // Draining a heap sorts it: the same elements, none above an earlier one.
  lemma {:induction false} DrainSorts<T(!new)>(h: seq<T>, comp: (T, T) -> bool, le: (T, T) -> bool)
    requires Respects(comp, le) && IsHeap(h, le)
    ensures multiset(Drain(h, comp)) == multiset(h)
    ensures Descending(Drain(h, comp), le)
    decreases |h|
  {
    if h == [] {
    } else {
      var rest := Pop(h, comp);
      var s := Drain(rest, comp);
      PopKeeps(h, comp, le);
      DrainSorts(rest, comp, le);
      forall j | 0 <= j < |s|
        ensures le(s[j], h[0])
      {
        assert s[j] in multiset(s);
        assert s[j] in multiset(h);
        var k :| 0 <= k < |h| && h[k] == s[j];
        TopIsGreatest(h, k, comp, le);
      }
    }
  }

  // What a sequence of pushes leaves in the queue.
  function PushAll<T>(xs: seq<T>, comp: (T, T) -> bool): seq<T> {
    if xs == [] then [] else Push(PushAll(xs[..|xs| - 1], comp), xs[|xs| - 1], comp)
  }

  lemma {:induction false} PushAllKeeps<T(!new)>(xs: seq<T>, comp: (T, T) -> bool, le: (T, T) -> bool)
    requires Respects(comp, le)
    ensures IsHeap(PushAll(xs, comp), le) && multiset(PushAll(xs, comp)) == multiset(xs)
  {
    if xs == [] {
    } else {
      var n := |xs| - 1;
      PushAllKeeps(xs[..n], comp, le);
      PushKeeps(PushAll(xs[..n], comp), xs[n], comp, le);
      assert xs == xs[..n] + [xs[n]];
    }
  }

  // Whatever is pushed, in whatever order, comes out as a sorted permutation.
  lemma HeapSort<T(!new)>(xs: seq<T>, comp: (T, T) -> bool, le: (T, T) -> bool)
    requires Respects(comp, le)
    ensures multiset(Drain(PushAll(xs, comp), comp)) == multiset(xs)
    ensures Descending(Drain(PushAll(xs, comp), comp), le)
  {
    PushAllKeeps(xs, comp, le);
    DrainSorts(PushAll(xs, comp), comp, le);
  }

  // ---------- the container ----------

  class PriorityQueue<T> {
    const comp: (T, T) -> bool
    var c: seq<T>

    constructor (comp: (T, T) -> bool)
      ensures this.comp == comp && c == []
    {
      this.comp := comp;
      c := [];
    }

    method PushItem(x: T)
      modifies this
      ensures c == Push(old(c), x, comp)
    {
      var hole := |c|;
      c := c + [x];
      ghost var goal := SiftUp(c, hole, x, comp);
      while hole > 0 && comp(c[Parent(hole)], x)
        invariant 0 <= hole < |c|
        invariant SiftUp(c, hole, x, comp) == goal
      {
        c := c[hole := c[Parent(hole)]];
        hole := Parent(hole);
      }
      c := c[hole := x];
    }

    method PopItem()
      requires c != []
      modifies this
      ensures c == Pop(old(c), comp)
    {
      var n := |c| - 1;
      var v := c[n];
      c := c[..n];
      if n > 0 {
        var hole := 0;
        ghost var down := SiftDown(c, 0, comp);
        while 2 * hole + 2 < |c|
          invariant 0 <= hole < |c|
          invariant SiftDown(c, hole, comp) == down
          decreases |c| - hole
        {
          var child := if comp(c[2 * hole + 2], c[2 * hole + 1]) then 2 * hole + 1 else 2 * hole + 2;
          c := c[hole := c[child]];
          hole := child;
        }
        if 2 * hole + 2 == |c| {
          c := c[hole := c[2 * hole + 1]];
          hole := 2 * hole + 1;
        }
        ghost var up := SiftUp(c, hole, v, comp);
        while hole > 0 && comp(c[Parent(hole)], v)
          invariant 0 <= hole < |c|
          invariant SiftUp(c, hole, v, comp) == up
        {
          c := c[hole := c[Parent(hole)]];
          hole := Parent(hole);
        }
        c := c[hole := v];
      }
    }
  }
}
