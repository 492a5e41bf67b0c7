/** _ThreadSafeList restricted to push_back, pop_back and takeLast: a linked stack with a node free-list. */
module ThreadSafeLists {
  import opened Types

  class ListNode<T(0)> {
    var object_: T
    var prev: ListNode?<T>
    var next: ListNode?<T>

    constructor ()
      ensures prev == null && next == null
    {
      prev, next := null, null;
    }

    /** The neighbours forget the node, the node forgets its links. */
    method Exclude()
      requires prev != this && next != this && (prev != null ==> prev != next)
      modifies this`prev, this`next, prev, next
      ensures prev == null && next == null
      ensures old(prev) != null ==>
        old(prev).next == old(next) && old(prev).prev == old(prev.prev) && old(prev).object_ == old(prev.object_)
      ensures old(next) != null ==>
        old(next).prev == old(prev) && old(next).next == old(next.next) && old(next).object_ == old(next.object_)
    {
      if prev != null {
        prev.next := next;
      }
      if next != null {
        next.prev := prev;
      }
      prev, next := null, null;
    }

    method Connect(n: ListNode<T>)
      requires n != this
      modifies this`next, n`prev
      ensures next == n && n.prev == this
    {
      next := n;
      n.prev := this;
    }
  }

  ghost predicate Stacked<T(0)>(ns: seq<ListNode<T>>)
    reads ns
  {
    && (forall i, j :: 0 <= i < j < |ns| ==> ns[i] != ns[j])
    && (forall i {:trigger ns[i].prev} :: 1 <= i < |ns| ==> ns[i].prev == ns[i - 1])
    && (forall i {:trigger ns[i].next} :: 0 <= i < |ns| - 1 ==> ns[i].next == ns[i + 1])
    && (ns != [] ==> ns[0].prev == null && ns[|ns| - 1].next == null)
  }

  /** Recycled nodes carry no links. */
  ghost predicate Loose<T(0)>(ns: seq<ListNode<T>>)
    reads ns
  {
    && (forall i, j :: 0 <= i < j < |ns| ==> ns[i] != ns[j])
    && (forall i :: 0 <= i < |ns| ==> ns[i].prev == null && ns[i].next == null)
  }

  ghost function Objects<T(0)>(ns: seq<ListNode<T>>): seq<T>
    reads ns
  {
    seq(|ns|, i requires 0 <= i < |ns| reads ns => ns[i].object_)
  }

  class ThreadSafeList<T(0)> {
    var iSize: int
    var pFirst: ListNode?<T>
    var pHead: ListNode?<T>
    var iNodePool: seq<ListNode<T>>
    ghost var live: seq<ListNode<T>>

    ghost predicate Valid()
      reads this, live, iNodePool
    {
      && Stacked(live) && Loose(iNodePool)
      && (forall n :: n in live ==> n !in iNodePool)
      && iSize == |live|
      && pHead == (if live == [] then null else live[|live| - 1])
      && (live != [] ==> pFirst != null)
    }

    ghost function Contents(): seq<T>
      reads this, live
    {
      Objects(live)
    }

    constructor ()
      ensures Valid() && Contents() == [] && live == [] && iNodePool == []
    {
      iSize := 0;
      pFirst, pHead := null, null;
      iNodePool, live := [], [];
    }

    /** A recycled node, or a new one, carrying `o`. */
    method GetNode(o: T) returns (n: ListNode<T>)
      requires Valid()
      modifies this`iNodePool, iNodePool
      ensures Valid() && Contents() == old(Contents())
      ensures n !in live && n !in iNodePool && n.prev == null && n.next == null && n.object_ == o
      ensures n in old(iNodePool) || fresh(n)
      ensures forall m :: m in iNodePool ==> m in old(iNodePool)
    {
      if iNodePool == [] {
        n := new ListNode<T>();
      } else {
        n := iNodePool[|iNodePool| - 1];
        assert n in iNodePool && n !in live;
        iNodePool := iNodePool[..|iNodePool| - 1];
        assert forall i :: 0 <= i < |iNodePool| ==> iNodePool[i] != n;
      }
      n.object_ := o;
      assert Objects(live) == old(Objects(live));
    }

    /** Puts a loose node on top. */
    method LinkBack(node: ListNode<T>)
      requires Valid() && node !in live && node !in iNodePool && node.prev == null && node.next == null
      modifies this`iSize, this`pFirst, this`pHead, this`live, live, node
      ensures Valid() && live == old(live) + [node]
      ensures Contents() == old(Contents()) + [old(node.object_)]
    {
      assert forall i :: 0 <= i < |iNodePool| ==> iNodePool[i] in iNodePool && iNodePool[i] !in live;
      if pHead != null {
        pHead.Connect(node);
      }
      pHead := node;
      iSize := iSize + 1;
      if pFirst == null {
        pFirst := node;
      }
      live := live + [node];
    }

    method PushBack(o: T)
      requires Valid()
      modifies this, live, iNodePool
      ensures Valid() && Contents() == old(Contents()) + [o]
      ensures forall m :: m in live || m in iNodePool ==> m in old(live) || m in old(iNodePool) || fresh(m)
    {
      hide Stacked, Loose, Objects;
      var node := GetNode(o);
      LinkBack(node);
    }

    lemma TopNode()
      requires Valid() && live != []
      ensures pHead == live[|live| - 1] && pHead !in iNodePool && pHead.next == null
      ensures pHead.prev == if |live| > 1 then live[|live| - 2] else null
      ensures forall i :: 0 <= i < |live| - 1 ==> live[i] != pHead
    {
      assert pHead in live;
    }

    /** Without its top the chain is still a chain; the top joins the loose nodes. */
    twostate lemma Unstacked()
      requires live == old(live) && iNodePool == old(iNodePool) && live != [] && old(Valid())
      requires var h := live[|live| - 1]; h.prev == null && h.next == null
      requires forall i {:trigger live[i].object_} :: 0 <= i < |live| ==> live[i].object_ == old(live[i].object_)
      requires forall i {:trigger live[i].prev} :: 0 <= i < |live| - 1 ==> live[i].prev == old(live[i].prev)
      requires forall i {:trigger live[i].next} :: 0 <= i < |live| - 2 ==> live[i].next == old(live[i].next)
      requires |live| > 1 ==> live[|live| - 2].next == null
      requires forall n :: n in iNodePool ==> unchanged(n)
      ensures Stacked(live[..|live| - 1]) && Loose(iNodePool + [live[|live| - 1]])
      ensures Objects(live[..|live| - 1]) == old(Objects(live))[..|live| - 1]
      ensures forall n :: n in live[..|live| - 1] ==> n in live && n !in iNodePool + [live[|live| - 1]]
    {
      assert forall i :: 0 <= i < |iNodePool| ==> iNodePool[i] in iNodePool;
      assert live[|live| - 1] in live;
    }

    method PopBack()
      requires Valid()
      modifies this`iSize, this`pHead, this`iNodePool, this`live, live
      ensures Valid()
      ensures live == if old(live) == [] then [] else old(live)[..|old(live)| - 1]
      ensures Contents() == if old(live) == [] then [] else old(Contents())[..|old(live)| - 1]
      ensures iNodePool == if old(live) == [] then old(iNodePool) else old(iNodePool) + [old(live)[|old(live)| - 1]]
      ensures forall m :: m in old(live) ==> m.object_ == old(m.object_)
    {
      if pHead != null {
        var h := pHead;
        TopNode();
        pHead := h.prev;
        h.Exclude();
        Unstacked();
        hide Stacked, Loose, Objects;
        iNodePool := iNodePool + [h];
        iSize := iSize - 1;
        live := live[..|live| - 1];
      }
    }

    /** The latest value not yet taken, or `empty` when there is none. */
    method TakeLast(empty: T) returns (o: T)
      requires Valid()
      modifies this`iSize, this`pHead, this`iNodePool, this`live, live
      ensures Valid()
      ensures if old(Contents()) == [] then o == empty && Contents() == []
              else o == old(Contents())[|old(Contents())| - 1] && Contents() == old(Contents())[..|old(Contents())| - 1]
    {
      if pHead == null {
        return empty;
      }
      var h := pHead;
      PopBack();
      o := h.object_;
    }
  }

  // ----- the stack as a value

  datatype Op<T> = Push(value: T) | Take

  /** The stack, and the values the takes returned. */
  datatype Stack<T> = Stack(items: seq<T>, taken: seq<Option<T>>)

  function Apply<T>(s: Stack<T>, op: Op<T>): Stack<T> {
    match op
    case Push(x) => s.(items := s.items + [x])
    case Take =>
      if s.items == [] then s.(taken := s.taken + [None])
      else Stack(s.items[..|s.items| - 1], s.taken + [Some(s.items[|s.items| - 1])])
  }

  function ApplyAll<T>(s: Stack<T>, ops: seq<Op<T>>): Stack<T>
    decreases |ops|
  {
    if ops == [] then s else ApplyAll(Apply(s, ops[0]), ops[1..])
  }

  /** Pushes less takes, at most zero takes unmatched at any point. */
  function Depth<T>(ops: seq<Op<T>>, depth: nat): Option<nat> {
    if ops == [] then Some(depth) else
    match ops[0]
    case Push(_) => Depth(ops[1..], depth + 1)
    case Take => if depth == 0 then None else Depth(ops[1..], depth - 1)
  }

  lemma {:induction false} DeepStaysBelow<T>(s: Stack<T>, base: seq<T>, ops: seq<Op<T>>, depth: nat)
    requires |s.items| == |base| + depth && base <= s.items
    requires Depth(ops, depth).Some?
    ensures var r := ApplyAll(s, ops); base <= r.items && |r.items| == |base| + Depth(ops, depth).value
    decreases |ops|
  {
    if ops != [] {
      var s' := Apply(s, ops[0]);
      assert base <= s'.items;
      DeepStaysBelow(s', base, ops[1..], if ops[0].Push? then depth + 1 else depth - 1);
    }
  }

  lemma {:induction false} ApplyAppend<T>(s: Stack<T>, a: seq<Op<T>>, b: seq<Op<T>>)
    ensures ApplyAll(s, a + b) == ApplyAll(ApplyAll(s, a), b)
    decreases |a|
  {
    if a == [] {
      assert a + b == b;
    } else {
      assert (a + b)[0] == a[0] && (a + b)[1..] == a[1..] + b;
      ApplyAppend(Apply(s, a[0]), a[1..], b);
    }
  }

  /** A take returns the value of the push it matches, whatever balanced calls came in between. */
  lemma TakeMatchesPush<T>(s: Stack<T>, x: T, between: seq<Op<T>>)
    requires Depth(between, 0) == Some(0)
    ensures var r := ApplyAll(s, [Push(x)] + between + [Take]);
      && r.items == s.items
      && r.taken == ApplyAll(s, [Push(x)] + between).taken + [Some(x)]
  {
    var s1 := Apply(s, Push(x));
    ApplyAppend(s, [Push(x)], between);
    assert ApplyAll(s, [Push(x)]) == s1;
    DeepStaysBelow(s1, s1.items, between, 0);
    var s2 := ApplyAll(s1, between);
    assert s2.items == s1.items;
    ApplyAppend(s, [Push(x)] + between, [Take]);
    assert ApplyAll(s2, [Take]) == Apply(s2, Take);
    assert s2.items[..|s2.items| - 1] == s.items;
  }
}
