/** DPN_ProcessorList: a doubly linked list with a cursor, refined to CursorList values. */
module ProcessorLists {
  import opened Types
  import opened CursorLists

  class ListNode<T> {
    var proc: T
    var prev: ListNode?<T>
    var next: ListNode?<T>

    constructor (p: T)
      ensures proc == p && prev == null && next == null
    {
      proc, prev, next := p, null, null;
    }

    /** Connects the neighbours; the links of the node itself stay. */
    method Exclude()
      requires prev != this && next != this && (prev != null ==> prev != next)
      modifies prev, next
      ensures prev != null ==> prev.next == next && prev.prev == old(prev.prev) && prev.proc == old(prev.proc)
      ensures next != null ==> next.prev == prev && next.next == old(next.next) && next.proc == old(next.proc)
    {
      if prev != null {
        prev.next := next;
      }
      if next != null {
        next.prev := prev;
      }
    }
  }

  ghost predicate Chained<T>(ns: seq<ListNode<T>>)
    reads ns
  {
    && (forall i, j :: 0 <= i < j < |ns| ==> ns[i] != ns[j])
    && (forall i {:trigger ns[i].prev} :: 1 <= i < |ns| ==> ns[i].prev == ns[i - 1])
    && (forall i {:trigger ns[i].next} :: 0 <= i < |ns| - 1 ==> ns[i].next == ns[i + 1])
    && (ns != [] ==> ns[0].prev == null && ns[|ns| - 1].next == null)
  }

  ghost function Procs<T>(ns: seq<ListNode<T>>): seq<T>
    reads ns
  {
    seq(|ns|, i requires 0 <= i < |ns| reads ns => ns[i].proc)
  }

  lemma Without<T>(s: seq<T>, c: nat)
    requires c < |s|
    ensures var rest := s[..c] + s[c + 1..];
      && (forall x :: x in rest ==> x in s)
      && (rest != [] ==> rest[0] == s[if c == 0 then 1 else 0] && rest[|rest| - 1] == s[if c == |s| - 1 then c - 1 else |s| - 1])
      && (c < |rest| ==> rest[c] == s[c + 1])
  {
  }

  lemma Neighbours<T>(ns: seq<ListNode<T>>, c: nat)
    requires c < |ns| && Chained(ns)
    ensures ns[c].next == (if c + 1 < |ns| then ns[c + 1] else null)
    ensures ns[c].prev == (if c > 0 then ns[c - 1] else null)
    ensures ns[c].prev != ns[c] && ns[c].next != ns[c] && (ns[c].prev != null ==> ns[c].prev != ns[c].next)
  {
    assert c > 0 ==> ns[c].prev == ns[c - 1];
  }

  class ProcessorList<T> {
    var first: ListNode?<T>
    var head: ListNode?<T>
    var actual: ListNode?<T>
    ghost var nodes: seq<ListNode<T>>
    ghost var cursor: nat

    ghost predicate Valid()
      reads this, nodes
    {
      && Chained(nodes)
      && (if nodes == [] then first == null && head == null && actual == null && cursor == 0
          else first == nodes[0] && head == nodes[|nodes| - 1] && cursor < |nodes| && actual == nodes[cursor])
    }

    ghost function Contents(): (c: CursorList<T>)
      reads this, nodes
      requires Valid()
      ensures c.Ok()
    {
      CursorList(Procs(nodes), cursor)
    }

    constructor ()
      ensures Valid() && nodes == [] && Contents() == Empty()
    {
      first, head, actual := null, null, null;
      nodes, cursor := [], 0;
    }

    /** Connecting the neighbours of the node under the cursor takes it out of the chain. */
    twostate lemma Excluded()
      requires nodes == old(nodes) && cursor == old(cursor) && cursor < |nodes| && old(Chained(nodes))
      requires forall i {:trigger nodes[i].next} :: 0 <= i < |nodes| && i != cursor - 1 ==> nodes[i].next == old(nodes[i].next)
      requires forall i {:trigger nodes[i].prev} :: 0 <= i < |nodes| && i != cursor + 1 ==> nodes[i].prev == old(nodes[i].prev)
      requires cursor > 0 ==> nodes[cursor - 1].next == old(nodes[cursor].next)
      requires cursor + 1 < |nodes| ==> nodes[cursor + 1].prev == old(nodes[cursor].prev)
      ensures Chained(nodes[..cursor] + nodes[cursor + 1..])
    {
      var ns, c := nodes, cursor;
      assert c > 0 ==> old(ns[c].prev) == ns[c - 1];
      assert c + 1 < |ns| ==> old(ns[c].next) == ns[c + 1];
      var ms := ns[..c] + ns[c + 1..];
      assert forall i :: 0 <= i < |ms| ==> ms[i] == ns[if i < c then i else i + 1];
    }

    twostate lemma ProcsWithout()
      requires nodes == old(nodes) && cursor == old(cursor) && cursor < |nodes|
      requires forall i {:trigger nodes[i].proc} :: 0 <= i < |nodes| ==> nodes[i].proc == old(nodes[i].proc)
      ensures Procs(nodes[..cursor] + nodes[cursor + 1..]) == old(Procs(nodes))[..cursor] + old(Procs(nodes))[cursor + 1..]
    {
    }

    /** Linking a new node between the one under the cursor and its predecessor puts it in the chain. */
    twostate lemma Included(new x: ListNode<T>)
      requires nodes == old(nodes) && cursor == old(cursor) && 0 < cursor < |nodes| && old(Chained(nodes)) && x !in nodes
      requires forall i {:trigger nodes[i].proc} :: 0 <= i < |nodes| ==> nodes[i].proc == old(nodes[i].proc)
      requires forall i {:trigger nodes[i].next} :: 0 <= i < |nodes| && i != cursor - 1 ==> nodes[i].next == old(nodes[i].next)
      requires forall i {:trigger nodes[i].prev} :: 0 <= i < |nodes| && i != cursor ==> nodes[i].prev == old(nodes[i].prev)
      requires nodes[cursor - 1].next == x && nodes[cursor].prev == x && x.prev == nodes[cursor - 1] && x.next == nodes[cursor]
      ensures var ms := nodes[..cursor] + [x] + nodes[cursor..];
        Chained(ms) && Procs(ms) == old(Procs(nodes))[..cursor] + [x.proc] + old(Procs(nodes))[cursor..]
    {
    }

    /** Linking the last node of this chain to the first of the other joins them. */
    twostate lemma Joined(list: ProcessorList<T>)
      requires nodes == old(nodes) && list.nodes == old(list.nodes)
      requires nodes != [] && list.nodes != [] && old(Chained(nodes)) && old(Chained(list.nodes))
      requires forall i, j :: 0 <= i < |nodes| && 0 <= j < |list.nodes| ==> nodes[i] != list.nodes[j]
      requires forall i {:trigger nodes[i].proc} :: 0 <= i < |nodes| ==>
        nodes[i].proc == old(nodes[i].proc) && nodes[i].prev == old(nodes[i].prev)
      requires forall i {:trigger list.nodes[i].proc} :: 0 <= i < |list.nodes| ==>
        list.nodes[i].proc == old(list.nodes[i].proc) && list.nodes[i].next == old(list.nodes[i].next)
      requires forall i {:trigger nodes[i].next} :: 0 <= i < |nodes| - 1 ==> nodes[i].next == old(nodes[i].next)
      requires forall i {:trigger list.nodes[i].prev} :: 0 < i < |list.nodes| ==> list.nodes[i].prev == old(list.nodes[i].prev)
      requires nodes[|nodes| - 1].next == list.nodes[0] && list.nodes[0].prev == nodes[|nodes| - 1]
      ensures Chained(nodes + list.nodes) && Procs(nodes + list.nodes) == old(Procs(nodes)) + old(Procs(list.nodes))
    {
      var ns, ms := nodes, list.nodes;
      forall i | 0 <= i < |ns|
        ensures ns[i].prev == old(ns[i].prev)
      {
        assert ns[i].proc == old(ns[i].proc);
      }
      forall i | 0 <= i < |ms|
        ensures ms[i].next == old(ms[i].next)
      {
        assert ms[i].proc == old(ms[i].proc);
      }
    }

    method PushBack(x: T)
      requires Valid()
      modifies this, nodes
      ensures Valid() && Contents() == old(Contents()).PushBack(x)
      ensures forall n :: n in nodes ==> n in old(nodes) || fresh(n)
    {
      var node := new ListNode(x);
      if head != null {
        head.next := node;
        node.prev := head;
      }
      head := node;
      if actual == null {
        actual := node;
      }
      if first == null {
        first := node;
      }
      nodes := nodes + [node];
    }

    method PushFront(x: T)
      requires Valid()
      modifies this, nodes
      ensures Valid() && Contents() == old(Contents()).PushFront(x)
      ensures forall n :: n in nodes ==> n in old(nodes) || fresh(n)
    {
      var node := new ListNode(x);
      if first != null {
        node.next := first;
        first.prev := node;
      }
      if head == null {
        head := node;
      }
      first := node;
      cursor := if nodes == [] then 0 else cursor + 1;
      if actual == null {
        actual := node;
      }
      nodes := [node] + nodes;
    }

    /** Links a node between the one under the cursor and its predecessor. */
    method LinkBeforeActual(node: ListNode<T>)
      requires Valid() && cursor > 0 && node !in nodes
      modifies this`nodes, this`cursor, nodes, node
      ensures Valid() && Contents() == old(Contents()).InsertToActual(old(node.proc))
      ensures nodes == old(nodes)[..old(cursor)] + [node] + old(nodes)[old(cursor)..]
    {
      Neighbours(nodes, cursor);
      if actual.prev != null {
        actual.prev.next := node;
      }
      node.prev := actual.prev;
      node.next := actual;
      actual.prev := node;
      Included(node);
      hide Chained, Procs;
      nodes := nodes[..cursor] + [node] + nodes[cursor..];
      cursor := cursor + 1;
    }

    /** Lands just before the cursor. */
    method InsertToActual(x: T)
      requires Valid()
      modifies this, nodes
      ensures Valid() && Contents() == old(Contents()).InsertToActual(x)
      ensures forall n :: n in nodes ==> n in old(nodes) || fresh(n)
    {
      if actual == null || actual == first {
        PushFront(x);
      } else {
        var node := new ListNode(x);
        LinkBeforeActual(node);
      }
    }

    method GetActual() returns (r: Option<T>)
      requires Valid()
      ensures r == Contents().GetActual()
    {
      r := if actual == null then None else Some(actual.proc);
    }

    method Skip()
      requires Valid() && nodes != []
      modifies this`actual, this`cursor
      ensures Valid() && Contents() == old(Contents()).Skip()
    {
      if actual.next != null {
        actual := actual.next;
        cursor := cursor + 1;
      } else {
        actual := first;
        cursor := 0;
      }
    }

    method Restart()
      requires Valid()
      modifies this`actual, this`cursor
      ensures Valid() && Contents() == old(Contents()).Restart()
    {
      actual := first;
      cursor := 0;
    }

    /** Takes the node under the cursor out of the chain; its own links stay. */
    method ExcludeActual()
      requires Valid() && nodes != []
      modifies nodes
      ensures var rest := nodes[..cursor] + nodes[cursor + 1..];
        && Chained(rest) && Procs(rest) == old(Procs(nodes))[..cursor] + old(Procs(nodes))[cursor + 1..]
      ensures actual.next == (if cursor + 1 < |nodes| then nodes[cursor + 1] else null)
      ensures actual.prev == (if cursor > 0 then nodes[cursor - 1] else null)
      ensures (actual == first <==> cursor == 0) && (actual == head <==> cursor == |nodes| - 1)
    {
      Neighbours(nodes, cursor);
      actual.Exclude();
      Excluded();
      ProcsWithout();
    }

    /** The node under the cursor leaves and the cursor follows its links. */
    method PopActual()
      requires Valid()
      modifies this, nodes
      ensures Valid() && Contents() == old(Contents()).PopActual()
      ensures forall n :: n in nodes ==> n in old(nodes)
    {
      if actual == null {
        return;
      }
      hide Chained, Procs;
      ExcludeActual();
      MendEnds();
      StepOn();
    }

    /** The ends of the list when the node under the cursor is out of the chain. */
    method MendEnds()
      requires cursor < |nodes| && actual == nodes[cursor] && first == nodes[0] && head == nodes[|nodes| - 1]
      requires (actual == first <==> cursor == 0) && (actual == head <==> cursor == |nodes| - 1)
      requires actual.next == (if cursor + 1 < |nodes| then nodes[cursor + 1] else null)
      requires actual.prev == (if cursor > 0 then nodes[cursor - 1] else null)
      modifies this`first, this`head, this`nodes
      ensures nodes == old(nodes)[..cursor] + old(nodes)[cursor + 1..]
      ensures actual.next == if cursor < |nodes| then nodes[cursor] else null
      ensures if nodes == [] then first == null && head == null
              else first == nodes[0] && head == nodes[|nodes| - 1]
    {
      Without(nodes, cursor);
      if actual == first {
        first := actual.next;
      }
      if actual == head {
        head := actual.prev;
      }
      nodes := nodes[..cursor] + nodes[cursor + 1..];
    }

    /** skip(): the links of the node that has left still lead on. */
    method StepOn()
      requires actual != null && cursor <= |nodes|
      requires actual.next == if cursor < |nodes| then nodes[cursor] else null
      requires first == if nodes == [] then null else nodes[0]
      modifies this`actual, this`cursor
      ensures cursor == if old(cursor) < |nodes| then old(cursor) else 0
      ensures actual == if nodes == [] then null else nodes[cursor]
    {
      if actual.next != null {
        actual := actual.next;
      } else {
        actual := first;
        cursor := 0;
      }
    }

    /** Appends the other list and empties it; only an empty list takes over an empty one. */
    method Move(list: ProcessorList<T>)
      requires Valid() && list.Valid() && list != this
      requires forall i, j :: 0 <= i < |nodes| && 0 <= j < |list.nodes| ==> nodes[i] != list.nodes[j]
      requires list.nodes != [] || nodes == []
      modifies this, list, nodes, list.nodes
      ensures Valid() && list.Valid()
      ensures Contents() == old(Contents()).Move(old(list.Contents()))
      ensures list.Contents() == Empty()
      ensures nodes == old(nodes) + old(list.nodes)
    {
      var f := list.first;
      if first == null {
        first := f;
        head := list.head;
        actual := first;
      } else {
        head.next := f;
        f.prev := head;
        head := list.head;
        Joined(list);
        hide Chained, Procs;
      }
      nodes := nodes + list.nodes;
      list.first, list.head, list.actual := null, null, null;
      list.nodes, list.cursor := [], 0;
    }
  }
}
