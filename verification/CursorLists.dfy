/** A list with a cursor: the abstract value of DPN_ProcessorList. */
module CursorLists {
  import opened Types

  /** `actual` is the index of the node the cursor points at; 0 stands for null when the list is empty. */
  datatype CursorList<T> = CursorList(items: seq<T>, actual: nat) {

    ghost predicate Ok() {
      if items == [] then actual == 0 else actual < |items|
    }

    function GetActual(): Option<T>
      requires Ok()
    {
      if items == [] then None else Some(items[actual])
    }

    function PushBack(x: T): (r: CursorList<T>)
      requires Ok()
      ensures r.Ok()
    {
      CursorList(items + [x], actual)
    }

    /** Lands in front of every node; the cursor stays on its node. */
    function PushFront(x: T): (r: CursorList<T>)
      requires Ok()
      ensures r.Ok()
    {
      CursorList([x] + items, if items == [] then 0 else actual + 1)
    }

    /** Lands just before the cursor; the cursor stays on its node. */
    function InsertToActual(x: T): (r: CursorList<T>)
      requires Ok()
      ensures r.Ok()
    {
      CursorList(items[..actual] + [x] + items[actual..], if items == [] then 0 else actual + 1)
    }

    /** Drops the node under the cursor; the cursor moves to its successor or wraps to the front. */
    function PopActual(): (r: CursorList<T>)
      requires Ok()
      ensures r.Ok()
    {
      if items == [] then this else
      CursorList(items[..actual] + items[actual + 1..], if actual + 1 < |items| then actual else 0)
    }

    function Skip(): (r: CursorList<T>)
      requires Ok() && items != []
      ensures r.Ok()
    {
      CursorList(items, if actual + 1 < |items| then actual + 1 else 0)
    }

    function Restart(): (r: CursorList<T>)
      requires Ok()
      ensures r.Ok()
    {
      CursorList(items, 0)
    }

    function Move(other: CursorList<T>): (r: CursorList<T>)
      requires Ok() && other.Ok()
      ensures r.Ok()
    {
      CursorList(items + other.items, if items == [] then 0 else actual)
    }
  }

  function Empty<T>(): CursorList<T> {
    CursorList([], 0)
  }

  /** The elements in the order in which `getActual`/`popActual` hands them out. */
  function Drained<T>(l: CursorList<T>): seq<T>
    requires l.Ok()
    decreases |l.items|
  {
    if l.items == [] then [] else [l.items[l.actual]] + Drained(l.PopActual())
  }

  function Around<T>(s: seq<T>, c: nat): seq<T>
    requires c <= |s|
  {
    s[c..] + s[..c]
  }

  lemma AroundPop<T>(s: seq<T>, c: nat)
    requires c < |s|
    ensures var rest := s[..c] + s[c + 1..];
      Around(s, c) == [s[c]] + Around(rest, if c < |rest| then c else 0)
  {
    var rest := s[..c] + s[c + 1..];
    assert s[c..] == [s[c]] + s[c + 1..];
    if c < |rest| {
      assert rest[c..] == s[c + 1..] && rest[..c] == s[..c];
    }
  }

  /** Popping starts at the cursor, runs to the end and wraps to the front: nothing is lost or doubled. */
  lemma {:induction false} DrainWraps<T>(l: CursorList<T>)
    requires l.Ok()
    ensures Drained(l) == Around(l.items, l.actual)
    decreases |l.items|
  {
    if l.items != [] {
      AroundPop(l.items, l.actual);
      hide Around;
      DrainWraps(l.PopActual());
    }
  }

  /** What is inserted before the cursor comes out last, what is moved over comes out after the rest. */
  lemma InsertedIsLast<T>(l: CursorList<T>, x: T)
    requires l.Ok() && l.items != []
    ensures Drained(l.InsertToActual(x)) == Drained(l) + [x]
    ensures l.InsertToActual(x).GetActual() == l.GetActual()
  {
    hide Drained;
    DrainWraps(l);
    DrainWraps(l.InsertToActual(x));
    AroundInsert(l, x);
  }

  lemma AroundInsert<T>(l: CursorList<T>, x: T)
    requires l.Ok() && l.items != []
    ensures var m := l.InsertToActual(x);
      Around(m.items, m.actual) == Around(l.items, l.actual) + [x] && m.GetActual() == l.GetActual()
  {
    var m := l.InsertToActual(x);
    assert m.items[m.actual..] == l.items[l.actual..] && m.items[..m.actual] == l.items[..l.actual] + [x];
  }

  /** What is moved over comes out behind the last element and before the cursor wraps to the front. */
  lemma MovedComesAfter<T>(l: CursorList<T>, m: CursorList<T>)
    requires l.Ok() && m.Ok()
    ensures Drained(l.Move(m)) == l.items[l.actual..] + m.items + l.items[..l.actual]
  {
    hide Drained;
    DrainWraps(l.Move(m));
    AroundJoined(l.items, m.items, l.actual);
  }

  lemma AroundJoined<T>(s: seq<T>, t: seq<T>, c: nat)
    requires c <= |s|
    ensures Around(s + t, c) == s[c..] + t + s[..c]
  {
    assert (s + t)[c..] == s[c..] + t && (s + t)[..c] == s[..c];
  }

  /** An element pushed behind comes out before the cursor wraps; one pushed in front right after. */
  lemma PushedComesOut<T>(l: CursorList<T>, x: T)
    requires l.Ok() && l.items != []
    ensures Drained(l.PushBack(x)) == l.items[l.actual..] + [x] + l.items[..l.actual]
    ensures Drained(l.PushFront(x)) == l.items[l.actual..] + ([x] + l.items[..l.actual])
  {
    hide Drained;
    DrainWraps(l.PushBack(x));
    DrainWraps(l.PushFront(x));
    AroundJoined(l.items, [x], l.actual);
    assert ([x] + l.items)[l.actual + 1..] == l.items[l.actual..];
    assert ([x] + l.items)[..l.actual + 1] == [x] + l.items[..l.actual];
  }

  function Skipped<T>(l: CursorList<T>, n: nat): (r: CursorList<T>)
    requires l.Ok() && l.items != []
    ensures r.Ok() && r.items == l.items
  {
    if n == 0 then l else Skipped(l, n - 1).Skip()
  }

  /** Skipping goes round: it visits the elements from the cursor to the end, then those from the front,
      and as many skips as there are elements lead back. */
  lemma {:induction false} SkipsGoRound<T>(l: CursorList<T>, n: nat)
    requires l.Ok() && l.items != [] && n <= |l.items|
    ensures n < |l.items| ==> Skipped(l, n).GetActual() == Some(Around(l.items, l.actual)[n])
    ensures Skipped(l, n).actual == if l.actual + n < |l.items| then l.actual + n else l.actual + n - |l.items|
    ensures n == |l.items| ==> Skipped(l, n) == l
  {
    if n > 0 {
      SkipsGoRound(l, n - 1);
    }
  }

  /** Restarting hands the elements out from the front; an element that comes to an empty list is the one
      under the cursor. */
  lemma RestartedDrains<T>(l: CursorList<T>, x: T)
    requires l.Ok()
    ensures Drained(l.Restart()) == l.items
    ensures l.items == [] ==>
      && Drained(l.PushBack(x)) == Drained(l.PushFront(x)) == Drained(l.InsertToActual(x)) == [x]
      && l.PushBack(x).GetActual() == l.PushFront(x).GetActual() == l.InsertToActual(x).GetActual() == Some(x)
  {
    hide Drained;
    DrainWraps(l.Restart());
    DrainWraps(l.PushBack(x));
    DrainWraps(l.PushFront(x));
    DrainWraps(l.InsertToActual(x));
  }
}
