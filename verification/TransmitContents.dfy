/** __transmit_content: the items of a content, laid out in and loaded from a buffer in place. */
module TransmitContents {
  import opened Types
  import opened Wire
  import opened Contents
  import opened Walks

  /** What deparsing ends with. The third is no answer of the code: it has loaded from beyond the buffer. */
  datatype Outcome = Accepted | Refused | OutOfBuffer

  lemma Regroup(a: Bytes, b: Bytes, c: Bytes, d: Bytes)
    ensures a + b + c + d == a + (b + c + d)
  {
  }

  class TransmitContent {
    var items: seq<Bytes>   // the buffers of the registered units
    var buffer: Bytes
    var parseTotalSize: bool

    constructor ()
      ensures items == [] && buffer == [] && parseTotalSize
    {
      items, buffer, parseTotalSize := [], [], true;
    }

    method RegisterItem(s: Bytes)
      modifies this`items
      ensures items == old(items) + [s]
    {
      items := items + [s];
    }

    method ClearItems()
      modifies this`items
      ensures |items| == |old(items)| && forall i :: 0 <= i < |items| ==> items[i] == []
    {
      for i := 0 to |items|
        invariant |items| == |old(items)| && forall j :: 0 <= j < i ==> items[j] == []
      {
        items := items[i := []];
      }
    }

    /** Appends every item behind its length; answers the number of bytes appended. */
    method AppendItems() returns (size: int)
      requires Sized(items)
      modifies this`buffer
      ensures buffer == old(buffer) + Encode(items) && size == |Encode(items)|
    {
      ghost var body := [];
      size := 0;
      for i := 0 to |items|
        invariant body == Encode(items[..i]) && buffer == old(buffer) + body && size == |body|
      {
        var lb := items[i];
        EncodeNext(items, i);
        hide Encode, Int32;
        ghost var len := Int32(|lb|);
        buffer := buffer + Int32(|lb|);
        size := size + 4;
        buffer := buffer + lb;
        if |lb| > 0 {
          size := size + |lb|;
        }
        Regroup(old(buffer), body, len, lb);
        body := body + len + lb;
      }
      assert items[..|items|] == items;
    }

    /** Lays the items out, behind the total size when that is asked for. */
    method ParseBuffers()
      requires Sized(items) && |Encode(items)| < INT_LIMIT
      modifies this`buffer
      ensures buffer == (if parseTotalSize then Int32(|Encode(items)|) else []) + Encode(items)
    {
      hide Encode, Int32;
      buffer := [];
      if parseTotalSize {
        buffer := Int32(0);
      }
      ghost var head := buffer;
      var size := AppendItems();
      if parseTotalSize {
        assert |head| == 4 && buffer[4..] == Encode(items);
        buffer := Int32(size) + buffer[4..];
      }
    }

    /** Loads the items from `eb`; `behind` is what lies behind it in memory. After a stray the content
        holds what the walk has loaded from inside the buffer. */
    method DeparseBuffer(eb: Bytes, behind: Bytes) returns (o: Outcome)
      requires |eb| < INT_LIMIT && |behind| == 3
      modifies this`items
      ensures |items| == |old(items)|
      ensures eb == [] ==> o == Accepted && items == old(items)
      ensures eb != [] && (|eb| < 4 || old(items) == []) ==> o == Refused && items == old(items)
      ensures |eb| >= 4 && old(items) != [] ==> (o == OutOfBuffer <==> Strays(eb, behind, |old(items)|, 0))
      ensures |eb| >= 4 && old(items) != [] && o != OutOfBuffer ==>
        match Decode(eb, |old(items)|)
        case Some(loaded) => o == Accepted && items == loaded
        case None => o == Refused && forall i :: 0 <= i < |items| ==> items[i] == []
    {
      if |eb| == 0 {
        return Accepted;
      }
      if |eb| < 4 {
        return Refused;
      }
      if |items| == 0 {
        return Refused;
      }
      var p, i := 0, 0;
      ghost var n := |items|;
      StraysExactly(eb, behind, n, 0);
      WalkDecodes(eb, behind, n, 0);
      StepsStart(eb, behind, n, items);
      hide Strays, Decode;
      while p < |eb| && i < |items|
        invariant |items| == n && 0 <= p <= |eb| && 0 <= i <= n
        invariant Stepped(eb, behind, n, p, i, items)
        decreases n - i
      {
        var itemSize := FromInt32((eb + behind)[p..p + 4]);
        StepsOn(eb, behind, n, p, i, items);
        hide Stepped, Walk, FromInt32;
        if itemSize < 0 || ToInt32(p + 4 + itemSize) > |eb| {
          ClearItems();
          return Refused;
        }
        if p + 4 + itemSize > |eb| {
          return OutOfBuffer;
        }
        p := p + 4;
        items := items[i := eb[p..p + itemSize]];
        p := p + itemSize;
        i := i + 1;
      }
      StepsEnd(eb, behind, n, p, i, items);
      if p != |eb| || i != |items| {
        ClearItems();
        return Refused;
      }
      return Accepted;
    }
  }

  /** After `i` items the walk stands at `p`: what is left decides, and the items before are loaded. */
  ghost predicate Stepped(eb: Bytes, behind: Bytes, n: nat, p: nat, i: nat, items: seq<Bytes>)
    requires |behind| == 3 && p <= |eb| && i <= n == |items|
  {
    Walk(eb, behind, n, 0) ==
      match Walk(eb[p..], behind, n - i, p)
      case Loaded(rest) => Loaded(items[..i] + rest)
      case other => other
  }

  lemma StepsStart(eb: Bytes, behind: Bytes, n: nat, items: seq<Bytes>)
    requires |behind| == 3 && n == |items|
    ensures Stepped(eb, behind, n, 0, 0, items)
  {
    assert eb[0..] == eb;
    match Walk(eb, behind, n, 0)
    case Loaded(rest) => assert items[..0] + rest == rest;
    case other =>
  }

  lemma SizeBehind(eb: Bytes, behind: Bytes, p: nat)
    requires |behind| == 3 && p < |eb|
    ensures (eb[p..] + behind)[..4] == (eb + behind)[p..p + 4]
    ensures SizeAt(eb[p..], behind) == FromInt32((eb + behind)[p..p + 4])
  {
  }

  lemma StepsOn(eb: Bytes, behind: Bytes, n: nat, p: nat, i: nat, items: seq<Bytes>)
    requires |behind| == 3 && p < |eb| && i < n == |items| && Stepped(eb, behind, n, p, i, items)
    ensures var size := FromInt32((eb + behind)[p..p + 4]);
      if size < 0 || ToInt32(p + 4 + size) > |eb| then Walk(eb, behind, n, 0).Rejected?
      else if p + 4 + size > |eb| then Walk(eb, behind, n, 0).Strayed?
      else Stepped(eb, behind, n, p + 4 + size, i + 1, items[i := eb[p + 4..p + 4 + size]])
  {
    SizeBehind(eb, behind, p);
    var b, size := eb[p..], SizeAt(eb[p..], behind);
    hide SizeAt, ToInt32, FromInt32;
    if 0 <= size && p + 4 + size <= |eb| {
      assert b[4..4 + size] == eb[p + 4..p + 4 + size] && b[4 + size..] == eb[p + 4 + size..];
      var s := eb[p + 4..p + 4 + size];
      assert items[i := s][..i + 1] == items[..i] + [s];
      match Walk(b[4 + size..], behind, n - i - 1, p + 4 + size)
      case Loaded(rest) => Assoc(items[..i], [s], rest);
      case other =>
    }
  }

  lemma StepsEnd(eb: Bytes, behind: Bytes, n: nat, p: nat, i: nat, items: seq<Bytes>)
    requires |behind| == 3 && p <= |eb| && i <= n == |items| && Stepped(eb, behind, n, p, i, items)
    requires p == |eb| || i == n
    ensures Walk(eb, behind, n, 0) == if p == |eb| && i == n then Loaded(items) else Rejected
  {
    assert i == n ==> items[..i] == items && items + [] == items;
  }
}
