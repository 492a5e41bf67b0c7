/** `deparseBuffer` as the code computes it: the range check adds 32-bit ints, so the walk can leave the buffer. */
module Walks {
  import opened Types
  import opened Wire
  import opened Contents

  datatype Walked = Loaded(items: seq<Bytes>) | Rejected | Strayed

  /** The length read at the head of `b`; near its end it takes bytes that lie behind the buffer. */
  function SizeAt(b: Bytes, behind: Bytes): int
    requires |behind| == 3 && b != []
  {
    FromInt32((b + behind)[..4])
  }

  /** The walk for `n` more items over `b`, what is left of the buffer from position `p` on. The range
      check adds ints, so its sum may have wrapped around. */
  function Walk(b: Bytes, behind: Bytes, n: nat, p: nat): (w: Walked)
    requires |behind| == 3
    ensures w.Loaded? ==> |w.items| == n
    decreases n
  {
    if b == [] || n == 0 then (if b == [] && n == 0 then Loaded([]) else Rejected)
    else
      var size := SizeAt(b, behind);
      if size < 0 || ToInt32(p + 4 + size) > p + |b| then Rejected
      else if 4 + size > |b| then Strayed
      else
        match Walk(b[4 + size..], behind, n - 1, p + 4 + size)
        case Loaded(rest) => Loaded([b[4..4 + size]] + rest)
        case other => other
  }

  /** The length announced at position `p` is not negative and no int holds the end of the item. */
  ghost predicate Overflows(b: Bytes, behind: Bytes, p: nat)
    requires |behind| == 3 && b != []
  {
    var size := SizeAt(b, behind);
    0 <= size && size > 0x7FFF_FFFF - 4 - p
  }

  /** These items, fewer than `n`, lie at the head of `b`, and the length behind them overflows. */
  ghost predicate StraysBehind(b: Bytes, behind: Bytes, n: nat, p: nat, items: seq<Bytes>)
    requires |behind| == 3
  {
    && |items| < n && Sized(items) && Encode(items) <= b
    && |Encode(items)| < |b| && Overflows(b[|Encode(items)|..], behind, p + |Encode(items)|)
  }

  ghost predicate Strays(b: Bytes, behind: Bytes, n: nat, p: nat)
    requires |behind| == 3
  {
    exists items: seq<Bytes> :: StraysBehind(b, behind, n, p, items)
  }

  /** An item lies at the head of `b`, all of it inside. */
  ghost predicate Fits(b: Bytes, behind: Bytes)
    requires |behind| == 3 && b != []
  {
    0 <= SizeAt(b, behind) && 4 + SizeAt(b, behind) <= |b|
  }

  /** In range the sum is exact; out of range it has wrapped and is too small to be refused. */
  lemma SumWraps(p: nat, size: nat, end: nat)
    requires p < end < INT_LIMIT && size < INT_LIMIT
    ensures p + 4 + size < INT_LIMIT ==> ToInt32(p + 4 + size) == p + 4 + size
    ensures p + 4 + size >= INT_LIMIT ==> ToInt32(p + 4 + size) <= end
  {
  }

  /** An item that fits is what its length says. */
  lemma ItemFits(b: Bytes, behind: Bytes)
    requires |behind| == 3 && b != [] && Fits(b, behind)
    ensures var size := SizeAt(b, behind);
      size == FromInt32(b[..4]) && b == Int32(size) + b[4..4 + size] + b[4 + size..]
  {
    var size := SizeAt(b, behind);
    assert (b + behind)[..4] == b[..4];
    FromInt32Round(b[..4]);
    hide FromInt32, Int32;
    Cut(b, 4, 4 + size);
  }

  /** Two encodings that begin with the same item go on behind it. */
  lemma SameHead(items: seq<Bytes>, s: Bytes, rest: Bytes)
    requires Sized(items) && items != [] && |s| < INT_LIMIT && Encode(items) <= Int32(|s|) + s + rest
    ensures Sized(items[1..]) && items[0] == s && Encode(items[1..]) <= rest
    ensures |Encode(items)| == 4 + |s| + |Encode(items[1..])|
    ensures (Int32(|s|) + s + rest)[|Encode(items)|..] == rest[|Encode(items[1..])|..]
  {
    var t := items[0];
    assert Encode(items) == Int32(|t|) + t + Encode(items[1..]);
    Int32Round(|s|);
    Int32Round(|t|);
    hide Int32, FromInt32, Encode;
    HeadsMatch(Int32(|t|), t, Encode(items[1..]), Int32(|s|), s, rest);
  }

  lemma HeadsMatch(h: Bytes, t: Bytes, more: Bytes, g: Bytes, s: Bytes, rest: Bytes)
    requires |h| == |g| == 4 && h + t + more <= g + s + rest
    ensures h == g
    ensures |t| == |s| ==> t == s && more <= rest && (g + s + rest)[|h + t + more|..] == rest[|more|..]
  {
    var (e, b) := (h + t + more, g + s + rest);
    assert e[..4] == h && b[..4] == g && e[..4] == b[..4];
    if |t| == |s| {
      assert e[4..4 + |s|] == t && b[4..4 + |s|] == s;
      assert e[4 + |s|..] == more && b[4 + |s|..] == rest;
    }
  }

  lemma HeadAnnounced(b: Bytes, behind: Bytes, items: seq<Bytes>)
    requires |behind| == 3 && b != [] && Sized(items) && items != [] && Encode(items) <= b
    ensures Fits(b, behind) && SizeAt(b, behind) == |items[0]|
  {
    var e := Encode(items);
    assert e[..4] == Int32(|items[0]|) && b[..4] == e[..4] && (b + behind)[..4] == b[..4];
    Int32Round(|items[0]|);
  }

  lemma StraysOn(b: Bytes, behind: Bytes, n: nat, p: nat, items: seq<Bytes>)
    requires p + |b| < INT_LIMIT && |behind| == 3 && b != [] && n > 0 && Fits(b, behind)
    requires StraysBehind(b, behind, n, p, items)
    ensures items != []
    ensures StraysBehind(b[4 + SizeAt(b, behind)..], behind, n - 1, p + 4 + SizeAt(b, behind), items[1..])
  {
    ItemFits(b, behind);
    assert items != [] by { assert Encode([]) == [] && b[0..] == b; }
    var size := SizeAt(b, behind);
    hide Int32, Overflows, SizeAt, FromInt32;
    SameHead(items, b[4..4 + size], b[4 + size..]);
  }

  lemma StraysBack(b: Bytes, behind: Bytes, n: nat, p: nat, rest: seq<Bytes>)
    requires |behind| == 3 && b != [] && n > 0 && Fits(b, behind) && |b| < INT_LIMIT
    requires StraysBehind(b[4 + SizeAt(b, behind)..], behind, n - 1, p + 4 + SizeAt(b, behind), rest)
    ensures StraysBehind(b, behind, n, p, [b[4..4 + SizeAt(b, behind)]] + rest)
  {
    ItemFits(b, behind);
    var size := SizeAt(b, behind);
    hide Int32, Overflows, SizeAt, FromInt32;
    JoinsHead(b[4..4 + size], rest, b[4 + size..]);
  }

  lemma JoinsHead(s: Bytes, rest: seq<Bytes>, tail: Bytes)
    requires |s| < INT_LIMIT && Sized(rest) && Encode(rest) <= tail
    ensures var b := Int32(|s|) + s + tail;
      && Sized([s] + rest) && Encode([s] + rest) <= b
      && |Encode([s] + rest)| == 4 + |s| + |Encode(rest)|
      && b[|Encode([s] + rest)|..] == tail[|Encode(rest)|..]
  {
    EncodeCons(s, rest);
    hide Int32, Encode;
    var e := Encode(rest);
    assert tail == e + tail[|e|..];
    Assoc(Int32(|s|) + s, e, tail[|e|..]);
  }

  lemma StrayBehind(b: Bytes, behind: Bytes, n: nat, p: nat)
    requires p + |b| < INT_LIMIT && |behind| == 3 && b != [] && n > 0 && Fits(b, behind)
    ensures Strays(b, behind, n, p) <==> Strays(b[4 + SizeAt(b, behind)..], behind, n - 1, p + 4 + SizeAt(b, behind))
  {
    hide StraysBehind;
    var size := SizeAt(b, behind);
    if Strays(b, behind, n, p) {
      var items :| StraysBehind(b, behind, n, p, items);
      StraysOn(b, behind, n, p, items);
    }
    if Strays(b[4 + size..], behind, n - 1, p + 4 + size) {
      var rest :| StraysBehind(b[4 + size..], behind, n - 1, p + 4 + size, rest);
      StraysBack(b, behind, n, p, rest);
    }
  }

  lemma OverflowStrays(b: Bytes, behind: Bytes, n: nat, p: nat)
    requires p + |b| < INT_LIMIT && |behind| == 3 && b != [] && n > 0 && Overflows(b, behind, p)
    ensures Walk(b, behind, n, p).Strayed? && Strays(b, behind, n, p) && Decode(b, n).None?
  {
    var size := SizeAt(b, behind);
    SumWraps(p, size, p + |b|);
    assert |b| >= 4 ==> (b + behind)[..4] == b[..4];
    assert Encode([]) == [] && b[0..] == b;
    assert StraysBehind(b, behind, n, p, []);
  }

  lemma NothingBefore(b: Bytes, behind: Bytes, n: nat, p: nat, items: seq<Bytes>)
    requires |behind| == 3 && b != [] && !Fits(b, behind) && !Overflows(b, behind, p)
    ensures !StraysBehind(b, behind, n, p, items)
  {
    assert b[0..] == b;
    hide Fits, Overflows;
    HeadIfAny(b, behind, items);
  }

  lemma HeadIfAny(b: Bytes, behind: Bytes, items: seq<Bytes>)
    requires |behind| == 3 && b != []
    ensures Sized(items) && Encode(items) <= b && items != [] ==> Fits(b, behind)
  {
    if Sized(items) && Encode(items) <= b && items != [] {
      HeadAnnounced(b, behind, items);
    }
  }

  /** No item lies at the head and its length does not overflow: the walk refuses. */
  lemma NoItemFits(b: Bytes, behind: Bytes, n: nat, p: nat)
    requires p + |b| < INT_LIMIT && |behind| == 3 && b != [] && n > 0
    requires !Fits(b, behind) && !Overflows(b, behind, p)
    ensures Walk(b, behind, n, p).Rejected? && !Strays(b, behind, n, p) && Decode(b, n).None?
  {
    var size := SizeAt(b, behind);
    if 0 <= size {
      SumWraps(p, size, p + |b|);
    }
    assert |b| >= 4 ==> (b + behind)[..4] == b[..4];
    hide StraysBehind, Fits, Overflows;
    forall items: seq<Bytes>
      ensures !StraysBehind(b, behind, n, p, items)
    {
      NothingBefore(b, behind, n, p, items);
    }
  }

  lemma DecodesOn(b: Bytes, behind: Bytes, n: nat)
    requires |behind| == 3 && b != [] && n > 0 && Fits(b, behind)
    ensures var size := SizeAt(b, behind);
      Decode(b, n) ==
        match Decode(b[4 + size..], n - 1) case None => None case Some(rest) => Some([b[4..4 + size]] + rest)
  {
    assert (b + behind)[..4] == b[..4];
  }

  lemma WalksOn(b: Bytes, behind: Bytes, n: nat, p: nat)
    requires p + |b| < INT_LIMIT && |behind| == 3 && b != [] && n > 0 && Fits(b, behind)
    ensures var size := SizeAt(b, behind);
      Walk(b, behind, n, p) ==
        match Walk(b[4 + size..], behind, n - 1, p + 4 + size)
        case Loaded(rest) => Loaded([b[4..4 + size]] + rest)
        case other => other
  {
    SumWraps(p, SizeAt(b, behind), p + |b|);
  }

  /** The walk leaves the buffer exactly when, behind fewer than n items that lie inside it, a length is
      announced that no int can add. */
  lemma {:induction false} StraysExactly(b: Bytes, behind: Bytes, n: nat, p: nat)
    requires p + |b| < INT_LIMIT && |behind| == 3
    ensures Walk(b, behind, n, p).Strayed? <==> Strays(b, behind, n, p)
    decreases n
  {
    if b != [] && n > 0 {
      if Fits(b, behind) {
        WalksOn(b, behind, n, p);
        StrayBehind(b, behind, n, p);
        hide Walk, Strays, SizeAt;
        StraysExactly(b[4 + SizeAt(b, behind)..], behind, n - 1, p + 4 + SizeAt(b, behind));
      } else if Overflows(b, behind, p) {
        OverflowStrays(b, behind, n, p);
      } else {
        NoItemFits(b, behind, n, p);
      }
    }
  }

  /** A walk that does not stray loads exactly the items the buffer is the encoding of, and refuses
      exactly when there are none; where it strays there are none. */
  lemma {:induction false} WalkDecodes(b: Bytes, behind: Bytes, n: nat, p: nat)
    requires p + |b| < INT_LIMIT && |behind| == 3
    ensures Strays(b, behind, n, p) ==> Decode(b, n).None?
    ensures !Strays(b, behind, n, p) ==>
      Walk(b, behind, n, p) == match Decode(b, n) case None => Rejected case Some(items) => Loaded(items)
    decreases n
  {
    if b == [] || n == 0 {
      StraysExactly(b, behind, n, p);
    } else if Fits(b, behind) {
      WalksOn(b, behind, n, p);
      DecodesOn(b, behind, n);
      StrayBehind(b, behind, n, p);
      hide Walk, Decode, Strays, SizeAt;
      WalkDecodes(b[4 + SizeAt(b, behind)..], behind, n - 1, p + 4 + SizeAt(b, behind));
    } else if Overflows(b, behind, p) {
      OverflowStrays(b, behind, n, p);
    } else {
      NoItemFits(b, behind, n, p);
    }
  }

  /** The walk over an encoding goes on behind its first item. */
  lemma EncodedHead(items: seq<Bytes>, behind: Bytes, n: nat, p: nat)
    requires Sized(items) && items != [] && n > 0 && p + |Encode(items)| < INT_LIMIT && |behind| == 3
    ensures Sized(items[1..]) && |Encode(items)| == 4 + |items[0]| + |Encode(items[1..])|
    ensures Walk(Encode(items[1..]), behind, n - 1, p + 4 + |items[0]|).Strayed? <==> Walk(Encode(items), behind, n, p).Strayed?
  {
    HeadAnnounced(Encode(items), behind, items);
    TakesHead(items[0], Encode(items[1..]));
    assert Encode(items)[4 + |items[0]|..] == Encode(items[1..]);
    hide Walk, SizeAt, Int32, FromInt32, Fits, Encode;
    WalksOn(Encode(items), behind, n, p);
  }

  lemma EncodedStops(items: seq<Bytes>, behind: Bytes, n: nat, p: nat)
    requires Sized(items) && |behind| == 3 && (items == [] || n == 0)
    ensures !Walk(Encode(items), behind, n, p).Strayed?
  {
    hide SizeAt;
  }

  lemma {:induction false} EncodedWalks(items: seq<Bytes>, behind: Bytes, n: nat, p: nat)
    requires Sized(items) && p + |Encode(items)| < INT_LIMIT && |behind| == 3
    ensures !Walk(Encode(items), behind, n, p).Strayed?
    decreases |items|
  {
    hide Walk, Encode, Sized;
    if items == [] || n == 0 {
      EncodedStops(items, behind, n, p);
    } else {
      EncodedHead(items, behind, n, p);
      EncodedWalks(items[1..], behind, n - 1, p + 4 + |items[0]|);
    }
  }

  /** What is laid out as a content never strays, for however many items and whatever lies behind it. */
  lemma EncodedStaysInside(items: seq<Bytes>, behind: Bytes, n: nat)
    requires Sized(items) && |Encode(items)| < INT_LIMIT && |behind| == 3
    ensures !Strays(Encode(items), behind, n, 0)
  {
    EncodedWalks(items, behind, n, 0);
    StraysExactly(Encode(items), behind, n, 0);
  }

  // ----- buffers on which the walk strays

  lemma FourBytes(b: Bytes)
    requires |b| == 4
    ensures var n0: int, n1: int, n2: int, n3: int := b[0], b[1], b[2], b[3];
      var u := n0 + 256 * n1 + 0x1_0000 * n2 + 0x100_0000 * n3;
      FromInt32(b) == if u < 0x8000_0000 then u else u - 0x1_0000_0000
  {
    WordIsLe(b, 0);
    assert b[0..4] == b;
  }

  const LARGEST: Bytes := [255, 255, 255, 127]

  /** The largest length on its own is no encoding of one item, and yet the walk takes the item, all of
      it from beyond the buffer. */
  lemma LargestLengthStrays(behind: Bytes)
    requires |behind| == 3
    ensures Walk(LARGEST, behind, 1, 0) == Strayed && Decode(LARGEST, 1) == None
  {
    assert (LARGEST + behind)[..4] == LARGEST;
    FourBytes(LARGEST);
    OverflowStrays(LARGEST, behind, 1, 0);
  }

  const TAIL: Bytes := [0, 0, 0, 0, 255]

  /** At the very end of the buffer the length is taken from behind it, and what lies there decides. */
  lemma TailStrays(behind: Bytes)
    requires |behind| == 3
    ensures Walk(TAIL, behind, 2, 0) == Strayed <==> behind == [255, 255, 127]
  {
    hide SizeAt, FromInt32, Walk, Fits, Strays, Decode, Overflows;
    TailHead(behind);
    WalksOn(TAIL, behind, 2, 0);
    LastByte(behind);
    var last: Bytes := [255];
    if Overflows(last, behind, 4) {
      OverflowStrays(last, behind, 1, 4);
    } else {
      NoItemFits(last, behind, 1, 4);
    }
  }

  lemma TailHead(behind: Bytes)
    requires |behind| == 3
    ensures SizeAt(TAIL, behind) == 0 && Fits(TAIL, behind) && TAIL[4..] == [255]
  {
    assert (TAIL + behind)[..4] == [0, 0, 0, 0];
    FourBytes([0, 0, 0, 0]);
  }

  lemma LastByte(behind: Bytes)
    requires |behind| == 3
    ensures !Fits([255], behind)
    ensures Overflows([255], behind, 4) <==> behind == [255, 255, 127]
  {
    var size := [255, behind[0], behind[1], behind[2]];
    assert ([255] + behind)[..4] == size;
    FourBytes(size);
    hide FromInt32;
    assert behind == [behind[0], behind[1], behind[2]];
  }
}
