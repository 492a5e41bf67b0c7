/** The content codec: n byte strings, each behind its length. */
module Contents {
  import opened Types
  import opened Wire

  const INT_LIMIT := 0x8000_0000

  ghost predicate Sized(items: seq<Bytes>) {
    forall i :: 0 <= i < |items| ==> |items[i]| < INT_LIMIT
  }

  /** The prefix-less encoding: every item behind its 4-byte length. */
  function Encode(items: seq<Bytes>): Bytes
    requires Sized(items)
  {
    if items == [] then [] else Int32(|items[0]|) + items[0] + Encode(items[1..])
  }

  /** Takes exactly `n` items off `b`. */
  function Decode(b: Bytes, n: nat): Option<seq<Bytes>>
    decreases n
  {
    if n == 0 then (if b == [] then Some([]) else None)
    else if |b| < 4 then None
    else
      var size := FromInt32(b[..4]);
      if size < 0 || 4 + size > |b| then None
      else
        match Decode(b[4 + size..], n - 1)
        case None => None
        case Some(rest) => Some([b[4..4 + size]] + rest)
  }

  /** What the walk reads at the head of an encoding. */
  lemma TakesHead(s: Bytes, rest: Bytes)
    requires |s| < INT_LIMIT
    ensures var b := Int32(|s|) + s + rest;
      4 + |s| <= |b| && FromInt32(b[..4]) == |s| && b[4..4 + |s|] == s && b[4 + |s|..] == rest
  {
    Int32Round(|s|);
    var b := Int32(|s|) + s + rest;
    assert b[..4] == Int32(|s|);
  }

  lemma TakesOne(s: Bytes, rest: Bytes, n: nat)
    requires |s| < INT_LIMIT && n > 0
    ensures Decode(Int32(|s|) + s + rest, n) ==
      match Decode(rest, n - 1) case None => None case Some(items) => Some([s] + items)
  {
    TakesHead(s, rest);
  }

  lemma {:induction false} DecodeEncode(items: seq<Bytes>)
    requires Sized(items)
    ensures Decode(Encode(items), |items|) == Some(items)
    decreases |items|
  {
    if items != [] {
      TakesOne(items[0], Encode(items[1..]), |items|);
      hide Decode, Int32;
      DecodeEncode(items[1..]);
      assert [items[0]] + items[1..] == items;
    }
  }

  /** A buffer tells its number of items: contents of different sizes never accept one another's. */
  lemma {:induction false} CountIsFixed(items: seq<Bytes>, n: nat)
    requires Sized(items)
    ensures Decode(Encode(items), n).Some? <==> n == |items|
    decreases |items|
  {
    if items != [] && n > 0 {
      TakesOne(items[0], Encode(items[1..]), n);
      hide Decode, Int32;
      CountIsFixed(items[1..], n - 1);
    }
  }

  lemma EncodeCons(s: Bytes, rest: seq<Bytes>)
    requires Sized(rest) && |s| < INT_LIMIT
    ensures Sized([s] + rest) && Encode([s] + rest) == Int32(|s|) + s + Encode(rest)
  {
    assert ([s] + rest)[1..] == rest;
  }

  lemma Cut(b: Bytes, i: nat, j: nat)
    requires i <= j <= |b|
    ensures b == b[..i] + b[i..j] + b[j..]
  {
  }

  lemma {:induction false} EncodeDecode(b: Bytes, n: nat)
    ensures Decode(b, n).Some? ==>
      var items := Decode(b, n).value; |items| == n && Sized(items) && Encode(items) == b
    decreases n
  {
    if Decode(b, n).Some? && n > 0 {
      var size := FromInt32(b[..4]);
      var tail := b[4 + size..];
      EncodeDecode(tail, n - 1);
      EncodeCons(b[4..4 + size], Decode(tail, n - 1).value);
      FromInt32Round(b[..4]);
      assert b == b[..4] + b[4..4 + size] + tail by { Cut(b, 4, 4 + size); }
    }
  }

  /** A buffer decodes exactly when it is the encoding of n byte strings, and then to those strings only. */
  lemma DecodesExactly(b: Bytes, items: seq<Bytes>)
    ensures Decode(b, |items|) == Some(items) <==> Sized(items) && Encode(items) == b
  {
    EncodeDecode(b, |items|);
    if Sized(items) {
      DecodeEncode(items);
    }
  }

  lemma {:induction false} EncodeAppend(items: seq<Bytes>, s: Bytes)
    requires Sized(items) && |s| < INT_LIMIT
    ensures Encode(items + [s]) == Encode(items) + Int32(|s|) + s
    decreases |items|
  {
    if items == [] {
      assert [] + [s] == [s];
    } else {
      assert (items + [s])[1..] == items[1..] + [s];
      EncodeAppend(items[1..], s);
    }
  }

  lemma EncodeNext(items: seq<Bytes>, i: nat)
    requires Sized(items) && i < |items|
    ensures Encode(items[..i + 1]) == Encode(items[..i]) + Int32(|items[i]|) + items[i]
    ensures |Encode(items[..i + 1])| == |Encode(items[..i])| + 4 + |items[i]|
  {
    EncodeAppend(items[..i], items[i]);
    assert items[..i] + [items[i]] == items[..i + 1];
  }
}
