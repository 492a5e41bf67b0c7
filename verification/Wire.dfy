/** Little-endian fixed-width numbers, as `appendValue` writes them on the platforms the program targets. */
module Wire {
  import opened Types

  function Pow256(n: nat): (r: nat)
    ensures r > 0
  {
    if n == 0 then 1 else 256 * Pow256(n - 1)
  }

  /** The `w` bytes of `v`, least significant first. */
  function Le(v: nat, w: nat): (b: Bytes)
    requires v < Pow256(w)
    ensures |b| == w
    decreases w
  {
    if w == 0 then [] else [v % 256] + Le(v / 256, w - 1)
  }

  function FromLe(b: Bytes): (v: nat)
    ensures v < Pow256(|b|)
    decreases |b|
  {
    if b == [] then 0 else b[0] + 256 * FromLe(b[1..])
  }

  lemma {:induction false} LeRound(v: nat, w: nat)
    requires v < Pow256(w)
    ensures FromLe(Le(v, w)) == v
    decreases w
  {
    if w > 0 {
      LeRound(v / 256, w - 1);
      assert Le(v, w)[1..] == Le(v / 256, w - 1);
    }
  }

  lemma {:induction false} FromLeRound(b: Bytes)
    ensures Le(FromLe(b), |b|) == b
    decreases |b|
  {
    if b != [] {
      FromLeRound(b[1..]);
      var rest := FromLe(b[1..]);
      assert (b[0] + 256 * rest) % 256 == b[0] && (b[0] + 256 * rest) / 256 == rest;
    }
  }

  lemma Widths()
    ensures Pow256(1) == 0x100 && Pow256(4) == 0x1_0000_0000 && Pow256(8) == 0x1_0000_0000_0000_0000
  {
    assert Pow256(2) == 0x1_0000;
    assert Pow256(3) == 0x100_0000;
    assert Pow256(5) == 0x100_0000_0000;
    assert Pow256(6) == 0x1_0000_0000_0000;
    assert Pow256(7) == 0x100_0000_0000_0000;
  }

  /** A 32-bit int, two's complement. */
  function Int32(v: int): (b: Bytes)
    requires -0x8000_0000 <= v < 0x8000_0000
    ensures |b| == 4
  {
    Widths();
    Le(if v < 0 then v + 0x1_0000_0000 else v, 4)
  }

  function FromInt32(b: Bytes): (v: int)
    requires |b| == 4
    ensures -0x8000_0000 <= v < 0x8000_0000
  {
    Widths();
    var u := FromLe(b);
    if u < 0x8000_0000 then u else u - 0x1_0000_0000
  }

  lemma Int32Round(v: int)
    requires -0x8000_0000 <= v < 0x8000_0000
    ensures FromInt32(Int32(v)) == v
  {
    Widths();
    LeRound(if v < 0 then v + 0x1_0000_0000 else v, 4);
  }

  lemma FromInt32Round(b: Bytes)
    requires |b| == 4
    ensures Int32(FromInt32(b)) == b
  {
    Widths();
    FromLeRound(b);
  }

  // ----- the bytes themselves

  /** The number four bytes from `o` on stand for, least significant first. */
  function WordAt(b: Bytes, o: nat): (v: int)
    requires o + 4 <= |b|
    ensures 0 <= v < 0x1_0000_0000
  {
    var n0: int, n1: int, n2: int, n3: int := b[o], b[o + 1], b[o + 2], b[o + 3];
    n0 + 256 * n1 + 0x1_0000 * n2 + 0x100_0000 * n3
  }

  lemma WordIsLe(b: Bytes, o: nat)
    requires o + 4 <= |b|
    ensures FromLe(b[o..o + 4]) == WordAt(b, o)
    ensures FromInt32(b[o..o + 4]) == ToInt32(WordAt(b, o))
  {
    var b0 := b[o..o + 4];
    var b1 := b0[1..];
    var b2 := b1[1..];
    var b3 := b2[1..];
    assert b0[0] == b[o] && b1[0] == b[o + 1] && b2[0] == b[o + 2] && b3[0] == b[o + 3] && b3[1..] == [];
    assert FromLe(b3) == b3[0];
    assert FromLe(b2) == b2[0] + 256 * FromLe(b3);
    assert FromLe(b1) == b1[0] + 256 * FromLe(b2);
    assert FromLe(b0) == b0[0] + 256 * FromLe(b1);
  }

  /** The four bytes of an int, one by one. */
  lemma IntBytes(v: int)
    requires -0x8000_0000 <= v < 0x8000_0000
    ensures ToInt32(WordAt(Int32(v), 0)) == v && (0 <= v ==> WordAt(Int32(v), 0) == v)
  {
    Int32Round(v);
    WordIsLe(Int32(v), 0);
    assert Int32(v)[0..4] == Int32(v);
  }

  /** The same bytes at another place. */
  lemma SameWord(a: Bytes, i: nat, b: Bytes, j: nat)
    requires i + 4 <= |a| && j + 4 <= |b| && a[i..i + 4] == b[j..j + 4]
    ensures WordAt(a, i) == WordAt(b, j)
  {
    WordIsLe(a, i);
    WordIsLe(b, j);
  }

  /** Eight bytes: the low word first. */
  lemma {:induction false} LeSplits(b: Bytes, i: nat)
    requires i <= |b|
    ensures FromLe(b) == FromLe(b[..i]) + Pow256(i) * FromLe(b[i..])
    decreases i
  {
    if i == 0 {
      assert b[..0] == [] && b[0..] == b;
    } else {
      LeSplits(b[1..], i - 1);
      assert b[1..][..i - 1] == b[..i][1..] && b[1..][i - 1..] == b[i..];
      var low, high := FromLe(b[..i][1..]), FromLe(b[i..]);
      assert FromLe(b[..i]) == b[0] + 256 * low;
      assert 256 * (low + Pow256(i - 1) * high) == 256 * low + Pow256(i) * high by { Scale(Pow256(i - 1), low, high); }
    }
  }

  lemma Scale(p: nat, low: nat, high: nat)
    ensures 256 * (low + p * high) == 256 * low + (256 * p) * high
  {
  }

  lemma LongIsTwoWords(b: Bytes, o: nat)
    requires o + 8 <= |b|
    ensures FromLe(b[o..o + 8]) == WordAt(b, o) + 0x1_0000_0000 * WordAt(b, o + 4)
  {
    Widths();
    LeSplits(b[o..o + 8], 4);
    assert b[o..o + 8][..4] == b[o..o + 4] && b[o..o + 8][4..] == b[o + 4..o + 4 + 4];
    WordIsLe(b, o);
    WordIsLe(b, o + 4);
  }
}
