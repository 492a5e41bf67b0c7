/** The array unit of a content: bulk assignment, element-by-element `add`, and reading back. */
module ArrayUnits {
  import opened Types
  import opened Wire
  import opened Mediators

  /** `++` on a little-endian number in place: carries ripple through the bytes. */
  function Increment(b: Bytes): (r: Bytes)
    ensures |r| == |b|
  {
    if b == [] then [] else
    if b[0] < 255 then [b[0] + 1] + b[1..] else [0] + Increment(b[1..])
  }

  lemma {:induction false} IncrementAdds(b: Bytes)
    requires FromLe(b) + 1 < Pow256(|b|)
    ensures FromLe(Increment(b)) == FromLe(b) + 1
    decreases |b|
  {
    if b != [] {
      var r := Increment(b);
      if b[0] < 255 {
        assert r[1..] == b[1..];
      } else {
        assert r[1..] == Increment(b[1..]);
        IncrementAdds(b[1..]);
      }
    }
  }

  /** Below the largest int, incrementing the four bytes of a count gives the four bytes of the next. */
  lemma IncrementCount(n: Int)
    requires 0 <= n < 0x7FFF_FFFF
    ensures Increment(Int32(n)) == Int32(n + 1)
  {
    Widths();
    LeRound(n, 4);
    IncrementAdds(Int32(n));
    FromLeRound(Increment(Int32(n)));
  }

  /** The buffer after one `add`. */
  function Added<T>(b: Bytes, v: T, save: T -> Bytes): Bytes
    requires b == [] || |b| >= 4
  {
    (if b == [] then Int32(1) else Increment(b[..4]) + b[4..]) + save(v)
  }

  /** The buffer after adding the elements of `a` one by one to an empty unit. */
  function AddedAll<T>(a: seq<T>, save: T -> Bytes): (b: Bytes)
    ensures b == [] || |b| >= 4
    decreases |a|
  {
    if a == [] then [] else Added(AddedAll(a[..|a| - 1], save), a[|a| - 1], save)
  }

  lemma AddedNext<T>(a: seq<T>, v: T, save: T -> Bytes)
    ensures AddedAll(a + [v], save) == Added(AddedAll(a, save), v, save)
  {
    assert (a + [v])[..|a|] == a;
  }

  /** Adding one by one gives, for at least one element, exactly the bytes of bulk assignment. */
  lemma {:induction false} AddedIsSaved<T>(a: Array<T>, save: T -> Bytes)
    requires a != []
    ensures AddedAll(a, save) == SaveArray(a, save)
    decreases |a|
  {
    var n := |a| - 1;
    var front, v := a[..n], a[n];
    ItemsAppend(front, v, save);
    assert front + [v] == a;
    if front != [] {
      AddedIsSaved(front, save);
      var b := AddedAll(front, save);
      assert b[..4] == Int32(n) && b[4..] == SaveItems(front, save);
      IncrementCount(n);
    }
  }

  /** For no element at all the bytes differ, and both read back as the empty array. */
  lemma AddedExactly<T>(a: Array<T>, save: T -> Bytes)
    ensures AddedAll(a, save) == SaveArray(a, save) <==> a != []
  {
    if a != [] {
      AddedIsSaved(a, save);
    }
  }

  /** UNIT_X.get(): an empty buffer is the empty array. */
  function Get<T>(b: Bytes, upload: (Bytes, nat) -> Upload<T>): Upload<Array<T>> {
    if b == [] then Read([], 0) else UploadArray(b, 0, upload)
  }

  lemma BothReadBack<T(!new)>(a: Array<T>, save: T -> Bytes, upload: (Bytes, nat) -> Upload<T>)
    requires ReadsBack(save, upload)
    ensures Get(AddedAll(a, save), upload).Read? && Get(AddedAll(a, save), upload).value == a
    ensures Get(SaveArray(a, save), upload).Read? && Get(SaveArray(a, save), upload).value == a
  {
    AddedExactly(a, save);
    var s := SaveArray(a, save);
    assert s[0..0 + |s|] == s;
    ArrayRound(a, save, upload, s, 0);
  }

  class ArrayUnit<T(!new)> {
    const save: T -> Bytes
    const upload: (Bytes, nat) -> Upload<T>
    var buffer: Bytes

    constructor (save: T -> Bytes, upload: (Bytes, nat) -> Upload<T>)
      ensures this.save == save && this.upload == upload && buffer == []
    {
      this.save, this.upload, buffer := save, upload, [];
    }

    method Add(v: T)
      requires buffer == [] || |buffer| >= 4
      modifies this`buffer
      ensures buffer == Added(old(buffer), v, save)
      ensures forall a: seq<T> :: old(buffer) == AddedAll(a, save) ==> buffer == AddedAll(a + [v], save)
    {
      ghost var was := buffer;
      if buffer == [] {
        buffer := Int32(1);
      } else {
        buffer := Increment(buffer[..4]) + buffer[4..];
      }
      buffer := buffer + save(v);
      forall a: seq<T> | was == AddedAll(a, save)
        ensures buffer == AddedAll(a + [v], save)
      {
        AddedNext(a, v, save);
      }
    }

    method Assign(a: Array<T>)
      modifies this`buffer
      ensures buffer == SaveArray(a, save)
    {
      buffer := Int32(|a|);
      for i := 0 to |a|
        invariant buffer == Int32(|a|) + SaveItems(a[..i], save)
      {
        ItemsAppend(a[..i], a[i], save);
        assert a[..i] + [a[i]] == a[..i + 1];
        Assoc(Int32(|a|), SaveItems(a[..i], save), save(a[i]));
        buffer := buffer + save(a[i]);
      }
      assert a[..|a|] == a;
    }

    /** Reads the array back, element after element; `ok` is false when a read leaves the buffer. */
    method Read() returns (ok: bool, a: seq<T>)
      ensures ok <==> Get(buffer, upload).Read?
      ensures ok ==> a == Get(buffer, upload).value
    {
      a := [];
      if buffer == [] {
        return true, a;
      }
      if |buffer| < 4 {
        return false, a;
      }
      var size, p := FromInt32(buffer[0..4]), 4;
      var i := 0;
      ghost var whole := if size > 0 then UploadItems(buffer, 4, size, upload) else Mediators.Read([], 4);
      PrefixedNone(whole);
      while i < size
        invariant 0 <= i && (size > 0 ==> i <= size)
        invariant size > 0 ==> whole == Prefixed(a, UploadItems(buffer, p, size - i, upload))
        invariant size <= 0 ==> a == []
        decreases size - i
      {
        var u := upload(buffer, p);
        if u.Beyond? {
          return false, a;
        }
        PrefixedStep(a, u.value, UploadItems(buffer, u.pos, size - i - 1, upload));
        a := a + [u.value];
        p := u.pos;
        i := i + 1;
      }
      ok := true;
    }
  }
}
