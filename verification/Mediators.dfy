/** The typed mediators: how values are laid out in a unit's buffer and read back by position. */
module Mediators {
  import opened Types
  import opened Wire

  // ----- the value types

  type Int = x: int | -0x8000_0000 <= x < 0x8000_0000
  type Size = x: int | 0 <= x < 0x1_0000_0000_0000_0000
  type Text = s: Bytes | |s| < 0x8000_0000
  type Array<T> = s: seq<T> | |s| < 0x8000_0000 witness []

  datatype PeerAddress = PeerAddress(port: Int, address: Text)
  datatype Block = Block(start: Size, size: Size, flags: byte, hash: Text)
  datatype FileMetadata = FileMetadata(fileMap: Array<Block>, key: Int, size: Size, name: Text,
                                       strictable: bool, verified: bool)

  /** A value read and the position behind it; `Beyond` when the read leaves the buffer. */
  datatype Upload<+T> = Read(value: T, pos: nat) | Beyond

  /** `b` holds `s` at position `p`. */
  ghost predicate At(b: Bytes, p: nat, s: Bytes) {
    p + |s| <= |b| && b[p..p + |s|] == s
  }

  lemma AtSplit(b: Bytes, p: nat, s: Bytes, t: Bytes)
    requires At(b, p, s + t)
    ensures At(b, p, s) && At(b, p + |s|, t)
  {
    assert (s + t)[..|s|] == s && (s + t)[|s|..] == t;
    assert b[p..p + |s|] == b[p..p + |s + t|][..|s|];
    assert b[p + |s|..p + |s + t|] == b[p..p + |s + t|][|s|..];
  }

  // ----- scalars

  function SaveInt(v: Int): Bytes { Int32(v) }

  function UploadInt(b: Bytes, p: nat): Upload<Int> {
    if p + 4 <= |b| then Read(FromInt32(b[p..p + 4]), p + 4) else Beyond
  }

  function SaveSize(v: Size): Bytes { Widths(); Le(v, 8) }

  function UploadSize(b: Bytes, p: nat): Upload<Size> {
    if p + 8 <= |b| then (Widths(); Read(FromLe(b[p..p + 8]), p + 8)) else Beyond
  }

  function SaveByte(v: byte): Bytes { [v] }

  function UploadByte(b: Bytes, p: nat): Upload<byte> {
    if p < |b| then Read(b[p], p + 1) else Beyond
  }

  function SaveBool(v: bool): Bytes { [if v then 1 else 0] }

  function UploadBool(b: Bytes, p: nat): Upload<bool> {
    if p < |b| then Read(b[p] != 0, p + 1) else Beyond
  }

  /** A string goes behind its length; a negative length is a read no string can satisfy. */
  function SaveText(s: Text): Bytes { Int32(|s|) + s }

  function UploadText(b: Bytes, p: nat): Upload<Text> {
    match UploadInt(b, p)
    case Beyond => Beyond
    case Read(n, q) => if 0 <= n && q + n <= |b| then Read(b[q..q + n], q + n) else Beyond
  }

  lemma IntRound(v: Int, b: Bytes, p: nat)
    requires At(b, p, SaveInt(v))
    ensures UploadInt(b, p) == Read(v, p + |SaveInt(v)|)
  {
    Int32Round(v);
  }

  lemma SizeRound(v: Size, b: Bytes, p: nat)
    requires At(b, p, SaveSize(v))
    ensures UploadSize(b, p) == Read(v, p + |SaveSize(v)|)
  {
    Widths();
    LeRound(v, 8);
  }

  lemma ByteRound(v: byte, b: Bytes, p: nat)
    requires At(b, p, SaveByte(v))
    ensures UploadByte(b, p) == Read(v, p + 1)
  {
    assert b[p] == b[p..p + 1][0];
  }

  lemma BoolRound(v: bool, b: Bytes, p: nat)
    requires At(b, p, SaveBool(v))
    ensures UploadBool(b, p) == Read(v, p + 1)
  {
    assert b[p] == b[p..p + 1][0];
  }

  lemma TextRound(s: Text, b: Bytes, p: nat)
    requires At(b, p, SaveText(s))
    ensures UploadText(b, p) == Read(s, p + |SaveText(s)|)
  {
    AtSplit(b, p, Int32(|s|), s);
    IntRound(|s|, b, p);
  }

  // ----- arrays of elements with a mediator of their own

  function SaveItems<T>(a: seq<T>, save: T -> Bytes): Bytes {
    if a == [] then [] else save(a[0]) + SaveItems(a[1..], save)
  }

  function SaveArray<T>(a: Array<T>, save: T -> Bytes): Bytes {
    Int32(|a|) + SaveItems(a, save)
  }

  function UploadItems<T>(b: Bytes, p: nat, n: nat, upload: (Bytes, nat) -> Upload<T>): (u: Upload<seq<T>>)
    ensures u.Read? ==> |u.value| == n
    decreases n
  {
    if n == 0 then Read([], p) else
    match upload(b, p)
    case Beyond => Beyond
    case Read(x, q) =>
      match UploadItems(b, q, n - 1, upload)
      case Beyond => Beyond
      case Read(rest, r) => Read([x] + rest, r)
  }

  function UploadArray<T>(b: Bytes, p: nat, upload: (Bytes, nat) -> Upload<T>): Upload<Array<T>> {
    match UploadInt(b, p)
    case Beyond => Beyond
    case Read(n, q) => if n <= 0 then Read([], q) else
      match UploadItems(b, q, n, upload)
      case Beyond => Beyond
      case Read(a, r) => Read(a, r)
  }

  /** The mediator reads back what it saves, wherever that lies. */
  ghost predicate ReadsBack<T(!new)>(save: T -> Bytes, upload: (Bytes, nat) -> Upload<T>) {
    forall v: T, b, p: nat :: At(b, p, save(v)) ==> upload(b, p) == Read(v, p + |save(v)|)
  }

  lemma {:induction false} ItemsRound<T(!new)>(a: seq<T>, save: T -> Bytes, upload: (Bytes, nat) -> Upload<T>, b: Bytes, p: nat)
    requires ReadsBack(save, upload)
    requires At(b, p, SaveItems(a, save))
    ensures UploadItems(b, p, |a|, upload) == Read(a, p + |SaveItems(a, save)|)
    decreases |a|
  {
    if a != [] {
      AtSplit(b, p, save(a[0]), SaveItems(a[1..], save));
      assert upload(b, p) == Read(a[0], p + |save(a[0])|);
      hide ReadsBack, At;
      ItemsRound(a[1..], save, upload, b, p + |save(a[0])|);
      assert [a[0]] + a[1..] == a;
    }
  }

  lemma {:induction false} ItemsAppend<T>(a: seq<T>, v: T, save: T -> Bytes)
    ensures SaveItems(a + [v], save) == SaveItems(a, save) + save(v)
    decreases |a|
  {
    if a == [] {
      assert [] + [v] == [v];
    } else {
      assert (a + [v])[1..] == a[1..] + [v];
      ItemsAppend(a[1..], v, save);
    }
  }

  /** The elements `a` already read, in front of those still to come. */
  function Prefixed<T>(a: seq<T>, u: Upload<seq<T>>): Upload<seq<T>> {
    match u
    case Beyond => Beyond
    case Read(rest, r) => Read(a + rest, r)
  }

  lemma PrefixedNone<T>(u: Upload<seq<T>>)
    ensures Prefixed([], u) == u
  {
    if u.Read? {
      assert [] + u.value == u.value;
    }
  }

  lemma PrefixedStep<T>(a: seq<T>, x: T, u: Upload<seq<T>>)
    ensures Prefixed(a, Prefixed([x], u)) == Prefixed(a + [x], u)
  {
    if u.Read? {
      assert a + ([x] + u.value) == a + [x] + u.value;
    }
  }

  /** An array mediator reads back what it saves if the one of its elements does. */
  lemma ArrayReadsBack<T(!new)>(save: T -> Bytes, upload: (Bytes, nat) -> Upload<T>,
                                saveAll: Array<T> -> Bytes, uploadAll: (Bytes, nat) -> Upload<Array<T>>)
    requires ReadsBack(save, upload)
    requires forall a: Array<T> :: saveAll(a) == SaveArray(a, save)
    requires forall b, p: nat :: uploadAll(b, p) == UploadArray(b, p, upload)
    ensures ReadsBack(saveAll, uploadAll)
  {
    forall a: Array<T>, b, p: nat | At(b, p, saveAll(a))
      ensures uploadAll(b, p) == Read(a, p + |saveAll(a)|)
    {
      ArrayRound(a, save, upload, b, p);
    }
  }

  lemma ArrayRound<T(!new)>(a: Array<T>, save: T -> Bytes, upload: (Bytes, nat) -> Upload<T>, b: Bytes, p: nat)
    requires ReadsBack(save, upload)
    requires At(b, p, SaveArray(a, save))
    ensures UploadArray(b, p, upload) == Read(a, p + |SaveArray(a, save)|)
  {
    AtSplit(b, p, Int32(|a|), SaveItems(a, save));
    IntRound(|a|, b, p);
    ItemsRound(a, save, upload, b, p + 4);
  }

  // ----- records: their fields one after the other

  function SavePeer(v: PeerAddress): Bytes {
    SaveInt(v.port) + SaveText(v.address)
  }

  function UploadPeer(b: Bytes, p: nat): Upload<PeerAddress> {
    match UploadInt(b, p)
    case Beyond => Beyond
    case Read(port, q) =>
      match UploadText(b, q)
      case Beyond => Beyond
      case Read(address, r) => Read(PeerAddress(port, address), r)
  }

  function SaveBlock(v: Block): Bytes {
    SaveSize(v.start) + (SaveSize(v.size) + (SaveByte(v.flags) + SaveText(v.hash)))
  }

  function UploadBlock(b: Bytes, p: nat): Upload<Block> {
    match UploadSize(b, p)
    case Beyond => Beyond
    case Read(start, q) =>
      match UploadSize(b, q)
      case Beyond => Beyond
      case Read(size, r) =>
        match UploadByte(b, r)
        case Beyond => Beyond
        case Read(flags, s) =>
          match UploadText(b, s)
          case Beyond => Beyond
          case Read(hash, t) => Read(Block(start, size, flags, hash), t)
  }

  function SaveBlocks(a: Array<Block>): Bytes { SaveArray(a, SaveBlock) }

  function UploadBlocks(b: Bytes, p: nat): Upload<Array<Block>> { UploadArray(b, p, UploadBlock) }

  function SaveMetadata(v: FileMetadata): Bytes {
    SaveBlocks(v.fileMap) + (SaveInt(v.key) + (SaveSize(v.size) +
      (SaveText(v.name) + (SaveBool(v.strictable) + SaveBool(v.verified)))))
  }

  function UploadMetadata(b: Bytes, p: nat): Upload<FileMetadata> {
    match UploadBlocks(b, p)
    case Beyond => Beyond
    case Read(fileMap, p1) =>
      match UploadInt(b, p1)
      case Beyond => Beyond
      case Read(key, p2) =>
        match UploadSize(b, p2)
        case Beyond => Beyond
        case Read(size, p3) =>
          match UploadText(b, p3)
          case Beyond => Beyond
          case Read(name, p4) =>
            match UploadBool(b, p4)
            case Beyond => Beyond
            case Read(strictable, p5) =>
              match UploadBool(b, p5)
              case Beyond => Beyond
              case Read(verified, p6) => Read(FileMetadata(fileMap, key, size, name, strictable, verified), p6)
  }

  lemma PeerRound(v: PeerAddress, b: Bytes, p: nat)
    requires At(b, p, SavePeer(v))
    ensures UploadPeer(b, p) == Read(v, p + |SavePeer(v)|)
  {
    AtSplit(b, p, SaveInt(v.port), SaveText(v.address));
    IntRound(v.port, b, p);
    TextRound(v.address, b, p + 4);
  }

  lemma BlockRound(v: Block, b: Bytes, p: nat)
    requires At(b, p, SaveBlock(v))
    ensures UploadBlock(b, p) == Read(v, p + |SaveBlock(v)|)
  {
    hide At, SaveText, UploadText, SaveSize, UploadSize, SaveByte, UploadByte;
    var f1, f2, f3, f4 := SaveSize(v.start), SaveSize(v.size), SaveByte(v.flags), SaveText(v.hash);
    AtSplit(b, p, f1, f2 + (f3 + f4));
    SizeRound(v.start, b, p);
    AtSplit(b, p + |f1|, f2, f3 + f4);
    SizeRound(v.size, b, p + |f1|);
    AtSplit(b, p + |f1| + |f2|, f3, f4);
    OneByte(v.flags);
    ByteRound(v.flags, b, p + |f1| + |f2|);
    TextRound(v.hash, b, p + |f1| + |f2| + |f3|);
  }

  lemma OneByte(v: byte)
    ensures |SaveByte(v)| == 1
  {
  }

  lemma BlockReadsBack()
    ensures ReadsBack(SaveBlock, UploadBlock)
  {
    forall v: Block, b, p: nat | At(b, p, SaveBlock(v))
      ensures UploadBlock(b, p) == Read(v, p + |SaveBlock(v)|)
    {
      BlockRound(v, b, p);
    }
  }

  lemma BlocksRound(a: Array<Block>, b: Bytes, p: nat)
    requires At(b, p, SaveBlocks(a))
    ensures UploadBlocks(b, p) == Read(a, p + |SaveBlocks(a)|)
  {
    BlockReadsBack();
    ArrayRound(a, SaveBlock, UploadBlock, b, p);
  }

  lemma MetadataRound(v: FileMetadata, b: Bytes, p: nat)
    requires At(b, p, SaveMetadata(v))
    ensures UploadMetadata(b, p) == Read(v, p + |SaveMetadata(v)|)
  {
    hide At, SaveText, UploadText, SaveSize, UploadSize, SaveInt, UploadInt, SaveBlocks, UploadBlocks, SaveBool, UploadBool;
    var f1, f2, f3 := SaveBlocks(v.fileMap), SaveInt(v.key), SaveSize(v.size);
    var f4, f5, f6 := SaveText(v.name), SaveBool(v.strictable), SaveBool(v.verified);
    AtSplit(b, p, f1, f2 + (f3 + (f4 + (f5 + f6))));
    BlocksRound(v.fileMap, b, p);
    var p1 := p + |f1|;
    AtSplit(b, p1, f2, f3 + (f4 + (f5 + f6)));
    IntRound(v.key, b, p1);
    var p2 := p1 + |f2|;
    AtSplit(b, p2, f3, f4 + (f5 + f6));
    SizeRound(v.size, b, p2);
    var p3 := p2 + |f3|;
    AtSplit(b, p3, f4, f5 + f6);
    TextRound(v.name, b, p3);
    var p4 := p3 + |f4|;
    AtSplit(b, p4, f5, f6);
    BoolRound(v.strictable, b, p4);
    assert |f5| == 1 && |f6| == 1 by { OneBool(v.strictable); OneBool(v.verified); }
    BoolRound(v.verified, b, p4 + 1);
  }

  lemma OneBool(v: bool)
    ensures |SaveBool(v)| == 1
  {
  }

  lemma MetadataReadsBack()
    ensures ReadsBack(SaveMetadata, UploadMetadata)
  {
    forall v: FileMetadata, b, p: nat | At(b, p, SaveMetadata(v))
      ensures UploadMetadata(b, p) == Read(v, p + |SaveMetadata(v)|)
    {
      MetadataRound(v, b, p);
    }
  }
}
