/** The layouts of the mediators byte by byte: where in a buffer each field of a value lies. */
module Layouts {
  import opened Types
  import opened Wire
  import opened Mediators
  import opened Contents

  /** The int, and the eight-byte number, whose bytes start at `o`, least significant first. */
  function IntAt(b: Bytes, o: nat): int
    requires o + 4 <= |b|
  {
    ToInt32(WordAt(b, o))
  }

  function LongAt(b: Bytes, o: nat): int
    requires o + 8 <= |b|
  {
    WordAt(b, o) + 0x1_0000_0000 * WordAt(b, o + 4)
  }

  /** Length, then characters. */
  ghost predicate TextLies(b: Bytes, o: nat, s: Text) {
    o + 4 + |s| <= |b| && IntAt(b, o) == |s| && b[o + 4..o + 4 + |s|] == s
  }

  /** Port, then address. */
  ghost predicate PeerLies(b: Bytes, o: nat, v: PeerAddress) {
    o + 4 <= |b| && IntAt(b, o) == v.port && TextLies(b, o + 4, v.address)
  }

  function BlockWidth(v: Block): nat { 21 + |v.hash| }

  /** Start, size, flags, hash. */
  ghost predicate BlockLies(b: Bytes, o: nat, v: Block) {
    && o + 17 <= |b| && LongAt(b, o) == v.start && LongAt(b, o + 8) == v.size && b[o + 16] == v.flags
    && TextLies(b, o + 17, v.hash)
  }

  function ItemsWidth<T>(a: seq<T>, width: T -> nat): nat {
    if a == [] then 0 else width(a[0]) + ItemsWidth(a[1..], width)
  }

  function ArrayWidth<T>(a: seq<T>, width: T -> nat): nat { 4 + ItemsWidth(a, width) }

  /** Each element where the one before it ends. */
  ghost predicate ItemsLie<T>(b: Bytes, o: nat, a: seq<T>, lies: (Bytes, nat, T) -> bool, width: T -> nat)
    decreases |a|
  {
    if a == [] then o <= |b| else lies(b, o, a[0]) && ItemsLie(b, o + width(a[0]), a[1..], lies, width)
  }

  /** The number of elements, then the elements. */
  ghost predicate ArrayLies<T>(b: Bytes, o: nat, a: Array<T>, lies: (Bytes, nat, T) -> bool, width: T -> nat) {
    o + 4 <= |b| && IntAt(b, o) == |a| && ItemsLie(b, o + 4, a, lies, width)
  }

  ghost predicate BlocksLie(b: Bytes, o: nat, a: Array<Block>) {
    ArrayLies(b, o, a, BlockLies, BlockWidth)
  }

  function BlocksWidth(a: Array<Block>): nat { ArrayWidth(a, BlockWidth) }

  function MetadataWidth(v: FileMetadata): nat { BlocksWidth(v.fileMap) + 18 + |v.name| }

  /** The name, then the two flags, a byte each. */
  ghost predicate NamedLies(b: Bytes, o: nat, v: FileMetadata) {
    var e := o + 4 + |v.name|;
    && TextLies(b, o, v.name)
    && e + 2 <= |b|
    && b[e] == (if v.strictable then 1 else 0)
    && b[e + 1] == (if v.verified then 1 else 0)
  }

  /** Key, size, name and flags. */
  ghost predicate RestLies(b: Bytes, m: nat, v: FileMetadata) {
    m + 12 <= |b| && IntAt(b, m) == v.key && LongAt(b, m + 4) == v.size && NamedLies(b, m + 12, v)
  }

  /** The file map, then the other fields. */
  ghost predicate MetadataLies(b: Bytes, o: nat, v: FileMetadata) {
    BlocksLie(b, o, v.fileMap) && RestLies(b, o + BlocksWidth(v.fileMap), v)
  }

  // ----- pieces one behind the other

  lemma Apart(b: Bytes, p: nat, s: Bytes, t: Bytes)
    ensures At(b, p, s + t) <==> At(b, p, s) && At(b, p + |s|, t)
  {
    if At(b, p, s + t) {
      AtSplit(b, p, s, t);
    }
    if At(b, p, s) && At(b, p + |s|, t) {
      assert b[p..p + |s + t|] == b[p..p + |s|] + b[p + |s|..p + |s| + |t|];
    }
  }

  lemma Appended(was: Bytes, s: Bytes)
    ensures At(was + s, |was|, s)
  {
  }

  lemma IntLayout(b: Bytes, o: nat, v: Int)
    ensures At(b, o, SaveInt(v)) <==> o + 4 <= |b| && IntAt(b, o) == v
    ensures |SaveInt(v)| == 4
  {
    if o + 4 <= |b| {
      WordIsLe(b, o);
      FromInt32Round(b[o..o + 4]);
      Int32Round(v);
    }
  }

  lemma SizeLayout(b: Bytes, o: nat, v: Size)
    ensures At(b, o, SaveSize(v)) <==> o + 8 <= |b| && LongAt(b, o) == v
    ensures |SaveSize(v)| == 8
  {
    Widths();
    if o + 8 <= |b| {
      LongIsTwoWords(b, o);
      OnlyBytes(b[o..o + 8], v);
    }
    hide Le, FromLe, WordAt;
  }

  lemma OnlyBytes(b: Bytes, v: nat)
    requires v < Pow256(|b|)
    ensures b == Le(v, |b|) <==> FromLe(b) == v
  {
    FromLeRound(b);
    LeRound(v, |b|);
  }

  lemma ByteLayout(b: Bytes, o: nat, v: byte)
    ensures At(b, o, [v]) <==> o < |b| && b[o] == v
  {
    if o < |b| {
      assert b[o..o + 1] == [b[o]];
    }
  }

  // ----- the bytes `save` appends are those of the layout, and no others are

  lemma TextLayout(b: Bytes, o: nat, s: Text)
    ensures At(b, o, SaveText(s)) <==> TextLies(b, o, s)
    ensures |SaveText(s)| == 4 + |s|
  {
    Apart(b, o, Int32(|s|), s);
    IntLayout(b, o, |s|);
  }

  lemma PeerLayout(b: Bytes, o: nat, v: PeerAddress)
    ensures At(b, o, SavePeer(v)) <==> PeerLies(b, o, v)
    ensures |SavePeer(v)| == 8 + |v.address|
  {
    Apart(b, o, SaveInt(v.port), SaveText(v.address));
    IntLayout(b, o, v.port);
    TextLayout(b, o + 4, v.address);
  }

  lemma BlockLayout(b: Bytes, o: nat, v: Block)
    ensures At(b, o, SaveBlock(v)) <==> BlockLies(b, o, v)
    ensures |SaveBlock(v)| == BlockWidth(v)
  {
    var f1, f2, f3, f4 := SaveSize(v.start), SaveSize(v.size), SaveByte(v.flags), SaveText(v.hash);
    Apart(b, o, f1, f2 + (f3 + f4));
    SizeLayout(b, o, v.start);
    Apart(b, o + 8, f2, f3 + f4);
    SizeLayout(b, o + 8, v.size);
    Apart(b, o + 16, f3, f4);
    ByteLayout(b, o + 16, v.flags);
    TextLayout(b, o + 17, v.hash);
    hide At, SaveSize, SaveText, LongAt, TextLies;
  }

  /** The bytes of a value are those of the layout, and as many as its width. */
  ghost predicate Layout<T(!new)>(save: T -> Bytes, lies: (Bytes, nat, T) -> bool, width: T -> nat) {
    && (forall b, o: nat, v: T :: At(b, o, save(v)) <==> lies(b, o, v))
    && (forall v: T :: |save(v)| == width(v))
  }

  lemma {:induction false} ItemsLayout<T(!new)>(b: Bytes, o: nat, a: seq<T>, save: T -> Bytes,
                                                lies: (Bytes, nat, T) -> bool, width: T -> nat)
    requires Layout(save, lies, width)
    ensures At(b, o, SaveItems(a, save)) <==> ItemsLie(b, o, a, lies, width)
    ensures |SaveItems(a, save)| == ItemsWidth(a, width)
    decreases |a|
  {
    if a == [] {
      NothingLies(b, o);
    } else {
      Apart(b, o, save(a[0]), SaveItems(a[1..], save));
      assert At(b, o, save(a[0])) <==> lies(b, o, a[0]);
      assert |save(a[0])| == width(a[0]);
      hide At, Layout;
      ItemsLayout(b, o + width(a[0]), a[1..], save, lies, width);
    }
  }

  lemma NothingLies(b: Bytes, o: nat)
    ensures At(b, o, []) <==> o <= |b|
  {
  }

  /** If the bytes of an element follow its layout, so do those of an array. */
  lemma ArrayLayout<T(!new)>(b: Bytes, o: nat, a: Array<T>, save: T -> Bytes, lies: (Bytes, nat, T) -> bool, width: T -> nat)
    requires Layout(save, lies, width)
    ensures At(b, o, SaveArray(a, save)) <==> ArrayLies(b, o, a, lies, width)
    ensures |SaveArray(a, save)| == ArrayWidth(a, width)
  {
    Apart(b, o, Int32(|a|), SaveItems(a, save));
    IntLayout(b, o, |a|);
    ItemsLayout(b, o + 4, a, save, lies, width);
  }

  lemma BlockLayouts()
    ensures Layout(SaveBlock, BlockLies, BlockWidth)
  {
    hide At, SaveBlock, BlockLies, BlockWidth;
    forall b, o: nat, v: Block ensures At(b, o, SaveBlock(v)) <==> BlockLies(b, o, v) {
      BlockLayout(b, o, v);
    }
    forall v: Block ensures |SaveBlock(v)| == BlockWidth(v) {
      BlockLayout([], 0, v);
    }
  }

  lemma BlocksLayout(b: Bytes, o: nat, a: Array<Block>)
    ensures At(b, o, SaveBlocks(a)) <==> BlocksLie(b, o, a)
    ensures |SaveBlocks(a)| == BlocksWidth(a)
  {
    BlockLayouts();
    ArrayLayout(b, o, a, SaveBlock, BlockLies, BlockWidth);
  }

  lemma FlagsLayout(b: Bytes, o: nat, strictable: bool, verified: bool)
    ensures At(b, o, SaveBool(strictable) + SaveBool(verified)) <==>
      o + 2 <= |b| && b[o] == (if strictable then 1 else 0) && b[o + 1] == (if verified then 1 else 0)
  {
    Apart(b, o, SaveBool(strictable), SaveBool(verified));
    ByteLayout(b, o, if strictable then 1 else 0);
    ByteLayout(b, o + 1, if verified then 1 else 0);
  }

  function SaveNamed(v: FileMetadata): Bytes {
    SaveText(v.name) + (SaveBool(v.strictable) + SaveBool(v.verified))
  }

  function SaveSized(v: FileMetadata): Bytes {
    SaveSize(v.size) + SaveNamed(v)
  }

  function SaveRest(v: FileMetadata): Bytes {
    SaveInt(v.key) + SaveSized(v)
  }

  lemma NamedLayout(b: Bytes, o: nat, v: FileMetadata)
    ensures At(b, o, SaveNamed(v)) <==> NamedLies(b, o, v)
    ensures |SaveNamed(v)| == 6 + |v.name|
  {
    Apart(b, o, SaveText(v.name), SaveBool(v.strictable) + SaveBool(v.verified));
    TextLayout(b, o, v.name);
    FlagsLayout(b, o + 4 + |v.name|, v.strictable, v.verified);
    hide At, SaveText, SaveBool, TextLies;
  }

  lemma SizedLayout(b: Bytes, o: nat, v: FileMetadata)
    ensures At(b, o, SaveSized(v)) <==> o + 8 <= |b| && LongAt(b, o) == v.size && NamedLies(b, o + 8, v)
    ensures |SaveSized(v)| == 14 + |v.name|
  {
    Apart(b, o, SaveSize(v.size), SaveNamed(v));
    SizeLayout(b, o, v.size);
    NamedLayout(b, o + 8, v);
    hide At, SaveSize, SaveNamed, NamedLies, LongAt;
  }

  /** Key, size, name and flags, behind the file map. */
  lemma RestLayout(b: Bytes, m: nat, v: FileMetadata)
    ensures At(b, m, SaveRest(v)) <==> RestLies(b, m, v)
    ensures |SaveRest(v)| == 18 + |v.name|
  {
    Apart(b, m, SaveInt(v.key), SaveSized(v));
    IntLayout(b, m, v.key);
    SizedLayout(b, m + 4, v);
    hide At, SaveInt, SaveSized, NamedLies, IntAt, LongAt;
  }

  lemma MetadataSplits(v: FileMetadata)
    ensures SaveMetadata(v) == SaveBlocks(v.fileMap) + SaveRest(v)
  {
    hide SaveBlocks, SaveInt, SaveSize, SaveText, SaveBool;
  }

  lemma MetadataLayout(b: Bytes, o: nat, v: FileMetadata)
    ensures At(b, o, SaveMetadata(v)) <==> MetadataLies(b, o, v)
    ensures |SaveMetadata(v)| == MetadataWidth(v)
  {
    MetadataSplits(v);
    hide At, SaveMetadata, SaveBlocks, SaveRest, BlocksLie, RestLies, BlocksWidth;
    Apart(b, o, SaveBlocks(v.fileMap), SaveRest(v));
    BlocksLayout(b, o, v.fileMap);
    RestLayout(b, o + BlocksWidth(v.fileMap), v);
  }

  lemma MetadataLayouts()
    ensures Layout(SaveMetadata, MetadataLies, MetadataWidth)
  {
    hide At, SaveMetadata, MetadataLies, MetadataWidth;
    forall b, o: nat, v: FileMetadata ensures At(b, o, SaveMetadata(v)) <==> MetadataLies(b, o, v) {
      MetadataLayout(b, o, v);
    }
    forall v: FileMetadata ensures |SaveMetadata(v)| == MetadataWidth(v) {
      MetadataLayout([], 0, v);
    }
  }

  lemma FilesLayout(b: Bytes, o: nat, a: Array<FileMetadata>)
    ensures At(b, o, SaveArray(a, SaveMetadata)) <==> ArrayLies(b, o, a, MetadataLies, MetadataWidth)
    ensures |SaveArray(a, SaveMetadata)| == ArrayWidth(a, MetadataWidth)
  {
    MetadataLayouts();
    ArrayLayout(b, o, a, SaveMetadata, MetadataLies, MetadataWidth);
  }

  // ----- a content: every item behind its length

  function TextWidth(s: Text): nat { 4 + |s| }

  lemma TextLayouts()
    ensures Layout(SaveText, TextLies, TextWidth)
  {
    forall b, o: nat, s: Text ensures (At(b, o, SaveText(s)) <==> TextLies(b, o, s)) && |SaveText(s)| == TextWidth(s) {
      TextLayout(b, o, s);
    }
    hide At, TextLies;
  }

  lemma {:induction false} EncodeIsItems(items: seq<Text>)
    ensures Sized(items) && Encode(items) == SaveItems(items, SaveText)
    decreases |items|
  {
    if items != [] {
      EncodeIsItems(items[1..]);
      assert Encode(items) == Int32(|items[0]|) + items[0] + Encode(items[1..]);
    }
  }

  /** The bytes of a content: length and bytes of each item, where the item before it ends, and no more. */
  lemma ContentLayout(b: Bytes, items: seq<Text>)
    ensures Sized(items)
    ensures b == Encode(items) <==> ItemsLie(b, 0, items, TextLies, TextWidth) && |b| == ItemsWidth(items, TextWidth)
  {
    EncodeIsItems(items);
    TextLayouts();
    ItemsLayout(b, 0, items, SaveText, TextLies, TextWidth);
    assert |b| == |Encode(items)| ==> b[0..|Encode(items)|] == b;
    hide Encode, SaveItems, ItemsLie, ItemsWidth, Layout;
  }

  // ----- and `upload` reads the value that lies there

  lemma LayoutsReadBack(b: Bytes, o: nat)
    ensures forall s | TextLies(b, o, s) :: UploadText(b, o) == Read(s, o + 4 + |s|)
    ensures forall v | PeerLies(b, o, v) :: UploadPeer(b, o) == Read(v, o + 8 + |v.address|)
    ensures forall v | BlockLies(b, o, v) :: UploadBlock(b, o) == Read(v, o + BlockWidth(v))
    ensures forall v | MetadataLies(b, o, v) :: UploadMetadata(b, o) == Read(v, o + MetadataWidth(v))
  {
    hide *;
    forall s | TextLies(b, o, s) ensures UploadText(b, o) == Read(s, o + 4 + |s|) {
      TextLayout(b, o, s);
      TextRound(s, b, o);
    }
    forall v | PeerLies(b, o, v) ensures UploadPeer(b, o) == Read(v, o + 8 + |v.address|) {
      PeerLayout(b, o, v);
      PeerRound(v, b, o);
    }
    forall v | BlockLies(b, o, v) ensures UploadBlock(b, o) == Read(v, o + BlockWidth(v)) {
      BlockLayout(b, o, v);
      BlockRound(v, b, o);
    }
    forall v | MetadataLies(b, o, v) ensures UploadMetadata(b, o) == Read(v, o + MetadataWidth(v)) {
      MetadataLayout(b, o, v);
      MetadataRound(v, b, o);
    }
  }

  /** Nothing else is read: a string, an address or a block that is read lies there. */
  lemma ReadLies(b: Bytes, o: nat)
    ensures UploadText(b, o).Read? ==> TextLies(b, o, UploadText(b, o).value)
    ensures UploadPeer(b, o).Read? ==> PeerLies(b, o, UploadPeer(b, o).value)
    ensures UploadBlock(b, o).Read? ==> BlockLies(b, o, UploadBlock(b, o).value)
  {
    TextReadLies(b, o);
    TextReadLies(b, o + 4);
    TextReadLies(b, o + 17);
    if o + 4 <= |b| {
      WordIsLe(b, o);
    }
    if o + 16 <= |b| {
      LongIsTwoWords(b, o);
      LongIsTwoWords(b, o + 8);
    }
    hide WordAt, FromLe, TextLies, UploadText;
  }

  lemma TextReadLies(b: Bytes, o: nat)
    ensures UploadText(b, o).Read? ==> TextLies(b, o, UploadText(b, o).value)
  {
    if o + 4 <= |b| {
      WordIsLe(b, o);
    }
  }

  /** `upload` reads a value exactly where its layout lies. */
  ghost predicate Exact<T(!new)>(upload: (Bytes, nat) -> Upload<T>, lies: (Bytes, nat, T) -> bool, width: T -> nat) {
    && (forall b, o: nat, v: T :: lies(b, o, v) ==> upload(b, o) == Read(v, o + width(v)) && o + width(v) <= |b|)
    && (forall b, o: nat :: upload(b, o).Read? ==> lies(b, o, upload(b, o).value))
  }

  lemma BlockExact()
    ensures Exact(UploadBlock, BlockLies, BlockWidth)
  {
    forall b, o: nat, v | BlockLies(b, o, v)
      ensures UploadBlock(b, o) == Read(v, o + BlockWidth(v)) && o + BlockWidth(v) <= |b|
    {
      LayoutsReadBack(b, o);
    }
    forall b, o: nat | UploadBlock(b, o).Read? ensures BlockLies(b, o, UploadBlock(b, o).value) {
      ReadLies(b, o);
    }
    hide UploadBlock, BlockLies, BlockWidth;
  }

  lemma {:induction false} ItemsExact<T(!new)>(b: Bytes, o: nat, n: nat, upload: (Bytes, nat) -> Upload<T>,
                                               lies: (Bytes, nat, T) -> bool, width: T -> nat, a: seq<T>)
    requires Exact(upload, lies, width) && o <= |b| && |a| == n
    ensures ItemsLie(b, o, a, lies, width) <==> UploadItems(b, o, n, upload) == Read(a, o + ItemsWidth(a, width))
    ensures UploadItems(b, o, n, upload).Read? && UploadItems(b, o, n, upload).value == a ==> ItemsLie(b, o, a, lies, width)
    decreases n
  {
    if n > 0 && upload(b, o).Read? {
      var x := upload(b, o).value;
      assert lies(b, o, x) && upload(b, o) == Read(x, o + width(x)) && o + width(x) <= |b|;
      ItemsExact(b, o + width(x), n - 1, upload, lies, width, a[1..]);
      assert [a[0]] + a[1..] == a;
      assert lies(b, o, a[0]) ==> a[0] == x;
      hide Exact;
    }
  }

  /** Blocks are read exactly where they lie, as many as the count says; a count that is not positive is
      read as no blocks. */
  lemma BlocksRead(b: Bytes, o: nat, a: Array<Block>)
    ensures UploadBlocks(b, o) == Read(a, o + BlocksWidth(a)) <==>
      o + 4 <= |b| && if IntAt(b, o) <= 0 then a == [] else BlocksLie(b, o, a)
    ensures UploadBlocks(b, o).Read? ==> UploadBlocks(b, o).pos == o + BlocksWidth(UploadBlocks(b, o).value)
  {
    BlockExact();
    if o + 4 <= |b| {
      WordIsLe(b, o);
      var n := IntAt(b, o);
      if n > 0 {
        if |a| == n {
          ItemsExact(b, o + 4, n, UploadBlock, BlockLies, BlockWidth, a);
        }
        var u := UploadItems(b, o + 4, n, UploadBlock);
        if u.Read? {
          ItemsExact(b, o + 4, n, UploadBlock, BlockLies, BlockWidth, u.value);
        }
      }
    }
    hide Exact, UploadItems, ItemsLie, ItemsWidth, IntAt, WordAt;
  }
}
