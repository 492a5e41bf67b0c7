/** The mediators in action: `save` appends to a buffer, `upload` moves a position through one. */
module MediatorObjects {
  import opened Types
  import opened Wire
  import opened Mediators
  import opened Layouts

  class ExpandableBuffer {
    var data: Bytes

    constructor ()
      ensures data == []
    {
      data := [];
    }

    method Append(b: Bytes)
      modifies this
      ensures data == old(data) + b
    {
      data := data + b;
    }

    method AppendText(s: Text)
      modifies this
      ensures data == old(data) + SaveText(s) && TextLies(data, |old(data)|, s)
    {
      Append(Int32(|s|));
      Append(s);
      TextAppended(old(data), s);
    }

    method AppendPeer(v: PeerAddress)
      modifies this
      ensures data == old(data) + SavePeer(v) && PeerLies(data, |old(data)|, v)
    {
      hide SaveText;
      Append(SaveInt(v.port));
      AppendText(v.address);
      Assoc(old(data), SaveInt(v.port), SaveText(v.address));
      PeerAppended(old(data), v);
    }

    method AppendBlock(v: Block)
      modifies this
      ensures data == old(data) + SaveBlock(v) && BlockLies(data, |old(data)|, v)
    {
      hide SaveText, SaveSize, SaveByte;
      Append(SaveSize(v.start));
      Append(SaveSize(v.size));
      Append(SaveByte(v.flags));
      AppendText(v.hash);
      Join4(old(data), SaveSize(v.start), SaveSize(v.size), SaveByte(v.flags), SaveText(v.hash));
      BlockAppended(old(data), v);
    }

    method AppendBlocks(a: Array<Block>)
      modifies this
      ensures data == old(data) + SaveBlocks(a)
    {
      hide SaveBlock;
      ghost var was := data;
      Append(Int32(|a|));
      for i := 0 to |a|
        invariant data == was + (Int32(|a|) + SaveItems(a[..i], SaveBlock))
      {
        AppendBlock(a[i]);
        NextItem(a, i, SaveBlock);
        Assoc(was + Int32(|a|), SaveItems(a[..i], SaveBlock), SaveBlock(a[i]));
        Assoc(was, Int32(|a|), SaveItems(a[..i + 1], SaveBlock));
        Assoc(was, Int32(|a|), SaveItems(a[..i], SaveBlock));
      }
      assert a[..|a|] == a;
    }

    method AppendMetadata(v: FileMetadata)
      modifies this
      ensures data == old(data) + SaveMetadata(v) && MetadataLies(data, |old(data)|, v)
    {
      hide SaveText, SaveSize, SaveBool, SaveBlocks, SaveInt;
      AppendBlocks(v.fileMap);
      Append(SaveInt(v.key));
      Append(SaveSize(v.size));
      AppendText(v.name);
      Append(SaveBool(v.strictable));
      Append(SaveBool(v.verified));
      var f1, f2, f3 := SaveBlocks(v.fileMap), SaveInt(v.key), SaveSize(v.size);
      var f4, f5, f6 := SaveText(v.name), SaveBool(v.strictable), SaveBool(v.verified);
      Join4(old(data) + f1 + f2, f3, f4, f5, f6);
      Assoc(old(data) + f1, f2, f3 + (f4 + (f5 + f6)));
      Assoc(old(data), f1, f2 + (f3 + (f4 + (f5 + f6))));
      MetadataAppended(old(data), v);
    }
  }

  lemma TextAppended(was: Bytes, s: Text)
    ensures TextLies(was + SaveText(s), |was|, s)
  {
    Appended(was, SaveText(s));
    TextLayout(was + SaveText(s), |was|, s);
    hide At, SaveText, TextLies;
  }

  lemma PeerAppended(was: Bytes, v: PeerAddress)
    ensures PeerLies(was + SavePeer(v), |was|, v)
  {
    Appended(was, SavePeer(v));
    PeerLayout(was + SavePeer(v), |was|, v);
    hide At, SavePeer, PeerLies;
  }

  lemma BlockAppended(was: Bytes, v: Block)
    ensures BlockLies(was + SaveBlock(v), |was|, v)
  {
    Appended(was, SaveBlock(v));
    BlockLayout(was + SaveBlock(v), |was|, v);
    hide At, SaveBlock, BlockLies;
  }

  lemma MetadataAppended(was: Bytes, v: FileMetadata)
    ensures MetadataLies(was + SaveMetadata(v), |was|, v)
  {
    Appended(was, SaveMetadata(v));
    MetadataLayout(was + SaveMetadata(v), |was|, v);
    hide At, SaveMetadata, MetadataLies;
  }

  lemma Join4(a: Bytes, b: Bytes, c: Bytes, d: Bytes, e: Bytes)
    ensures a + b + c + d + e == a + (b + (c + (d + e)))
  {
    Assoc(a + b + c, d, e);
    Assoc(a + b, c, d + e);
    Assoc(a, b, c + (d + e));
  }

  lemma NextItem<T>(a: seq<T>, i: nat, save: T -> Bytes)
    requires i < |a|
    ensures SaveItems(a[..i + 1], save) == SaveItems(a[..i], save) + save(a[i])
  {
    assert a[..i + 1] == a[..i] + [a[i]];
    ItemsAppend(a[..i], a[i], save);
  }

  /** `r` and the new position are what the read `u` says; `None` when the read leaves the buffer. */
  ghost predicate Took<T>(r: Option<T>, p: nat, u: Upload<T>) {
    match u
    case Beyond => r.None?
    case Read(v, q) => r == Some(v) && p == q
  }

  class Reader {
    const data: Bytes
    var p: nat

    constructor (data: Bytes)
      ensures this.data == data && p == 0
    {
      this.data, p := data, 0;
    }

    method TakeInt() returns (r: Option<Int>)
      modifies this`p
      ensures Took(r, p, UploadInt(data, old(p)))
    {
      if p + 4 > |data| {
        return None;
      }
      r := Some(FromInt32(data[p..p + 4]));
      p := p + 4;
    }

    method TakeSize() returns (r: Option<Size>)
      modifies this`p
      ensures Took(r, p, UploadSize(data, old(p)))
    {
      if p + 8 > |data| {
        return None;
      }
      Widths();
      r := Some(FromLe(data[p..p + 8]));
      p := p + 8;
    }

    method TakeByte() returns (r: Option<byte>)
      modifies this`p
      ensures Took(r, p, UploadByte(data, old(p)))
    {
      if p >= |data| {
        return None;
      }
      r := Some(data[p]);
      p := p + 1;
    }

    method TakeBool() returns (r: Option<bool>)
      modifies this`p
      ensures Took(r, p, UploadBool(data, old(p)))
    {
      var b := TakeByte();
      r := if b.Some? then Some(b.value != 0) else None;
    }

    method TakeText() returns (r: Option<Text>)
      modifies this`p
      ensures Took(r, p, UploadText(data, old(p)))
      ensures forall v | TextLies(data, old(p), v) :: r == Some(v) && p == old(p) + 4 + |v|
    {
      LayoutsReadBack(data, p);
      var n := TakeInt();
      if n.None? || n.value < 0 || p + n.value > |data| {
        return None;
      }
      r := Some(data[p..p + n.value]);
      p := p + n.value;
    }

    method TakePeer() returns (r: Option<PeerAddress>)
      modifies this`p
      ensures Took(r, p, UploadPeer(data, old(p)))
      ensures forall v | PeerLies(data, old(p), v) :: r == Some(v) && p == old(p) + 8 + |v.address|
    {
      LayoutsReadBack(data, p);
      hide UploadInt, UploadText, PeerLies;
      var port := TakeInt();
      if port.None? {
        return None;
      }
      var address := TakeText();
      r := if address.Some? then Some(PeerAddress(port.value, address.value)) else None;
    }

    method TakeBlock() returns (r: Option<Block>)
      modifies this`p
      ensures Took(r, p, UploadBlock(data, old(p)))
      ensures forall v | BlockLies(data, old(p), v) :: r == Some(v) && p == old(p) + BlockWidth(v)
    {
      LayoutsReadBack(data, p);
      hide UploadSize, UploadByte, UploadText, BlockLies;
      r := None;
      var start := TakeSize();
      if start.None? {
        return;
      }
      var size := TakeSize();
      if size.None? {
        return;
      }
      var flags := TakeByte();
      if flags.None? {
        return;
      }
      var hash := TakeText();
      if hash.Some? {
        r := Some(Block(start.value, size.value, flags.value, hash.value));
      }
    }

    /** The elements are pushed one by one behind those the array already holds; here it starts empty. */
    method TakeBlocks() returns (r: Option<Array<Block>>)
      modifies this`p
      ensures Took(r, p, UploadBlocks(data, old(p)))
    {
      hide UploadBlock;
      var n := TakeInt();
      if n.None? {
        return None;
      }
      var a: seq<Block> := [];
      ghost var whole := if n.value > 0 then UploadItems(data, p, n.value, UploadBlock) else Read([], p);
      PrefixedNone(whole);
      while |a| < n.value
        invariant |a| <= n.value || a == []
        invariant n.value > 0 ==> whole == Prefixed(a, UploadItems(data, p, n.value - |a|, UploadBlock))
        invariant n.value <= 0 ==> whole == Read([], p)
      {
        var x := TakeBlock();
        if x.None? {
          return None;
        }
        PrefixedStep(a, x.value, UploadItems(data, p, n.value - |a| - 1, UploadBlock));
        a := a + [x.value];
      }
      assert a + [] == a;
      r := Some(a);
    }

    method TakeMetadata() returns (r: Option<FileMetadata>)
      modifies this`p
      ensures Took(r, p, UploadMetadata(data, old(p)))
      ensures forall v | MetadataLies(data, old(p), v) :: r == Some(v) && p == old(p) + MetadataWidth(v)
    {
      LayoutsReadBack(data, p);
      hide UploadSize, UploadInt, UploadText, UploadBool, UploadBlocks, MetadataLies, MetadataWidth;
      r := None;
      var fileMap := TakeBlocks();
      if fileMap.None? {
        return;
      }
      var key := TakeInt();
      if key.None? {
        return;
      }
      var size := TakeSize();
      if size.None? {
        return;
      }
      var name := TakeText();
      if name.None? {
        return;
      }
      var strictable := TakeBool();
      if strictable.None? {
        return;
      }
      var verified := TakeBool();
      if verified.Some? {
        r := Some(FileMetadata(fileMap.value, key.value, size.value, name.value, strictable.value, verified.value));
      }
    }
  }
}
