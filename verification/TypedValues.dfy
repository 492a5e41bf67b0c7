/** Typed values of every kind the contents carry, alone or one after the other: a self-delimiting grammar. */
module TypedValues {
  import opened Types
  import opened Wire
  import opened Mediators

  datatype Value =
    | OfInt(int_: Int) | OfSize(size: Size) | OfByte(byte_: byte) | OfBool(bool_: bool) | OfText(text: Text)
    | OfPeer(peer: PeerAddress) | OfBlock(block: Block) | OfMetadata(metadata: FileMetadata)
    | OfBlocks(blocks: Array<Block>) | OfFiles(files: Array<FileMetadata>)

  datatype Kind = AnInt | ASize | AByte | ABool | AText | APeer | ABlock | AMetadata | SomeBlocks | SomeFiles

  function KindOf(v: Value): Kind {
    match v
    case OfInt(_) => AnInt
    case OfSize(_) => ASize
    case OfByte(_) => AByte
    case OfBool(_) => ABool
    case OfText(_) => AText
    case OfPeer(_) => APeer
    case OfBlock(_) => ABlock
    case OfMetadata(_) => AMetadata
    case OfBlocks(_) => SomeBlocks
    case OfFiles(_) => SomeFiles
  }

  function SaveFiles(a: Array<FileMetadata>): Bytes { SaveArray(a, SaveMetadata) }

  function UploadFiles(b: Bytes, p: nat): Upload<Array<FileMetadata>> { UploadArray(b, p, UploadMetadata) }

  function Save(v: Value): Bytes {
    match v
    case OfInt(x) => SaveInt(x)
    case OfSize(x) => SaveSize(x)
    case OfByte(x) => SaveByte(x)
    case OfBool(x) => SaveBool(x)
    case OfText(x) => SaveText(x)
    case OfPeer(x) => SavePeer(x)
    case OfBlock(x) => SaveBlock(x)
    case OfMetadata(x) => SaveMetadata(x)
    case OfBlocks(x) => SaveBlocks(x)
    case OfFiles(x) => SaveFiles(x)
  }

  function As<T>(u: Upload<T>, f: T -> Value): Upload<Value> {
    match u
    case Beyond => Beyond
    case Read(x, p) => Read(f(x), p)
  }

  function UploadValue(k: Kind, b: Bytes, p: nat): Upload<Value> {
    match k
    case AnInt => As(UploadInt(b, p), x => OfInt(x))
    case ASize => As(UploadSize(b, p), x => OfSize(x))
    case AByte => As(UploadByte(b, p), x => OfByte(x))
    case ABool => As(UploadBool(b, p), x => OfBool(x))
    case AText => As(UploadText(b, p), x => OfText(x))
    case APeer => As(UploadPeer(b, p), x => OfPeer(x))
    case ABlock => As(UploadBlock(b, p), x => OfBlock(x))
    case AMetadata => As(UploadMetadata(b, p), x => OfMetadata(x))
    case SomeBlocks => As(UploadBlocks(b, p), x => OfBlocks(x))
    case SomeFiles => As(UploadFiles(b, p), x => OfFiles(x))
  }

  // ----- every mediator reads back what it saves

  lemma PlainReadBack()
    ensures ReadsBack(SaveInt, UploadInt) && ReadsBack(SaveSize, UploadSize)
    ensures ReadsBack(SaveByte, UploadByte) && ReadsBack(SaveBool, UploadBool)
  {
    forall v: Int, b, p: nat | At(b, p, SaveInt(v)) ensures UploadInt(b, p) == Read(v, p + |SaveInt(v)|) {
      IntRound(v, b, p);
    }
    forall v: Size, b, p: nat | At(b, p, SaveSize(v)) ensures UploadSize(b, p) == Read(v, p + |SaveSize(v)|) {
      SizeRound(v, b, p);
    }
    forall v: byte, b, p: nat | At(b, p, SaveByte(v)) ensures UploadByte(b, p) == Read(v, p + |SaveByte(v)|) {
      ByteRound(v, b, p);
    }
    forall v: bool, b, p: nat | At(b, p, SaveBool(v)) ensures UploadBool(b, p) == Read(v, p + |SaveBool(v)|) {
      BoolRound(v, b, p);
    }
  }

  lemma TextReadsBack()
    ensures ReadsBack(SaveText, UploadText)
  {
    forall v: Text, b, p: nat | At(b, p, SaveText(v)) ensures UploadText(b, p) == Read(v, p + |SaveText(v)|) {
      TextRound(v, b, p);
    }
  }

  lemma PeerReadsBack()
    ensures ReadsBack(SavePeer, UploadPeer)
  {
    forall v: PeerAddress, b, p: nat | At(b, p, SavePeer(v)) ensures UploadPeer(b, p) == Read(v, p + |SavePeer(v)|) {
      PeerRound(v, b, p);
    }
  }

  lemma ArraysReadBack()
    ensures ReadsBack(SaveBlocks, UploadBlocks) && ReadsBack(SaveFiles, UploadFiles)
  {
    BlockReadsBack();
    ArrayReadsBack(SaveBlock, UploadBlock, SaveBlocks, UploadBlocks);
    MetadataReadsBack();
    ArrayReadsBack(SaveMetadata, UploadMetadata, SaveFiles, UploadFiles);
  }

  /** Wherever the encoding of a value of any kind lies in a buffer, reading its kind there gives the
      value back and stops exactly behind it. */
  lemma ValueRound(v: Value, b: Bytes, p: nat)
    requires At(b, p, Save(v))
    ensures UploadValue(KindOf(v), b, p) == Read(v, p + |Save(v)|)
  {
    hide At, SaveInt, SaveSize, SaveByte, SaveBool, SaveText, SavePeer, SaveBlock, SaveMetadata, SaveBlocks, SaveFiles;
    hide UploadInt, UploadSize, UploadByte, UploadBool, UploadText, UploadPeer, UploadBlock, UploadMetadata, UploadBlocks, UploadFiles;
    match v
    case OfInt(x) => PlainReadBack();
    case OfSize(x) => PlainReadBack();
    case OfByte(x) => PlainReadBack();
    case OfBool(x) => PlainReadBack();
    case OfText(x) => TextReadsBack();
    case OfPeer(x) => PeerReadsBack();
    case OfBlock(x) => BlockReadsBack();
    case OfMetadata(x) => MetadataReadsBack();
    case OfBlocks(x) => ArraysReadBack();
    case OfFiles(x) => ArraysReadBack();
  }

  // ----- values one after the other

  function SaveAll(vs: seq<Value>): Bytes {
    if vs == [] then [] else Save(vs[0]) + SaveAll(vs[1..])
  }

  function Kinds(vs: seq<Value>): seq<Kind> {
    seq(|vs|, i requires 0 <= i < |vs| => KindOf(vs[i]))
  }

  function UploadAll(ks: seq<Kind>, b: Bytes, p: nat): Upload<seq<Value>> {
    if ks == [] then Read([], p) else
    match UploadValue(ks[0], b, p)
    case Beyond => Beyond
    case Read(v, q) =>
      match UploadAll(ks[1..], b, q)
      case Beyond => Beyond
      case Read(rest, r) => Read([v] + rest, r)
  }

  lemma {:induction false} AllRound(vs: seq<Value>, b: Bytes, p: nat)
    requires At(b, p, SaveAll(vs))
    ensures UploadAll(Kinds(vs), b, p) == Read(vs, p + |SaveAll(vs)|)
    decreases |vs|
  {
    hide Save, UploadValue, KindOf;
    if vs != [] {
      AtSplit(b, p, Save(vs[0]), SaveAll(vs[1..]));
      ValueRound(vs[0], b, p);
      hide At;
      AllRound(vs[1..], b, p + |Save(vs[0])|);
      assert Kinds(vs)[1..] == Kinds(vs[1..]) && [vs[0]] + vs[1..] == vs;
    }
  }

  /** Self-delimiting: between any bytes, values of any kinds saved one after the other are read back, and
      the position ends exactly behind the last. */
  lemma SelfDelimiting(vs: seq<Value>, before: Bytes, rest: Bytes)
    ensures UploadAll(Kinds(vs), before + SaveAll(vs) + rest, |before|) == Read(vs, |before| + |SaveAll(vs)|)
  {
    var b := before + SaveAll(vs) + rest;
    assert b[|before|..|before| + |SaveAll(vs)|] == SaveAll(vs);
    AllRound(vs, b, |before|);
  }

  /** Among values of the same kinds no encoding is a proper prefix of another, and different values have
      different encodings. */
  lemma PrefixFree(vs: seq<Value>, ws: seq<Value>)
    requires Kinds(vs) == Kinds(ws) && SaveAll(vs) <= SaveAll(ws)
    ensures vs == ws
  {
    hide SaveAll, UploadAll, Kinds;
    var rest := SaveAll(ws)[|SaveAll(vs)|..];
    assert [] + SaveAll(vs) + rest == SaveAll(ws) && [] + SaveAll(ws) + [] == SaveAll(ws);
    SelfDelimiting(vs, [], rest);
    SelfDelimiting(ws, [], []);
  }
}
