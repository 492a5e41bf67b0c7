/** The channel of packets the dialogs use, realised on bytes: content codec inside frames on a stream. */
module PacketWire {
  import opened Types
  import opened Wire
  import opened Contents
  import opened Walks
  import opened Framing
  import Nodes

  /** The failed flag is bit 0 of the first unit; a unit nobody wrote reads as zero. */
  function FlagOf(unit: Bytes): bool {
    unit != [] && unit[0] % 2 == 1
  }

  /** What `flag` makes of the flags unit: it may not have been written yet. */
  ghost predicate FlagUnit(flag: bool, unit: Bytes) {
    unit == [if flag then 1 else 0] || (!flag && unit == [])
  }

  /** The number of user units a processor type registers. */
  type UnitCounts = map<int, nat>

  ghost predicate Sendable(counts: UnitCounts, pkt: Nodes.Packet) {
    && 0 <= pkt.ptype < 0x1_0000_0000 && 0 <= pkt.key < 0x8000_0000
    && pkt.ptype in counts && |pkt.body.units| == counts[pkt.ptype]
    && Sized(pkt.body.units) && |Encode(pkt.body.units)| < 0x7FFF_FF00
  }

  function Raw(counts: UnitCounts, pkt: Nodes.Packet, flagUnit: Bytes): RawPacket
    requires Sendable(counts, pkt) && FlagUnit(pkt.body.flag, flagUnit)
  {
    RawPacket(pkt.ptype, pkt.key, Int32(|flagUnit|) + flagUnit + Encode(pkt.body.units))
  }

  /** What a processor that registers `n` units, the flags unit among them, makes of a payload; `behind` is
      what lies behind it in memory. None when the walk has left the payload. */
  function ContentOf(payload: Bytes, behind: Bytes, n: nat): Option<Nodes.Payload>
    requires |behind| == 3 && n > 0
  {
    if payload == [] then Some(Nodes.Keeps)
    else if |payload| < 4 then Some(Nodes.Refuses(false))
    else
      match Walk(payload, behind, n, 0)
      case Loaded(items) => Some(Nodes.Loads(Nodes.Product(FlagOf(items[0]), items[1..])))
      case Rejected => Some(Nodes.Refuses(true))
      case Strayed => None
  }

  /** The packet a frame holds for a peer that knows its type. */
  function Cooked(counts: UnitCounts, raw: RawPacket, behind: Bytes): Option<Nodes.Packet>
    requires |behind| == 3
  {
    if raw.ptype !in counts then None else
    match ContentOf(raw.payload, behind, counts[raw.ptype] + 1)
    case Some(Loads(body)) => Some(Nodes.Packet(raw.ptype, ToInt32(raw.transaction), body))
    case _ => None
  }

  lemma PacketRound(counts: UnitCounts, pkt: Nodes.Packet, flagUnit: Bytes, behind: Bytes)
    requires Sendable(counts, pkt) && FlagUnit(pkt.body.flag, flagUnit) && |behind| == 3
    ensures Raw(counts, pkt, flagUnit).Ok() && Cooked(counts, Raw(counts, pkt, flagUnit), behind) == Some(pkt)
  {
    hide Encode, Decode, Int32, Strays, Walk;
    var items := [flagUnit] + pkt.body.units;
    EncodeCons(flagUnit, pkt.body.units);
    DecodeEncode(items);
    EncodedStaysInside(items, behind, |items|);
    WalkDecodes(Encode(items), behind, |items|, 0);
    assert items[1..] == pkt.body.units;
  }

  ghost predicate AllSendable(counts: UnitCounts, pkts: seq<Nodes.Packet>, flags: seq<Bytes>) {
    |pkts| == |flags| && forall i :: 0 <= i < |pkts| ==> Sendable(counts, pkts[i]) && FlagUnit(pkts[i].body.flag, flags[i])
  }

  /** The frames of a channel's packets. */
  function RawAll(counts: UnitCounts, pkts: seq<Nodes.Packet>, flags: seq<Bytes>): (r: seq<RawPacket>)
    requires AllSendable(counts, pkts, flags)
    ensures |r| == |pkts| && forall i :: 0 <= i < |r| ==> r[i] == Raw(counts, pkts[i], flags[i])
  {
    seq(|pkts|, i requires 0 <= i < |pkts| => Raw(counts, pkts[i], flags[i]))
  }

  /** Every sendable packet fits a frame. */
  lemma RawAllOk(counts: UnitCounts, pkts: seq<Nodes.Packet>, flags: seq<Bytes>)
    requires AllSendable(counts, pkts, flags)
    ensures AllOk(RawAll(counts, pkts, flags))
  {
    forall i | 0 <= i < |pkts|
      ensures Raw(counts, pkts[i], flags[i]).Ok()
    {
      PacketRound(counts, pkts[i], flags[i], [0, 0, 0]);
    }
  }

  /** Takes the frame at the head off a stream. */
  function TakeFrame(b: Bytes): (r: Option<(RawPacket, Bytes)>)
    ensures r.Some? ==> |r.value.1| < |b|
  {
    if |b| < 4 then None else
    var n := FromInt32(b[..4]);
    if n <= 0 || n > |b| - 4 then None else
    match Strip(b[4..4 + n])
    case None => None
    case Some(p) => Some((p, b[4 + n..]))
  }

  lemma TakeFrameRound(q: RawPacket, rest: Bytes)
    requires q.Ok()
    ensures TakeFrame(Frame(q) + rest) == Some((q, rest))
  {
    var b := Frame(q) + rest;
    FrameHead(q, rest);
    StripBody(q);
    var n := |Framing.Body(q)|;
    hide Frame, Strip, FromInt32, Framing.Body;
    assert b[4..4 + n] == b[4..][..n] && b[4 + n..] == b[4..][n..];
  }

  /** Takes frames off a stream until it is used up. */
  function TakeFrames(b: Bytes): Option<seq<RawPacket>>
    decreases |b|
  {
    if b == [] then Some([]) else
    match TakeFrame(b)
    case None => None
    case Some((p, rest)) =>
      match TakeFrames(rest)
      case None => None
      case Some(ps) => Some([p] + ps)
  }

  lemma {:induction false} TakeFramesRound(ps: seq<RawPacket>)
    requires AllOk(ps)
    ensures TakeFrames(Frames(ps)) == Some(ps)
    decreases |ps|
  {
    if ps != [] {
      TakeFrameRound(ps[0], Frames(ps[1..]));
      hide TakeFrame;
      TakeFramesRound(ps[1..]);
      assert [ps[0]] + ps[1..] == ps;
    }
  }

  /** A channel on bytes is a channel of packets: whatever packets are laid out and framed one after the
      other, with the flags unit written or not, taking the stream apart gives the same packets in order. */
  lemma ChannelRound(counts: UnitCounts, pkts: seq<Nodes.Packet>, flags: seq<Bytes>, behind: Bytes)
    requires AllSendable(counts, pkts, flags) && |behind| == 3
    ensures AllOk(RawAll(counts, pkts, flags))
    ensures var got := TakeFrames(Frames(RawAll(counts, pkts, flags)));
      got.Some? && |got.value| == |pkts| && forall i :: 0 <= i < |pkts| ==> Cooked(counts, got.value[i], behind) == Some(pkts[i])
  {
    RawAllOk(counts, pkts, flags);
    var raws := RawAll(counts, pkts, flags);
    TakeFramesRound(raws);
    forall i | 0 <= i < |pkts|
      ensures Cooked(counts, raws[i], behind) == Some(pkts[i])
    {
      PacketRound(counts, pkts[i], flags[i], behind);
    }
  }
}
