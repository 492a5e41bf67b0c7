/** What a packet's bytes mean to the peer they reach: header, content, and payloads that are no content. */
module Payloads {
  import opened Types
  import opened Wire
  import opened Contents
  import opened Walks
  import opened ActionLines
  import opened Nodes
  import opened Framing
  import opened PacketWire

  /** The header of a packet, which names a type and a transaction; the content is yet to be taken apart. */
  function Header(b: Bytes): Packet
    requires |b| >= 8
  {
    Packet(FromWord(b[..4]), ToInt32(FromWord(b[4..8])), Product(false, []))
  }

  /** The type comes first, the transaction second, as in every frame. */
  lemma HeaderBytes(b: Bytes)
    requires |b| >= 8
    ensures Header(b).ptype == WordAt(b, 0) && Header(b).key == ToInt32(WordAt(b, 4))
  {
    WordIsLe(b, 0);
    WordIsLe(b, 4);
    assert b[0..4] == b[..4];
  }

  /** These are the bytes of the packet, behind the length of its frame. */
  ghost predicate PacketBytes(counts: UnitCounts, b: Bytes, pkt: Packet, flagUnit: Bytes) {
    && Sendable(counts, pkt) && FlagUnit(pkt.body.flag, flagUnit)
    && Raw(counts, pkt, flagUnit).Ok() && b == Body(Raw(counts, pkt, flagUnit))
  }

  /** The payload by offset: the flags unit behind its length, then the units in order behind theirs. */
  lemma RawBytes(counts: UnitCounts, pkt: Packet, flagUnit: Bytes)
    requires Sendable(counts, pkt) && FlagUnit(pkt.body.flag, flagUnit)
    ensures var b := Raw(counts, pkt, flagUnit).payload;
      var n := |flagUnit|;
      && |b| >= 4 + n && WordAt(b, 0) == n && b[4..4 + n] == flagUnit && b[4 + n..] == Encode(pkt.body.units)
  {
    var b := Raw(counts, pkt, flagUnit).payload;
    IntBytes(|flagUnit|);
    hide Int32, Encode;
    assert b[0..4] == Int32(|flagUnit|)[0..4];
    SameWord(b, 0, Int32(|flagUnit|), 0);
  }

  // ----- payloads of every kind

  /** When a payload is taken for what: loaded exactly as its items decode, kept when it is empty, refused
      when it does not decode, emptying the items unless it is too short; it strays exactly where no int
      holds the end of an item. */
  lemma ContentExactly(payload: Bytes, behind: Bytes, n: nat)
    requires |behind| == 3 && n > 0 && |payload| < INT_LIMIT
    ensures var c := ContentOf(payload, behind, n);
      && (c == Some(Keeps) <==> payload == [])
      && (c == Some(Refuses(false)) <==> 0 < |payload| < 4)
      && (c.None? <==> |payload| >= 4 && Strays(payload, behind, n, 0))
      && (c == Some(Refuses(true)) <==> |payload| >= 4 && !Strays(payload, behind, n, 0) && Decode(payload, n).None?)
      && (c.Some? && c.value.Loads? <==> |payload| >= 4 && Decode(payload, n).Some?)
      && (c.Some? && c.value.Loads? ==>
            var items := Decode(payload, n).value;
            && |items| == n
            && c.value.body.units == items[1..]
            && (c.value.body.flag <==> items[0] != [] && items[0][0] % 2 == 1))
  {
    StraysExactly(payload, behind, n, 0);
    WalkDecodes(payload, behind, n, 0);
    EncodeDecode(payload, n);
    hide Walk, Strays, Decode, Encode;
  }

  /** A refused payload runs no step, calls no handler, queues and recycles nothing; it leaves as many
      units as there were, all of them and the flags unit empty, or all of them as they were. */
  lemma RefusedPayload<Id>(lines: Lines, n: Node<Id>, key: int, emptied: bool, out: Steps)
    requires NodeOk(lines, n) && key in n.space && lines[n.procs[n.space[key]].ptype] != []
    ensures var o := AcceptAs(lines, n, key, Refuses(emptied), out);
      var p := n.space[key];
      && p in o.node.procs
      && var (was, q) := (n.procs[p], o.node.procs[p]);
         && o.node == n.(procs := n.procs[p := q])
         && o.event == Event(p, key, was.position, [], false, None, false, false)
         && q == was.(units := q.units, unitFlag := q.unitFlag)
         && (if emptied then |q.units| == |was.units| && !q.unitFlag && forall i :: 0 <= i < |q.units| ==> q.units[i] == []
             else q.units == was.units && q.unitFlag == was.unitFlag)
  {
  }

  /** A type without a line refuses every payload and keeps its processor as it was. */
  lemma NoLineRefuses<Id>(lines: Lines, n: Node<Id>, key: int, content: Payload, out: Steps)
    requires NodeOk(lines, n) && key in n.space && lines[n.procs[n.space[key]].ptype] == []
    ensures var o := AcceptAs(lines, n, key, content, out);
      && o.node == n
      && o.event == Event(n.space[key], key, n.procs[n.space[key]].position, [], false, None, false, false)
  {
    var p := n.space[key];
    assert n.procs[p := n.procs[p]] == n.procs;
  }

  /** An empty payload is taken like a packet that carries the content the processor already has. */
  lemma EmptyPayload<Id>(lines: Lines, n: Node<Id>, key: int, out: Steps)
    requires NodeOk(lines, n) && key in n.space
    ensures var q := n.procs[n.space[key]];
      AcceptAs(lines, n, key, Keeps, out) == Accept(lines, n, Packet(q.ptype, key, Product(q.unitFlag, q.units)), out)
  {
    var p := n.procs[n.space[key]];
    var body := Product(p.unitFlag, p.units);
    assert Answer(lines[p.ptype], p, Keeps, out) == Receive(lines[p.ptype], p, body, out);
    hide Answer, Receive;
  }

  // ----- the bytes of a packet

  /** The processor of transaction `key` has taken the payload apart and acted on it, or has strayed. */
  ghost predicate Consumed<Id>(lines: Lines, m: Node<Id>, key: int, payload: Bytes, behind: Bytes, counts: UnitCounts,
                               out: Steps, strayed: bool, after: Node<Id>, e: Event<Id>)
  {
    && NodeOk(lines, m) && key in m.space && |behind| == 3 && m.procs[m.space[key]].ptype in counts
    && var content := ContentOf(payload, behind, counts[m.procs[m.space[key]].ptype] + 1);
       && (strayed <==> content.None?)
       && (if strayed then after == m else Outcome(after, e) == AcceptAs(lines, m, key, content.value, out))
  }

  /** The peer knows the transaction by this type, or does not know it and knows the type. */
  ghost predicate Expects<Id>(lines: Lines, n: Node<Id>, pkt: Packet) {
    if pkt.key in n.space then n.space[pkt.key] in n.procs && n.procs[n.space[pkt.key]].ptype == pkt.ptype
    else pkt.ptype in lines
  }

  lemma PacketHeader(counts: UnitCounts, b: Bytes, pkt: Packet, flagUnit: Bytes, behind: Bytes)
    requires PacketBytes(counts, b, pkt, flagUnit) && |behind| == 3
    ensures |b| >= 8 && Header(b).ptype == pkt.ptype && Header(b).key == pkt.key
    ensures ContentOf(b[8..], behind, counts[pkt.ptype] + 1) == Some(Loads(pkt.body))
  {
    var raw := Raw(counts, pkt, flagUnit);
    FrameBytes(raw);
    HeaderBytes(b);
    PacketRound(counts, pkt, flagUnit, behind);
    hide ContentOf, Header, Raw;
    RawFields(counts, pkt, flagUnit);
  }

  lemma RawFields(counts: UnitCounts, pkt: Packet, flagUnit: Bytes)
    requires Sendable(counts, pkt) && FlagUnit(pkt.body.flag, flagUnit)
    ensures Raw(counts, pkt, flagUnit).ptype == pkt.ptype && Raw(counts, pkt, flagUnit).transaction == pkt.key
    ensures ToInt32(pkt.key) == pkt.key
  {
  }

  /** The processor registered for a packet that is expected is one of its type. */
  lemma AdmitsHeader<Id>(lines: Lines, n: Node<Id>, h: Packet, pkt: Packet, spare: Id)
    requires NodeOk(lines, n) && Expects(lines, n, pkt) && h.ptype == pkt.ptype && h.key == pkt.key
    ensures pkt.key in n.space || pkt.ptype in lines
    ensures var m := Admit(lines, n, h, spare);
      && m == Admit(lines, n, pkt, spare) && m.space[pkt.key] in m.procs
      && (PoolTyped(n, pkt.ptype) ==> m.procs[m.space[pkt.key]].ptype == pkt.ptype)
  {
    hide NodeOk;
    if pkt.key !in n.space {
      TakeOk(lines, n, pkt.ptype, spare);
    }
  }

  /** The processors pooled for a type are of that type. */
  ghost predicate PoolTyped<Id>(n: Node<Id>, t: int) {
    forall p :: p in PoolOf(n, t) ==> p in n.procs && n.procs[p].ptype == t
  }

  /** On the bytes of a packet the peer expects, whatever lies behind them in memory, `process` does not
      stray and does exactly what it does on the packet. */
  lemma BytesArePacket<Id>(lines: Lines, n: Node<Id>, counts: UnitCounts, b: Bytes, pkt: Packet, flagUnit: Bytes,
                           behind: Bytes, out: Steps, spare: Id, strayed: bool, after: Node<Id>, e: Event<Id>)
    requires NodeOk(lines, n) && PacketBytes(counts, b, pkt, flagUnit) && Expects(lines, n, pkt) && PoolTyped(n, pkt.ptype)
    requires |b| >= 8 && |behind| == 3 && (Header(b).key in n.space || Header(b).ptype in lines)
    requires Consumed(lines, Admit(lines, n, Header(b), spare), Header(b).key, b[8..], behind, counts, out, strayed, after, e)
    ensures !strayed && Outcome(after, e) == Process(lines, n, pkt, out, spare)
  {
    PacketHeader(counts, b, pkt, flagUnit, behind);
    AdmitsHeader(lines, n, Header(b), pkt, spare);
    hide NodeOk, Header, ContentOf, AcceptAs, Accept, Admit, PacketBytes, PoolTyped;
    LoadsIsAccept(lines, Admit(lines, n, pkt, spare), pkt, out);
  }
}
