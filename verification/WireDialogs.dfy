/** The dialogs over byte streams: a run on bytes is a run on packets, so everything proved of those holds. */
module WireDialogs {
  import opened Types
  import opened ActionLines
  import opened CursorLists
  import opened Nodes
  import opened DialogPhases
  import opened Dialogs
  import opened DialogSteps
  import opened DialogTheorems
  import opened DialogProgress
  import opened Wire
  import opened Contents
  import opened Framing
  import opened PacketWire

  /** Two peers and the bytes on their way to each of them; the inboxes of the sites stay empty. */
  datatype Wired<Id(==)> = Wired(world: World<Id>, initiatorStream: Bytes, acceptorStream: Bytes) {
    function Stream(x: Peer): Bytes {
      if x.Initiator? then initiatorStream else acceptorStream
    }
  }

  /** What a call depends on besides: the flags unit as it is laid out, and the memory behind a payload. */
  datatype Memory = Memory(flagUnit: Bytes, behind: Bytes)

  ghost function Emptied<Id>(s: Site<Id>): Site<Id> {
    s.(inbox := [])
  }

  ghost function WorldEmptied<Id>(w: World<Id>): World<Id> {
    World(Emptied(w.initiator), Emptied(w.acceptor), w.dialogs)
  }

  /** The acting peer with the packet received at hand, and what is left on its stream. A delivery takes
      one frame, strips the header and takes the payload apart. */
  ghost function Received<Id>(counts: UnitCounts, v: Wired<Id>, act: Act<Id>, m: Memory): Option<(Site<Id>, Bytes)>
    requires |m.behind| == 3
  {
    var s, stream := v.world.At(act.x), v.Stream(act.x);
    if !act.Deliver? then Some((s, stream)) else
    match TakeFrame(stream)
    case None => None
    case Some((raw, rest)) =>
      match Cooked(counts, raw, m.behind)
      case None => None
      case Some(pkt) => Some((s.(inbox := [pkt]), rest))
  }

  ghost function SentBy<Id>(e: Event<Id>): Option<Packet> {
    if e.Event? then e.sent else None
  }

  /** The bytes a call puts on the stream to the other peer. */
  function Laid(counts: UnitCounts, sent: Option<Packet>, flagUnit: Bytes): Bytes
    requires sent.Some? ==> Sendable(counts, sent.value) && FlagUnit(sent.value.body.flag, flagUnit)
  {
    if sent.None? then [] else
    PacketRound(counts, sent.value, flagUnit, [0, 0, 0]);
    Frame(Raw(counts, sent.value, flagUnit))
  }

  ghost function Streams<Id>(u: World<Id>, x: Peer, own: Bytes, other: Bytes): Wired<Id> {
    if x.Initiator? then Wired(u, own, other) else Wired(u, other, own)
  }

  /** Where the packet of a call goes. */
  ghost predicate Written<Id>(counts: UnitCounts, v: Wired<Id>, x: Peer, flagUnit: Bytes, rest: Bytes,
                              sent: Option<Packet>, w': World<Id>, v': Wired<Id>)
  {
    && (sent.Some? ==> Sendable(counts, sent.value) && FlagUnit(sent.value.body.flag, flagUnit))
    && v' == Streams(WorldEmptied(w'), x, rest, v.Stream(Other(x)) + Laid(counts, sent, flagUnit))
  }

  /** The call itself, on the acting peer `s` as Received gives it. The callbacks answer as in Step. */
  ghost predicate Called<Id>(lines: Lines, counts: UnitCounts, v: Wired<Id>, act: Act<Id>, flagUnit: Bytes,
                             s: Site<Id>, rest: Bytes, v': Wired<Id>)
  {
    var u := v.world.Put(act.x, s);
    && Defined(lines, u) && Enabled(lines, u, act) && Step(lines, u, act, Next(lines, u, act))
    && Written(counts, v, act.x, flagUnit, rest, SentBy(EventOf(lines, u, act)), Next(lines, u, act), v')
  }

  /** One call on one peer, its packets read from and written to byte streams. */
  ghost predicate WireStep<Id>(lines: Lines, counts: UnitCounts, v: Wired<Id>, act: Act<Id>, m: Memory, v': Wired<Id>) {
    && |m.behind| == 3 && Received(counts, v, act, m).Some?
    && Called(lines, counts, v, act, m.flagUnit, Received(counts, v, act, m).value.0, Received(counts, v, act, m).value.1, v')
  }

  // ----- a stream and the packets on it

  ghost predicate CarriedBy(counts: UnitCounts, stream: Bytes, inbox: seq<Packet>, flags: seq<Bytes>) {
    && AllSendable(counts, inbox, flags)
    && AllOk(RawAll(counts, inbox, flags)) && stream == Frames(RawAll(counts, inbox, flags))
  }

  ghost predicate Carried(counts: UnitCounts, stream: Bytes, inbox: seq<Packet>) {
    exists flags: seq<Bytes> :: CarriedBy(counts, stream, inbox, flags)
  }

  lemma EmptyCarried(counts: UnitCounts)
    ensures Carried(counts, [], [])
  {
    assert CarriedBy(counts, [], [], []);
  }

  /** The head of a stream is the first packet on it, whatever lies behind the payload in memory. */
  lemma CarriedHead(counts: UnitCounts, stream: Bytes, inbox: seq<Packet>, behind: Bytes)
    requires Carried(counts, stream, inbox) && |behind| == 3
    ensures stream == [] <==> inbox == []
    ensures inbox == [] ==> TakeFrame(stream).None?
    ensures inbox != [] ==>
      && TakeFrame(stream).Some?
      && Cooked(counts, TakeFrame(stream).value.0, behind) == Some(inbox[0])
      && Carried(counts, TakeFrame(stream).value.1, inbox[1..])
  {
    var flags :| CarriedBy(counts, stream, inbox, flags);
    if inbox != [] {
      var raws := RawAll(counts, inbox, flags);
      PacketRound(counts, inbox[0], flags[0], behind);
      FramesHead(raws);
      hide TakeFrame, Frame, Frames, Cooked, Sendable, FlagUnit, Raw;
      TakeFrameRound(raws[0], Frames(raws[1..]));
      FrameNotEmpty(raws[0], Frames(raws[1..]));
      CarriedRest(counts, inbox, flags);
    }
  }

  lemma CarriedRest(counts: UnitCounts, inbox: seq<Packet>, flags: seq<Bytes>)
    requires AllSendable(counts, inbox, flags) && inbox != [] && AllOk(RawAll(counts, inbox, flags))
    ensures AllOk(RawAll(counts, inbox, flags)[1..]) && Carried(counts, Frames(RawAll(counts, inbox, flags)[1..]), inbox[1..])
  {
    hide Sendable, FlagUnit, Raw, Frames;
    assert RawAll(counts, inbox, flags)[1..] == RawAll(counts, inbox[1..], flags[1..]);
    assert CarriedBy(counts, Frames(RawAll(counts, inbox[1..], flags[1..])), inbox[1..], flags[1..]);
  }

  lemma FramesHead(ps: seq<RawPacket>)
    requires AllOk(ps) && ps != []
    ensures Frames(ps) == Frame(ps[0]) + Frames(ps[1..])
  {
  }

  lemma FrameNotEmpty(q: RawPacket, rest: Bytes)
    requires q.Ok()
    ensures Frame(q) + rest != []
  {
  }

  lemma {:induction false} FramesAppend(ps: seq<RawPacket>, q: RawPacket)
    requires AllOk(ps) && q.Ok()
    ensures AllOk(ps + [q]) && Frames(ps + [q]) == Frames(ps) + Frame(q)
    decreases |ps|
  {
    hide Frame;
    if ps == [] {
      assert [] + [q] == [q] && Frames([q]) == Frame(q) + [] && [q][1..] == [];
    } else {
      var all := ps + [q];
      assert all[0] == ps[0] && all[1..] == ps[1..] + [q];
      FramesAppend(ps[1..], q);
      Assoc(Frame(ps[0]), Frames(ps[1..]), Frame(q));
    }
  }

  lemma RawAppend(counts: UnitCounts, inbox: seq<Packet>, flags: seq<Bytes>, pkt: Packet, flagUnit: Bytes)
    requires AllSendable(counts, inbox, flags) && Sendable(counts, pkt) && FlagUnit(pkt.body.flag, flagUnit)
    ensures AllSendable(counts, inbox + [pkt], flags + [flagUnit])
    ensures RawAll(counts, inbox + [pkt], flags + [flagUnit]) == RawAll(counts, inbox, flags) + [Raw(counts, pkt, flagUnit)]
  {
    hide Sendable, FlagUnit, Raw;
  }

  lemma CarriedMore(counts: UnitCounts, stream: Bytes, inbox: seq<Packet>, pkt: Packet, flagUnit: Bytes)
    requires Carried(counts, stream, inbox) && Sendable(counts, pkt) && FlagUnit(pkt.body.flag, flagUnit)
    ensures Carried(counts, stream + Laid(counts, Some(pkt), flagUnit), inbox + [pkt])
  {
    var flags :| CarriedBy(counts, stream, inbox, flags);
    PacketRound(counts, pkt, flagUnit, [0, 0, 0]);
    RawAppend(counts, inbox, flags, pkt, flagUnit);
    FramesAppend(RawAll(counts, inbox, flags), Raw(counts, pkt, flagUnit));
    hide Frame, Frames, Sendable, FlagUnit, AllSendable, RawAll, Raw;
    assert CarriedBy(counts, stream + Laid(counts, Some(pkt), flagUnit), inbox + [pkt], flags + [flagUnit]);
  }

  // ----- the simulation

  ghost predicate Mirrors<Id>(counts: UnitCounts, v: Wired<Id>, w: World<Id>) {
    && v.world == WorldEmptied(w)
    && Carried(counts, v.initiatorStream, w.initiator.inbox) && Carried(counts, v.acceptorStream, w.acceptor.inbox)
  }

  /** A delivery on bytes hands over the packet at the head of the channel. */
  lemma ReceivesHead<Id>(counts: UnitCounts, v: Wired<Id>, w: World<Id>, act: Act<Id>, m: Memory)
    requires Mirrors(counts, v, w) && |m.behind| == 3 && Received(counts, v, act, m).Some?
    ensures var (s, rest) := Received(counts, v, act, m).value;
      if act.Deliver? then
        w.At(act.x).inbox != [] && s == w.At(act.x).(inbox := w.At(act.x).inbox[..1]) && Carried(counts, rest, w.At(act.x).inbox[1..])
      else s == Emptied(w.At(act.x)) && rest == v.Stream(act.x)
  {
    hide Carried, TakeFrame, Cooked;
    CarriedHead(counts, v.Stream(act.x), w.At(act.x).inbox, m.behind);
    assert act.Deliver? ==> w.At(act.x).inbox[..1] == [w.At(act.x).inbox[0]];
  }

  /** The call sees the same packet, so it does the same: only inboxes differ. */
  lemma SameMove<Id>(lines: Lines, s: Site<Id>, t: Site<Id>, act: Act<Id>)
    requires NodeOk(lines, s.node) && s.node == t.node && s.held == t.held
    requires act.Submit? ==> act.id in s.node.procs
    requires act.Deliver? ==> s.inbox != [] && t.inbox != [] && s.inbox[0] == t.inbox[0]
    ensures var ((s', e), (t', f)) := (Move(lines, s, act), Move(lines, t, act));
      && e == f && Emptied(s') == Emptied(t')
      && t'.inbox == if act.Deliver? then t.inbox[1..] else t.inbox
  {
    hide NodeOk, Generate, Process, Send;
  }

  /** The peer of the byte world and that of the packet world: the same but for the inbox. */
  ghost predicate Alike<Id>(u: World<Id>, w: World<Id>, act: Act<Id>) {
    && u.dialogs == w.dialogs && Emptied(u.At(act.x)) == Emptied(w.At(act.x))
    && u.At(Other(act.x)) == Emptied(w.At(Other(act.x)))
    && (act.Deliver? ==>
          u.At(act.x).inbox != [] && w.At(act.x).inbox != [] && u.At(act.x).inbox[0] == w.At(act.x).inbox[0])
  }

  lemma SameStep<Id>(lines: Lines, u: World<Id>, w: World<Id>, act: Act<Id>)
    requires Alike(u, w, act) && Defined(lines, u) && Enabled(lines, u, act) && Step(lines, u, act, Next(lines, u, act))
    ensures Defined(lines, w) && Enabled(lines, w, act) && Step(lines, w, act, Next(lines, w, act))
    ensures EventOf(lines, w, act) == EventOf(lines, u, act)
  {
    SameNodes(lines, u, w, act);
    SameEvent(lines, u, w, act);
    hide NodeOk, Defined, Enabled, Move, Next, Civil, EventOf, Alike, Roomy, NoRepeat;
    SameCivil(lines, Move(lines, u.At(act.x), act).0, Move(lines, w.At(act.x), act).0, EventOf(lines, u, act));
  }

  lemma SameEvent<Id>(lines: Lines, u: World<Id>, w: World<Id>, act: Act<Id>)
    requires Alike(u, w, act) && Defined(lines, u) && Enabled(lines, u, act) && Defined(lines, w) && Enabled(lines, w, act)
    ensures EventOf(lines, w, act) == EventOf(lines, u, act)
    ensures Emptied(Move(lines, u.At(act.x), act).0) == Emptied(Move(lines, w.At(act.x), act).0)
  {
    hide NodeOk, Move;
    SameMove(lines, u.At(act.x), w.At(act.x), act);
  }

  lemma SameNodes<Id>(lines: Lines, u: World<Id>, w: World<Id>, act: Act<Id>)
    requires Alike(u, w, act) && Defined(lines, u) && Enabled(lines, u, act)
    ensures Defined(lines, w) && Enabled(lines, w, act) && (Roomy(u) ==> Roomy(w))
  {
    hide NodeOk;
  }

  lemma SameCivil<Id>(lines: Lines, s: Site<Id>, t: Site<Id>, e: Event<Id>)
    requires Emptied(s) == Emptied(t) && Civil(lines, s, e)
    ensures Civil(lines, t, e)
  {
  }

  /** The two worlds after the call, and the inboxes of the packet world. */
  lemma SameNext<Id>(lines: Lines, u: World<Id>, w: World<Id>, act: Act<Id>)
    requires Alike(u, w, act) && Defined(lines, u) && Enabled(lines, u, act) && Defined(lines, w) && Enabled(lines, w, act)
    ensures WorldEmptied(Next(lines, u, act)) == WorldEmptied(Next(lines, w, act))
    ensures var w' := Next(lines, w, act);
      var sent := SentBy(EventOf(lines, w, act));
      && w'.At(act.x).inbox == (if act.Deliver? then w.At(act.x).inbox[1..] else w.At(act.x).inbox)
      && w'.At(Other(act.x)).inbox == w.At(Other(act.x)).inbox + (if sent.Some? then [sent.value] else [])
  {
    hide NodeOk, Move, Noted;
    SameMove(lines, u.At(act.x), w.At(act.x), act);
    assert act.Submit? ==> Emptied(u.At(act.x)) == Emptied(w.At(act.x));
  }

  /** One call on bytes is one call on packets. */
  lemma Simulates<Id>(lines: Lines, counts: UnitCounts, v: Wired<Id>, w: World<Id>, act: Act<Id>, m: Memory, v': Wired<Id>)
    requires Mirrors(counts, v, w) && WireStep(lines, counts, v, act, m, v')
    ensures Defined(lines, w) && Enabled(lines, w, act) && Step(lines, w, act, Next(lines, w, act))
    ensures Mirrors(counts, v', Next(lines, w, act))
  {
    ReceivesHead(counts, v, w, act, m);
    var (s, rest) := Received(counts, v, act, m).value;
    var u := v.world.Put(act.x, s);
    hide Step, Next, Enabled, Defined, Carried, Received;
    assert Alike(u, w, act);
    SameStep(lines, u, w, act);
    SameNext(lines, u, w, act);
    var sent := SentBy(EventOf(lines, w, act));
    var y := Other(act.x);
    if sent.Some? {
      CarriedMore(counts, v.Stream(y), w.At(y).inbox, sent.value, m.flagUnit);
    } else {
      assert v.Stream(y) + [] == v.Stream(y) && w.At(y).inbox + [] == w.At(y).inbox;
    }
  }

  ghost predicate WireRun<Id>(lines: Lines, counts: UnitCounts, vs: seq<Wired<Id>>, acts: seq<Act<Id>>, ms: seq<Memory>) {
    && |vs| == |acts| + 1 && |ms| == |acts| && vs[0] == Wired(InitialWorld(), [], [])
    && forall i :: 0 <= i < |acts| ==> WireStep(lines, counts, vs[i], acts[i], ms[i], vs[i + 1])
  }

  /** Every run over byte streams is a run over channels of packets, state by state: the same processors,
      pools, queues and histories, and on each stream exactly the frames of the packets under way. */
  lemma {:induction false} WireRunIsRun<Id>(lines: Lines, counts: UnitCounts, vs: seq<Wired<Id>>, acts: seq<Act<Id>>, ms: seq<Memory>)
    returns (ws: seq<World<Id>>)
    requires WireRun(lines, counts, vs, acts, ms)
    ensures Run(lines, ws, acts) && |ws| == |vs| && forall i :: 0 <= i < |vs| ==> Mirrors(counts, vs[i], ws[i])
    decreases |acts|
  {
    hide WireRun, WireStep, Step, Mirrors, Run;
    WireParts(lines, counts, vs, acts, ms);
    if acts == [] {
      ws := [InitialWorld()];
      InitialMirrors<Id>(counts);
      InitialRun<Id>(lines);
    } else {
      var n := |acts| - 1;
      ws := WireRunIsRun(lines, counts, vs[..n + 1], acts[..n], ms[..n]);
      assert Mirrors(counts, vs[..n + 1][n], ws[n]);
      Simulates(lines, counts, vs[n], ws[n], acts[n], ms[n], vs[n + 1]);
      assert acts == acts[..n] + [acts[n]];
      RunMore(lines, ws, acts[..n], acts[n]);
      hide Next;
      MirrorMore(counts, vs, ws, Next(lines, ws[n], acts[n]));
      ws := ws + [Next(lines, ws[n], acts[n])];
    }
  }

  lemma WireParts<Id>(lines: Lines, counts: UnitCounts, vs: seq<Wired<Id>>, acts: seq<Act<Id>>, ms: seq<Memory>)
    requires WireRun(lines, counts, vs, acts, ms)
    ensures |vs| == |acts| + 1 && |ms| == |acts| && vs[0] == Wired(InitialWorld(), [], [])
    ensures var n := |acts| - 1;
      n >= 0 ==> WireRun(lines, counts, vs[..n + 1], acts[..n], ms[..n]) && WireStep(lines, counts, vs[n], acts[n], ms[n], vs[n + 1])
  {
    hide WireStep;
  }

  lemma MirrorMore<Id>(counts: UnitCounts, vs: seq<Wired<Id>>, ws: seq<World<Id>>, w: World<Id>)
    requires |vs| == |ws| + 1 && Mirrors(counts, vs[|ws|], w)
    requires forall i :: 0 <= i < |ws| ==> Mirrors(counts, vs[..|ws|][i], ws[i])
    ensures forall i :: 0 <= i < |vs| ==> Mirrors(counts, vs[i], (ws + [w])[i])
  {
    hide Mirrors;
    forall i | 0 <= i < |ws|
      ensures Mirrors(counts, vs[i], ws[i])
    {
      assert vs[..|ws|][i] == vs[i];
    }
  }

  lemma RunMore<Id>(lines: Lines, ws: seq<World<Id>>, acts: seq<Act<Id>>, act: Act<Id>)
    requires Run(lines, ws, acts)
    requires var w := ws[|ws| - 1]; Defined(lines, w) && Enabled(lines, w, act) && Step(lines, w, act, Next(lines, w, act))
    ensures Run(lines, ws + [Next(lines, ws[|ws| - 1], act)], acts + [act])
  {
    hide Step, Next, Defined, Enabled;
  }

  lemma InitialRun<Id>(lines: Lines)
    ensures Run<Id>(lines, [InitialWorld()], [])
  {
  }

  lemma InitialMirrors<Id>(counts: UnitCounts)
    ensures Mirrors<Id>(counts, Wired(InitialWorld(), [], []), InitialWorld())
  {
    EmptyCarried(counts);
  }

  /** So what is proved over packets holds over bytes: for one, the trace is always a prefix of the line. */
  lemma WireTraceIsPrefix<Id>(lines: Lines, counts: UnitCounts, vs: seq<Wired<Id>>, acts: seq<Act<Id>>, ms: seq<Memory>, i: nat, k: int)
    requires WellFormed(lines) && WireRun(lines, counts, vs, acts, ms) && i < |vs| && k in vs[i].world.dialogs
    ensures var d := vs[i].world.dialogs[k]; d.ptype in lines && InOrder(lines[d.ptype], d)
  {
    hide WireRun, Run, Carried, InOrder;
    var ws := WireRunIsRun(lines, counts, vs, acts, ms);
    assert Mirrors(counts, vs[i], ws[i]);
    TraceIsPrefix(lines, ws, acts, i, k);
  }

  /** Every byte stream that is not empty hands over a packet: the frame is whole, the payload is taken
      apart without straying or refusal, whatever lies behind it in memory. */
  lemma EveryStreamDelivers<Id>(lines: Lines, counts: UnitCounts, vs: seq<Wired<Id>>, acts: seq<Act<Id>>, ms: seq<Memory>,
                                i: nat, x: Peer, behind: Bytes)
    requires WireRun(lines, counts, vs, acts, ms) && i < |vs| && vs[i].Stream(x) != [] && |behind| == 3
    ensures TakeFrame(vs[i].Stream(x)).Some?
    ensures Cooked(counts, TakeFrame(vs[i].Stream(x)).value.0, behind).Some?
  {
    hide WireRun, Run, Carried;
    var ws := WireRunIsRun(lines, counts, vs, acts, ms);
    assert Mirrors(counts, vs[i], ws[i]);
    CarriedHead(counts, vs[i].Stream(x), ws[i].At(x).inbox, behind);
  }

  // ----- what can be sent

  /** The types fit their word and register as many units as both peers know of. */
  ghost predicate Typed(lines: Lines, counts: UnitCounts) {
    forall t :: t in lines ==> 0 <= t < 0x1_0000_0000 && t in counts
  }

  /** The units of a content are as many as registered and not too large to be laid out. */
  ghost predicate UnitsFit(counts: UnitCounts, pkt: Packet) {
    pkt.ptype in counts && |pkt.body.units| == counts[pkt.ptype] && Sized(pkt.body.units) && |Encode(pkt.body.units)| < 0x7FFF_FF00
  }

  /** In a run over packets, type and index of every packet under way fit their words: whether it can be
      sent depends on its units alone. */
  lemma SendableExactly<Id>(lines: Lines, counts: UnitCounts, ws: seq<World<Id>>, acts: seq<Act<Id>>, i: nat, x: Peer, j: nat)
    requires WellFormed(lines) && Typed(lines, counts) && Run(lines, ws, acts) && i < |ws| && j < |ws[i].At(x).inbox|
    requires |ws[i].initiator.node.space| <= 0x3FFF_FFFF && |ws[i].acceptor.node.space| <= 0x3FFF_FFFF
    ensures Sendable(counts, ws[i].At(x).inbox[j]) <==> UnitsFit(counts, ws[i].At(x).inbox[j])
  {
    hide Run, NodeOk, PoolOk, QueueOk, PhaseOk, Tied, Encode;
    RunInv(lines, ws, acts, i);
    var w := ws[i];
    var pkt := w.At(x).inbox[j];
    assert Carries(lines, x, w.dialogs, pkt);
    DialogStands(lines, w, pkt.key);
  }
}
