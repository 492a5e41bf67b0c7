/** The objects of DPN_TransmitProcessor: processors updated in place, and the packet processor that
    sends, generates and processes with them. Each method does what its specification in Nodes says. */
module PacketProcessors {
  import opened Types
  import opened ActionLines
  import opened CursorLists
  import opened Nodes
  import opened Framing
  import opened PacketWire
  import opened Payloads

  class TransmitProcessor {
    const ptype: int
    var pLine: ActionLine
    var iTransactionIndex: int
    var iPosition: Position
    var resendable: bool
    var transportFailed: bool
    var unitFlags: bool
    var units: Units
    var product: Product

    ghost predicate Valid(lines: Lines)
      reads this, pLine
    {
      pLine.Valid() && pLine.owner == this && ptype in lines && pLine.steps == lines[ptype]
    }

    ghost function Value(): Proc
      reads this, pLine
    {
      Proc(ptype, iTransactionIndex, iPosition, pLine.current, resendable, transportFailed, unitFlags, units, product)
    }

    constructor (lines: Lines, t: int)
      requires t in lines
      ensures Valid(lines) && Value() == NewProc(t) && fresh(pLine)
    {
      ptype := t;
      iTransactionIndex, iPosition := 0, Host;
      resendable, transportFailed, unitFlags := false, false, false;
      units, product := [], Product(false, []);
      var l := MakeLine(lines[t]);
      pLine := l;
      new;
      pLine.owner := this;
    }

    method Clear(ghost lines: Lines)
      requires Valid(lines)
      modifies this`iPosition, pLine
      ensures Valid(lines) && Value() == Nodes.Clear(old(Value()))
    {
      pLine.Restart();
      iPosition := Host;
    }

    /** The opening action. */
    method Action(ghost lines: Lines, out: Steps) returns (r: Result, ghost ran: seq<Ran>)
      requires Valid(lines)
      modifies this`resendable, this`transportFailed, this`units, this`product, pLine
      ensures Valid(lines) && !r.Repeat?
      ensures Acted(Value(), r, ran, r.Fail? && lines[ptype] != []) == Nodes.Action(lines[ptype], old(Value()), out)
    {
      if pLine.steps == [] {
        return Fail, [];
      }
      resendable := false;
      r, units, ran := pLine.GoLine(iPosition, out, units);
      if r.Fail? {
        transportFailed := true;
        return;
      }
      if !pLine.IsOver() {
        resendable := true;
      }
      product := Product(unitFlags, units);
      r := Success;
    }

    /** The action of the side a packet reached; `faulted` tells whether the fault handler ran. */
    method ActionOn(ghost lines: Lines, content: Payload, out: Steps) returns (r: Result, ghost ran: seq<Ran>, ghost faulted: bool)
      requires Valid(lines)
      modifies this`resendable, this`transportFailed, this`unitFlags, this`units, this`product, pLine
      ensures Valid(lines) && !r.Repeat?
      ensures Acted(Value(), r, ran, faulted) == Answer(lines[ptype], old(Value()), content, out)
    {
      if pLine.steps == [] {
        return Fail, [], false;
      }
      match content {
        case Loads(body) => unitFlags, units := body.flag, body.units;
        case Keeps =>
        case Refuses(emptied) =>
          if emptied {
            units := seq(|units|, _ => []);
            unitFlags := false;
          }
          return Fail, [], false;
      }
      transportFailed := unitFlags;
      resendable := false;
      if transportFailed {
        return Fail, [], true;
      }
      faulted := false;
      r, units, ran := pLine.GoLine(iPosition, out, units);
      if r.Fail? {
        faulted := true;
        transportFailed := true;
      }
      if !pLine.IsOver() {
        resendable := true;
        unitFlags := transportFailed;
        product := Product(unitFlags, units);
      }
      r := Success;
    }
  }

  ghost function LinesOf(procs: set<TransmitProcessor>): set<object>
    reads procs
  {
    set p | p in procs :: p.pLine
  }

  ghost function Values(procs: set<TransmitProcessor>): map<TransmitProcessor, Proc>
    reads procs, LinesOf(procs)
  {
    map p | p in procs :: p.Value()
  }

  ghost predicate AllValid(procs: set<TransmitProcessor>, lines: Lines)
    reads procs, LinesOf(procs)
  {
    forall p :: p in procs ==> p.Valid(lines)
  }

  class PacketProcessor {
    const lines: Lines
    var iMinimumIndex: int
    var iMap: map<int, TransmitProcessor>
    var pool: map<int, seq<TransmitProcessor>>
    var iQueue: CursorList<TransmitProcessor>
    var iBackQueue: CursorList<TransmitProcessor>
    ghost var procs: set<TransmitProcessor>  // every processor this peer has created

    ghost function State(): Node<TransmitProcessor>
      reads this, procs, LinesOf(procs)
    {
      Node(iMinimumIndex, iMap, Values(procs), pool, iQueue, iBackQueue)
    }

    ghost predicate Valid()
      reads this, procs, LinesOf(procs)
    {
      AllValid(procs, lines) && NodeOk(lines, State())
    }

    constructor (lines: Lines, initiator: bool)
      ensures Valid() && this.lines == lines && State() == InitialNode(initiator)
    {
      this.lines := lines;
      iMinimumIndex := if initiator then 1 else 0x7FFF_FFFF / 2 + 1;
      iMap, pool := map[], map[];
      iQueue, iBackQueue := Empty(), Empty();
      procs := {};
    }

    /** Two processors never share a line, so a call on one of them leaves the others alone. */
    twostate lemma OthersUnchanged(p: TransmitProcessor)
      requires procs == old(procs) && p in procs
      requires old(AllValid(procs, lines)) && p.Valid(lines) && p.pLine == old(p.pLine)
      requires forall q :: q in procs && q != p ==> unchanged(q) && (q.pLine != p.pLine ==> unchanged(q.pLine))
      ensures AllValid(procs, lines)
      ensures Values(procs) == old(Values(procs))[p := p.Value()]
    {
      forall q | q in procs && q != p
        ensures q.pLine != p.pLine && q.Value() == old(q.Value()) && q.Valid(lines)
      {
        assert old(q.Valid(lines)) && old(p.Valid(lines));
      }
    }

    twostate lemma NoneChanged()
      requires procs == old(procs)
      requires forall q :: q in procs ==> unchanged(q) && unchanged(q.pLine)
      ensures Values(procs) == old(Values(procs)) && AllValid(procs, lines) == old(AllValid(procs, lines))
    {
      assert forall q :: q in procs ==> q.Value() == old(q.Value());
    }

    twostate lemma ProcAdded(new p: TransmitProcessor)
      requires procs == old(procs) && p !in procs && p.Valid(lines)
      requires old(AllValid(procs, lines))
      requires forall q :: q in procs ==> unchanged(q) && unchanged(q.pLine)
      ensures AllValid(procs + {p}, lines)
      ensures Values(procs + {p}) == old(Values(procs))[p := p.Value()]
    {
      forall q | q in procs
        ensures q.Value() == old(q.Value()) && q.Valid(lines)
      {
        assert old(q.Valid(lines));
      }
    }

    /** ProcessorMapWrapper::create. */
    method Create(t: int) returns (p: TransmitProcessor)
      requires Valid() && t in lines
      modifies this`procs
      ensures fresh(p) && fresh(p.pLine) && p !in old(procs) && procs == old(procs) + {p}
      ensures AllValid(procs, lines)
      ensures Values(procs) == old(Values(procs))[p := NewProc(t)]
    {
      p := new TransmitProcessor(lines, t);
      ProcAdded(p);
      procs := procs + {p};
    }

    /** DPN_TransmitProcessorMicroPool::get on a pool that is not empty. */
    method Reuse(t: int) returns (p: TransmitProcessor)
      requires Valid() && t in lines && t in pool && pool[t] != []
      modifies this`pool
      ensures Valid() && p in procs
      ensures p == Taken(old(State()), t, p) && State() == Take(old(State()), t, p)
    {
      ghost var n := State();
      p := pool[t][0];
      assert p in n.pool[t];
      pool := pool[t := pool[t][1..]];
      TakeOk(lines, n, t, p);
    }

    /** DPN_ProcessorPool::getProcessor: none for a type no one creates, though the pool has learnt its name. */
    method GetProcessor(t: int) returns (p: TransmitProcessor?)
      requires Valid()
      modifies this`pool, this`procs
      ensures Valid()
      ensures p == null <==> t !in lines
      ensures p == null ==>
        procs == old(procs) && State() == old(State()).(pool := old(pool)[t := PoolOf(old(State()), t)])
      ensures p != null ==>
        && procs == old(procs) + {p} && (p !in old(procs) ==> fresh(p) && fresh(p.pLine))
        && p == Taken(old(State()), t, p) && State() == Take(old(State()), t, p)
    {
      hide NodeOk, AllValid, Values, LinesOf, Take, Taken;
      if t in lines {
        p := KnownProcessor(t);
      } else {
        LookUp(t);
        p := null;
      }
    }

    /** The oldest pooled processor of the type, or a new one. */
    method KnownProcessor(t: int) returns (p: TransmitProcessor)
      requires Valid() && t in lines
      modifies this`pool, this`procs
      ensures Valid() && p in procs && (p !in old(procs) ==> fresh(p) && fresh(p.pLine))
      ensures procs == old(procs) + {p}
      ensures p == Taken(old(State()), t, p) && State() == Take(old(State()), t, p)
    {
      if t in pool && pool[t] != [] {
        p := Reuse(t);
        assert procs == old(procs) + {p};
      } else {
        ghost var n := State();
        hide NodeOk, AllValid;
        p := Create(t);
        label L:
        pool := pool[t := []];
        NoneChanged@L();
        assert State() == Take(n, t, p);
        TakeOk(lines, n, t, p);
      }
    }

    /** PacketProcessor::send. */
    method Send(p: TransmitProcessor)
      requires Valid() && p in procs
      modifies this, p
      ensures Valid() && procs == old(procs)
      ensures State() == Nodes.Send(old(State()), p)
    {
      ghost var n := State();
      assert p.Valid(lines) && iBackQueue.Ok() && p in n.procs;
      hide NodeOk, AllValid, ToInt32;
      if ToSizeT(|iMap| + iMinimumIndex) >= 0 {
        var k := ToInt32(|iMap| + iMinimumIndex);
        p.iTransactionIndex := k;
        iMap := iMap[k := p];
        assert k == NextKey(n);
        assert p.Value() == n.procs[p].(key := k);
      }
      iBackQueue := iBackQueue.PushBack(p);
      OthersUnchanged(p);
      SendOk(lines, n, p);
    }

    // ----- one processor acts; the rest of the state is untouched

    method RunClear(p: TransmitProcessor)
      requires Valid() && p in procs
      modifies p, p.pLine
      ensures Valid() && procs == old(procs)
      ensures State() == old(State()).(procs := old(State()).procs[p := Nodes.Clear(old(State()).procs[p])])
    {
      ghost var n := State();
      assert p.Valid(lines);
      p.Clear(lines);
      OthersUnchanged(p);
      ProcReplaced(lines, n, p, p.Value());
    }

    method RunAction(p: TransmitProcessor, out: Steps) returns (r: Result, ghost ran: seq<Ran>)
      requires Valid() && p in procs
      modifies p, p.pLine
      ensures Valid() && procs == old(procs) && p.pLine == old(p.pLine)
      ensures var n := old(State());
        && n.procs[p].ptype == p.ptype && p.ptype in lines && n.procs[p].cursor <= |lines[p.ptype]|
        && var a := Nodes.Action(lines[p.ptype], n.procs[p], out);
           && State() == n.(procs := n.procs[p := a.proc])
           && r == a.result && ran == a.ran
    {
      ghost var n := State();
      assert p.Valid(lines);
      r, ran := p.Action(lines, out);
      OthersUnchanged(p);
      ProcReplaced(lines, n, p, p.Value());
    }

    method RunActionOn(p: TransmitProcessor, content: Payload, out: Steps) returns (r: Result, ghost ran: seq<Ran>, ghost faulted: bool)
      requires Valid() && p in procs
      modifies p, p.pLine
      ensures Valid() && procs == old(procs) && p.pLine == old(p.pLine)
      ensures var n := old(State());
        && n.procs[p].ptype == p.ptype && p.ptype in lines && n.procs[p].cursor <= |lines[p.ptype]|
        && var a := Answer(lines[p.ptype], n.procs[p], content, out);
           && State() == n.(procs := n.procs[p := a.proc])
           && r == a.result && ran == a.ran && faulted == a.faulted
    {
      ghost var n := State();
      assert p.Valid(lines);
      r, ran, faulted := p.ActionOn(lines, content, out);
      OthersUnchanged(p);
      ProcReplaced(lines, n, p, p.Value());
    }

    // ----- generate

    method TakeBackQueue()
      requires Valid()
      modifies this`iQueue, this`iBackQueue
      ensures Valid() && State() == HandOver(old(State()))
    {
      ghost var n := State();
      HandOverOk(lines, n);
      hide NodeOk, AllValid, Values, LinesOf;
      if iBackQueue.items != [] {
        iQueue := iQueue.Move(iBackQueue);
        iBackQueue := Empty();
        NoneChanged();
      }
    }

    method ReturnProcessor(p: TransmitProcessor)
      requires Valid() && p in procs
      modifies this`pool
      ensures Valid() && State() == Return(old(State()), p)
    {
      ghost var n := State();
      assert n.procs[p] == p.Value();
      if p.ptype in pool {
        pool := pool[p.ptype := pool[p.ptype] + [p]];
        NoneChanged();
      }
    }

    /** The processor under the cursor leaves the queue. */
    method PopActual()
      requires Valid()
      modifies this`iQueue
      ensures Valid() && State() == old(State()).(queue := old(State()).queue.PopActual())
    {
      ghost var n := State();
      PopOk(lines, n);
      hide NodeOk, AllValid, Values, LinesOf;
      iQueue := iQueue.PopActual();
      NoneChanged();
    }

    /** The opening action of a processor, and the packet made of it. */
    method OpenAction(p: TransmitProcessor, out: Steps)
      returns (r: Result, packet: Option<Packet>, ghost e: Event<TransmitProcessor>)
      requires Valid() && p in procs
      modifies p, p.pLine
      ensures Valid() && procs == old(procs) && p.pLine == old(p.pLine)
      ensures var n := old(State());
        && n.procs[p].ptype in lines && n.procs[p].cursor <= |lines[n.procs[p].ptype]|
        && var a := Nodes.Action(lines[n.procs[p].ptype], n.procs[p], out);
           && State() == n.(procs := n.procs[p := a.proc])
           && r == a.result && p.resendable == a.proc.resendable
           && e == OpeningEvent(p, n.procs[p].key, n.procs[p].position, a) && packet == e.sent
    {
      ghost var n := State();
      assert n.procs[p] == p.Value() && p.ptype in lines && n.procs[p].cursor <= |lines[p.ptype]| by { assert p.Valid(lines); }
      ghost var ran;
      r, ran := RunAction(p, out);
      ghost var a := Nodes.Action(lines[p.ptype], n.procs[p], out);
      assert State().procs[p] == a.proc && p.Value() == a.proc;
      ActionKeeps(lines[p.ptype], n.procs[p], out);
      hide NodeOk, AllValid, Values, LinesOf, Nodes.Action;
      packet := if r.Fail? then None else Some(Packet(p.ptype, p.iTransactionIndex, p.product));
      e := OpeningEvent(p, n.procs[p].key, n.procs[p].position, a);
    }

    /** The processor under the cursor, which is not waiting with an answer, runs its opening action. */
    method Open(p: TransmitProcessor, out: Steps) returns (packet: Option<Packet>, ghost e: Event<TransmitProcessor>)
      requires Valid() && iQueue.items != [] && p == iQueue.items[iQueue.actual] && p in procs && !p.resendable
      modifies this`iQueue, this`pool, p, p.pLine
      ensures Valid() && procs == old(procs)
      ensures Outcome(State(), e) == Emit(lines, old(State()), out)
      ensures e.Event? && packet == e.sent
    {
      ghost var n := State();
      assert n.procs[p] == p.Value();
      OpenIs(lines, n, out);
      hide NodeOk, AllValid, Values, LinesOf, Nodes.Action, Emit, Nodes.Recycled;
      var r;
      r, packet, e := OpenAction(p, out);
      if r.Fail? || !p.resendable {
        Recycle(p);
      }
      PopActual();
    }

    /** A processor that is done goes back to its pool. */
    method Recycle(p: TransmitProcessor)
      requires Valid() && p in procs
      modifies this`pool, p, p.pLine
      ensures Valid() && procs == old(procs)
      ensures var n := old(State()); State() == Recycled(n, p)
    {
      RunClear(p);
      ReturnProcessor(p);
    }

    /** PacketProcessor::generate. */
    method Generate(out: Steps) returns (packet: Option<Packet>, ghost e: Event<TransmitProcessor>)
      requires Valid()
      modifies this`iQueue, this`iBackQueue, this`pool, procs, LinesOf(procs)
      ensures Valid() && procs == old(procs)
      ensures Outcome(State(), e) == Nodes.Generate(lines, old(State()), out)
      ensures packet == if e.Event? then e.sent else None
    {
      TakeBackQueue();
      if iQueue.items == [] {
        return None, Nothing;
      }
      var p := iQueue.items[iQueue.actual];
      assert p in iQueue.items && p in State().procs && State().procs[p] == p.Value();
      if p.resendable {
        packet := Some(Packet(p.ptype, p.iTransactionIndex, p.product));
        e := AnswerEvent(p, p.Value());
        PopActual();
      } else {
        assert p.pLine in LinesOf(procs);
        packet, e := Open(p, out);
      }
    }

    // ----- process

    /** DPN_TransactionSpace::registerTransaction for a transaction the other peer opened. */
    method Register(pkt: Packet) returns (p: TransmitProcessor)
      requires Valid() && pkt.key !in iMap && pkt.ptype in lines
      modifies this`iMap, this`pool, this`procs, procs
      ensures Valid() && p in procs && (p !in old(procs) ==> fresh(p) && fresh(p.pLine))
      ensures procs == old(procs) + {p}
      ensures forall q :: q in old(procs) ==> q.pLine == old(q.pLine)
      ensures State() == Admit(lines, old(State()), pkt, p)
    {
      ghost var n := State();
      hide NodeOk, AllValid, Values, LinesOf, Admit, Take, Taken;
      p := KnownProcessor(pkt.ptype);
      ghost var m := State();
      AdmitIs(lines, n, pkt, p);
      Enroll(p, pkt.key);
      Record(pkt.key, p);
      assert State() == m.(space := n.space[pkt.key := p], procs := State().procs);
    }

    method Record(key: int, p: TransmitProcessor)
      requires Valid() && p in procs
      modifies this`iMap
      ensures Valid() && State() == old(State()).(space := old(State()).space[key := p])
    {
      iMap := iMap[key := p];
      NoneChanged();
    }

    method Enroll(p: TransmitProcessor, key: int)
      requires Valid() && p in procs
      modifies p`iTransactionIndex, p`iPosition
      ensures Valid()
      ensures var n := old(State());
        State() == n.(procs := n.procs[p := n.procs[p].(key := key, position := Server)])
    {
      ghost var n := State();
      assert p.Valid(lines);
      p.iTransactionIndex := key;
      p.iPosition := Server;
      assert p.Value() == n.procs[p].(key := key, position := Server);
      OthersUnchanged(p);
      ProcReplaced(lines, n, p, p.Value());
    }

    /** The processor registered for the transaction acts on the packet. */
    method Accept(key: int, content: Payload, out: Steps) returns (ghost e: Event<TransmitProcessor>)
      requires Valid() && key in iMap
      modifies this`iBackQueue, this`pool, procs, LinesOf(procs)
      ensures Valid() && procs == old(procs)
      ensures Outcome(State(), e) == AcceptAs(lines, old(State()), key, content, out)
    {
      ghost var n := State();
      AcceptIs(lines, n, key, content, out);
      AcceptAsNode(lines, n, key, content, out);
      var p := iMap[key];
      assert p.pLine in LinesOf(procs);
      ghost var a := Answer(lines[p.ptype], n.procs[p], content, out);
      e := DeliveryEvent(p, key, n.procs[p].position, a);
      var r, ran, faulted := RunActionOn(p, content, out);
      assert State().procs[p] == a.proc && p.Value() == a.proc;
      if r.Success? {
        if p.resendable {
          Resend(p);
        } else {
          Recycle(p);
        }
      }
    }

    method Resend(p: TransmitProcessor)
      requires Valid() && p in procs
      modifies this`iBackQueue
      ensures Valid() && State() == old(State()).(back := old(State()).back.PushBack(p))
    {
      iBackQueue := iBackQueue.PushBack(p);
      NoneChanged();
    }

    /** A packet of an unknown type: looking the type up leaves an empty pool for it. */
    method LookUp(t: int)
      requires Valid()
      modifies this`pool
      ensures Valid() && State() == old(State()).(pool := old(pool)[t := PoolOf(old(State()), t)])
    {
      pool := pool[t := if t in pool then pool[t] else []];
      NoneChanged();
    }

    /** Looks the packet's transaction up, and registers a processor for it when it is new. */
    method FindProcessor(pkt: Packet) returns (ghost spare: TransmitProcessor)
      requires Valid() && (pkt.key in iMap || pkt.ptype in lines)
      modifies this`iMap, this`pool, this`procs, procs
      ensures Valid() && pkt.key in iMap
      ensures forall p :: p in procs ==> p in old(procs) || fresh(p)
      ensures forall l :: l in LinesOf(procs) ==> l in old(LinesOf(procs)) || fresh(l)
      ensures State() == Admit(lines, old(State()), pkt, spare)
    {
      hide NodeOk, Admit, Values;
      if pkt.key in iMap {
        spare := iMap[pkt.key];
        AdmitKnown(lines, State(), pkt, spare);
      } else {
        ghost var n := State();
        spare := Register(pkt);
        assert forall l :: l in LinesOf(procs) ==> l in old(LinesOf(procs)) || fresh(l);
      }
    }

    /** PacketProcessor::process on a packet whose content fits. */
    method Process(pkt: Packet, out: Steps) returns (r: Result, ghost e: Event<TransmitProcessor>, ghost spare: TransmitProcessor?)
      requires Valid()
      modifies this`iMap, this`iBackQueue, this`pool, this`procs, procs, LinesOf(procs)
      ensures Valid()
      ensures r.Fail? <==> pkt.key !in old(iMap) && pkt.ptype !in lines
      ensures r.Fail? ==> e == Nothing && State() == old(State()).(pool := old(pool)[pkt.ptype := PoolOf(old(State()), pkt.ptype)])
      ensures !r.Fail? ==> spare != null && Outcome(State(), e) == Nodes.Process(lines, old(State()), pkt, out, spare)
    {
      ghost var n := State();
      if pkt.key !in iMap && pkt.ptype !in lines {
        LookUp(pkt.ptype);
        return Fail, Nothing, null;
      }
      hide NodeOk, AllValid, Nodes.Accept, AcceptAs, Admit, Values, LinesOf;
      spare := FindProcessor(pkt);
      LoadsIsAccept(lines, State(), pkt, out);
      e := Accept(pkt.key, Loads(pkt.body), out);
      r := Success;
    }

    /** PacketProcessor::process on the bytes of a packet. The processor found for the transaction takes
        the payload apart, whatever type the header names; `counts` is how many units a type registers
        besides its flags unit. `strayed` tells that the walk has left the payload. */
    method ProcessBuffer(b: Bytes, behind: Bytes, counts: UnitCounts, out: Steps)
      returns (r: Result, strayed: bool, ghost e: Event<TransmitProcessor>, ghost spare: TransmitProcessor?)
      requires Valid() && |behind| == 3 && forall t :: t in lines ==> t in counts
      modifies this`iMap, this`iBackQueue, this`pool, this`procs, procs, LinesOf(procs)
      ensures Valid()
      ensures b == [] ==> r.Success? && State() == old(State())
      ensures 0 < |b| < 8 ==> r.Fail? && State() == old(State())
      ensures |b| >= 8 ==>
        var (h, n) := (Header(b), old(State()));
        if h.key !in n.space && h.ptype !in lines then
          r.Fail? && State() == n.(pool := n.pool[h.ptype := PoolOf(n, h.ptype)])
        else
          && r.Success? && spare != null
          && Consumed(lines, Admit(lines, n, h, spare), h.key, b[8..], behind, counts, out, strayed, State(), e)
      ensures forall pkt, flagUnit ::
        PacketBytes(counts, b, pkt, flagUnit) && Expects(lines, old(State()), pkt) && PoolTyped(old(State()), pkt.ptype) ==>
          r.Success? && !strayed && spare != null && Outcome(State(), e) == Nodes.Process(lines, old(State()), pkt, out, spare)
    {
      strayed, e, spare := false, Nothing, null;
      ghost var n := State();
      forall pkt, flagUnit | PacketBytes(counts, b, pkt, flagUnit) && Expects(lines, n, pkt)
        ensures |b| >= 8 && (Header(b).key in iMap || Header(b).ptype in lines)
      {
        PacketHeader(counts, b, pkt, flagUnit, behind);
      }
      if |b| == 0 {
        return Success, strayed, e, spare;
      }
      if |b| < 8 {
        return Fail, strayed, e, spare;
      }
      hide NodeOk, AllValid, AcceptAs, Admit, Values, LinesOf, Header, Consumed, PoolOf, PacketBytes, Expects, PoolTyped, Nodes.Process;
      var h := Header(b);
      if h.key !in iMap && h.ptype !in lines {
        LookUp(h.ptype);
        return Fail, strayed, e, spare;
      }
      spare := FindProcessor(h);
      r, strayed, e := Consume(h.key, b[8..], behind, counts, out);
      forall pkt, flagUnit | PacketBytes(counts, b, pkt, flagUnit) && Expects(lines, n, pkt) && PoolTyped(n, pkt.ptype)
        ensures !strayed && Outcome(State(), e) == Nodes.Process(lines, n, pkt, out, spare)
      {
        BytesArePacket(lines, n, counts, b, pkt, flagUnit, behind, out, spare, strayed, State(), e);
      }
    }

    method Consume(key: int, payload: Bytes, behind: Bytes, counts: UnitCounts, out: Steps)
      returns (r: Result, strayed: bool, ghost e: Event<TransmitProcessor>)
      requires Valid() && key in iMap && |behind| == 3 && forall t :: t in lines ==> t in counts
      modifies this`iBackQueue, this`pool, procs, LinesOf(procs)
      ensures Valid() && r.Success?
      ensures Consumed(lines, old(State()), key, payload, behind, counts, out, strayed, State(), e)
    {
      ghost var m := State();
      var p := iMap[key];
      assert m.procs[p] == p.Value() && p.Valid(lines);
      hide NodeOk, AllValid, AcceptAs, Values, LinesOf, ContentOf;
      var content := ContentOf(payload, behind, counts[p.ptype] + 1);
      strayed, e, r := content.None?, Nothing, Success;
      if content.Some? {
        e := Accept(key, content.value, out);
      }
    }
  }
}
