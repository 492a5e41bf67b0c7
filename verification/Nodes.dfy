/** One peer's packet processor as a value: transaction space, processor pool, send queues. */
module Nodes {
  import opened Types
  import opened ActionLines
  import opened CursorLists

  /** The parsed content buffer of a processor: its flags unit and its user units. */
  datatype Product = Product(flag: bool, units: Units)

  /** A DPN_TransmitProcessor. `failed` is TF__FAILED in iTransportFlags, `unitFlag` the content of UNIT_FLAGS. */
  datatype Proc = Proc(ptype: int, key: int, position: Position, cursor: nat, resendable: bool,
                       failed: bool, unitFlag: bool, units: Units, product: Product)

  datatype Packet = Packet(ptype: int, key: int, body: Product)

  /** The registered processor types and the action line each of them makes; the empty line stands for a
      type that makes none. */
  type Lines = map<int, Line>

  datatype Node<Id(==)> = Node(minimum: int, space: map<int, Id>, procs: map<Id, Proc>,
                               pool: map<int, seq<Id>>, queue: CursorList<Id>, back: CursorList<Id>)

  /** What one call did, for the record. `position` is the position the processor acted in. */
  datatype Event<Id(==)> =
    | Nothing
    | Event(id: Id, key: int, position: Position, ran: seq<Ran>, faulted: bool,
            sent: Option<Packet>, requeued: bool, recycled: bool)

  datatype Outcome<Id(==)> = Outcome(node: Node<Id>, event: Event<Id>)

  function NewProc(t: int): Proc {
    Proc(t, 0, Host, 0, false, false, false, [], Product(false, []))
  }

  /** PacketProcessor::init. */
  function Minimum(initiator: bool): int {
    if initiator then 1 else 0x4000_0000
  }

  function InitialNode<Id(==)>(initiator: bool): Node<Id> {
    Node(Minimum(initiator), map[], map[], map[], Empty(), Empty())
  }

  function NextKey<Id(==)>(n: Node<Id>): int {
    ToInt32(|n.space| + n.minimum)
  }

  /** The check for a free index: a sum of type size_t compared with zero. */
  predicate NoIndexLeft<Id(==)>(n: Node<Id>) {
    ToSizeT(|n.space| + n.minimum) < 0
  }

  ghost predicate NodeOk<Id>(lines: Lines, n: Node<Id>) {
    && n.queue.Ok() && n.back.Ok()
    && (forall p :: p in n.procs ==> n.procs[p].ptype in lines && n.procs[p].cursor <= |lines[n.procs[p].ptype]|)
    && (forall k :: k in n.space ==> n.space[k] in n.procs)
    && (forall t, p :: t in n.pool && p in n.pool[t] ==> p in n.procs)
    && (forall p :: p in n.queue.items ==> p in n.procs)
    && (forall p :: p in n.back.items ==> p in n.procs)
  }

  // ----- the processor pool

  function PoolOf<Id(==)>(n: Node<Id>, t: int): seq<Id> {
    if t in n.pool then n.pool[t] else []
  }

  /** DPN_ProcessorPool::getProcessor: the oldest pooled processor of the type, or the new one `spare`. */
  function Taken<Id(==)>(n: Node<Id>, t: int, spare: Id): Id {
    if PoolOf(n, t) != [] then PoolOf(n, t)[0] else spare
  }

  function Take<Id(==)>(n: Node<Id>, t: int, spare: Id): Node<Id> {
    if PoolOf(n, t) != [] then
      n.(pool := n.pool[t := PoolOf(n, t)[1..]])
    else
      n.(pool := n.pool[t := []], procs := n.procs[spare := NewProc(t)])
  }

  lemma TakeOk<Id>(lines: Lines, n: Node<Id>, t: int, spare: Id)
    requires NodeOk(lines, n) && t in lines
    ensures NodeOk(lines, Take(n, t, spare))
    ensures Taken(n, t, spare) in Take(n, t, spare).procs
  {
    var pool := PoolOf(n, t);
    if pool != [] {
      assert forall p :: p in pool[1..] ==> p in pool;
      assert pool[0] in pool;
    }
  }

  /** DPN_ProcessorPool::returnProcessor: a type the pool has never seen is not inserted. */
  function Return<Id(==)>(n: Node<Id>, p: Id): Node<Id>
    requires p in n.procs
  {
    var t := n.procs[p].ptype;
    if t in n.pool then n.(pool := n.pool[t := n.pool[t] + [p]]) else n
  }

  // ----- DPN_TransmitProcessor

  function Clear(p: Proc): Proc {
    p.(cursor := 0, position := Host)
  }

  datatype Acted = Acted(proc: Proc, result: Result, ran: seq<Ran>, faulted: bool)

  /** DPN_TransmitProcessor::action(): the opening action of the sending side. */
  function Action(line: Line, p: Proc, out: Steps): (a: Acted)
    requires p.cursor <= |line|
    ensures a.proc.cursor <= |line| && a.proc.ptype == p.ptype
  {
    if line == [] then Acted(p, Fail, [], false) else
    var g := Go(line, p.cursor, p.position, out, p.units);
    var q := p.(cursor := g.cursor, units := g.units, resendable := false);
    if g.result.Fail? then
      Acted(q.(failed := true), Fail, g.ran, true)
    else
      Acted(q.(resendable := g.cursor < |line|, product := Product(q.unitFlag, q.units)), Success, g.ran, false)
  }

  /** DPN_TransmitProcessor::action(packet): the action of the side a packet reached. */
  function Receive(line: Line, p: Proc, body: Product, out: Steps): (a: Acted)
    requires p.cursor <= |line|
    ensures a.proc.cursor <= |line| && a.proc.ptype == p.ptype
  {
    if line == [] then Acted(p, Fail, [], false) else
    var q := p.(unitFlag := body.flag, units := body.units, failed := body.flag, resendable := false);
    if body.flag then
      Acted(q, Fail, [], true)
    else
      var g := Go(line, q.cursor, q.position, out, q.units);
      var bad := g.result.Fail?;
      var q1 := q.(cursor := g.cursor, units := g.units, failed := bad);
      var q2 := if g.cursor == |line| then q1
                else q1.(resendable := true, unitFlag := bad, product := Product(bad, g.units));
      Acted(q2, Success, g.ran, bad)
  }

  /** What deparsing a payload makes of the content: it loads the items, keeps them when the payload is
      empty, or refuses, having emptied them unless the payload is too short to be walked. */
  datatype Payload = Loads(body: Product) | Keeps | Refuses(emptied: bool)

  function Blank(p: Proc): Proc {
    p.(units := seq(|p.units|, _ => []), unitFlag := false)
  }

  /** The action on a payload as the content takes it. */
  function Answer(line: Line, p: Proc, content: Payload, out: Steps): (a: Acted)
    requires p.cursor <= |line|
    ensures a.proc.cursor <= |line| && a.proc.ptype == p.ptype
  {
    if line == [] then Acted(p, Fail, [], false) else
    match content
    case Refuses(emptied) => Acted(if emptied then Blank(p) else p, Fail, [], false)
    case Loads(body) => Receive(line, p, body, out)
    case Keeps => Receive(line, p, Product(p.unitFlag, p.units), out)
  }

  function MakePacket(p: Proc): Packet {
    Packet(p.ptype, p.key, p.product)
  }

  function OpeningEvent<Id(==)>(id: Id, key: int, position: Position, a: Acted): (e: Event<Id>)
    ensures e.Event?
  {
    Event(id, key, position, a.ran, a.faulted, if a.result.Fail? then None else Some(MakePacket(a.proc)),
          false, a.result.Fail? || !a.proc.resendable)
  }

  function DeliveryEvent<Id(==)>(id: Id, key: int, position: Position, a: Acted): (e: Event<Id>)
    ensures e.Event?
  {
    Event(id, key, position, a.ran, a.faulted, None,
          !a.result.Fail? && a.proc.resendable, !a.result.Fail? && !a.proc.resendable)
  }

  function AnswerEvent<Id(==)>(id: Id, p: Proc): (e: Event<Id>)
    ensures e.Event?
  {
    Event(id, p.key, p.position, [], false, Some(MakePacket(p)), false, false)
  }

  function Recycled<Id(==)>(n: Node<Id>, p: Id): Node<Id>
    requires p in n.procs
  {
    Return(n.(procs := n.procs[p := Clear(n.procs[p])]), p)
  }

  // ----- PacketProcessor

  /** The transaction space gives `p` the next index, unless it finds none left. */
  function Register<Id(==)>(n: Node<Id>, p: Id): Node<Id>
    requires p in n.procs
  {
    if NoIndexLeft(n) then n else
    var k := NextKey(n);
    n.(space := n.space[k := p], procs := n.procs[p := n.procs[p].(key := k)])
  }

  function Send<Id(==)>(n: Node<Id>, p: Id): Node<Id>
    requires p in n.procs && n.back.Ok()
  {
    var m := Register(n, p);
    m.(back := m.back.PushBack(p))
  }

  lemma SendOk<Id>(lines: Lines, n: Node<Id>, p: Id)
    requires NodeOk(lines, n) && p in n.procs
    ensures NodeOk(lines, Send(n, p))
  {
  }

  /** The hand-over of the back queue at the start of `generate`. */
  function HandOver<Id(==)>(n: Node<Id>): (m: Node<Id>)
    requires n.queue.Ok() && n.back.Ok()
    ensures m.queue.Ok() && m.back.Ok()
    ensures m.back.items == [] && m.queue.items == n.queue.items + n.back.items
    ensures m == n.(queue := m.queue, back := m.back)
  {
    if n.back.items == [] then n else n.(queue := n.queue.Move(n.back), back := Empty())
  }

  /** The processor under the cursor of the send queue makes its packet. */
  function Emit<Id(==)>(lines: Lines, m: Node<Id>, out: Steps): Outcome<Id>
    requires NodeOk(lines, m)
  {
    if m.queue.items == [] then
      Outcome(m, Nothing)
    else
      var p := m.queue.items[m.queue.actual];
      var proc := m.procs[p];
      var popped := m.(queue := m.queue.PopActual());
      if proc.resendable then
        Outcome(popped, AnswerEvent(p, proc))
      else
        var a := Action(lines[proc.ptype], proc, out);
        var e := OpeningEvent(p, proc.key, proc.position, a);
        if e.recycled then
          Outcome(Return(popped.(procs := m.procs[p := Clear(a.proc)]), p), e)
        else
          Outcome(popped.(procs := m.procs[p := a.proc]), e)
  }

  function Generate<Id(==)>(lines: Lines, n: Node<Id>, out: Steps): Outcome<Id>
    requires NodeOk(lines, n)
  {
    Emit(lines, HandOver(n), out)
  }

  /** The receiving side looks the transaction up, or registers a server processor for it. */
  function Admit<Id(==)>(lines: Lines, n: Node<Id>, pkt: Packet, spare: Id): (m: Node<Id>)
    requires NodeOk(lines, n)
    requires pkt.key in n.space || pkt.ptype in lines
    ensures NodeOk(lines, m) && pkt.key in m.space
  {
    if pkt.key in n.space then n else
    var p := Taken(n, pkt.ptype, spare);
    var m := Take(n, pkt.ptype, spare);
    m.(space := m.space[pkt.key := p], procs := m.procs[p := m.procs[p].(key := pkt.key, position := Server)])
  }

  /** The processor registered for the packet's transaction acts on it. */
  function Accept<Id(==)>(lines: Lines, m: Node<Id>, pkt: Packet, out: Steps): Outcome<Id>
    requires NodeOk(lines, m) && pkt.key in m.space
  {
    var p := m.space[pkt.key];
    var proc := m.procs[p];
    var a := Receive(lines[proc.ptype], proc, pkt.body, out);
    var e := DeliveryEvent(p, pkt.key, proc.position, a);
    if e.recycled then
      Outcome(Return(m.(procs := m.procs[p := Clear(a.proc)]), p), e)
    else if e.requeued then
      Outcome(m.(procs := m.procs[p := a.proc], back := m.back.PushBack(p)), e)
    else
      Outcome(m.(procs := m.procs[p := a.proc]), e)
  }

  /** The same for a payload that need not be one of this processor's contents. */
  function AcceptAs<Id(==)>(lines: Lines, m: Node<Id>, key: int, content: Payload, out: Steps): Outcome<Id>
    requires NodeOk(lines, m) && key in m.space
  {
    var p := m.space[key];
    var proc := m.procs[p];
    var a := Answer(lines[proc.ptype], proc, content, out);
    var e := DeliveryEvent(p, key, proc.position, a);
    if e.recycled then
      Outcome(Return(m.(procs := m.procs[p := Clear(a.proc)]), p), e)
    else if e.requeued then
      Outcome(m.(procs := m.procs[p := a.proc], back := m.back.PushBack(p)), e)
    else
      Outcome(m.(procs := m.procs[p := a.proc]), e)
  }

  /** `process`: a packet of an unknown type is refused; the pool still learns the type's name. */
  function Process<Id(==)>(lines: Lines, n: Node<Id>, pkt: Packet, out: Steps, spare: Id): Outcome<Id>
    requires NodeOk(lines, n)
  {
    if pkt.key !in n.space && pkt.ptype !in lines then
      Outcome(n.(pool := n.pool[pkt.ptype := PoolOf(n, pkt.ptype)]), Nothing)
    else
      Accept(lines, Admit(lines, n, pkt, spare), pkt, out)
  }

  // ----- the calls keep a node well formed

  lemma ProcReplaced<Id>(lines: Lines, n: Node<Id>, p: Id, q: Proc)
    requires NodeOk(lines, n) && q.ptype in lines && q.cursor <= |lines[q.ptype]|
    ensures NodeOk(lines, n.(procs := n.procs[p := q]))
  {
  }

  lemma ReturnOk<Id>(lines: Lines, n: Node<Id>, p: Id)
    requires NodeOk(lines, n) && p in n.procs
    ensures NodeOk(lines, Return(n, p))
  {
  }

  lemma EmitNode<Id>(lines: Lines, n: Node<Id>, out: Steps)
    requires NodeOk(lines, n)
    ensures NodeOk(lines, Emit(lines, n, out).node)
  {
    PopOk(lines, n);
    if n.queue.items != [] {
      var p := n.queue.items[n.queue.actual];
      assert p in n.queue.items;
      var proc := n.procs[p];
      var popped := n.(queue := n.queue.PopActual());
      var a := Action(lines[proc.ptype], proc, out);
      ProcReplaced(lines, popped, p, a.proc);
      ProcReplaced(lines, popped, p, Clear(a.proc));
      hide NodeOk, Action;
      ReturnOk(lines, popped.(procs := n.procs[p := Clear(a.proc)]), p);
    }
  }

  lemma AcceptNode<Id>(lines: Lines, n: Node<Id>, pkt: Packet, out: Steps)
    requires NodeOk(lines, n) && pkt.key in n.space
    ensures NodeOk(lines, Accept(lines, n, pkt, out).node)
  {
    hide Receive;
  }

  lemma AcceptAsNode<Id>(lines: Lines, n: Node<Id>, key: int, content: Payload, out: Steps)
    requires NodeOk(lines, n) && key in n.space
    ensures NodeOk(lines, AcceptAs(lines, n, key, content, out).node)
  {
    hide Answer;
  }

  /** A payload that fits is a packet's. */
  lemma LoadsIsAccept<Id>(lines: Lines, n: Node<Id>, pkt: Packet, out: Steps)
    requires NodeOk(lines, n) && pkt.key in n.space
    ensures AcceptAs(lines, n, pkt.key, Loads(pkt.body), out) == Accept(lines, n, pkt, out)
  {
    var proc := n.procs[n.space[pkt.key]];
    assert Answer(lines[proc.ptype], proc, Loads(pkt.body), out) == Receive(lines[proc.ptype], proc, pkt.body, out);
    hide Answer, Receive, NodeOk;
  }

  lemma HandOverOk<Id>(lines: Lines, n: Node<Id>)
    requires NodeOk(lines, n)
    ensures NodeOk(lines, HandOver(n))
  {
  }

  lemma PopOk<Id>(lines: Lines, n: Node<Id>)
    requires NodeOk(lines, n)
    ensures NodeOk(lines, n.(queue := n.queue.PopActual()))
  {
    var items := n.queue.items;
    assert forall i, r :: 0 <= i < |items| && r in items[..i] + items[i + 1..] ==> r in items;
  }

  lemma ActionKeeps(line: Line, proc: Proc, out: Steps)
    requires proc.cursor <= |line|
    ensures var a := Action(line, proc, out);
      a.proc.ptype == proc.ptype && a.proc.key == proc.key && (!a.result.Fail? ==> a.proc.position == proc.position)
  {
  }

  /** The opening action as a sequence of updates: act, recycle if done, leave the queue. */
  lemma OpenIs<Id>(lines: Lines, n: Node<Id>, out: Steps)
    requires NodeOk(lines, n) && n.queue.items != []
    requires !n.procs[n.queue.items[n.queue.actual]].resendable
    ensures var p := n.queue.items[n.queue.actual];
      var proc := n.procs[p];
      var a := Action(lines[proc.ptype], proc, out);
      var m := n.(procs := n.procs[p := a.proc]);
      var done := if a.result.Fail? || !a.proc.resendable then Recycled(m, p) else m;
      Emit(lines, n, out) == Outcome(done.(queue := n.queue.PopActual()), OpeningEvent(p, proc.key, proc.position, a))
  {
    var p := n.queue.items[n.queue.actual];
    var proc := n.procs[p];
    var a := Action(lines[proc.ptype], proc, out);
    assert n.procs[p := a.proc][p := Clear(a.proc)] == n.procs[p := Clear(a.proc)];
  }

  lemma ReceiveKeeps(line: Line, proc: Proc, body: Product, out: Steps)
    requires proc.cursor <= |line|
    ensures var a := Receive(line, proc, body, out);
      a.proc.ptype == proc.ptype && a.proc.key == proc.key && a.proc.position == proc.position
  {
  }

  /** A delivery as a sequence of updates: act, then join the queue or be recycled. */
  lemma AcceptIs<Id>(lines: Lines, n: Node<Id>, key: int, content: Payload, out: Steps)
    requires NodeOk(lines, n) && key in n.space
    ensures var p := n.space[key];
      var proc := n.procs[p];
      var a := Answer(lines[proc.ptype], proc, content, out);
      var m := n.(procs := n.procs[p := a.proc]);
      AcceptAs(lines, n, key, content, out) ==
        Outcome(if a.result.Fail? then m else if a.proc.resendable then m.(back := m.back.PushBack(p)) else Recycled(m, p),
                DeliveryEvent(p, key, proc.position, a))
  {
    var p := n.space[key];
    var proc := n.procs[p];
    var a := Answer(lines[proc.ptype], proc, content, out);
    hide Answer;
    assert n.procs[p := a.proc][p := Clear(a.proc)] == n.procs[p := Clear(a.proc)];
  }

  lemma AdmitIs<Id>(lines: Lines, n: Node<Id>, pkt: Packet, p: Id)
    requires NodeOk(lines, n) && pkt.key !in n.space && pkt.ptype in lines && p == Taken(n, pkt.ptype, p)
    ensures var m := Take(n, pkt.ptype, p);
      p in m.procs &&
      Admit(lines, n, pkt, p) ==
        m.(space := n.space[pkt.key := p], procs := m.procs[p := m.procs[p].(key := pkt.key, position := Server)])
  {
    TakeOk(lines, n, pkt.ptype, p);
  }

  lemma ProcessIs<Id>(lines: Lines, n: Node<Id>, pkt: Packet, out: Steps, spare: Id)
    requires NodeOk(lines, n)
    ensures pkt.key in n.space ==> Process(lines, n, pkt, out, spare) == Accept(lines, n, pkt, out)
    ensures pkt.key !in n.space && pkt.ptype in lines ==>
      Process(lines, n, pkt, out, spare) == Accept(lines, Admit(lines, n, pkt, spare), pkt, out)
  {
  }

  lemma AdmitKnown<Id>(lines: Lines, n: Node<Id>, pkt: Packet, spare: Id)
    requires NodeOk(lines, n) && pkt.key in n.space
    ensures Admit(lines, n, pkt, spare) == n
  {
  }
}
