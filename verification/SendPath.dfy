/** The send path of one peer: what is handed to it leaves in order, and nothing is lost. */
module SendPath {
  import opened Types
  import opened ActionLines
  import opened CursorLists
  import opened Nodes

  datatype Op<Id> =
    | DoSend(id: Id)
    | DoGenerate(out: Steps)
    | DoProcess(pkt: Packet, out: Steps, spare: Id)
    | DoTake(ptype: int, spare: Id)

  /** A processor that has left the queue, and the packet it made, if it made one. Its opening action
      failed when the fault handler ran or its type makes no line. */
  datatype Departure<Id> = Departure(id: Id, sent: Option<Packet>, failed: bool)

  /** The opening action of the processor at the head of the queue failed. */
  predicate OpeningFailed<Id(==)>(lines: Lines, n: Node<Id>, e: Event<Id>)
    requires e.Event?
  {
    e.faulted || (e.id in n.procs && !n.procs[e.id].resendable && n.procs[e.id].ptype in lines && lines[n.procs[e.id].ptype] == [])
  }

  /** A node with its history: the processors pushed by send and resend calls, those that have left
      the queue, and the packets put on the wire. */
  datatype Track<Id(==)> = Track(node: Node<Id>, pushed: seq<Id>, left: seq<Departure<Id>>, wire: seq<Packet>)

  function Ids<Id>(left: seq<Departure<Id>>): seq<Id> {
    seq(|left|, i requires 0 <= i < |left| => left[i].id)
  }

  /** The packets of the departures that made one, in order. */
  function Sent<Id>(left: seq<Departure<Id>>): seq<Packet> {
    if left == [] then [] else
    Sent(left[..|left| - 1]) + (if left[|left| - 1].sent.Some? then [left[|left| - 1].sent.value] else [])
  }

  ghost predicate Allowed<Id>(lines: Lines, t: Track<Id>, op: Op<Id>) {
    && NodeOk(lines, t.node)
    && (op.DoSend? ==> op.id in t.node.procs)
    && (op.DoTake? ==> op.ptype in lines)
  }

  ghost function Do<Id>(lines: Lines, t: Track<Id>, op: Op<Id>): Track<Id>
    requires Allowed(lines, t, op)
  {
    match op
    case DoTake(u, spare) => t.(node := Take(t.node, u, spare))
    case DoSend(p) => t.(node := Send(t.node, p), pushed := t.pushed + [p])
    case DoProcess(pkt, out, spare) =>
      var o := Process(lines, t.node, pkt, out, spare);
      t.(node := o.node, pushed := if o.event.Event? && o.event.requeued then t.pushed + [o.event.id] else t.pushed)
    case DoGenerate(out) =>
      var o := Generate(lines, t.node, out);
      if o.event.Nothing? then t.(node := o.node) else
      t.(node := o.node,
         left := t.left + [Departure(o.event.id, o.event.sent, OpeningFailed(lines, t.node, o.event))],
         wire := if o.event.sent.Some? then t.wire + [o.event.sent.value] else t.wire)
  }

  ghost predicate History<Id>(lines: Lines, initiator: bool, ts: seq<Track<Id>>, ops: seq<Op<Id>>) {
    && |ts| == |ops| + 1 && ts[0] == Track(InitialNode(initiator), [], [], [])
    && forall i :: 0 <= i < |ops| ==> Allowed(lines, ts[i], ops[i]) && ts[i + 1] == Do(lines, ts[i], ops[i])
  }

  ghost predicate Orderly<Id>(lines: Lines, t: Track<Id>) {
    && NodeOk(lines, t.node)
    && t.node.queue.actual == 0 && t.node.back.actual == 0
    && t.pushed == Ids(t.left) + (t.node.queue.items + t.node.back.items)
    && t.wire == Sent(t.left)
    && (forall i :: 0 <= i < |t.left| ==> (t.left[i].sent.None? <==> t.left[i].failed))
  }

  /** The head of the queue leaves, whatever its steps answer. */
  lemma EmitPops<Id>(lines: Lines, n: Node<Id>, out: Steps)
    requires NodeOk(lines, n) && n.queue.actual == 0
    ensures var o := Emit(lines, n, out);
      && o.node.back == n.back && o.node.queue.actual == 0
      && (o.event.Nothing? <==> n.queue.items == [])
      && (o.event.Event? ==>
            && n.queue.items == [o.event.id] + o.node.queue.items
            && (o.event.sent.None? <==> OpeningFailed(lines, n, o.event)))
      && (o.event.Nothing? ==> o.node == n)
  {
    hide Action;
    if n.queue.items != [] {
      assert n.queue.items[0] in n.queue.items;
      PopsFront(n.queue);
      var proc := n.procs[n.queue.items[0]];
      if !proc.resendable {
        FaultedFails(lines[proc.ptype], proc, out);
      }
    }
  }

  lemma PopsFront<Id>(q: CursorList<Id>)
    requires q.Ok() && q.items != [] && q.actual == 0
    ensures q.PopActual().actual == 0 && q.items == [q.items[0]] + q.PopActual().items
  {
    assert q.items[..0] + q.items[1..] == q.items[1..];
  }

  lemma FaultedFails(line: Line, p: Proc, out: Steps)
    requires p.cursor <= |line|
    ensures var a := Action(line, p, out); a.result.Fail? <==> a.faulted || line == []
  {
  }

  lemma LeftGrows<Id>(left: seq<Departure<Id>>, d: Departure<Id>)
    ensures Ids(left + [d]) == Ids(left) + [d.id]
    ensures Sent(left + [d]) == Sent(left) + if d.sent.Some? then [d.sent.value] else []
  {
    assert (left + [d])[..|left|] == left;
  }

  /** A call of `generate` takes at most the head of what waits. */
  lemma GeneratePops<Id>(lines: Lines, n: Node<Id>, out: Steps)
    requires NodeOk(lines, n) && n.queue.actual == 0 && n.back.actual == 0
    ensures var o := Generate(lines, n, out);
      && NodeOk(lines, o.node) && o.node.queue.actual == 0 && o.node.back.actual == 0
      && (o.event.Nothing? ==> o.node.queue.items + o.node.back.items == n.queue.items + n.back.items)
      && (o.event.Event? ==>
            && n.queue.items + n.back.items == [o.event.id] + (o.node.queue.items + o.node.back.items)
            && (o.event.sent.None? <==> OpeningFailed(lines, n, o.event)))
  {
    hide Emit, NodeOk;
    var m := HandOver(n);
    HandOverOk(lines, n);
    EmitPops(lines, m, out);
    EmitNode(lines, m, out);
    var o := Emit(lines, m, out);
    assert o.node.queue.items + [] == o.node.queue.items;
  }

  lemma GenerateOrderly<Id>(lines: Lines, t: Track<Id>, out: Steps)
    requires Orderly(lines, t)
    ensures Orderly(lines, Do(lines, t, DoGenerate(out)))
  {
    hide Generate, NodeOk, Ids, Sent;
    GeneratePops(lines, t.node, out);
    var o := Generate(lines, t.node, out);
    if o.event.Event? {
      LeftGrows(t.left, Departure(o.event.id, o.event.sent, OpeningFailed(lines, t.node, o.event)));
      Assoc(Ids(t.left), [o.event.id], o.node.queue.items + o.node.back.items);
    }
  }

  lemma AcceptPushes<Id>(lines: Lines, m: Node<Id>, pkt: Packet, out: Steps)
    requires NodeOk(lines, m) && pkt.key in m.space
    ensures var o := Accept(lines, m, pkt, out);
      && o.event.Event? && o.node.queue == m.queue && o.node.back.actual == m.back.actual
      && o.node.back.items == (if o.event.requeued then m.back.items + [o.event.id] else m.back.items)
  {
    hide NodeOk;
  }

  lemma ProcessOrderly<Id>(lines: Lines, t: Track<Id>, pkt: Packet, out: Steps, spare: Id)
    requires Orderly(lines, t)
    ensures Orderly(lines, Do(lines, t, DoProcess(pkt, out, spare)))
  {
    hide Accept;
    if pkt.key in t.node.space || pkt.ptype in lines {
      var m := Admit(lines, t.node, pkt, spare);
      AcceptPushes(lines, m, pkt, out);
      AcceptNode(lines, m, pkt, out);
    }
  }

  lemma StepOrderly<Id>(lines: Lines, t: Track<Id>, op: Op<Id>)
    requires Orderly(lines, t) && Allowed(lines, t, op)
    ensures Orderly(lines, Do(lines, t, op))
  {
    hide Generate, Process, Ids, Sent;
    match op
    case DoTake(u, spare) => TakeOk(lines, t.node, u, spare);
    case DoSend(p) => SendOk(lines, t.node, p);
    case DoProcess(pkt, out, spare) => ProcessOrderly(lines, t, pkt, out, spare);
    case DoGenerate(out) => GenerateOrderly(lines, t, out);
  }

  /** In every history, for any answers of the callbacks and any schedule of calls: the processors
      handed over by send and resend are, in order, those that have left followed by those still
      queued; the wire carries exactly the packets of those that left, in that order, and the only ones
      without a packet are those whose opening action failed. The cursor never leaves the front. */
  lemma {:induction false} FirstInFirstOut<Id>(lines: Lines, initiator: bool, ts: seq<Track<Id>>, ops: seq<Op<Id>>, i: nat)
    requires History(lines, initiator, ts, ops) && i < |ts|
    ensures var t := ts[i];
      && t.pushed == Ids(t.left) + (t.node.queue.items + t.node.back.items)
      && t.wire == Sent(t.left)
      && (forall j :: 0 <= j < |t.left| ==> (t.left[j].sent.None? <==> t.left[j].failed))
      && t.node.queue.actual == 0
      && Orderly(lines, t)
    decreases i
  {
    hide Do, NodeOk;
    if i > 0 {
      FirstInFirstOut(lines, initiator, ts, ops, i - 1);
      StepOrderly(lines, ts[i - 1], ops[i - 1]);
    } else {
      InitialOrderly<Id>(lines, initiator);
    }
  }

  lemma InitialOrderly<Id>(lines: Lines, initiator: bool)
    ensures Orderly(lines, Track(InitialNode<Id>(initiator), [], [], []))
  {
  }
}
