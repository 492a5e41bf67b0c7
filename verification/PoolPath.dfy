/** The processor pool of one peer: what comes back to it is handed out again in order, before anything
    new is made. */
module PoolPath {
  import opened Types
  import opened ActionLines
  import opened CursorLists
  import opened Nodes
  import opened Payloads
  import SendPath

  /** A call on the peer; a new processor is none of those it has already. */
  ghost predicate Allowed<Id>(lines: Lines, n: Node<Id>, op: SendPath.Op<Id>) {
    && NodeOk(lines, n)
    && (op.DoSend? ==> op.id in n.procs)
    && (op.DoTake? ==> op.ptype in lines && op.spare !in n.procs)
    && (op.DoProcess? ==> op.spare !in n.procs)
  }

  ghost function Did<Id>(lines: Lines, n: Node<Id>, op: SendPath.Op<Id>): Outcome<Id>
    requires Allowed(lines, n, op)
  {
    match op
    case DoTake(u, spare) => Outcome(Take(n, u, spare), Nothing)
    case DoSend(p) => Outcome(Send(n, p), Nothing)
    case DoProcess(pkt, out, spare) => Process(lines, n, pkt, out, spare)
    case DoGenerate(out) => Generate(lines, n, out)
  }

  /** The processor the call hands out for type `t`: to the caller who asks for one, or to a transaction
      this peer has not known. */
  ghost function Handed<Id>(lines: Lines, n: Node<Id>, op: SendPath.Op<Id>, t: int): Option<Id>
    requires Allowed(lines, n, op)
  {
    match op
    case DoTake(u, spare) => if u == t then Some(Taken(n, u, spare)) else None
    case DoProcess(pkt, out, spare) =>
      if pkt.key !in n.space && pkt.ptype == t && t in lines && pkt.key in Did(lines, n, op).node.space then
        Some(Did(lines, n, op).node.space[pkt.key])
      else None
    case _ => None
  }

  /** The processor of type `t` that the call has given back to a pool that knows the type. */
  function Returned<Id(==)>(o: Outcome<Id>, t: int): seq<Id> {
    var (n, e) := (o.node, o.event);
    if e.Event? && e.recycled && e.id in n.procs && n.procs[e.id].ptype == t && t in n.pool then [e.id] else []
  }

  /** A node with the history of one type's processors: those given back, those handed out that the peer
      had already, and those made anew. */
  datatype Track<Id(==)> = Track(node: Node<Id>, returned: seq<Id>, reused: seq<Id>, made: seq<Id>)

  ghost function Do<Id>(lines: Lines, t: int, x: Track<Id>, op: SendPath.Op<Id>): Track<Id>
    requires Allowed(lines, x.node, op)
  {
    var o := Did(lines, x.node, op);
    var h := Handed(lines, x.node, op, t);
    Track(o.node, x.returned + Returned(o, t),
          if h.Some? && h.value in x.node.procs then x.reused + [h.value] else x.reused,
          if h.Some? && h.value !in x.node.procs then x.made + [h.value] else x.made)
  }

  ghost predicate History<Id>(lines: Lines, initiator: bool, t: int, xs: seq<Track<Id>>, ops: seq<SendPath.Op<Id>>) {
    && |xs| == |ops| + 1 && xs[0] == Track(InitialNode(initiator), [], [], [])
    && forall i :: 0 <= i < |ops| ==> Allowed(lines, xs[i].node, ops[i]) && xs[i + 1] == Do(lines, t, xs[i], ops[i])
  }

  ghost predicate Orderly<Id>(lines: Lines, t: int, x: Track<Id>) {
    NodeOk(lines, x.node) && PoolTyped(x.node, t) && x.returned == x.reused + PoolOf(x.node, t)
  }

  // ----- what the calls do to the pool of a type

  /** Nothing but a recycled processor has come to the pool, at its end; no type has changed. */
  ghost predicate Pools<Id>(n: Node<Id>, o: Outcome<Id>, t: int) {
    && PoolOf(o.node, t) == PoolOf(n, t) + Returned(o, t)
    && (forall p :: p in n.procs ==> p in o.node.procs && o.node.procs[p].ptype == n.procs[p].ptype)
  }

  lemma ReturnPools<Id>(n: Node<Id>, p: Id, t: int)
    requires p in n.procs
    ensures PoolOf(Return(n, p), t) == PoolOf(n, t) + if n.procs[p].ptype == t && t in n.pool then [p] else []
    ensures t in Return(n, p).pool <==> t in n.pool
  {
  }

  lemma EmitPools<Id>(lines: Lines, n: Node<Id>, out: Steps, t: int)
    requires NodeOk(lines, n)
    ensures Pools(n, Emit(lines, n, out), t)
  {
    if n.queue.items != [] {
      var p := n.queue.items[n.queue.actual];
      assert p in n.queue.items;
      var proc := n.procs[p];
      var a := Action(lines[proc.ptype], proc, out);
      hide NodeOk, Action;
      ReturnPools(n.(procs := n.procs[p := Clear(a.proc)], queue := n.queue.PopActual()), p, t);
    }
  }

  lemma GeneratePools<Id>(lines: Lines, n: Node<Id>, out: Steps, t: int)
    requires NodeOk(lines, n)
    ensures NodeOk(lines, Generate(lines, n, out).node) && Pools(n, Generate(lines, n, out), t)
  {
    var m := HandOver(n);
    HandOverOk(lines, n);
    EmitPools(lines, m, out, t);
    EmitNode(lines, m, out);
    hide NodeOk, Emit, HandOver;
  }

  lemma AcceptPools<Id>(lines: Lines, n: Node<Id>, pkt: Packet, out: Steps, t: int)
    requires NodeOk(lines, n) && pkt.key in n.space
    ensures Pools(n, Accept(lines, n, pkt, out), t)
    ensures Accept(lines, n, pkt, out).node.space == n.space
  {
    var p := n.space[pkt.key];
    var proc := n.procs[p];
    var a := Receive(lines[proc.ptype], proc, pkt.body, out);
    hide NodeOk, Receive;
    ReturnPools(n.(procs := n.procs[p := Clear(a.proc)]), p, t);
  }

  /** A processor of type `u` is handed out: the first of the pool, or a new one when there is none. */
  ghost predicate HandsOut<Id>(n: Node<Id>, m: Node<Id>, p: Id, u: int, t: int) {
    && (if u == t && PoolOf(n, t) != [] then PoolOf(n, t) == [p] + PoolOf(m, t) else PoolOf(m, t) == PoolOf(n, t))
    && (p in n.procs <==> PoolOf(n, u) != [])
    && (forall q :: q in n.procs ==> q in m.procs && m.procs[q].ptype == n.procs[q].ptype)
  }

  lemma TakePools<Id>(lines: Lines, n: Node<Id>, u: int, spare: Id, t: int)
    requires NodeOk(lines, n) && spare !in n.procs
    ensures HandsOut(n, Take(n, u, spare), Taken(n, u, spare), u, t)
  {
    if PoolOf(n, u) != [] {
      assert PoolOf(n, u)[0] in n.pool[u];
      assert n.pool[u] == [n.pool[u][0]] + n.pool[u][1..];
    }
  }

  lemma AdmitPools<Id>(lines: Lines, n: Node<Id>, pkt: Packet, spare: Id, t: int)
    requires NodeOk(lines, n) && spare !in n.procs && pkt.key !in n.space && pkt.ptype in lines
    ensures var m := Admit(lines, n, pkt, spare);
      HandsOut(n, m, m.space[pkt.key], pkt.ptype, t)
  {
    TakePools(lines, n, pkt.ptype, spare, t);
    TakeOk(lines, n, pkt.ptype, spare);
    hide NodeOk;
  }

  // ----- every call keeps the order

  lemma TypedAfter<Id>(n: Node<Id>, m: Node<Id>, t: int)
    requires PoolTyped(n, t)
    requires forall q :: q in n.procs ==> q in m.procs && m.procs[q].ptype == n.procs[q].ptype
    requires forall q :: q in PoolOf(m, t) ==> q in PoolOf(n, t) || (q in m.procs && m.procs[q].ptype == t)
    ensures PoolTyped(m, t)
  {
  }

  /** A call that hands nothing out. */
  lemma QuietOrderly<Id>(lines: Lines, t: int, x: Track<Id>, op: SendPath.Op<Id>)
    requires Orderly(lines, t, x) && Allowed(lines, x.node, op) && Handed(lines, x.node, op, t).None?
    requires NodeOk(lines, Did(lines, x.node, op).node) && Pools(x.node, Did(lines, x.node, op), t)
    ensures Orderly(lines, t, Do(lines, t, x, op))
  {
    hide NodeOk, Did, Handed;
    var o := Did(lines, x.node, op);
    TypedAfter(x.node, o.node, t);
    Assoc(x.reused, PoolOf(x.node, t), Returned(o, t));
  }

  /** A call that hands a processor out and then, perhaps, takes one back. */
  lemma HandingOrderly<Id>(lines: Lines, t: int, x: Track<Id>, op: SendPath.Op<Id>, m: Node<Id>, p: Id)
    requires Orderly(lines, t, x) && Allowed(lines, x.node, op) && Handed(lines, x.node, op, t) == Some(p)
    requires HandsOut(x.node, m, p, t, t)
    requires NodeOk(lines, Did(lines, x.node, op).node) && Pools(m, Did(lines, x.node, op), t)
    ensures Orderly(lines, t, Do(lines, t, x, op))
  {
    hide NodeOk, Did, Handed;
    var o := Did(lines, x.node, op);
    TypedAfter(x.node, m, t);
    TypedAfter(m, o.node, t);
    if PoolOf(x.node, t) != [] {
      Assoc(x.reused, [p], PoolOf(m, t));
      Assoc(x.reused + [p], PoolOf(m, t), Returned(o, t));
    } else {
      Assoc(x.reused, PoolOf(m, t), Returned(o, t));
    }
  }

  lemma ProcessOrderly<Id>(lines: Lines, t: int, x: Track<Id>, pkt: Packet, out: Steps, spare: Id)
    requires Orderly(lines, t, x) && Allowed(lines, x.node, SendPath.DoProcess(pkt, out, spare))
    ensures Orderly(lines, t, Do(lines, t, x, SendPath.DoProcess(pkt, out, spare)))
  {
    var n := x.node;
    var op := SendPath.DoProcess(pkt, out, spare);
    ProcessIs(lines, n, pkt, out, spare);
    if pkt.key in n.space {
      AcceptPools(lines, n, pkt, out, t);
      AcceptNode(lines, n, pkt, out);
      hide NodeOk, Process, Accept, Admit;
      QuietOrderly(lines, t, x, op);
    } else if pkt.ptype in lines {
      NewTransaction(lines, t, x, pkt, out, spare);
    } else {
      QuietOrderly(lines, t, x, op);
    }
  }

  lemma NewTransaction<Id>(lines: Lines, t: int, x: Track<Id>, pkt: Packet, out: Steps, spare: Id)
    requires Orderly(lines, t, x) && Allowed(lines, x.node, SendPath.DoProcess(pkt, out, spare))
    requires pkt.key !in x.node.space && pkt.ptype in lines
    ensures Orderly(lines, t, Do(lines, t, x, SendPath.DoProcess(pkt, out, spare)))
  {
    var n := x.node;
    var op := SendPath.DoProcess(pkt, out, spare);
    ProcessIs(lines, n, pkt, out, spare);
    var m := Admit(lines, n, pkt, spare);
    AdmitPools(lines, n, pkt, spare, t);
    AcceptPools(lines, m, pkt, out, t);
    AcceptNode(lines, m, pkt, out);
    hide NodeOk, Process, Accept, Admit, PoolTyped;
    if pkt.ptype == t {
      HandingOrderly(lines, t, x, op, m, m.space[pkt.key]);
    } else {
      QuietOrderly(lines, t, x, op);
    }
  }

  lemma TakeOrderly<Id>(lines: Lines, t: int, x: Track<Id>, u: int, spare: Id)
    requires Orderly(lines, t, x) && Allowed(lines, x.node, SendPath.DoTake(u, spare))
    ensures Orderly(lines, t, Do(lines, t, x, SendPath.DoTake(u, spare)))
  {
    var n := x.node;
    var op := SendPath.DoTake(u, spare);
    TakeOk(lines, n, u, spare);
    TakePools(lines, n, u, spare, t);
    hide NodeOk, Take, Taken, PoolTyped;
    if u == t {
      HandingOrderly(lines, t, x, op, Take(n, u, spare), Taken(n, u, spare));
    } else {
      QuietOrderly(lines, t, x, op);
    }
  }

  lemma SendOrderly<Id>(lines: Lines, t: int, x: Track<Id>, p: Id)
    requires Orderly(lines, t, x) && Allowed(lines, x.node, SendPath.DoSend(p))
    ensures Orderly(lines, t, Do(lines, t, x, SendPath.DoSend(p)))
  {
    SendOk(lines, x.node, p);
    hide NodeOk, PoolTyped;
    QuietOrderly(lines, t, x, SendPath.DoSend(p));
  }

  lemma GenerateOrderly<Id>(lines: Lines, t: int, x: Track<Id>, out: Steps)
    requires Orderly(lines, t, x) && Allowed(lines, x.node, SendPath.DoGenerate(out))
    ensures Orderly(lines, t, Do(lines, t, x, SendPath.DoGenerate(out)))
  {
    GeneratePools(lines, x.node, out, t);
    hide NodeOk, Generate, PoolTyped, Pools;
    QuietOrderly(lines, t, x, SendPath.DoGenerate(out));
  }

  lemma StepOrderly<Id>(lines: Lines, t: int, x: Track<Id>, op: SendPath.Op<Id>)
    requires Orderly(lines, t, x) && Allowed(lines, x.node, op)
    ensures Orderly(lines, t, Do(lines, t, x, op))
  {
    hide Orderly, Do, Allowed;
    match op
    case DoTake(u, spare) => TakeOrderly(lines, t, x, u, spare);
    case DoSend(p) => SendOrderly(lines, t, x, p);
    case DoGenerate(out) => GenerateOrderly(lines, t, x, out);
    case DoProcess(pkt, out, spare) => ProcessOrderly(lines, t, x, pkt, out, spare);
  }

  /** In every history, for any answers of the callbacks and any schedule of calls: the processors of a
      type that came back are, in order, those handed out again followed by those still pooled. So the
      one handed out next is the first that came back and is not out again, and a new one is made exactly
      when there is none. Whatever the pool holds for a type is of that type. */
  lemma {:induction false} OldestFirst<Id>(lines: Lines, initiator: bool, t: int, xs: seq<Track<Id>>, ops: seq<SendPath.Op<Id>>, i: nat)
    requires History(lines, initiator, t, xs, ops) && i < |xs|
    ensures var x := xs[i];
      && x.returned == x.reused + PoolOf(x.node, t)
      && PoolTyped(x.node, t)
      && (i < |ops| ==>
            var h := Handed(lines, x.node, ops[i], t);
            && (ops[i].DoProcess? && ops[i].pkt.key !in x.node.space && ops[i].pkt.ptype == t && t in lines ==> h.Some?)
            && (h.Some? ==>
              && (h.value !in x.node.procs <==> |x.reused| == |x.returned|)
              && (h.value in x.node.procs ==> h.value == x.returned[|x.reused|])))
      && Orderly(lines, t, x)
    decreases i
  {
    if i > 0 {
      OldestFirst(lines, initiator, t, xs, ops, i - 1);
      hide Do, NodeOk;
      StepOrderly(lines, t, xs[i - 1], ops[i - 1]);
    }
    hide Do;
    if i < |ops| {
      HandedIsFirst(lines, t, xs[i], ops[i]);
    }
  }

  lemma HandedIsFirst<Id>(lines: Lines, t: int, x: Track<Id>, op: SendPath.Op<Id>)
    requires Orderly(lines, t, x) && Allowed(lines, x.node, op)
    ensures var h := Handed(lines, x.node, op, t);
      && (op.DoProcess? && op.pkt.key !in x.node.space && op.pkt.ptype == t && t in lines ==> h.Some?)
      && (h.Some? ==>
        && (h.value !in x.node.procs <==> |x.reused| == |x.returned|)
        && (h.value in x.node.procs ==> |x.reused| < |x.returned| && h.value == x.returned[|x.reused|]))
  {
    var n := x.node;
    match op
    case DoTake(u, spare) => TakePools(lines, n, u, spare, t);
    case DoProcess(pkt, out, spare) =>
      if pkt.key !in n.space && pkt.ptype in lines {
        ProcessIs(lines, n, pkt, out, spare);
        var m := Admit(lines, n, pkt, spare);
        AdmitPools(lines, n, pkt, spare, t);
        AcceptPools(lines, m, pkt, out, t);
        hide NodeOk, Process, Accept, Admit;
      }
    case _ =>
  }
}
