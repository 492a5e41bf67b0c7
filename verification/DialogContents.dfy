/** What the two processors of a transaction hold after each call: content, flags and place. */
module DialogContents {
  import opened Types
  import opened ActionLines
  import opened CursorLists
  import opened Nodes
  import opened DialogPhases
  import opened Dialogs
  import opened DialogSteps
  import opened DialogTurns
  import opened DialogTheorems
  import opened DialogProgress

  lemma GoFinal(line: Line, c: nat, side: Position, out: Steps, units: Units)
    requires c <= |line|
    ensures var g := Go(line, c, side, out, units); g.units == Final(g.ran, units)
  {
    var s := SkipTo(line, c, side);
    if s < |line| {
      RunIsSegment(line, s, side, out, units);
    }
  }

  lemma FinalJoins(a: seq<Ran>, b: seq<Ran>, start: Units)
    ensures Final(a + b, start) == Final(b, Final(a, start))
  {
    assert b == [] ==> a + b == a;
  }

  /** A processor a packet has reached: it holds the packet's content as its own steps left it, its flags
      say whether its fault handler ran, and it wants to answer exactly when it is to be queued. */
  ghost predicate Holds(q: Proc, ran: seq<Ran>, body: Units, faulted: bool, requeued: bool, recycled: bool) {
    && q.units == Final(ran, body) && q.failed == faulted && q.unitFlag == faulted && q.resendable == requeued
    && (recycled ==> q.cursor == 0 && q.position.Host?)
  }

  lemma ReceivedProc(line: Line, p: Proc, body: Product, out: Steps)
    requires line != [] && p.cursor <= |line|
    ensures var a := Receive(line, p, body, out);
      && Holds(a.proc, a.ran, body.units, a.faulted, a.proc.resendable, false)
      && (a.result.Fail? ==> !a.proc.resendable)
      && (body.flag ==> a.faulted && a.ran == [] && a.proc.cursor == p.cursor)
      && (!body.flag ==> !a.result.Fail?)
      && a.proc.key == p.key && a.proc.ptype == p.ptype && a.proc.position == p.position
  {
    GoFinal(line, p.cursor, p.position, out, body.units);
    hide Go;
    GoEndsWell(line, p.cursor, p.position, out, body.units);
  }

  lemma GoEndsWell(line: Line, c: nat, side: Position, out: Steps, units: Units)
    requires c <= |line|
    ensures var g := Go(line, c, side, out, units); g.cursor == |line| ==> g.result.Success?
  {
    var s := SkipTo(line, c, side);
    if s < |line| {
      RunIsSegment(line, s, side, out, units);
    }
  }

  lemma AcceptedProc<Id>(lines: Lines, n: Node<Id>, pkt: Packet, out: Steps)
    requires NodeOk(lines, n) && pkt.key in n.space && lines[n.procs[n.space[pkt.key]].ptype] != []
    ensures var o := Accept(lines, n, pkt, out);
      var p := n.space[pkt.key];
      && o.event.Event? && o.event.id == p && o.event.key == pkt.key && p in o.node.procs
      && var q := o.node.procs[p];
         && Holds(q, o.event.ran, pkt.body.units, o.event.faulted, o.event.requeued, o.event.recycled)
         && q.key == n.procs[p].key && q.ptype == n.procs[p].ptype
         && (pkt.body.flag ==> o.event.faulted && o.event.ran == [] && !o.event.requeued && !o.event.recycled)
         && (!pkt.body.flag ==> o.event.requeued || o.event.recycled)
  {
    var proc := n.procs[n.space[pkt.key]];
    ReceivedProc(lines[proc.ptype], proc, pkt.body, out);
    hide NodeOk, Receive;
  }

  lemma ReadyLine<Id>(lines: Lines, w: World<Id>, x: Peer, k: int)
    requires Ready(lines, w, x, k) && k in w.At(x).node.space
    ensures var n := w.At(x).node;
      var d := w.dialogs[k];
      && n.space[k] in n.procs && n.procs[n.space[k]].ptype == d.ptype && n.procs[n.space[k]].key == k
      && d.ptype in lines && d.token == Flight(x) && lines[d.ptype] != []
      && w.At(x).inbox[0].body == Product(Broken(lines[d.ptype], d), Content(d))
  {
    hide PoolOk, QueueOk, NodeOk, Segment, Broken, Content, Waiting, Packets, Switches, DialogOk;
    var d := w.dialogs[k];
    var p := AtRole(d, RoleOf(d, x)).value;
    assert Bound(w.At(x), k, d.ptype, RoleOf(d, x), p);
    assert Carries(lines, x, w.dialogs, w.At(x).inbox[0]);
  }

  lemma ReadyHolds<Id>(lines: Lines, w: World<Id>, x: Peer, k: int, out: Steps)
    requires Ready(lines, w, x, k) && NodeOk(lines, w.At(x).node) && k in w.At(x).node.space
    ensures var n := w.At(x).node;
      var d := w.dialogs[k];
      var o := Accept(lines, n, w.At(x).inbox[0], out);
      && d.ptype in lines
      && o.event.Event? && o.event.key == k && o.event.id in o.node.procs
      && var q := o.node.procs[o.event.id];
         && Holds(q, o.event.ran, Content(d), o.event.faulted, o.event.requeued, o.event.recycled)
         && q.key == k && q.ptype == d.ptype
         && (if Broken(lines[d.ptype], d) then o.event.faulted && o.event.ran == [] && !o.event.requeued && !o.event.recycled
             else o.event.requeued || o.event.recycled)
  {
    ReadyLine(lines, w, x, k);
    hide Ready, NodeOk, Holds, Broken, Content, Accept;
    AcceptedProc(lines, w.At(x).node, w.At(x).inbox[0], out);
  }

  lemma DeliveredProc<Id>(lines: Lines, w: World<Id>, x: Peer, out: Steps, spare: Id)
    requires Inv(lines, w) && w.At(x).inbox != [] && spare !in w.At(x).node.procs && NodeOk(lines, w.At(x).node)
    ensures var o := Process(lines, w.At(x).node, w.At(x).inbox[0], out, spare);
      && o.event.Event? && o.event.key in w.dialogs && o.event.id in o.node.procs
      && var (d, q) := (w.dialogs[o.event.key], o.node.procs[o.event.id]);
         && d.ptype in lines
         && Holds(q, o.event.ran, Content(d), o.event.faulted, o.event.requeued, o.event.recycled)
         && q.key == o.event.key && q.ptype == d.ptype
         && (if Broken(lines[d.ptype], d) then o.event.faulted && o.event.ran == [] && !o.event.requeued && !o.event.recycled
             else o.event.requeued || o.event.recycled)
  {
    hide Inv, NodeOk, Ready, Accept, Admit, Process, Holds, Broken, Content;
    var s := w.At(x);
    var pkt := s.inbox[0];
    ProcessIs(lines, s.node, pkt, out, spare);
    HeadCarries(lines, w, x);
    if pkt.key in s.node.space {
      RegisteredReady(lines, w, x);
      ReadyHolds(lines, w, x, pkt.key, out);
    } else {
      AdmitReady(lines, w, x, spare);
      var d := w.dialogs[pkt.key];
      var d1 := d.(server := Some(Taken(s.node, pkt.ptype, spare)));
      ReadyHolds(lines, w.Put(x, s.(node := Admit(lines, s.node, pkt, spare))).(dialogs := w.dialogs[pkt.key := d1]),
                 x, pkt.key, out);
      ServerAside(lines[pkt.ptype], d, d1.server);
    }
  }

  lemma ServerAside<Id>(line: Line, d: Dialog<Id>, o: Option<Id>)
    ensures Broken(line, d.(server := o)) == Broken(line, d) && Content(d.(server := o)) == Content(d)
  {
  }

  /** After every delivery of every run, a failure report or a packet that lets no step run included, the
      processor it reached holds the content of the transaction, failed flag and flags unit tell whether
      its fault handler has just run, and it waits in the queue, is recycled, or, when the packet was a
      report, keeps its place. */
  lemma DeliveredContent<Id>(lines: Lines, ws: seq<World<Id>>, acts: seq<Act<Id>>, i: nat)
    requires WellFormed(lines) && Run(lines, ws, acts) && i < |acts| && acts[i].Deliver?
    ensures Defined(lines, ws[i]) && Enabled(lines, ws[i], acts[i])
    ensures var e := EventOf(lines, ws[i], acts[i]);
      var n := ws[i + 1].At(acts[i].x).node;
      && e.Event? && e.key in ws[i].dialogs && e.key in ws[i + 1].dialogs && e.id in n.procs
      && n.procs[e.id].units == Content(ws[i + 1].dialogs[e.key])
      && Delivered(lines, ws[i].dialogs[e.key], ws[i + 1].dialogs[e.key], e, n.procs[e.id])
  {
    RunSteps(lines, ws, acts, i);
    hide Inv, Run;
    RunInv(lines, ws, acts, i);
    StepDelivers(lines, ws[i], acts[i]);
  }

  lemma RunSteps<Id>(lines: Lines, ws: seq<World<Id>>, acts: seq<Act<Id>>, i: nat)
    requires Run(lines, ws, acts) && i < |acts|
    ensures |ws| == |acts| + 1 && Step(lines, ws[i], acts[i], ws[i + 1])
  {
  }

  /** What a delivery leaves, in terms of the record before and after it. */
  ghost predicate Delivered<Id>(lines: Lines, d: Dialog<Id>, d': Dialog<Id>, e: Event<Id>, q: Proc)
    requires e.Event?
  {
    && q.units == Content(d') && q.key == e.key && q.ptype == d'.ptype && d.ptype in lines
    && q.failed == e.faulted && q.unitFlag == e.faulted && q.resendable == e.requeued
    && (e.recycled ==> q.cursor == 0 && q.position.Host?)
    && (if Broken(lines[d.ptype], d) then e.faulted && !e.requeued && !e.recycled && d'.trace == d.trace
        else e.requeued || e.recycled)
  }

  lemma NotedDelivers<Id>(lines: Lines, d: Dialog<Id>, x: Peer, e: Event<Id>, q: Proc)
    requires e.Event? && d.ptype in lines && q.key == e.key && q.ptype == d.ptype
    requires Holds(q, e.ran, Content(d), e.faulted, e.requeued, e.recycled)
    requires if Broken(lines[d.ptype], d) then e.faulted && e.ran == [] && !e.requeued && !e.recycled else e.requeued || e.recycled
    ensures Delivered(lines, d, Noted(d, x, e), e, q)
  {
    FinalJoins(d.trace, e.ran, d.start);
    assert d.trace + [] == d.trace;
  }

  lemma StepDelivers<Id>(lines: Lines, w: World<Id>, act: Act<Id>)
    requires Inv(lines, w) && Defined(lines, w) && Enabled(lines, w, act) && act.Deliver?
    ensures var e := EventOf(lines, w, act);
      var w' := Next(lines, w, act);
      && e.Event? && e.key in w.dialogs && e.key in w'.dialogs && e.id in w'.At(act.x).node.procs
      && Delivered(lines, w.dialogs[e.key], w'.dialogs[e.key], e, w'.At(act.x).node.procs[e.id])
  {
    DeliveredProc(lines, w, act.x, act.out, act.spare);
    NextDialogs(lines, w, act);
    NextSite(lines, w, act);
    hide Inv, NodeOk, Process, Broken, Noted, Delivered, Holds, Next, Content;
    var e := EventOf(lines, w, act);
    NotedDelivers(lines, w.dialogs[e.key], act.x, e, Next(lines, w, act).At(act.x).node.procs[e.id]);
  }

  lemma NextSite<Id>(lines: Lines, w: World<Id>, act: Act<Id>)
    requires Defined(lines, w) && Enabled(lines, w, act)
    ensures Next(lines, w, act).At(act.x).node == Move(lines, w.At(act.x), act).0.node
  {
    hide NodeOk, Move, Noted;
  }

  // ----- the calls that send

  lemma ActedProc(line: Line, p: Proc, out: Steps)
    requires p.cursor <= |line| && !p.resendable
    ensures var a := Action(line, p, out);
      && a.proc.units == Final(a.ran, p.units) && (a.faulted ==> a.proc.failed)
      && a.proc.unitFlag == p.unitFlag && a.proc.key == p.key && a.proc.ptype == p.ptype
      && (a.result.Fail? ==> !a.proc.resendable)
  {
    GoFinal(line, p.cursor, p.position, out, p.units);
  }

  /** A processor that sends: one that answers stays as it is; one that opens holds the content as its own
      steps left it, is marked when it failed, and waits for an answer unless it is recycled. */
  lemma SentProc<Id>(lines: Lines, n: Node<Id>, out: Steps)
    requires NodeOk(lines, n) && Pending(n) != []
    ensures var o := Generate(lines, n, out);
      && o.event.Event? && o.event.id in Pending(n) && o.event.id in n.procs && o.event.id in o.node.procs
      && var (p, q) := (n.procs[o.event.id], o.node.procs[o.event.id]);
         && q.key == p.key && q.ptype == p.ptype && q.unitFlag == p.unitFlag && q.units == Final(o.event.ran, p.units)
         && (p.resendable ==> q == p && o.event.ran == [] && o.event.sent == Some(MakePacket(p)))
         && (o.event.faulted ==> q.failed)
         && (!p.resendable ==> (q.resendable <==> !o.event.recycled))
         && (o.event.recycled ==> q.cursor == 0 && q.position.Host?)
  {
    var m := HandOver(n);
    HandOverOk(lines, n);
    var p := m.queue.items[m.queue.actual];
    assert p in m.queue.items;
    var proc := m.procs[p];
    if !proc.resendable {
      ActedProc(lines[proc.ptype], proc, out);
    }
    hide NodeOk, Action;
  }
}
