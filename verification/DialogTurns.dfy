/** Producing and delivering packets keeps the invariant. */
module DialogTurns {
  import opened Types
  import opened ActionLines
  import opened CursorLists
  import opened Nodes
  import opened DialogPhases
  import opened Dialogs
  import opened DialogFrames
  import opened DialogSteps

  /** The processor of the other side, as transaction `k` sees it. */
  function Across<Id(==)>(w: World<Id>, x: Peer, d: Dialog<Id>): Option<Proc> {
    View(w.At(Other(x)).node, AtRole(d, Opposite(RoleOf(d, x))))
  }

  /** Phase of a dialog seen from peer `x`: `own` is its processor, `other` the one across. */
  ghost predicate PhaseAt<Id>(line: Line, d: Dialog<Id>, x: Peer, own: Option<Proc>, other: Option<Proc>) {
    if d.owner == x then PhaseOk(line, d, own, other) else PhaseOk(line, d, other, own)
  }

  /** Peer `x` takes its turn in the transaction of event `e`, leaving the processor as `q`: the
      transaction was in order before, and its phase is after. */
  ghost predicate Turn<Id>(lines: Lines, w: World<Id>, x: Peer, e: Event<Id>, q: Proc) {
    && e.Event? && e.key in w.dialogs
    && var d := w.dialogs[e.key];
       && DialogCore(lines, w.At(d.owner), w.At(Other(d.owner)), e.key, d)
       && e.position == RoleOf(d, x) && AtRole(d, e.position) == Some(e.id)
       && var d' := Noted(d, x, e);
          && PhaseAt(lines[d.ptype], d', x, if e.recycled then None else Some(q), Across(w, x, d))
          && Known(d') == Known(d) && (Unmet(d') ==> d'.server.None?)
  }

  /** The transaction peer `x` has just taken a turn in. */
  lemma TurnDialog<Id>(lines: Lines, w: World<Id>, w': World<Id>, x: Peer, e: Event<Id>, q: Proc)
    requires Turn(lines, w, x, e, q) && Acts(w.At(x), w'.At(x), e, q)
    requires w'.At(Other(x)).node == w.At(Other(x)).node && w'.At(Other(x)).held == w.At(Other(x)).held
    ensures var d' := Noted(w.dialogs[e.key], x, e);
      DialogOk(lines, w'.At(d'.owner), w'.At(Other(d'.owner)), e.key, d')
  {
    hide PhaseOk, Known, Unmet;
    var d := w.dialogs[e.key];
    ActsBound(w.At(x), w'.At(x), e, q);
    SameUndisturbed(w.At(Other(x)), w'.At(Other(x)), e.key);
  }

  lemma SamePool<Id>(s: Site<Id>, s': Site<Id>)
    requires PoolOk(s) && s'.held == s.held && s'.node.procs == s.node.procs && s'.node.pool == s.node.pool
    ensures PoolOk(s')
  {
  }

  /** What a turn of peer `x` leaves: the sites are in order if their queues and inboxes are. */
  lemma TurnKeeps<Id>(lines: Lines, w: World<Id>, w': World<Id>, x: Peer, e: Event<Id>, q: Proc)
    requires SiteOk(lines, w.At(Other(x)), Other(x), w.dialogs)
    requires PoolOk(w.At(x)) && w.At(x).node.minimum == Minimum(x.Initiator?)
    requires forall k :: k in w.At(x).node.space ==> k in w.dialogs
    requires Turn(lines, w, x, e, q) && Acts(w.At(x), w'.At(x), e, q)
    requires NodeOk(lines, w'.At(x).node)
    requires var y := Other(x);
      && w'.At(y).node == w.At(y).node && w'.At(y).held == w.At(y).held
      && w'.dialogs == w.dialogs[e.key := Noted(w.dialogs[e.key], x, e)]
      && QueueOk(w'.At(x), x, w'.dialogs) && QueueOk(w'.At(y), y, w'.dialogs)
      && InboxOk(lines, w'.At(x).inbox, x, w'.dialogs) && InboxOk(lines, w'.At(y).inbox, y, w'.dialogs)
    requires forall j :: j in w.dialogs && j != e.key ==>
      var d := w.dialogs[j]; DialogOk(lines, w.At(d.owner), w.At(Other(d.owner)), j, d)
    ensures Inv(lines, w')
  {
    hide NodeOk, QueueOk, InboxOk, DialogOk, Undisturbed, DialogCore, PhaseAt, Known, Unmet, PoolOk;
    TurnDialog(lines, w, w', x, e, q);
    ActsPool(w.At(x), w'.At(x), e, q);
    SamePool(w.At(Other(x)), w'.At(Other(x)));
    forall j | j in w.dialogs && j != e.key
      ensures Undisturbed(w.initiator, w'.initiator, j) && Undisturbed(w.acceptor, w'.acceptor, j)
    {
      ActsUndisturbed(w.At(x), w'.At(x), e, q, j);
      SameUndisturbed(w.At(Other(x)), w'.At(Other(x)), j);
    }
    DialogsKept(lines, w, w', e.key);
  }

  // ----- hand-over

  lemma HandOverSite<Id>(lines: Lines, s: Site<Id>, x: Peer, dialogs: map<int, Dialog<Id>>)
    requires SiteOk(lines, s, x, dialogs)
    ensures var m := HandOver(s.node);
      && m.back.items == [] && m.queue.actual == 0
      && SiteOk(lines, s.(node := m), x, dialogs)
  {
    hide InboxOk;
    var m := HandOver(s.node);
    assert Pending(m) == Pending(s.node);
    QueueSame(s, s.(node := m), x, dialogs);
  }

  /** A peer that only rearranged its queue. */
  lemma QueueRearranged<Id>(lines: Lines, w: World<Id>, x: Peer, s': Site<Id>)
    requires Inv(lines, w) && SiteOk(lines, s', x, w.dialogs)
    requires var s := w.At(x);
      s'.held == s.held && s'.node.space == s.node.space && s'.node.procs == s.node.procs && s'.node.pool == s.node.pool
    ensures Inv(lines, w.Put(x, s'))
  {
    hide SiteOk, Undisturbed, DialogOk;
    var w' := w.Put(x, s');
    forall j | j in w.dialogs
      ensures Undisturbed(w.initiator, w'.initiator, j) && Undisturbed(w.acceptor, w'.acceptor, j)
    {
      SameUndisturbed(w.At(x), s', j);
      SameUndisturbed(w.At(Other(x)), w'.At(Other(x)), j);
    }
    DialogsSame(lines, w, w');
  }

  // ----- producing a packet

  function Body<Id(==)>(line: Line, d: Dialog<Id>): Product {
    Product(Broken(line, d), Content(d))
  }

  /** The event of a processor leaving the queue. */
  function EmitEvent<Id(==)>(line: Line, proc: Proc, out: Steps, id: Id): (e: Event<Id>)
    requires proc.cursor <= |line|
    ensures e.Event? && e.id == id && e.key == proc.key && e.position == proc.position
  {
    if proc.resendable then AnswerEvent(id, proc)
    else OpeningEvent(id, proc.key, proc.position, Action(line, proc, out))
  }

  /** The processor as it leaves the queue. */
  function Emitted(line: Line, proc: Proc, out: Steps): Proc
    requires proc.cursor <= |line|
  {
    if proc.resendable then proc else
    var a := Action(line, proc, out);
    if a.result.Fail? || !a.proc.resendable then Clear(a.proc) else a.proc
  }

  /** A dialog whose processor leaves the queue at peer `x`. */
  lemma EmitPhase<Id>(line: Line, d: Dialog<Id>, x: Peer, proc: Proc, other: Option<Proc>, out: Steps, id: Id)
    requires d.token == Queued(x) && proc.position == RoleOf(d, x) && proc.cursor <= |line|
    requires PhaseAt(line, d, x, Some(proc), other)
    requires AtRole(d, proc.position) == Some(id) && (other.Some? ==> AtRole(d, Opposite(proc.position)).Some?)
    requires Unmet(d) ==> d.server.None?
    requires !proc.resendable ==> Tame(line, Action(line, proc, out).ran)
    ensures var e := EmitEvent(line, proc, out, id);
      var d' := Noted(d, x, e);
      && PhaseAt(line, d', x, if e.recycled then None else Some(Emitted(line, proc, out)), other)
      && Known(d') == Known(d) && (Unmet(d') ==> d'.server.None?)
      && d'.token == (if e.sent.Some? then Flight(Other(x)) else Gone)
      && (e.sent.Some? ==> e.sent.value == Packet(proc.ptype, proc.key, Body(line, d')))
      && (!proc.resendable ==>
            var a := Action(line, proc, out);
            !a.proc.unitFlag && (a.result.Fail? ==> !a.proc.resendable))
  {
    hide Segment, Broken, Content;
    if proc.resendable {
      AnswerPhase(line, d, proc, other, RoleOf(d, x), id);
    } else {
      OpeningPhase(line, d, proc, out, id);
    }
  }

  /** What `Emit` does at the head of the queue, given what its processor is doing. */
  lemma EmitActs<Id>(lines: Lines, s: Site<Id>, out: Steps)
    requires NodeOk(lines, s.node) && s.node.queue.items != [] && s.node.queue.actual == 0
    requires var p := s.node.queue.items[0];
      var proc := s.node.procs[p];
      && Bound(s, proc.key, proc.ptype, proc.position, p)
      && (!proc.resendable ==>
            var a := Action(lines[proc.ptype], proc, out);
            !a.proc.unitFlag && (a.result.Fail? ==> !a.proc.resendable))
    ensures var o := Emit(lines, s.node, out);
      var p := s.node.queue.items[0];
      var proc := s.node.procs[p];
      && o.event == EmitEvent(lines[proc.ptype], proc, out, p)
      && Acts(s, s.(node := o.node), o.event, Emitted(lines[proc.ptype], proc, out))
      && o.node.queue.actual == 0 && Pending(o.node) == Pending(s.node)[1..]
  {
    hide NodeOk;
    var o := Emit(lines, s.node, out);
    var items := s.node.queue.items;
    assert items[..0] + items[1..] == items[1..];
  }

  lemma EmitDialog<Id>(lines: Lines, w: World<Id>, x: Peer, p: Id, out: Steps)
    requires Inv(lines, w) && p in Pending(w.At(x).node)
    requires var proc := w.At(x).node.procs[p];
      p in w.At(x).node.procs && proc.ptype in lines && proc.cursor <= |lines[proc.ptype]|
      && (!proc.resendable ==> Tame(lines[proc.ptype], Action(lines[proc.ptype], proc, out).ran))
    ensures var proc := w.At(x).node.procs[p];
      var line := lines[proc.ptype];
      var e := EmitEvent(line, proc, out, p);
      && Turn(lines, w, x, e, Emitted(line, proc, out))
      && Bound(w.At(x), proc.key, proc.ptype, proc.position, p)
      && var d := w.dialogs[e.key];
         var d' := Noted(d, x, e);
         && d.token == Queued(x) && d.ptype == proc.ptype
         && d'.token == (if e.sent.Some? then Flight(Other(x)) else Gone)
         && (e.sent.Some? ==> e.sent.value == Packet(proc.ptype, proc.key, Body(line, d')))
         && (!proc.resendable ==>
               var a := Action(line, proc, out);
               !a.proc.unitFlag && (a.result.Fail? ==> !a.proc.resendable))
  {
    hide SiteOk, PhaseOk, Unmet, Known;
    PendingBound(lines, w, x, p);
    var proc := w.At(x).node.procs[p];
    var d := w.dialogs[proc.key];
    assert DialogOk(lines, w.At(d.owner), w.At(Other(d.owner)), proc.key, d);
    EmitPhase(lines[d.ptype], d, x, proc, Across(w, x, d), out, p);
  }

  /** The send queues and channels after a processor has left the queue. */
  lemma EmitSites<Id>(lines: Lines, w: World<Id>, x: Peer, s': Site<Id>, e: Event<Id>, q: Proc)
    requires Inv(lines, w)
    requires Turn(lines, w, x, e, q) && Acts(w.At(x), s', e, q)
    requires Pending(w.At(x).node) != [] && Pending(w.At(x).node)[0] == e.id
    requires Pending(s'.node) == Pending(w.At(x).node)[1..] && s'.node.queue.actual == 0 && s'.inbox == w.At(x).inbox
    requires var d := w.dialogs[e.key];
      var d' := Noted(d, x, e);
      && d.token == Queued(x) && d.ptype in lines
      && d'.token == (if e.sent.Some? then Flight(Other(x)) else Gone)
      && (e.sent.Some? ==> e.sent.value == Packet(d.ptype, e.key, Body(lines[d.ptype], d')))
    ensures var y := Other(x);
      var w' := After(w, x, s', e);
      && QueueOk(s', x, w'.dialogs) && InboxOk(lines, s'.inbox, x, w'.dialogs)
      && QueueOk(w'.At(y), y, w'.dialogs) && InboxOk(lines, w'.At(y).inbox, y, w'.dialogs)
  {
    hide NodeOk, PoolOk, DialogOk, DialogCore, PhaseAt, InboxOk, Across, Known, Unmet, Broken, Content;
    var s, y := w.At(x), Other(x);
    var w' := After(w, x, s', e);
    QueuePopped(s, s', x, w.dialogs, w'.dialogs, e.id, q);
    InboxKept(lines, s.inbox, x, w.dialogs, w'.dialogs, e.key);
    QueueKept(w.At(y), w'.At(y), y, w.dialogs, w'.dialogs, e.key);
    if e.sent.Some? {
      InboxPushed(lines, w.At(y).inbox, y, w.dialogs, w'.dialogs, e.sent.value);
    } else {
      InboxKept(lines, w.At(y).inbox, y, w.dialogs, w'.dialogs, e.key);
    }
  }

  /** Sending the next packet keeps the invariant. */
  lemma EmitKeeps<Id>(lines: Lines, w: World<Id>, x: Peer, out: Steps)
    requires Inv(lines, w) && w.At(x).node.back.items == [] && w.At(x).node.queue.actual == 0
    requires var s := w.At(x);
      var o := Emit(lines, s.node, out);
      Civil(lines, s.(node := o.node), o.event)
    ensures var s := w.At(x);
      var o := Emit(lines, s.node, out);
      Inv(lines, After(w, x, s.(node := o.node), o.event))
  {
    hide PoolOk, DialogOk, InboxOk, QueueOk, Turn, Acts, After;
    var s := w.At(x);
    var o := Emit(lines, s.node, out);
    var s' := s.(node := o.node);
    if s.node.queue.items == [] {
      assert After(w, x, s', o.event) == w by { AfterNothing(w, x); }
    } else {
      var p := s.node.queue.items[0];
      assert p in Pending(s.node) && Pending(s.node)[0] == p;
      var proc := s.node.procs[p];
      EmitDialog(lines, w, x, p, out);
      EmitActs(lines, s, out);
      EmitNode(lines, s.node, out);
      var q := Emitted(lines[proc.ptype], proc, out);
      EmitSites(lines, w, x, s', o.event, q);
      AfterFacts(w, x, s', o.event);
      TurnKeeps(lines, w, After(w, x, s', o.event), x, o.event, q);
    }
  }

  lemma AfterNothing<Id>(w: World<Id>, x: Peer)
    ensures After(w, x, w.At(x), Nothing) == w
  {
  }

  lemma AfterFacts<Id>(w: World<Id>, x: Peer, s': Site<Id>, e: Event<Id>)
    requires e.Event? && e.key in w.dialogs
    ensures var w' := After(w, x, s', e);
      && w'.At(x) == s' && w'.dialogs == w.dialogs[e.key := Noted(w.dialogs[e.key], x, e)]
      && w'.At(Other(x)).node == w.At(Other(x)).node && w'.At(Other(x)).held == w.At(Other(x)).held
  {
  }

  // ----- delivering a packet

  /** The processor as the delivery of `body` leaves it. */
  function Received(line: Line, proc: Proc, body: Product, out: Steps): Proc
    requires proc.cursor <= |line|
  {
    var a := Receive(line, proc, body, out);
    if !a.result.Fail? && !a.proc.resendable then Clear(a.proc) else a.proc
  }

  /** A dialog whose packet reaches peer `x`. */
  lemma AcceptPhase<Id>(line: Line, d: Dialog<Id>, x: Peer, me: Proc, other: Option<Proc>, out: Steps, id: Id)
    requires d.token == Flight(x) && me.position == RoleOf(d, x) && me.cursor <= |line|
    requires PhaseAt(line, d, x, Some(me), other)
    requires AtRole(d, me.position) == Some(id) && (other.Some? ==> AtRole(d, Opposite(me.position)).Some?)
    requires Tame(line, Receive(line, me, Body(line, d), out).ran)
    ensures var a := Receive(line, me, Body(line, d), out);
      var e := DeliveryEvent(id, me.key, me.position, a);
      var d' := Noted(d, x, e);
      && PhaseAt(line, d', x, if e.recycled then None else Some(Received(line, me, Body(line, d), out)), other)
      && Known(d') == Known(d) && (Unmet(d') ==> d'.server.None?)
      && d'.token == (if e.requeued then Queued(x) else Gone)
      && (e.recycled ==> !a.proc.unitFlag && !a.proc.resendable)
  {
    hide Segment, Broken, Content, Receive;
    if Answering(line, d, Opposite(me.position), true, other, Some(me)) {
      DeliveryPhase(line, d, other, me, out, me.position, id);
    } else {
      FirstDeliveryPhase(line, d, other, me, out, id);
    }
  }

  /** Everything is in order but, perhaps, the record of the transaction whose packet is about to be delivered. */
  ghost predicate Ready<Id>(lines: Lines, w: World<Id>, x: Peer, k: int) {
    && SiteOk(lines, w.At(x), x, w.dialogs) && SiteOk(lines, w.At(Other(x)), Other(x), w.dialogs)
    && w.At(x).inbox != [] && w.At(x).inbox[0].key == k && k in w.dialogs
    && (forall j :: j in w.dialogs && j != k ==>
          var d := w.dialogs[j]; DialogOk(lines, w.At(d.owner), w.At(Other(d.owner)), j, d))
    && var d := w.dialogs[k];
       && DialogCore(lines, w.At(d.owner), w.At(Other(d.owner)), k, d)
       && AtRole(d, RoleOf(d, x)).Some?
  }

  lemma AcceptDialog<Id>(lines: Lines, w: World<Id>, x: Peer, k: int, out: Steps)
    requires Ready(lines, w, x, k)
    requires var d := w.dialogs[k];
      var p := AtRole(d, RoleOf(d, x)).value;
      p in w.At(x).node.procs ==>
        var proc := w.At(x).node.procs[p];
        proc.ptype in lines && proc.cursor <= |lines[proc.ptype]| ==>
          Tame(lines[proc.ptype], Receive(lines[proc.ptype], proc, w.At(x).inbox[0].body, out).ran)
    ensures var d := w.dialogs[k];
      var p := AtRole(d, RoleOf(d, x)).value;
      var body := w.At(x).inbox[0].body;
      && Bound(w.At(x), k, d.ptype, RoleOf(d, x), p)
      && d.token == Flight(x) && d.ptype in lines
      && var me := w.At(x).node.procs[p];
         var line := lines[d.ptype];
         && me.cursor <= |line|
         && var a := Receive(line, me, body, out);
            var e := DeliveryEvent(p, k, me.position, a);
            && Turn(lines, w, x, e, Received(line, me, body, out))
            && Noted(d, x, e).token == (if e.requeued then Queued(x) else Gone)
            && (e.recycled ==> !a.proc.unitFlag && !a.proc.resendable)
  {
    hide PoolOk, QueueOk, DialogOk, PhaseOk, Unmet, Known, Receive;
    var s := w.At(x);
    assert Carries(lines, x, w.dialogs, s.inbox[0]);
    var d := w.dialogs[k];
    var me := s.node.procs[AtRole(d, RoleOf(d, x)).value];
    AcceptPhase(lines[d.ptype], d, x, me, Across(w, x, d), out, AtRole(d, RoleOf(d, x)).value);
  }

  lemma AcceptActs<Id>(lines: Lines, s: Site<Id>, pkt: Packet, out: Steps, rest: seq<Packet>)
    requires NodeOk(lines, s.node) && pkt.key in s.node.space
    requires var p := s.node.space[pkt.key];
      var proc := s.node.procs[p];
      && Bound(s, pkt.key, proc.ptype, proc.position, p)
      && var a := Receive(lines[proc.ptype], proc, pkt.body, out);
         !a.result.Fail? && !a.proc.resendable ==> !a.proc.unitFlag
    ensures var o := Accept(lines, s.node, pkt, out);
      var p := s.node.space[pkt.key];
      var proc := s.node.procs[p];
      var a := Receive(lines[proc.ptype], proc, pkt.body, out);
      && o.event == DeliveryEvent(p, pkt.key, proc.position, a)
      && Acts(s, s.(node := o.node, inbox := rest), o.event, Received(lines[proc.ptype], proc, pkt.body, out))
      && o.node.queue == s.node.queue
      && Pending(o.node) == (if o.event.requeued then Pending(s.node) + [p] else Pending(s.node))
  {
    ReceiveKeeps(lines[s.node.procs[s.node.space[pkt.key]].ptype], s.node.procs[s.node.space[pkt.key]], pkt.body, out);
  }

  /** The send queues and channels after a packet has been delivered. */
  lemma AcceptSites<Id>(lines: Lines, w: World<Id>, x: Peer, s': Site<Id>, e: Event<Id>, q: Proc)
    requires Turn(lines, w, x, e, q) && Acts(w.At(x), s', e, q)
    requires Ready(lines, w, x, e.key)
    requires s'.node.queue == w.At(x).node.queue && s'.inbox == w.At(x).inbox[1..]
    requires Pending(s'.node) == (if e.requeued then Pending(w.At(x).node) + [e.id] else Pending(w.At(x).node))
    requires e.sent.None?
    requires var d := w.dialogs[e.key];
      d.token == Flight(x) && Noted(d, x, e).token == (if e.requeued then Queued(x) else Gone)
    requires e.requeued ==> !e.recycled
    ensures var y := Other(x);
      var w' := After(w, x, s', e);
      && QueueOk(s', x, w'.dialogs) && InboxOk(lines, s'.inbox, x, w'.dialogs)
      && QueueOk(w'.At(y), y, w'.dialogs) && InboxOk(lines, w'.At(y).inbox, y, w'.dialogs)
  {
    hide NodeOk, PoolOk, DialogOk, DialogCore, PhaseAt, InboxOk, Across, Known, Unmet;
    var s, y := w.At(x), Other(x);
    var w' := After(w, x, s', e);
    InboxPopped(lines, s.inbox, x, w.dialogs, w'.dialogs);
    QueueKept(w.At(y), w'.At(y), y, w.dialogs, w'.dialogs, e.key);
    InboxKept(lines, w.At(y).inbox, y, w.dialogs, w'.dialogs, e.key);
    if e.requeued {
      assert e.id in Pending(s.node) ==> Awaits(s.node, x, w.dialogs, e.id);
      QueuePushed(s, s', x, w.dialogs, w'.dialogs, e.key, e.id, q);
    } else {
      QueueKept(s, s', x, w.dialogs, w'.dialogs, e.key);
    }
  }

  /** A delivery to a registered transaction restores the invariant. */
  lemma AcceptKeeps<Id>(lines: Lines, w: World<Id>, x: Peer, k: int, out: Steps)
    requires Ready(lines, w, x, k)
    requires k in w.At(x).node.space
    requires var s := w.At(x);
      var o := Accept(lines, s.node, s.inbox[0], out);
      Civil(lines, s.(node := o.node, inbox := s.inbox[1..]), o.event)
    ensures var s := w.At(x);
      var o := Accept(lines, s.node, s.inbox[0], out);
      Inv(lines, After(w, x, s.(node := o.node, inbox := s.inbox[1..]), o.event))
  {
    hide PoolOk, DialogOk, InboxOk, QueueOk, Turn, Acts, After;
    var s := w.At(x);
    var pkt := s.inbox[0];
    var o := Accept(lines, s.node, pkt, out);
    var s' := s.(node := o.node, inbox := s.inbox[1..]);
    var d := w.dialogs[k];
    var p := AtRole(d, RoleOf(d, x)).value;
    var me := s.node.procs[p];
    AcceptDialog(lines, w, x, k, out);
    AcceptActs(lines, s, pkt, out, s.inbox[1..]);
    AcceptNode(lines, s.node, pkt, out);
    var q := Received(lines[me.ptype], me, pkt.body, out);
    AcceptSites(lines, w, x, s', o.event, q);
    AfterFacts(w, x, s', o.event);
    TurnKeeps(lines, w, After(w, x, s', o.event), x, o.event, q);
  }

  // ----- registering a server processor

  lemma AdmitPool<Id>(lines: Lines, s: Site<Id>, pkt: Packet, spare: Id)
    requires NodeOk(lines, s.node) && PoolOk(s) && spare !in s.node.procs
    requires pkt.key !in s.node.space && pkt.ptype in lines
    ensures PoolOk(s.(node := Admit(lines, s.node, pkt, spare)))
  {
    hide NodeOk;
    var pool := PoolOf(s.node, pkt.ptype);
    if pool != [] {
      assert forall p :: p in pool[1..] ==> p in pool && p != pool[0];
    }
  }

  lemma AdmitUndisturbed<Id>(lines: Lines, s: Site<Id>, pkt: Packet, spare: Id, j: int)
    requires NodeOk(lines, s.node) && PoolOk(s) && spare !in s.node.procs
    requires pkt.key !in s.node.space && pkt.ptype in lines && j != pkt.key
    ensures Undisturbed(s, s.(node := Admit(lines, s.node, pkt, spare)), j)
  {
    var s' := s.(node := Admit(lines, s.node, pkt, spare));
    forall u, role, p | p in s.node.procs && Bound(s, j, u, role, p)
      ensures Bound(s', j, u, role, p) && s'.node.procs[p] == s.node.procs[p]
    {
      if PoolOf(s.node, pkt.ptype) != [] {
        assert PoolOf(s.node, pkt.ptype)[0] in s.node.pool[pkt.ptype];
      }
    }
  }

  /** The processor that was registered: fresh at the start of its line, in server position. */
  lemma AdmitBound<Id>(lines: Lines, s: Site<Id>, pkt: Packet, spare: Id)
    requires NodeOk(lines, s.node) && PoolOk(s) && spare !in s.node.procs
    requires pkt.key !in s.node.space && pkt.ptype in lines
    ensures var m := Admit(lines, s.node, pkt, spare);
      var p := Taken(s.node, pkt.ptype, spare);
      && Bound(s.(node := m), pkt.key, pkt.ptype, Server, p)
      && m.procs[p].cursor == 0
      && m.space == s.node.space[pkt.key := p]
      && (forall r :: r in s.node.procs && r != p ==> r in m.procs && m.procs[r] == s.node.procs[r])
      && Pending(m) == Pending(s.node) && m.queue == s.node.queue && m.minimum == s.node.minimum
  {
    var pool := PoolOf(s.node, pkt.ptype);
    if pool != [] {
      assert pool[0] in pool && pool[0] !in pool[1..];
    } else {
      assert spare !in s.held;
    }
  }

  lemma AdmitSites<Id>(lines: Lines, w: World<Id>, x: Peer, spare: Id)
    requires Inv(lines, w) && w.At(x).inbox != [] && spare !in w.At(x).node.procs
    requires var pkt := w.At(x).inbox[0];
      pkt.key !in w.At(x).node.space && pkt.ptype in lines && pkt.key in w.dialogs && w.dialogs[pkt.key].token == Flight(x)
    ensures var s, y := w.At(x), Other(x);
      var pkt := s.inbox[0];
      var dialogs' := w.dialogs[pkt.key := w.dialogs[pkt.key].(server := Some(Taken(s.node, pkt.ptype, spare)))];
      && SiteOk(lines, s.(node := Admit(lines, s.node, pkt, spare)), x, dialogs')
      && SiteOk(lines, w.At(y), y, dialogs')
  {
    hide DialogOk, InboxOk, Admit;
    var s, y := w.At(x), Other(x);
    var pkt := s.inbox[0];
    var s' := s.(node := Admit(lines, s.node, pkt, spare));
    var k := pkt.key;
    var p := Taken(s.node, pkt.ptype, spare);
    var dialogs' := w.dialogs[k := w.dialogs[k].(server := Some(p))];
    AdmitBound(lines, s, pkt, spare);
    AdmitPool(lines, s, pkt, spare);
    assert p !in Pending(s.node) by { NotPending(lines, w, x, pkt, spare); }
    QueueKept(s, s', x, w.dialogs, dialogs', k);
    QueueKept(w.At(y), w.At(y), y, w.dialogs, dialogs', k);
    InboxRebound(lines, s.inbox, x, w.dialogs, dialogs', k, p);
    InboxRebound(lines, w.At(y).inbox, y, w.dialogs, dialogs', k, p);
  }

  /** A processor the pool hands out is in no queue. */
  lemma NotPending<Id>(lines: Lines, w: World<Id>, x: Peer, pkt: Packet, spare: Id)
    requires Inv(lines, w) && spare !in w.At(x).node.procs
    ensures Taken(w.At(x).node, pkt.ptype, spare) !in Pending(w.At(x).node)
  {
    hide InboxOk, QueueOk, DialogOk;
    var p := Taken(w.At(x).node, pkt.ptype, spare);
    if p in Pending(w.At(x).node) {
      PendingBound(lines, w, x, p);
    }
  }

  /** The first packet of a transaction registers it. */
  lemma AdmitReady<Id>(lines: Lines, w: World<Id>, x: Peer, spare: Id)
    requires Inv(lines, w) && w.At(x).inbox != [] && spare !in w.At(x).node.procs
    requires var pkt := w.At(x).inbox[0]; pkt.key !in w.At(x).node.space
    ensures var s := w.At(x);
      var pkt := s.inbox[0];
      && pkt.ptype in lines && pkt.key in w.dialogs
      && var d := w.dialogs[pkt.key];
         && d.owner == Other(x)
         && Ready(lines, w.Put(x, s.(node := Admit(lines, s.node, pkt, spare)))
                          .(dialogs := w.dialogs[pkt.key := d.(server := Some(Taken(s.node, pkt.ptype, spare)))]), x, pkt.key)
  {
    hide PoolOk, QueueOk, SiteOk, Undisturbed, PhaseOk, Admit, Tied;
    var s, y := w.At(x), Other(x);
    var pkt := s.inbox[0];
    var k := pkt.key;
    HeadCarries(lines, w, x);
    SiteParts(lines, w, x);
    var d := w.dialogs[k];
    assert DialogOk(lines, w.At(d.owner), w.At(Other(d.owner)), k, d);
    AdmitSites(lines, w, x, spare);
    AdmitDialog(lines, w, x, spare);
    var w' := w.Put(x, s.(node := Admit(lines, s.node, pkt, spare)))
               .(dialogs := w.dialogs[k := d.(server := Some(Taken(s.node, pkt.ptype, spare)))]);
    AdmitOthers(lines, w, w', x, spare);
  }

  /** Transactions other than the one being registered do not notice. */
  lemma AdmitOthers<Id>(lines: Lines, w: World<Id>, w': World<Id>, x: Peer, spare: Id)
    requires Inv(lines, w) && w.At(x).inbox != [] && spare !in w.At(x).node.procs
    requires var s := w.At(x);
      var pkt := s.inbox[0];
      && pkt.key !in s.node.space && pkt.ptype in lines && pkt.key in w.dialogs && pkt.key in w'.dialogs
      && w'.At(x) == s.(node := Admit(lines, s.node, pkt, spare)) && w'.At(Other(x)) == w.At(Other(x))
      && w'.dialogs == w.dialogs[pkt.key := w'.dialogs[pkt.key]]
    ensures forall j :: j in w'.dialogs && j != w.At(x).inbox[0].key ==>
      var e := w'.dialogs[j]; DialogOk(lines, w'.At(e.owner), w'.At(Other(e.owner)), j, e)
  {
    hide QueueOk, InboxOk, PhaseOk, Undisturbed, Admit, Tied;
    var s := w.At(x);
    forall j | j in w'.dialogs && j != s.inbox[0].key
      ensures var e := w'.dialogs[j]; DialogOk(lines, w'.At(e.owner), w'.At(Other(e.owner)), j, e)
    {
      var e := w.dialogs[j];
      AdmitUndisturbed(lines, s, s.inbox[0], spare, j);
      SameUndisturbed(w.At(Other(x)), w'.At(Other(x)), j);
      CoreFramed(lines, w.At(e.owner), w.At(Other(e.owner)), w'.At(e.owner), w'.At(Other(e.owner)), j, e);
    }
  }

  lemma SiteParts<Id>(lines: Lines, w: World<Id>, x: Peer)
    requires Inv(lines, w)
    ensures var s := w.At(x); NodeOk(lines, s.node) && PoolOk(s) && SiteOk(lines, s, x, w.dialogs)
  {
  }

  lemma HeadCarries<Id>(lines: Lines, w: World<Id>, x: Peer)
    requires Inv(lines, w) && w.At(x).inbox != []
    ensures Carries(lines, x, w.dialogs, w.At(x).inbox[0])
  {
  }

  /** The transaction the first packet opens on the receiving peer. */
  lemma AdmitDialog<Id>(lines: Lines, w: World<Id>, x: Peer, spare: Id)
    requires Inv(lines, w) && w.At(x).inbox != [] && spare !in w.At(x).node.procs
    requires var pkt := w.At(x).inbox[0];
      pkt.key !in w.At(x).node.space && pkt.ptype in lines && pkt.key in w.dialogs
      && w.dialogs[pkt.key].token == Flight(x) && w.dialogs[pkt.key].ptype == pkt.ptype
    ensures var s, y := w.At(x), Other(x);
      var pkt := s.inbox[0];
      var d := w.dialogs[pkt.key];
      && d.owner == y
      && DialogCore(lines, w.At(y), s.(node := Admit(lines, s.node, pkt, spare)), pkt.key,
                    d.(server := Some(Taken(s.node, pkt.ptype, spare))))
  {
    hide QueueOk, InboxOk, PhaseOk, Admit;
    var s, y := w.At(x), Other(x);
    var pkt := s.inbox[0];
    var d := w.dialogs[pkt.key];
    assert DialogOk(lines, w.At(d.owner), w.At(Other(d.owner)), pkt.key, d);
    AdmitBound(lines, s, pkt, spare);
    var p := Taken(s.node, pkt.ptype, spare);
    if d.owner == y {
      RegisterPhase(lines[d.ptype], d, x, View(w.At(y).node, d.host), Admit(lines, s.node, pkt, spare).procs[p], p);
    }
  }

  /** A packet of a registered transaction finds a processor still bound to it. */
  lemma RegisteredReady<Id>(lines: Lines, w: World<Id>, x: Peer)
    requires Inv(lines, w) && w.At(x).inbox != []
    requires w.At(x).inbox[0].key in w.At(x).node.space
    ensures Ready(lines, w, x, w.At(x).inbox[0].key)
  {
    hide PoolOk, QueueOk, NodeOk, Segment, Broken, Content, Tied, Over;
    var k := w.At(x).inbox[0].key;
    HeadCarries(lines, w, x);
    var d := w.dialogs[k];
    assert DialogOk(lines, w.At(d.owner), w.At(Other(d.owner)), k, d);
  }

  /** `process` keeps the invariant. */
  lemma DeliverKeeps<Id>(lines: Lines, w: World<Id>, x: Peer, out: Steps, spare: Id)
    requires Inv(lines, w) && w.At(x).inbox != [] && spare !in w.At(x).node.procs
    requires var s := w.At(x);
      var o := Process(lines, s.node, s.inbox[0], out, spare);
      Civil(lines, s.(node := o.node, inbox := s.inbox[1..]), o.event)
    ensures var s := w.At(x);
      var o := Process(lines, s.node, s.inbox[0], out, spare);
      Inv(lines, After(w, x, s.(node := o.node, inbox := s.inbox[1..]), o.event))
  {
    hide Inv, SiteOk, DialogOk, Ready, Accept, Admit, Process, After, Civil;
    var s := w.At(x);
    var pkt := s.inbox[0];
    var k := pkt.key;
    SiteParts(lines, w, x);
    ProcessIs(lines, s.node, pkt, out, spare);
    if k in s.node.space {
      RegisteredReady(lines, w, x);
      AcceptKeeps(lines, w, x, k, out);
    } else {
      AdmitReady(lines, w, x, spare);
      var p := Taken(s.node, pkt.ptype, spare);
      var w1 := w.Put(x, s.(node := Admit(lines, s.node, pkt, spare)))
                 .(dialogs := w.dialogs[k := w.dialogs[k].(server := Some(p))]);
      AcceptKeeps(lines, w1, x, k, out);
      var o := Accept(lines, w1.At(x).node, pkt, out);
      assert o.event.Event? && o.event.key == k && o.event.position.Server? by { AcceptEvent(lines, w1, x, k, out); }
      AfterSame(w, w1, x, s.(node := o.node, inbox := s.inbox[1..]), o.event, p);
    }
  }

  lemma AcceptEvent<Id>(lines: Lines, w: World<Id>, x: Peer, k: int, out: Steps)
    requires Ready(lines, w, x, k) && k in w.At(x).node.space && w.dialogs[k].owner != x
    ensures var e := Accept(lines, w.At(x).node, w.At(x).inbox[0], out).event;
      e.Event? && e.key == k && e.position.Server?
  {
    hide QueueOk, InboxOk, PoolOk, PhaseOk, DialogOk, Receive;
    var d := w.dialogs[k];
    assert Bound(w.At(x), k, d.ptype, Server, d.server.value);
  }

  /** Registering and then acting is recorded as one step. */
  lemma AfterSame<Id>(w: World<Id>, w1: World<Id>, x: Peer, s': Site<Id>, e: Event<Id>, p: Id)
    requires e.Event? && e.position.Server? && e.key in w.dialogs
    requires w1.At(Other(x)) == w.At(Other(x)) && w1.dialogs == w.dialogs[e.key := w.dialogs[e.key].(server := Some(p))]
    ensures After(w1, x, s', e) == After(w, x, s', e)
  {
  }

  /** `generate` keeps the invariant. */
  lemma ProduceKeeps<Id>(lines: Lines, w: World<Id>, x: Peer, out: Steps)
    requires Inv(lines, w)
    requires var s := w.At(x);
      var o := Generate(lines, s.node, out);
      Civil(lines, s.(node := o.node), o.event)
    ensures var s := w.At(x);
      var o := Generate(lines, s.node, out);
      Inv(lines, After(w, x, s.(node := o.node), o.event))
  {
    hide Inv, NodeOk, PoolOk, QueueOk, InboxOk, DialogOk, HandOver, Emit, After, Civil;
    var s := w.At(x);
    SiteParts(lines, w, x);
    HandOverSite(lines, s, x, w.dialogs);
    var w1 := w.Put(x, s.(node := HandOver(s.node)));
    QueueRearranged(lines, w, x, s.(node := HandOver(s.node)));
    EmitKeeps(lines, w1, x, out);
    var o := Emit(lines, w1.At(x).node, out);
    AfterRearranged(w, w1, x, s.(node := o.node), o.event);
  }

  lemma AfterRearranged<Id>(w: World<Id>, w1: World<Id>, x: Peer, s': Site<Id>, e: Event<Id>)
    requires w1.At(Other(x)) == w.At(Other(x)) && w1.dialogs == w.dialogs
    ensures After(w1, x, s', e) == After(w, x, s', e)
  {
  }

  // ----- every step

  lemma StepKeeps<Id>(lines: Lines, w: World<Id>, act: Act<Id>)
    requires WellFormed(lines) && Inv(lines, w) && Roomy(w)
    requires Defined(lines, w) && Enabled(lines, w, act)
    requires var (s', e) := Move(lines, w.At(act.x), act); Civil(lines, s', e)
    ensures Inv(lines, Next(lines, w, act))
  {
    hide Inv, Generate, Process, Civil, WellFormed;
    match act
    case Obtain(x, t, spare) =>
      ObtainKeeps(lines, w, x, t, spare);
    case Submit(x, p, units) =>
      SubmitKeeps(lines, w, x, p, units);
    case Produce(x, out) =>
      ProduceKeeps(lines, w, x, out);
    case Deliver(x, out, spare) =>
      DeliverKeeps(lines, w, x, out, spare);
  }
}
