/** Transaction indexes over all runs whatsoever: how many transactions they last for, and what comes then. */
module DialogIndexes {
  import opened Types
  import opened ActionLines
  import opened CursorLists
  import opened Nodes
  import opened DialogPhases
  import opened Dialogs
  import opened DialogSteps

  /** Any call a peer can make, whatever the callbacks answer and however full the transaction spaces are. */
  ghost predicate LooseStep<Id>(lines: Lines, w: World<Id>, act: Act<Id>, w': World<Id>) {
    Defined(lines, w) && Enabled(lines, w, act) && w' == Next(lines, w, act)
  }

  ghost predicate Within<Id>(w: World<Id>, most: nat) {
    |w.initiator.node.space| <= most && |w.acceptor.node.space| <= most
  }

  /** A run in which no transaction space ever holds more than `most` entries. */
  ghost predicate RunWithin<Id>(lines: Lines, ws: seq<World<Id>>, acts: seq<Act<Id>>, most: nat) {
    && |ws| == |acts| + 1 && ws[0] == InitialWorld()
    && (forall i :: 0 <= i < |acts| ==> LooseStep(lines, ws[i], acts[i], ws[i + 1]))
    && (forall i :: 0 <= i < |ws| ==> Within(ws[i], most))
  }

  /** The next index of either peer is unused on both. */
  ghost predicate FreshKeys<Id>(w: World<Id>) {
    forall x: Peer ::
      NextKey(w.At(x).node) !in w.initiator.node.space && NextKey(w.At(x).node) !in w.acceptor.node.space
  }

  // ----- enough room: every index in use was issued by its owner

  /** The indexes a peer has registered, or is about to put on the wire, are among `keys`. */
  ghost predicate Keyed<Id>(n: Node<Id>, keys: set<int>) {
    && (forall k :: k in n.space ==> k in keys && n.space[k] in n.procs && n.procs[n.space[k]].key in keys)
    && (forall p :: p in Pending(n) ==> p in n.procs && n.procs[p].key in keys)
  }

  ghost predicate Issued<Id>(w: World<Id>, x: Peer) {
    forall k :: k in w.dialogs && w.dialogs[k].owner == x ==>
      Minimum(x.Initiator?) <= k < Minimum(x.Initiator?) + |w.At(x).node.space|
  }

  ghost predicate SiteKeyed<Id>(s: Site<Id>, x: Peer, keys: set<int>) {
    s.node.minimum == Minimum(x.Initiator?) && Keyed(s.node, keys) && forall k :: k in Keys(s.inbox) ==> k in keys
  }

  ghost predicate KeyInv<Id>(w: World<Id>) {
    && Issued(w, Initiator) && Issued(w, Acceptor)
    && SiteKeyed(w.initiator, Initiator, w.dialogs.Keys) && SiteKeyed(w.acceptor, Acceptor, w.dialogs.Keys)
  }

  lemma RoomIsFresh<Id>(w: World<Id>, x: Peer)
    requires KeyInv(w) && Within(w, 0x3FFF_FFFE)
    ensures var k := NextKey(w.At(x).node);
      && k == |w.At(x).node.space| + Minimum(x.Initiator?)
      && k !in w.dialogs && k !in w.initiator.node.space && k !in w.acceptor.node.space
  {
    hide ToInt32;
    SmallKey(|w.At(x).node.space| + w.At(x).node.minimum);
    assert NextKey(w.At(x).node) !in w.dialogs.Keys;
  }

  lemma TakeKeyed<Id>(n: Node<Id>, t: int, spare: Id, keys: set<int>)
    requires Keyed(n, keys) && spare !in n.procs
    ensures Keyed(Take(n, t, spare), keys)
  {
  }

  lemma AdmitKeyed<Id>(lines: Lines, n: Node<Id>, pkt: Packet, spare: Id, keys: set<int>)
    requires NodeOk(lines, n) && Keyed(n, keys) && pkt.key in keys && spare !in n.procs
    requires pkt.key in n.space || pkt.ptype in lines
    ensures var m := Admit(lines, n, pkt, spare);
      Keyed(m, keys) && m.minimum == n.minimum && |m.space| >= |n.space|
  {
    if pkt.key !in n.space {
      TakeKeyed(n, pkt.ptype, spare, keys);
      TakeOk(lines, n, pkt.ptype, spare);
      var m := Take(n, pkt.ptype, spare);
      hide NodeOk, Keyed, Take, Taken;
      RegisterKeyed(m, Taken(n, pkt.ptype, spare), pkt.key, m.procs[Taken(n, pkt.ptype, spare)].(key := pkt.key, position := Server), keys);
    }
  }

  lemma RegisterKeyed<Id>(n: Node<Id>, p: Id, k: int, q: Proc, keys: set<int>)
    requires Keyed(n, keys) && k in keys && p in n.procs && q.key == k
    ensures Keyed(n.(space := n.space[k := p], procs := n.procs[p := q]), keys)
    ensures |n.space[k := p]| >= |n.space|
  {
  }

  lemma ActKeyed<Id>(n: Node<Id>, p: Id, q: Proc, keys: set<int>)
    requires Keyed(n, keys) && p in n.procs && q.key == n.procs[p].key
    ensures Keyed(n.(procs := n.procs[p := q]), keys)
  {
  }

  lemma ReturnKeyed<Id>(n: Node<Id>, p: Id, keys: set<int>)
    requires Keyed(n, keys) && p in n.procs
    ensures Keyed(Return(n, p), keys) && Return(n, p).space == n.space && Return(n, p).minimum == n.minimum
  {
  }

  lemma AcceptKeyed<Id>(lines: Lines, n: Node<Id>, pkt: Packet, out: Steps, keys: set<int>)
    requires NodeOk(lines, n) && Keyed(n, keys) && pkt.key in n.space
    ensures var o := Accept(lines, n, pkt, out);
      && Keyed(o.node, keys) && o.node.space == n.space && o.node.minimum == n.minimum
      && (o.event.Event? ==> o.event.sent.None?)
  {
    var p := n.space[pkt.key];
    var proc := n.procs[p];
    var a := Receive(lines[proc.ptype], proc, pkt.body, out);
    ReceiveKeeps(lines[proc.ptype], proc, pkt.body, out);
    ActKeyed(n, p, a.proc, keys);
    ActKeyed(n, p, Clear(a.proc), keys);
    hide NodeOk, Receive;
    ReturnKeyed(n.(procs := n.procs[p := Clear(a.proc)]), p, keys);
    QueueKeyed(n.(procs := n.procs[p := a.proc]), p, keys);
  }

  lemma QueueKeyed<Id>(n: Node<Id>, p: Id, keys: set<int>)
    requires Keyed(n, keys) && p in n.procs && n.procs[p].key in keys && n.back.Ok()
    ensures Keyed(n.(back := n.back.PushBack(p)), keys)
  {
    assert Pending(n.(back := n.back.PushBack(p))) == Pending(n) + [p];
  }

  lemma EmitKeyed<Id>(lines: Lines, n: Node<Id>, out: Steps, keys: set<int>)
    requires NodeOk(lines, n) && Keyed(n, keys)
    ensures var o := Emit(lines, n, out);
      && Keyed(o.node, keys) && o.node.space == n.space && o.node.minimum == n.minimum
      && (o.event.Event? && o.event.sent.Some? ==> o.event.sent.value.key in keys)
  {
    if n.queue.items != [] {
      var p := n.queue.items[n.queue.actual];
      assert p in Pending(n);
      var proc := n.procs[p];
      PopKeyed(n, keys);
      var popped := n.(queue := n.queue.PopActual());
      var a := Action(lines[proc.ptype], proc, out);
      ActionKey(lines[proc.ptype], proc, out);
      ActKeyed(popped, p, a.proc, keys);
      ActKeyed(popped, p, Clear(a.proc), keys);
      hide NodeOk, Action, Keyed;
      ReturnKeyed(popped.(procs := n.procs[p := Clear(a.proc)]), p, keys);
    }
  }

  lemma ActionKey(line: Line, p: Proc, out: Steps)
    requires p.cursor <= |line|
    ensures Action(line, p, out).proc.key == p.key
  {
  }

  lemma PopKeyed<Id>(n: Node<Id>, keys: set<int>)
    requires Keyed(n, keys) && n.queue.Ok()
    ensures Keyed(n.(queue := n.queue.PopActual()), keys)
  {
    var items, c := n.queue.items, n.queue.actual;
    if items != [] {
      assert forall r :: r in items[..c] + items[c + 1..] ==> r in items;
    }
  }

  lemma GenerateKeyed<Id>(lines: Lines, n: Node<Id>, out: Steps, keys: set<int>)
    requires NodeOk(lines, n) && Keyed(n, keys)
    ensures var o := Generate(lines, n, out);
      && Keyed(o.node, keys) && o.node.space == n.space && o.node.minimum == n.minimum
      && (o.event.Event? && o.event.sent.Some? ==> o.event.sent.value.key in keys)
  {
    HandOverOk(lines, n);
    var m := HandOver(n);
    assert m.queue.items + m.back.items == n.queue.items + n.back.items by { assert n.queue.items + n.back.items + [] == n.queue.items + n.back.items; }
    assert Keyed(m, keys);
    EmitKeyed(lines, m, out, keys);
  }

  lemma ProcessKeyed<Id>(lines: Lines, n: Node<Id>, pkt: Packet, out: Steps, spare: Id, keys: set<int>)
    requires NodeOk(lines, n) && Keyed(n, keys) && pkt.key in keys && spare !in n.procs
    ensures var o := Process(lines, n, pkt, out, spare);
      && Keyed(o.node, keys) && o.node.minimum == n.minimum && |o.node.space| >= |n.space|
      && (o.event.Event? ==> o.event.sent.None?)
  {
    if pkt.key in n.space || pkt.ptype in lines {
      AdmitKeyed(lines, n, pkt, spare, keys);
      AcceptKeyed(lines, Admit(lines, n, pkt, spare), pkt, out, keys);
    }
  }

  lemma ByPeer<Id>(w: World<Id>, x: Peer)
    ensures KeyInv(w) <==>
      && Issued(w, x) && Issued(w, Other(x))
      && SiteKeyed(w.At(x), x, w.dialogs.Keys) && SiteKeyed(w.At(Other(x)), Other(x), w.dialogs.Keys)
  {
    hide Issued, SiteKeyed;
  }

  lemma IssuedStays<Id>(w: World<Id>, w': World<Id>, x: Peer)
    requires Issued(w, x) && |w'.At(x).node.space| >= |w.At(x).node.space|
    requires forall k :: k in w'.dialogs && w'.dialogs[k].owner == x ==> k in w.dialogs && w.dialogs[k].owner == x
    ensures Issued(w', x)
  {
  }

  lemma PacketKeyed<Id>(s: Site<Id>, x: Peer, pkt: Packet, keys: set<int>)
    requires SiteKeyed(s, x, keys) && pkt.key in keys
    ensures SiteKeyed(s.(inbox := s.inbox + [pkt]), x, keys)
  {
    hide Keyed;
    assert Keys(s.inbox + [pkt]) == Keys(s.inbox) + [pkt.key];
  }

  /** A call that registers no transaction of its own peer. */
  lemma EventKeyed<Id>(w: World<Id>, x: Peer, s': Site<Id>, e: Event<Id>)
    requires KeyInv(w) && SiteKeyed(s', x, w.dialogs.Keys) && |s'.node.space| >= |w.At(x).node.space|
    requires e.Event? && e.sent.Some? ==> e.sent.value.key in w.dialogs.Keys
    ensures KeyInv(After(w, x, s', e))
  {
    var w' := After(w, x, s', e);
    ByPeer(w, x);
    ByPeer(w', x);
    hide KeyInv, SiteKeyed;
    assert w'.dialogs.Keys == w.dialogs.Keys;
    IssuedStays(w, w', x);
    IssuedStays(w, w', Other(x));
    hide Issued;
    if e.Event? && e.sent.Some? {
      PacketKeyed(w.At(Other(x)), Other(x), e.sent.value, w.dialogs.Keys);
    }
  }

  lemma ObtainKeyed<Id>(w: World<Id>, x: Peer, t: int, spare: Id)
    requires KeyInv(w) && spare !in w.At(x).node.procs
    ensures KeyInv(w.Put(x, Obtained(w.At(x), t, spare)))
  {
    var w' := w.Put(x, Obtained(w.At(x), t, spare));
    ByPeer(w, x);
    ByPeer(w', x);
    TakeKeyed(w.At(x).node, t, spare, w.dialogs.Keys);
    hide KeyInv, Keyed;
    IssuedStays(w, w', x);
    IssuedStays(w, w', Other(x));
  }

  lemma ProduceKeyed<Id>(lines: Lines, w: World<Id>, x: Peer, out: Steps)
    requires KeyInv(w) && NodeOk(lines, w.At(x).node)
    ensures var o := Generate(lines, w.At(x).node, out);
      KeyInv(After(w, x, w.At(x).(node := o.node), o.event))
  {
    ByPeer(w, x);
    GenerateKeyed(lines, w.At(x).node, out, w.dialogs.Keys);
    hide NodeOk, Generate, Keyed, KeyInv, After;
    var o := Generate(lines, w.At(x).node, out);
    EventKeyed(w, x, w.At(x).(node := o.node), o.event);
  }

  lemma DeliverKeyed<Id>(lines: Lines, w: World<Id>, x: Peer, out: Steps, spare: Id)
    requires KeyInv(w) && NodeOk(lines, w.At(x).node) && w.At(x).inbox != [] && spare !in w.At(x).node.procs
    ensures var s := w.At(x);
      var o := Process(lines, s.node, s.inbox[0], out, spare);
      KeyInv(After(w, x, s.(node := o.node, inbox := s.inbox[1..]), o.event))
  {
    ByPeer(w, x);
    var s := w.At(x);
    assert Keys(s.inbox)[0] in Keys(s.inbox) && Keys(s.inbox[1..]) == Keys(s.inbox)[1..];
    ProcessKeyed(lines, s.node, s.inbox[0], out, spare, w.dialogs.Keys);
    hide NodeOk, Process, Keyed, KeyInv, After;
    var o := Process(lines, s.node, s.inbox[0], out, spare);
    EventKeyed(w, x, s.(node := o.node, inbox := s.inbox[1..]), o.event);
  }

  lemma SubmittedKeyed<Id>(s: Site<Id>, x: Peer, p: Id, units: Units, keys: set<int>)
    requires SiteKeyed(s, x, keys) && p in s.node.procs && s.node.back.Ok() && NextKey(s.node) in keys
    ensures SiteKeyed(Submitted(s, p, units), x, keys)
  {
    var k := NextKey(s.node);
    var q := s.node.procs[p].(units := units);
    ActKeyed(s.node, p, q, keys);
    var n := s.node.(procs := s.node.procs[p := q]);
    RegisterKeyed(n, p, k, q.(key := k), keys);
    QueueKeyed(n.(space := n.space[k := p], procs := n.procs[p := q.(key := k)]), p, keys);
    SubmittedNode(s, p, units);
    hide Keyed, NextKey;
  }

  lemma SubmittedNode<Id>(s: Site<Id>, p: Id, units: Units)
    requires p in s.node.procs && s.node.back.Ok()
    ensures var k := NextKey(s.node);
      var q := s.node.procs[p].(units := units);
      && Submitted(s, p, units).inbox == s.inbox
      && Submitted(s, p, units).node ==
         s.node.(space := s.node.space[k := p], procs := s.node.procs[p := q][p := q.(key := k)], back := s.node.back.PushBack(p))
  {
    hide ToInt32;
  }

  lemma WiderSite<Id>(s: Site<Id>, x: Peer, keys: set<int>, more: set<int>)
    requires SiteKeyed(s, x, keys) && keys <= more
    ensures SiteKeyed(s, x, more)
  {
  }

  lemma SubmitKeyed<Id>(w: World<Id>, x: Peer, p: Id, units: Units, k: int)
    requires KeyInv(w) && w.At(x).node.back.Ok() && p in w.At(x).node.procs
    requires k == NextKey(w.At(x).node) == |w.At(x).node.space| + Minimum(x.Initiator?)
    requires k !in w.dialogs && k !in w.At(x).node.space
    ensures KeyInv(w.Put(x, Submitted(w.At(x), p, units)).(
              dialogs := w.dialogs[k := Opened(x, w.At(x).node.procs[p].ptype, p, units)]))
  {
    hide KeyInv, SiteKeyed, NextKey, Issued, Submitted, Opened, Minimum;
    var s, y := w.At(x), Other(x);
    var d := Opened(x, s.node.procs[p].ptype, p, units);
    var w' := w.Put(x, Submitted(s, p, units)).(dialogs := w.dialogs[k := d]);
    ByPeer(w, x);
    ByPeer(w', x);
    var keys := w.dialogs.Keys + {k};
    assert w'.dialogs.Keys == keys;
    WiderSite(s, x, w.dialogs.Keys, keys);
    WiderSite(w.At(y), y, w.dialogs.Keys, keys);
    SubmittedKeyed(s, x, p, units, keys);
    SubmittedNode(s, p, units);
    SpaceGrows(s.node.space, k, p);
    OpenedOwner(x, s.node.procs[p].ptype, p, units);
    IssuedOpened(w, w', x, k);
  }

  lemma OpenedOwner<Id>(x: Peer, t: int, p: Id, units: Units)
    ensures Opened(x, t, p, units).owner == x
  {
  }

  lemma IssuedOpened<Id>(w: World<Id>, w': World<Id>, x: Peer, k: int)
    requires Issued(w, x) && Issued(w, Other(x)) && k == |w.At(x).node.space| + Minimum(x.Initiator?)
    requires k in w'.dialogs && w'.dialogs == w.dialogs[k := w'.dialogs[k]] && w'.dialogs[k].owner == x
    requires |w'.At(x).node.space| == |w.At(x).node.space| + 1 && w'.At(Other(x)) == w.At(Other(x))
    ensures Issued(w', x) && Issued(w', Other(x))
  {
  }

  lemma SpaceGrows<Id>(space: map<int, Id>, k: int, p: Id)
    requires k !in space
    ensures |space[k := p]| == |space| + 1
  {
  }

  lemma NodeParts<Id>(lines: Lines, n: Node<Id>)
    requires NodeOk(lines, n)
    ensures n.queue.Ok() && n.back.Ok()
  {
  }

  /** While there is room, whatever is called and whatever the callbacks answer, indexes stay accounted for. */
  lemma StepKeyed<Id>(lines: Lines, w: World<Id>, act: Act<Id>, w': World<Id>)
    requires KeyInv(w) && Within(w, 0x3FFF_FFFE) && LooseStep(lines, w, act, w')
    ensures KeyInv(w')
  {
    hide KeyInv, NodeOk, Generate, Process, Obtained, Submitted, Opened, NextKey, Minimum;
    match act
    case Obtain(x, t, spare) => ObtainKeyed(w, x, t, spare);
    case Submit(x, p, units) =>
      NodeParts(lines, w.At(x).node);
      RoomIsFresh(w, x);
      SubmitKeyed(w, x, p, units, NextKey(w.At(x).node));
    case Produce(x, out) => ProduceKeyed(lines, w, x, out);
    case Deliver(x, out, spare) => DeliverKeyed(lines, w, x, out, spare);
  }

  lemma {:induction false} RunKeyed<Id>(lines: Lines, ws: seq<World<Id>>, acts: seq<Act<Id>>, i: nat)
    requires RunWithin(lines, ws, acts, 0x3FFF_FFFE) && i < |ws|
    ensures KeyInv(ws[i])
    decreases i
  {
    hide LooseStep, KeyInv;
    if i > 0 {
      RunKeyed(lines, ws, acts, i - 1);
      StepKeyed(lines, ws[i - 1], acts[i - 1], ws[i]);
    } else {
      InitialKeyed<Id>();
    }
  }

  lemma InitialKeyed<Id>()
    ensures KeyInv(InitialWorld<Id>())
  {
  }

  /** With at most 2^30 - 2 entries in each space, for any callbacks and any calls, the next index of
      either peer is unused on both. */
  lemma RoomSuffices<Id>(lines: Lines, ws: seq<World<Id>>, acts: seq<Act<Id>>, i: nat)
    requires RunWithin(lines, ws, acts, 0x3FFF_FFFE) && i < |ws|
    ensures FreshKeys(ws[i])
  {
    RunKeyed(lines, ws, acts, i);
    hide KeyInv, LooseStep, NextKey;
    RoomIsFresh(ws[i], Initiator);
    RoomIsFresh(ws[i], Acceptor);
  }

  // ----- too little room: runs in which the peers issue the same index

  /** A peer has sent `m` transactions of one type and done nothing else. */
  ghost predicate SentMany(lines: Lines, n: Node<int>, t: int, m: nat) {
    && NodeOk(lines, n) && n.minimum == Minimum(true) && |n.space| == m
    && (forall k :: k in n.space ==> 1 <= k <= m)
    && (forall p :: p in n.procs ==> 0 <= p < m)
    && PoolOf(n, t) == []
  }

  ghost predicate OpenedMany(lines: Lines, w: World<int>, t: int, m: nat) {
    SentMany(lines, w.initiator.node, t, m) && w.acceptor == Site(InitialNode(false), {}, [])
  }

  ghost function Sender(w: World<int>, x: Peer, t: int, p: int): Site<int> {
    w.At(x).(node := Take(w.At(x).node, t, p), held := w.At(x).held + {p})
  }

  /** The world after a peer whose pool is empty has taken a new processor and sent it. */
  ghost function AfterSend(w: World<int>, x: Peer, t: int, p: int): World<int>
    requires PoolOf(w.At(x).node, t) == [] && w.At(x).node.back.Ok()
  {
    var s := Sender(w, x, t, p);
    w.Put(x, Submitted(s, p, [])).(dialogs := w.dialogs[NextKey(s.node) := Opened(x, s.node.procs[p].ptype, p, [])])
  }

  lemma SendSteps(lines: Lines, w: World<int>, x: Peer, t: int, p: int)
    requires Defined(lines, w) && t in lines && p !in w.At(x).node.procs && PoolOf(w.At(x).node, t) == []
    ensures var v := w.Put(x, Sender(w, x, t, p));
      && LooseStep(lines, w, Obtain(x, t, p), v) && LooseStep(lines, v, Submit(x, p, []), AfterSend(w, x, t, p))
      && v.At(x).node.space == w.At(x).node.space && v.At(Other(x)) == w.At(Other(x))
  {
    TakeOk(lines, w.At(x).node, t, p);
    hide NodeOk, Submitted, Opened;
    var v := w.Put(x, Sender(w, x, t, p));
    assert v.dialogs == w.dialogs;
    assert AfterSend(w, x, t, p) == Next(lines, v, Submit(x, p, [])) by { PutTwice(w, x, Sender(w, x, t, p)); }
  }

  lemma PutTwice(w: World<int>, x: Peer, s: Site<int>)
    ensures w.Put(x, s).At(x) == s && forall u :: w.Put(x, s).Put(x, u) == w.Put(x, u)
  {
  }

  /** The peer after the two calls, field by field. */
  ghost function Sent(n: Node<int>, t: int, p: int): Node<int>
    requires n.back.Ok()
  {
    n.(space := n.space[NextKey(n) := p], procs := n.procs[p := NewProc(t).(key := NextKey(n))],
       pool := n.pool[t := []], back := n.back.PushBack(p))
  }

  lemma SendShape(w: World<int>, x: Peer, t: int, p: int)
    requires PoolOf(w.At(x).node, t) == [] && w.At(x).node.back.Ok()
    ensures AfterSend(w, x, t, p).At(x).node == Sent(w.At(x).node, t, p)
    ensures AfterSend(w, x, t, p).At(Other(x)) == w.At(Other(x))
  {
    hide ToInt32;
    SubmittedNode(Sender(w, x, t, p), p, []);
    var n := w.At(x).node;
    var q := NewProc(t);
    var k := NextKey(n);
    assert q.(units := []) == q;
    assert n.procs[p := q][p := q][p := q.(key := k)] == n.procs[p := q.(key := k)];
    hide Submitted, NextKey;
  }

  /** What the two calls make of the peer. */
  lemma SendNode(lines: Lines, n: Node<int>, t: int, p: int)
    requires NodeOk(lines, n) && t in lines
    ensures var n' := Sent(n, t, p);
      && NodeOk(lines, n') && n'.minimum == n.minimum && n'.space == n.space[NextKey(n) := p]
      && n'.procs.Keys == n.procs.Keys + {p} && PoolOf(n', t) == []
      && n'.procs[p].key == NextKey(n) && n'.procs[p].position.Host? && p in Pending(n')
  {
    hide NextKey;
    assert p in n.back.PushBack(p).items;
  }

  lemma RunOn<Id>(lines: Lines, ws: seq<World<Id>>, acts: seq<Act<Id>>, most: nat,
                  a: Act<Id>, v: World<Id>, b: Act<Id>, u: World<Id>, more: nat)
    requires RunWithin(lines, ws, acts, most) && most <= more
    requires LooseStep(lines, ws[|ws| - 1], a, v) && LooseStep(lines, v, b, u) && Within(v, more) && Within(u, more)
    ensures RunWithin(lines, ws + [v, u], acts + [a, b], more)
  {
    hide LooseStep;
    var us := ws + [v, u];
    forall i | 0 <= i < |us|
      ensures Within(us[i], more)
    {
      assert i < |ws| ==> Within(ws[i], most);
    }
  }

  /** The initiator fills its space up to `m` entries. */
  lemma FillUp(lines: Lines, t: int, m: nat) returns (ws: seq<World<int>>, acts: seq<Act<int>>)
    requires t in lines && m <= 0x3FFF_FFFF
    ensures RunWithin(lines, ws, acts, m) && OpenedMany(lines, ws[|ws| - 1], t, m)
    decreases m
  {
    if m == 0 {
      ws, acts := [InitialWorld()], [];
    } else {
      ws, acts := FillUp(lines, t, m - 1);
      var w := ws[|ws| - 1];
      SendOneMore(lines, w, t, m - 1);
      hide LooseStep, OpenedMany;
      RunOn(lines, ws, acts, m - 1, Obtain(Initiator, t, m - 1), w.Put(Initiator, Sender(w, Initiator, t, m - 1)),
            Submit(Initiator, m - 1, []), AfterSend(w, Initiator, t, m - 1), m);
      ws := ws + [w.Put(Initiator, Sender(w, Initiator, t, m - 1)), AfterSend(w, Initiator, t, m - 1)];
      acts := acts + [Obtain(Initiator, t, m - 1), Submit(Initiator, m - 1, [])];
    }
  }

  lemma SentOneMore(lines: Lines, n: Node<int>, t: int, m: nat)
    requires SentMany(lines, n, t, m) && t in lines && m < 0x3FFF_FFFF
    ensures SentMany(lines, Sent(n, t, m), t, m + 1) && m !in n.procs
  {
    hide NodeOk, NextKey, Sent, PoolOf;
    NextSmall(n);
    SendNode(lines, n, t, m);
    assert m + 1 !in n.space;
    SpaceGrows(n.space, m + 1, m);
  }

  lemma SendOneMore(lines: Lines, w: World<int>, t: int, m: nat)
    requires OpenedMany(lines, w, t, m) && t in lines && m < 0x3FFF_FFFF
    ensures PoolOf(w.At(Initiator).node, t) == [] && w.At(Initiator).node.back.Ok()
    ensures var v, u := w.Put(Initiator, Sender(w, Initiator, t, m)), AfterSend(w, Initiator, t, m);
      && LooseStep(lines, w, Obtain(Initiator, t, m), v) && LooseStep(lines, v, Submit(Initiator, m, []), u)
      && OpenedMany(lines, u, t, m + 1) && Within(v, m + 1) && Within(u, m + 1)
  {
    assert w.At(Initiator) == w.initiator && w.At(Other(Initiator)) == w.acceptor;
    InitialOk(lines);
    SentOneMore(lines, w.initiator.node, t, m);
    hide Sent, AfterSend, InitialNode, NodeOk, LooseStep;
    SendSteps(lines, w, Initiator, t, m);
    SendShape(w, Initiator, t, m);
  }

  lemma InitialOk(lines: Lines)
    ensures NodeOk(lines, InitialNode<int>(false)) && |InitialNode<int>(false).space| == 0
    ensures PoolOf(InitialNode<int>(false), 0) == [] && forall t :: PoolOf(InitialNode<int>(false), t) == []
    ensures InitialNode<int>(false).procs == map[]
  {
  }

  /** With 2^30 - 1 entries on its side the initiator's next index is the acceptor's first; once the
      acceptor has issued it, it is no longer unused. */
  lemma IndexTaken(lines: Lines, t: int) returns (ws: seq<World<int>>, acts: seq<Act<int>>)
    requires t in lines
    ensures RunWithin(lines, ws, acts, 0x3FFF_FFFF)
    ensures var w := ws[|ws| - 1];
      && OpenedMany(lines, w.(acceptor := Site(InitialNode(false), {}, [])), t, 0x3FFF_FFFF)
      && NextKey(w.initiator.node) == 0x4000_0000 && 0x4000_0000 in w.acceptor.node.space
      && PoolOf(w.initiator.node, t) == [] && Defined(lines, w)
      && 0 in Pending(w.acceptor.node) && 0 in w.acceptor.node.procs && |w.acceptor.node.space| == 1
      && w.acceptor.node.space[0x4000_0000] == 0
      && w.acceptor.node.procs[0].key == 0x4000_0000 && w.acceptor.node.procs[0].position.Host?
  {
    ws, acts := FillUp(lines, t, 0x3FFF_FFFF);
    var w := ws[|ws| - 1];
    AcceptorSends(lines, w, t);
    hide LooseStep, OpenedMany, NextKey;
    var v, u := w.Put(Acceptor, Sender(w, Acceptor, t, 0)), AfterSend(w, Acceptor, t, 0);
    RunOn(lines, ws, acts, 0x3FFF_FFFF, Obtain(Acceptor, t, 0), v, Submit(Acceptor, 0, []), u, 0x3FFF_FFFF);
    ws := ws + [v, u];
    acts := acts + [Obtain(Acceptor, t, 0), Submit(Acceptor, 0, [])];
  }

  lemma AcceptorSends(lines: Lines, w: World<int>, t: int)
    requires OpenedMany(lines, w, t, 0x3FFF_FFFF) && t in lines
    ensures PoolOf(w.At(Acceptor).node, t) == [] && w.At(Acceptor).node.back.Ok()
    ensures var v, u := w.Put(Acceptor, Sender(w, Acceptor, t, 0)), AfterSend(w, Acceptor, t, 0);
      && LooseStep(lines, w, Obtain(Acceptor, t, 0), v) && LooseStep(lines, v, Submit(Acceptor, 0, []), u)
      && Within(v, 0x3FFF_FFFF) && Within(u, 0x3FFF_FFFF)
      && u.initiator == w.initiator && Defined(lines, u)
      && NextKey(u.initiator.node) == 0x4000_0000
      && PoolOf(u.initiator.node, t) == []
      && u.acceptor.node.space == map[0x4000_0000 := 0]
      && 0 in Pending(u.acceptor.node) && 0 in u.acceptor.node.procs
      && u.acceptor.node.procs[0].key == 0x4000_0000 && u.acceptor.node.procs[0].position.Host?
      && OpenedMany(lines, u.(acceptor := Site(InitialNode(false), {}, [])), t, 0x3FFF_FFFF)
  {
    assert w.At(Acceptor) == w.acceptor && w.At(Other(Acceptor)) == w.initiator;
    InitialOk(lines);
    FirstSent(lines, t);
    FullNext(lines, w.initiator.node, t);
    hide Sent, AfterSend, InitialNode, NodeOk, LooseStep, NextKey;
    SendSteps(lines, w, Acceptor, t, 0);
    SendShape(w, Acceptor, t, 0);
  }

  lemma FullNext(lines: Lines, n: Node<int>, t: int)
    requires SentMany(lines, n, t, 0x3FFF_FFFF)
    ensures NextKey(n) == 0x4000_0000
  {
    NextSmall(n);
  }

  lemma NextSmall(n: Node<int>)
    requires 0 <= |n.space| + n.minimum < 0x8000_0000
    ensures NextKey(n) == |n.space| + n.minimum
  {
    hide ToInt32;
    SmallKey(|n.space| + n.minimum);
  }

  lemma FirstSent(lines: Lines, t: int)
    requires t in lines
    ensures var n' := Sent(InitialNode(false), t, 0);
      && NodeOk(lines, n') && n'.space == map[0x4000_0000 := 0] && |n'.space| == 1
      && 0 in Pending(n') && 0 in n'.procs && n'.procs[0].key == 0x4000_0000 && n'.procs[0].position.Host?
  {
    hide NextKey, Sent;
    NextSmall(InitialNode(false));
    SendNode(lines, InitialNode(false), t, 0);
  }

  /** One more transaction of the initiator and the index is issued twice: on each peer it names a host
      processor of its own, waiting to be sent, for two transactions that have nothing to do with each
      other. */
  lemma IndexIssuedTwice(lines: Lines, t: int) returns (ws: seq<World<int>>, acts: seq<Act<int>>)
    requires t in lines
    ensures RunWithin(lines, ws, acts, 0x4000_0000)
    ensures var w := ws[|ws| - 1];
      forall x: Peer ::
        && 0x4000_0000 in w.At(x).node.space
        && var p := w.At(x).node.space[0x4000_0000];
           && p in w.At(x).node.procs && p in Pending(w.At(x).node)
           && w.At(x).node.procs[p].key == 0x4000_0000 && w.At(x).node.procs[p].position.Host?
  {
    ws, acts := IndexTaken(lines, t);
    var w := ws[|ws| - 1];
    var p := 0x3FFF_FFFF;
    InitiatorSendsAgain(lines, w, t);
    hide LooseStep, OpenedMany, NextKey, Pending;
    var v, u := w.Put(Initiator, Sender(w, Initiator, t, p)), AfterSend(w, Initiator, t, p);
    RunOn(lines, ws, acts, 0x3FFF_FFFF, Obtain(Initiator, t, p), v, Submit(Initiator, p, []), u, 0x4000_0000);
    ws := ws + [v, u];
    acts := acts + [Obtain(Initiator, t, p), Submit(Initiator, p, [])];
  }

  lemma InitiatorSendsAgain(lines: Lines, w: World<int>, t: int)
    requires SentMany(lines, w.initiator.node, t, 0x3FFF_FFFF) && t in lines && Defined(lines, w)
    requires NextKey(w.initiator.node) == 0x4000_0000 && |w.acceptor.node.space| == 1
    ensures PoolOf(w.At(Initiator).node, t) == [] && w.At(Initiator).node.back.Ok()
    ensures var p := 0x3FFF_FFFF;
      var v, u := w.Put(Initiator, Sender(w, Initiator, t, p)), AfterSend(w, Initiator, t, p);
      && LooseStep(lines, w, Obtain(Initiator, t, p), v) && LooseStep(lines, v, Submit(Initiator, p, []), u)
      && Within(v, 0x4000_0000) && Within(u, 0x4000_0000) && u.acceptor == w.acceptor
      && u.initiator.node.space == w.initiator.node.space[0x4000_0000 := p]
      && p in u.initiator.node.procs && p in Pending(u.initiator.node)
      && u.initiator.node.procs[p].key == 0x4000_0000 && u.initiator.node.procs[p].position.Host?
  {
    var p := 0x3FFF_FFFF;
    assert w.At(Initiator) == w.initiator && w.At(Other(Initiator)) == w.acceptor && p !in w.initiator.node.procs;
    NodeParts(lines, w.initiator.node);
    hide NodeOk, NextKey, Sent, AfterSend, LooseStep;
    SendSteps(lines, w, Initiator, t, p);
    SendShape(w, Initiator, t, p);
    SendNode(lines, w.initiator.node, t, p);
    SpaceGrows(w.initiator.node.space, 0x4000_0000, p);
  }

  /** The check for a free index never refuses one: its sum has no sign, so a negative index passes it. */
  lemma GuardNeverRefuses<Id>(n: Node<Id>, p: Id)
    requires p in n.procs
    ensures Register(n, p).space == n.space[NextKey(n) := p] && Register(n, p).procs[p].key == NextKey(n)
    ensures NextKey(n) < 0 <==> (|n.space| + n.minimum) % 0x1_0000_0000 >= 0x8000_0000
  {
    assert !NoIndexLeft(n);
  }

  // ----- the exact bound

  /** In every run that keeps both spaces at most this full the next indexes are unused. */
  ghost predicate AlwaysFresh(lines: Lines, most: nat) {
    forall ws: seq<World<int>>, acts: seq<Act<int>>, i ::
      RunWithin(lines, ws, acts, most) && 0 <= i < |ws| ==> FreshKeys(ws[i])
  }

  lemma WiderRun<Id>(lines: Lines, ws: seq<World<Id>>, acts: seq<Act<Id>>, most: nat, more: nat)
    requires RunWithin(lines, ws, acts, most) && most <= more
    ensures RunWithin(lines, ws, acts, more)
  {
    hide LooseStep;
    forall i | 0 <= i < |ws|
      ensures Within(ws[i], more)
    {
      assert Within(ws[i], most);
    }
  }

  /** The next indexes of both peers are unused in every run that keeps the spaces at most this full, with
      any callbacks, exactly when that is fewer than 2^30 - 1 entries. */
  lemma FreshExactly(lines: Lines, most: nat)
    requires lines != map[]
    ensures AlwaysFresh(lines, most) <==> most < 0x3FFF_FFFF
  {
    hide RunWithin, FreshKeys;
    if most < 0x3FFF_FFFF {
      forall ws: seq<World<int>>, acts: seq<Act<int>>, i | RunWithin(lines, ws, acts, most) && 0 <= i < |ws|
        ensures FreshKeys(ws[i])
      {
        WiderRun(lines, ws, acts, most, 0x3FFF_FFFE);
        RoomSuffices(lines, ws, acts, i);
      }
    } else {
      SomeType(lines);
      var t :| t in lines;
      var ws, acts := IndexTaken(lines, t);
      WiderRun(lines, ws, acts, 0x3FFF_FFFF, most);
      LastWorld(lines, ws, acts, most);
      TakenIsNotFresh(ws[|ws| - 1]);
      assert !AlwaysFresh(lines, most);
    }
  }

  lemma SomeType(lines: Lines)
    ensures lines == map[] || exists t :: t in lines
  {
    assert (forall t :: t !in lines) ==> lines == map[];
  }

  lemma LastWorld<Id>(lines: Lines, ws: seq<World<Id>>, acts: seq<Act<Id>>, most: nat)
    requires RunWithin(lines, ws, acts, most)
    ensures |ws| > 0
  {
  }

  lemma TakenIsNotFresh(w: World<int>)
    requires NextKey(w.initiator.node) in w.acceptor.node.space
    ensures !FreshKeys(w)
  {
    assert w.At(Initiator) == w.initiator;
  }
}
