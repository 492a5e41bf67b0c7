/** Two peers, a FIFO channel each way, any number of transactions: the multiplexed protocol. */
module Dialogs {
  import opened Types
  import opened ActionLines
  import opened CursorLists
  import opened Nodes
  import opened DialogPhases

  /** One peer: its packet processor, the processors its user took from the pool and has not sent
      yet, and the packets on their way to it. */
  datatype Site<Id(==)> = Site(node: Node<Id>, held: set<Id>, inbox: seq<Packet>)

  datatype World<Id(==)> = World(initiator: Site<Id>, acceptor: Site<Id>, dialogs: map<int, Dialog<Id>>) {
    function At(x: Peer): Site<Id> {
      if x.Initiator? then initiator else acceptor
    }

    function Put(x: Peer, s: Site<Id>): World<Id> {
      if x.Initiator? then this.(initiator := s) else this.(acceptor := s)
    }
  }

  datatype Act<Id> =
    | Obtain(x: Peer, ptype: int, spare: Id)
    | Submit(x: Peer, id: Id, units: Units)
    | Produce(x: Peer, out: Steps)
    | Deliver(x: Peer, out: Steps, spare: Id)

  // ----- the state

  predicate IdleProc(q: Proc) {
    q.cursor == 0 && q.position.Host? && !q.resendable && !q.unitFlag
  }

  ghost predicate PoolOk<Id>(s: Site<Id>) {
    && (forall t, p :: t in s.node.pool && p in s.node.pool[t] ==>
          p in s.node.procs && s.node.procs[p].ptype == t && IdleProc(s.node.procs[p]) && p !in s.held)
    && (forall t, i, j :: t in s.node.pool && 0 <= i < j < |s.node.pool[t]| ==> s.node.pool[t][i] != s.node.pool[t][j])
    && (forall p :: p in s.held ==> p in s.node.procs && IdleProc(s.node.procs[p]))
    && (forall p :: p in s.node.procs ==> s.node.procs[p].ptype in s.node.pool)
  }

  /** Processor `p` serves transaction `k`, the transaction space agrees, and no one else may get hold of it. */
  ghost predicate Bound<Id>(s: Site<Id>, k: int, t: int, role: Position, p: Id) {
    && p in s.node.procs && k in s.node.space && s.node.space[k] == p
    && s.node.procs[p].key == k && s.node.procs[p].position == role && s.node.procs[p].ptype == t
    && p !in s.held && t in s.node.pool && p !in s.node.pool[t]
  }

  function View<Id(==)>(n: Node<Id>, o: Option<Id>): Option<Proc> {
    if o.Some? && o.value in n.procs then Some(n.procs[o.value]) else None
  }

  /** The other peer has registered the transaction. */
  predicate Known<Id(==)>(d: Dialog<Id>) {
    d.server.Some? || (d.token.Gone? && d.packets > 0)
  }

  /** The first packet has not been delivered yet. */
  predicate Unmet<Id(==)>(d: Dialog<Id>) {
    (d.packets == 0 && !d.token.Gone?) || (d.packets == 1 && d.token == Flight(Other(d.owner)))
  }

  ghost predicate Tied<Id>(s: Site<Id>, k: int, t: int, role: Position, o: Option<Id>) {
    o.Some? ==> Bound(s, k, t, role, o.value)
  }

  ghost predicate DialogCore<Id>(lines: Lines, own: Site<Id>, other: Site<Id>, k: int, d: Dialog<Id>) {
    && d.ptype in lines
    && Tied(own, k, d.ptype, Host, d.host)
    && Tied(other, k, d.ptype, Server, d.server)
    && PhaseOk(lines[d.ptype], d, View(own.node, d.host), View(other.node, d.server))
    && k in own.node.space
    && Minimum(d.owner.Initiator?) <= k < Minimum(d.owner.Initiator?) + |own.node.space|
    && (k in other.node.space <==> Known(d))
  }

  ghost predicate DialogOk<Id>(lines: Lines, own: Site<Id>, other: Site<Id>, k: int, d: Dialog<Id>) {
    DialogCore(lines, own, other, k, d) && (Unmet(d) ==> d.server.None?)
  }

  function Pending<Id(==)>(n: Node<Id>): seq<Id> {
    n.queue.items + n.back.items
  }

  ghost predicate Distinct<T>(s: seq<T>) {
    forall i, j :: 0 <= i < j < |s| ==> s[i] != s[j]
  }

  /** The processors waiting to be sent are exactly those of the transactions whose token is here. */
  ghost predicate QueueOk<Id>(s: Site<Id>, x: Peer, dialogs: map<int, Dialog<Id>>) {
    var q := Pending(s.node);
    && s.node.queue.actual == 0
    && Distinct(q)
    && (forall p :: p in q ==> Awaits(s.node, x, dialogs, p))
    && (forall k :: k in dialogs && dialogs[k].token == Queued(x) ==> Stands(s.node, x, k, dialogs[k]))
  }

  /** The processor whose turn it is in transaction `k` stands in the queue. */
  ghost predicate Stands<Id>(n: Node<Id>, x: Peer, k: int, d: Dialog<Id>) {
    var o := AtRole(d, RoleOf(d, x));
    o.Some? && o.value in Pending(n) && o.value in n.procs && n.procs[o.value].key == k
  }

  ghost predicate Awaits<Id>(n: Node<Id>, x: Peer, dialogs: map<int, Dialog<Id>>, p: Id) {
    && p in n.procs && n.procs[p].key in dialogs
    && var d := dialogs[n.procs[p].key];
       d.token == Queued(x) && AtRole(d, RoleOf(d, x)) == Some(p)
  }

  function Keys(inbox: seq<Packet>): (r: seq<int>)
    ensures |r| == |inbox| && forall i :: 0 <= i < |r| ==> r[i] == inbox[i].key
  {
    seq(|inbox|, i requires 0 <= i < |inbox| => inbox[i].key)
  }

  ghost predicate Carries<Id>(lines: Lines, x: Peer, dialogs: map<int, Dialog<Id>>, pkt: Packet) {
    && pkt.key in dialogs
    && var d := dialogs[pkt.key];
       && d.token == Flight(x) && d.ptype in lines
       && pkt.ptype == d.ptype && pkt.body == Product(Broken(lines[d.ptype], d), Content(d))
  }

  /** The packets under way are exactly those of the transactions whose token is in flight. */
  ghost predicate InboxOk<Id>(lines: Lines, inbox: seq<Packet>, x: Peer, dialogs: map<int, Dialog<Id>>) {
    && Distinct(Keys(inbox))
    && (forall i :: 0 <= i < |inbox| ==> Carries(lines, x, dialogs, inbox[i]))
    && (forall k :: k in dialogs && dialogs[k].token == Flight(x) ==> k in Keys(inbox))
  }

  ghost predicate SiteOk<Id>(lines: Lines, s: Site<Id>, x: Peer, dialogs: map<int, Dialog<Id>>) {
    && NodeOk(lines, s.node)
    && s.node.minimum == Minimum(x.Initiator?)
    && PoolOk(s)
    && (forall k :: k in s.node.space ==> k in dialogs)
    && QueueOk(s, x, dialogs)
    && InboxOk(lines, s.inbox, x, dialogs)
  }

  ghost predicate Inv<Id>(lines: Lines, w: World<Id>) {
    && SiteOk(lines, w.initiator, Initiator, w.dialogs)
    && SiteOk(lines, w.acceptor, Acceptor, w.dialogs)
    && (forall k :: k in w.dialogs ==>
          DialogOk(lines, w.At(w.dialogs[k].owner), w.At(Other(w.dialogs[k].owner)), k, w.dialogs[k]))
  }

  // ----- the steps

  ghost function InitialWorld<Id>(): World<Id> {
    World(Site(InitialNode(true), {}, []), Site(InitialNode(false), {}, []), map[])
  }

  ghost predicate Defined<Id>(lines: Lines, w: World<Id>) {
    NodeOk(lines, w.initiator.node) && NodeOk(lines, w.acceptor.node)
  }

  /** A processor of the pool, or a new one, goes to the user. */
  ghost function Obtained<Id>(s: Site<Id>, t: int, spare: Id): Site<Id> {
    s.(node := Take(s.node, t, spare), held := s.held + {Taken(s.node, t, spare)})
  }

  /** The user fills the content units. */
  ghost function Filled<Id>(n: Node<Id>, p: Id, units: Units): Node<Id>
    requires p in n.procs
  {
    n.(procs := n.procs[p := n.procs[p].(units := units)])
  }

  ghost function Submitted<Id>(s: Site<Id>, p: Id, units: Units): Site<Id>
    requires p in s.node.procs && s.node.back.Ok()
  {
    s.(node := Send(Filled(s.node, p, units), p), held := s.held - {p})
  }

  ghost function Opened<Id>(x: Peer, t: int, p: Id, units: Units): Dialog<Id> {
    Dialog(x, t, units, Some(p), None, Queued(x), [], 0, 0, 0)
  }

  /** The world after peer `x` has moved to `s` with event `e`: the record is kept, a packet travels. */
  ghost function After<Id>(w: World<Id>, x: Peer, s: Site<Id>, e: Event<Id>): World<Id> {
    var y := Other(x);
    if e.Nothing? then w.Put(x, s) else
    var w1 := w.Put(x, s).Put(y, if e.sent.Some? then w.At(y).(inbox := w.At(y).inbox + [e.sent.value]) else w.At(y));
    w1.(dialogs := if e.key in w.dialogs then w.dialogs[e.key := Noted(w.dialogs[e.key], x, e)] else w.dialogs)
  }

  ghost predicate Enabled<Id>(lines: Lines, w: World<Id>, act: Act<Id>)
    requires Defined(lines, w)
  {
    var s := w.At(act.x);
    match act
    case Obtain(_, t, spare) => t in lines && spare !in s.node.procs
    case Submit(_, p, _) => p in s.held && p in s.node.procs
    case Produce(_, _) => true
    case Deliver(_, _, spare) => s.inbox != [] && spare !in s.node.procs
  }

  /** What the call did to the acting peer. */
  ghost function Move<Id>(lines: Lines, s: Site<Id>, act: Act<Id>): (Site<Id>, Event<Id>)
    requires NodeOk(lines, s.node)
    requires act.Submit? ==> act.id in s.node.procs
    requires act.Deliver? ==> s.inbox != []
  {
    match act
    case Obtain(_, t, spare) => (Obtained(s, t, spare), Nothing)
    case Submit(_, p, units) => (Submitted(s, p, units), Nothing)
    case Produce(_, out) =>
      var o := Generate(lines, s.node, out);
      (s.(node := o.node), o.event)
    case Deliver(_, out, spare) =>
      var o := Process(lines, s.node, s.inbox[0], out, spare);
      (s.(node := o.node, inbox := s.inbox[1..]), o.event)
  }

  ghost function Next<Id>(lines: Lines, w: World<Id>, act: Act<Id>): World<Id>
    requires Defined(lines, w) && Enabled(lines, w, act)
  {
    var s := w.At(act.x);
    var (s', e) := Move(lines, s, act);
    var w' := After(w, act.x, s', e);
    if act.Submit? then
      var k := NextKey(s.node);
      w'.(dialogs := w.dialogs[k := Opened(act.x, s.node.procs[act.id].ptype, act.id, act.units)])
    else w'
  }

  /** The steps that ran answered SUCCESS or FAIL, and no line that begins on the server failed early.
      `s` is the peer after the call. */
  ghost predicate Civil<Id>(lines: Lines, s: Site<Id>, e: Event<Id>) {
    e.Event? && e.id in s.node.procs && s.node.procs[e.id].ptype in lines ==> Tame(lines[s.node.procs[e.id].ptype], e.ran)
  }

  /** Both transaction spaces hold fewer than 2^30 - 1 entries. */
  ghost predicate Roomy<Id>(w: World<Id>) {
    |w.initiator.node.space| < 0x3FFF_FFFF && |w.acceptor.node.space| < 0x3FFF_FFFF
  }
}
