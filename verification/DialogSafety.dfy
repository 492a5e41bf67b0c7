/** Tokens, recycling and transaction indexes: safety over every run. */
module DialogSafety {
  import opened Types
  import opened ActionLines
  import opened CursorLists
  import opened Nodes
  import opened DialogPhases
  import opened Dialogs
  import opened DialogFrames
  import opened DialogSteps
  import opened DialogTurns
  import opened DialogTheorems

  // ----- one token per transaction

  function WaitingKeys<Id(==)>(n: Node<Id>): (r: seq<int>)
    requires forall p :: p in Pending(n) ==> p in n.procs
    ensures |r| == |Pending(n)| && forall i :: 0 <= i < |r| ==> r[i] == n.procs[Pending(n)[i]].key
  {
    var q := Pending(n);
    seq(|q|, i requires 0 <= i < |q| => assert q[i] in q; n.procs[q[i]].key)
  }

  /** The transactions whose turn it is somewhere: queues of both peers and both channels. */
  ghost function Tokens<Id>(w: World<Id>): seq<int>
    requires forall p :: p in Pending(w.initiator.node) ==> p in w.initiator.node.procs
    requires forall p :: p in Pending(w.acceptor.node) ==> p in w.acceptor.node.procs
  {
    WaitingKeys(w.initiator.node) + Keys(w.acceptor.inbox) + (WaitingKeys(w.acceptor.node) + Keys(w.initiator.inbox))
  }

  lemma WaitingDistinct<Id>(lines: Lines, w: World<Id>, x: Peer)
    requires Inv(lines, w)
    ensures forall p :: p in Pending(w.At(x).node) ==> p in w.At(x).node.procs
    ensures Distinct(WaitingKeys(w.At(x).node))
    ensures forall k :: k in WaitingKeys(w.At(x).node) ==> k in w.dialogs && w.dialogs[k].token == Queued(x)
  {
    hide InboxOk, PoolOk, DialogOk;
    var n := w.At(x).node;
    var q := Pending(n);
    forall p | p in q
      ensures Awaits(n, x, w.dialogs, p)
    {
    }
    var ks := WaitingKeys(n);
    forall i, j | 0 <= i < j < |ks|
      ensures ks[i] != ks[j]
    {
      assert q[i] in q && q[j] in q && q[i] != q[j];
    }
    forall k | k in ks
      ensures k in w.dialogs && w.dialogs[k].token == Queued(x)
    {
      var i :| 0 <= i < |ks| && ks[i] == k;
      assert q[i] in q;
    }
  }

  lemma FlightDistinct<Id>(lines: Lines, w: World<Id>, x: Peer)
    requires Inv(lines, w)
    ensures Distinct(Keys(w.At(x).inbox))
    ensures forall k :: k in Keys(w.At(x).inbox) ==> k in w.dialogs && w.dialogs[k].token == Flight(x)
  {
    hide NodeOk, QueueOk, PoolOk, DialogOk;
    var ks := Keys(w.At(x).inbox);
    forall k | k in ks
      ensures k in w.dialogs && w.dialogs[k].token == Flight(x)
    {
      var i :| 0 <= i < |ks| && ks[i] == k;
      assert Carries(lines, x, w.dialogs, w.At(x).inbox[i]);
    }
  }

  lemma JoinDistinct<T>(a: seq<T>, b: seq<T>)
    requires Distinct(a) && Distinct(b)
    requires forall k :: k in a ==> k !in b
    ensures Distinct(a + b)
  {
    var c := a + b;
    forall i, j | 0 <= i < j < |c|
      ensures c[i] != c[j]
    {
      if i < |a| <= j {
        assert c[i] in a && c[j] in b;
      }
    }
  }

  /** In every reachable state a transaction has at most one token: its key is at most once in the
      queues of the two peers and the two channels. So no processor is queued twice or acts while it
      waits to be sent. */
  lemma OneToken<Id>(lines: Lines, ws: seq<World<Id>>, acts: seq<Act<Id>>, i: nat)
    requires WellFormed(lines) && Run(lines, ws, acts) && i < |ws|
    ensures forall p :: p in Pending(ws[i].initiator.node) ==> p in ws[i].initiator.node.procs
    ensures forall p :: p in Pending(ws[i].acceptor.node) ==> p in ws[i].acceptor.node.procs
    ensures Distinct(Tokens(ws[i]))
  {
    hide Inv, Run, Pending;
    var w := ws[i];
    RunInv(lines, ws, acts, i);
    WaitingDistinct(lines, w, Initiator);
    WaitingDistinct(lines, w, Acceptor);
    FlightDistinct(lines, w, Initiator);
    FlightDistinct(lines, w, Acceptor);
    JoinDistinct(WaitingKeys(w.initiator.node), Keys(w.acceptor.inbox));
    JoinDistinct(WaitingKeys(w.acceptor.node), Keys(w.initiator.inbox));
    JoinDistinct(WaitingKeys(w.initiator.node) + Keys(w.acceptor.inbox),
                 WaitingKeys(w.acceptor.node) + Keys(w.initiator.inbox));
  }

  // ----- recycling

  /** A pooled processor is as good as new and waits nowhere. */
  lemma PooledIsIdle<Id>(lines: Lines, ws: seq<World<Id>>, acts: seq<Act<Id>>, i: nat, x: Peer, t: int, p: Id)
    requires WellFormed(lines) && Run(lines, ws, acts) && i < |ws|
    requires t in ws[i].At(x).node.pool && p in ws[i].At(x).node.pool[t]
    ensures var s := ws[i].At(x);
      && p !in s.held && p !in s.node.queue.items && p !in s.node.back.items
      && p in s.node.procs
      && var q := s.node.procs[p];
         q.ptype == t && q.cursor == 0 && q.position.Host? && !q.resendable && !q.unitFlag
  {
    hide Run, DialogOk, InboxOk, QueueOk;
    RunInv(lines, ws, acts, i);
    var s := ws[i].At(x);
    if p in Pending(s.node) {
      PendingBound(lines, ws[i], x, p);
    }
  }

  /** The packet finds its transaction unregistered, or the processor registered for it is still
      working for this transaction and no one else can be given it. */
  ghost predicate Reaches<Id>(s: Site<Id>, pkt: Packet) {
    pkt.key in s.node.space ==>
      var p := s.node.space[pkt.key];
      && p in s.node.procs && s.node.procs[p].key == pkt.key && s.node.procs[p].ptype == pkt.ptype
      && p !in s.held && (forall t :: t in s.node.pool ==> p !in s.node.pool[t])
  }

  ghost predicate SafeDelivery<Id>(w: World<Id>) {
    forall x: Peer, i :: 0 <= i < |w.At(x).inbox| ==> Reaches(w.At(x), w.At(x).inbox[i])
  }

  lemma InFlight<Id>(lines: Lines, w: World<Id>, x: Peer, i: nat)
    requires Inv(lines, w) && i < |w.At(x).inbox|
    ensures var s := w.At(x);
      var pkt := s.inbox[i];
      && Reaches(s, pkt) && pkt.key in w.dialogs
      && (pkt.key !in s.node.space ==> w.dialogs[pkt.key].owner == Other(x) && w.dialogs[pkt.key].packets == 1)
  {
    hide NodeOk, QueueOk, Segment, Broken, Content, Waiting, Packets, AllOf;
    var s := w.At(x);
    var k := s.inbox[i].key;
    assert Carries(lines, x, w.dialogs, s.inbox[i]);
    var d := w.dialogs[k];
    assert DialogOk(lines, w.At(d.owner), w.At(Other(d.owner)), k, d);
  }

  /** Although a transaction space is never erased, in every reachable state any packet under way is
      either the first of an unregistered transaction or reaches the processor still bound to it. */
  lemma RecyclingIsSafe<Id>(lines: Lines, ws: seq<World<Id>>, acts: seq<Act<Id>>, i: nat)
    requires WellFormed(lines) && Run(lines, ws, acts) && i < |ws|
    ensures SafeDelivery(ws[i])
  {
    hide Inv, Run, Reaches;
    RunInv(lines, ws, acts, i);
    forall x: Peer, j | 0 <= j < |ws[i].At(x).inbox|
      ensures Reaches(ws[i].At(x), ws[i].At(x).inbox[j])
    {
      InFlight(lines, ws[i], x, j);
    }
  }

  // ----- transaction indexes

  /** While both spaces have room, the initiator's own indexes stay in [1, 2^30), the other peer's in
      [2^30, 2^31); an index names the same transaction on both peers, and the next one is unused. */
  lemma IndexesAgree<Id>(lines: Lines, ws: seq<World<Id>>, acts: seq<Act<Id>>, i: nat, k: int)
    requires WellFormed(lines) && Run(lines, ws, acts) && i < |ws| && Roomy(ws[i])
    ensures var w := ws[i];
      && (k in w.initiator.node.space || k in w.acceptor.node.space ==> k in w.dialogs)
      && (k in w.dialogs ==>
            var d := w.dialogs[k];
            && (if d.owner.Initiator? then 1 <= k < 0x4000_0000 else 0x4000_0000 <= k < 0x8000_0000)
            && k in w.At(d.owner).node.space
            && Tied(w.At(d.owner), k, d.ptype, Host, d.host)
            && Tied(w.At(Other(d.owner)), k, d.ptype, Server, d.server))
      && forall x: Peer ::
           NextKey(w.At(x).node) !in w.initiator.node.space && NextKey(w.At(x).node) !in w.acceptor.node.space
  {
    hide Run, NodeOk, PoolOk, QueueOk, InboxOk, PhaseOk, Tied, Known;
    RunInv(lines, ws, acts, i);
    var w := ws[i];
    if k in w.dialogs {
      var d := w.dialogs[k];
      assert DialogOk(lines, w.At(d.owner), w.At(Other(d.owner)), k, d);
    }
    forall x: Peer
      ensures NextKey(w.At(x).node) !in w.initiator.node.space && NextKey(w.At(x).node) !in w.acceptor.node.space
    {
      FreshKey(lines, w, x);
    }
  }
}
