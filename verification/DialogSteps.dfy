/** Every step of the protocol keeps the invariant. */
module DialogSteps {
  import opened Types
  import opened ActionLines
  import opened CursorLists
  import opened Nodes
  import opened DialogPhases
  import opened Dialogs
  import opened DialogFrames

  ghost predicate AllDialogs<Id>(lines: Lines, w: World<Id>) {
    forall k :: k in w.dialogs ==>
      DialogOk(lines, w.At(w.dialogs[k].owner), w.At(Other(w.dialogs[k].owner)), k, w.dialogs[k])
  }

  /** Dialogs other than `k` do not notice a step that leaves them undisturbed on both peers. */
  lemma DialogsKept<Id>(lines: Lines, w: World<Id>, w': World<Id>, k: int)
    requires forall j :: j in w.dialogs && j != k ==>
      && (var d := w.dialogs[j]; DialogOk(lines, w.At(d.owner), w.At(Other(d.owner)), j, d))
      && Undisturbed(w.initiator, w'.initiator, j) && Undisturbed(w.acceptor, w'.acceptor, j)
    requires k in w'.dialogs && w'.dialogs == w.dialogs[k := w'.dialogs[k]]
    requires var d := w'.dialogs[k]; DialogOk(lines, w'.At(d.owner), w'.At(Other(d.owner)), k, d)
    ensures AllDialogs(lines, w')
  {
    forall j | j in w'.dialogs
      ensures DialogOk(lines, w'.At(w'.dialogs[j].owner), w'.At(Other(w'.dialogs[j].owner)), j, w'.dialogs[j])
    {
      if j != k {
        var d := w.dialogs[j];
        CoreFramed(lines, w.At(d.owner), w.At(Other(d.owner)), w'.At(d.owner), w'.At(Other(d.owner)), j, d);
      }
    }
  }

  lemma DialogsSame<Id>(lines: Lines, w: World<Id>, w': World<Id>)
    requires AllDialogs(lines, w)
    requires forall j :: j in w.dialogs ==>
      Undisturbed(w.initiator, w'.initiator, j) && Undisturbed(w.acceptor, w'.acceptor, j)
    requires w'.dialogs == w.dialogs
    ensures AllDialogs(lines, w')
  {
    forall j | j in w'.dialogs
      ensures DialogOk(lines, w'.At(w'.dialogs[j].owner), w'.At(Other(w'.dialogs[j].owner)), j, w'.dialogs[j])
    {
      var d := w.dialogs[j];
      CoreFramed(lines, w.At(d.owner), w.At(Other(d.owner)), w'.At(d.owner), w'.At(Other(d.owner)), j, d);
    }
  }

  lemma InitialInv<Id>(lines: Lines)
    ensures Inv(lines, InitialWorld<Id>())
  {
  }

  // ----- taking a processor from the pool

  lemma ObtainedPool<Id>(lines: Lines, s: Site<Id>, t: int, spare: Id)
    requires NodeOk(lines, s.node) && PoolOk(s) && t in lines && spare !in s.node.procs
    ensures NodeOk(lines, Obtained(s, t, spare).node) && PoolOk(Obtained(s, t, spare))
  {
    TakeOk(lines, s.node, t, spare);
    var pool := PoolOf(s.node, t);
    assert pool != [] ==> forall p :: p in pool[1..] ==> p in pool;
  }

  lemma ObtainedUndisturbed<Id>(lines: Lines, s: Site<Id>, t: int, spare: Id, k: int)
    requires NodeOk(lines, s.node) && PoolOk(s) && t in lines && spare !in s.node.procs
    ensures Undisturbed(s, Obtained(s, t, spare), k)
  {
    var s' := Obtained(s, t, spare);
    forall u, role, p | p in s.node.procs && Bound(s, k, u, role, p)
      ensures Bound(s', k, u, role, p) && s'.node.procs[p] == s.node.procs[p]
    {
      if PoolOf(s.node, t) != [] {
        assert PoolOf(s.node, t)[0] in s.node.pool[t];
      }
    }
  }

  lemma ObtainKeeps<Id>(lines: Lines, w: World<Id>, x: Peer, t: int, spare: Id)
    requires Inv(lines, w) && t in lines && spare !in w.At(x).node.procs
    ensures Inv(lines, w.Put(x, Obtained(w.At(x), t, spare)))
  {
    hide NodeOk, PoolOk, InboxOk, Undisturbed, DialogOk;
    var s := w.At(x);
    var s' := Obtained(s, t, spare);
    var w' := w.Put(x, s');
    ObtainedPool(lines, s, t, spare);
    QueueSame(s, s', x, w.dialogs);
    forall j | j in w.dialogs
      ensures Undisturbed(w.initiator, w'.initiator, j) && Undisturbed(w.acceptor, w'.acceptor, j)
    {
      ObtainedUndisturbed(lines, s, t, spare, j);
      SameUndisturbed(w.At(Other(x)), w'.At(Other(x)), j);
    }
    DialogsSame(lines, w, w');
  }

  // ----- sending

  /** Every line begins with a host step or contains only server steps. */
  ghost predicate WellFormed(lines: Lines) {
    forall t :: t in lines ==> HostLed(lines[t]) || ServerOnly(lines[t])
  }

  lemma SmallKey(x: int)
    requires 0 <= x < 0x8000_0000
    ensures ToInt32(x) == x
  {
  }

  lemma DialogStands<Id>(lines: Lines, w: World<Id>, k: int)
    requires Inv(lines, w)
    ensures k in w.dialogs ==>
      DialogOk(lines, w.At(w.dialogs[k].owner), w.At(Other(w.dialogs[k].owner)), k, w.dialogs[k])
  {
    hide SiteOk, DialogOk;
  }

  /** A new index is unused on both peers and lies in the sender's range. */
  lemma FreshKey<Id>(lines: Lines, w: World<Id>, x: Peer)
    requires Inv(lines, w) && Roomy(w)
    ensures var k := NextKey(w.At(x).node);
      && k == |w.At(x).node.space| + Minimum(x.Initiator?)
      && k !in w.dialogs && k !in w.initiator.node.space && k !in w.acceptor.node.space
  {
    hide NodeOk, PoolOk, InboxOk, QueueOk, PhaseOk, Tied, ToInt32;
    SmallKey(|w.At(x).node.space| + w.At(x).node.minimum);
    DialogStands(lines, w, NextKey(w.At(x).node));
  }

  /** A processor in the queue is bound to the transaction it is queued for. */
  lemma PendingBound<Id>(lines: Lines, w: World<Id>, x: Peer, p: Id)
    requires Inv(lines, w) && p in Pending(w.At(x).node)
    ensures var s := w.At(x);
      && p in s.node.procs
      && var k := s.node.procs[p].key;
         && k in w.dialogs && w.dialogs[k].token == Queued(x) && AtRole(w.dialogs[k], RoleOf(w.dialogs[k], x)) == Some(p)
         && w.dialogs[k].ptype in lines
         && Bound(s, k, w.dialogs[k].ptype, RoleOf(w.dialogs[k], x), p)
  {
    hide NodeOk, PoolOk, InboxOk, PhaseOk, Bound;
    assert Awaits(w.At(x).node, x, w.dialogs, p);
    var k := w.At(x).node.procs[p].key;
    var d := w.dialogs[k];
    assert DialogOk(lines, w.At(d.owner), w.At(Other(d.owner)), k, d);
  }

  lemma SubmittedPool<Id>(lines: Lines, s: Site<Id>, p: Id, units: Units)
    requires NodeOk(lines, s.node) && PoolOk(s) && p in s.held && p in s.node.procs
    ensures NodeOk(lines, Submitted(s, p, units).node) && PoolOk(Submitted(s, p, units))
  {
  }

  lemma SubmittedFrame<Id>(s: Site<Id>, p: Id, units: Units, j: int)
    requires p in s.held && p in s.node.procs && s.node.back.Ok()
    requires NextKey(s.node) !in s.node.space && j != NextKey(s.node)
    ensures Undisturbed(s, Submitted(s, p, units), j)
  {
  }

  /** The transaction a `send` opens. */
  lemma SubmittedDialog<Id>(lines: Lines, s: Site<Id>, other: Site<Id>, x: Peer, p: Id, units: Units)
    requires NodeOk(lines, s.node) && PoolOk(s) && p in s.held && p in s.node.procs
    requires WellFormed(lines)
    requires var k := NextKey(s.node);
      && k == |s.node.space| + Minimum(x.Initiator?)
      && k !in s.node.space && k !in other.node.space
    ensures DialogOk(lines, Submitted(s, p, units), other, NextKey(s.node), Opened(x, s.node.procs[p].ptype, p, units))
  {
    var k := NextKey(s.node);
    var t := s.node.procs[p].ptype;
    var s' := Submitted(s, p, units);
    assert Bound(s', k, t, Host, p);
    assert |s'.node.space| == |s.node.space| + 1;
    assert Opening(Opened(x, t, p, units), View(s'.node, Some(p)), None);
  }

  lemma SubmitKeeps<Id>(lines: Lines, w: World<Id>, x: Peer, p: Id, units: Units)
    requires Inv(lines, w) && Roomy(w) && WellFormed(lines)
    requires p in w.At(x).held && p in w.At(x).node.procs
    ensures var s := w.At(x);
      var k := NextKey(s.node);
      Inv(lines, w.Put(x, Submitted(s, p, units)).(dialogs := w.dialogs[k := Opened(x, s.node.procs[p].ptype, p, units)]))
  {
    hide PoolOk, QueueOk, InboxOk, Undisturbed, DialogOk, Submitted;
    var s, y := w.At(x), Other(x);
    var s' := Submitted(s, p, units);
    var k := NextKey(s.node);
    var w' := w.Put(x, s').(dialogs := w.dialogs[k := Opened(x, s.node.procs[p].ptype, p, units)]);
    FreshKey(lines, w, x);
    SubmittedDialog(lines, s, w.At(y), x, p, units);
    assert p !in Pending(s.node) by {
      if p in Pending(s.node) {
        PendingBound(lines, w, x, p);
      }
    }
    SubmittedSites(lines, w, x, p, units);
    forall j | j in w.dialogs && j != k
      ensures Undisturbed(w.initiator, w'.initiator, j) && Undisturbed(w.acceptor, w'.acceptor, j)
    {
      SubmittedFrame(s, p, units, j);
      SameUndisturbed(w.At(y), w'.At(y), j);
    }
    DialogsKept(lines, w, w', k);
  }

  lemma SubmittedSites<Id>(lines: Lines, w: World<Id>, x: Peer, p: Id, units: Units)
    requires Inv(lines, w)
    requires p in w.At(x).held && p in w.At(x).node.procs && p !in Pending(w.At(x).node)
    requires NextKey(w.At(x).node) !in w.dialogs
    ensures var s, y := w.At(x), Other(x);
      var s' := Submitted(s, p, units);
      var dialogs' := w.dialogs[NextKey(s.node) := Opened(x, s.node.procs[p].ptype, p, units)];
      SiteOk(lines, s', x, dialogs') && SiteOk(lines, w.At(y), y, dialogs')
  {
    hide PoolOk, InboxOk, DialogOk;
    var s, y := w.At(x), Other(x);
    SubmittedSite(lines, s, x, w.dialogs, p, units);
    OtherSite(lines, w.At(y), y, w.dialogs, NextKey(s.node), Opened(x, s.node.procs[p].ptype, p, units));
  }

  lemma SubmittedSite<Id>(lines: Lines, s: Site<Id>, x: Peer, dialogs: map<int, Dialog<Id>>, p: Id, units: Units)
    requires SiteOk(lines, s, x, dialogs) && NextKey(s.node) !in dialogs
    requires p in s.held && p in s.node.procs && p !in Pending(s.node)
    ensures SiteOk(lines, Submitted(s, p, units), x, dialogs[NextKey(s.node) := Opened(x, s.node.procs[p].ptype, p, units)])
  {
    hide PoolOk, InboxOk, QueueOk;
    var s' := Submitted(s, p, units);
    var k := NextKey(s.node);
    var dialogs' := dialogs[k := Opened(x, s.node.procs[p].ptype, p, units)];
    SubmittedPool(lines, s, p, units);
    SubmittedQueue(s, x, dialogs, p, units);
    InboxKept(lines, s.inbox, x, dialogs, dialogs', k);
  }

  lemma SubmittedQueue<Id>(s: Site<Id>, x: Peer, dialogs: map<int, Dialog<Id>>, p: Id, units: Units)
    requires s.node.queue.Ok() && s.node.back.Ok() && QueueOk(s, x, dialogs) && NextKey(s.node) !in dialogs
    requires p in s.node.procs && p !in Pending(s.node)
    ensures QueueOk(Submitted(s, p, units), x, dialogs[NextKey(s.node) := Opened(x, s.node.procs[p].ptype, p, units)])
  {
    var s' := Submitted(s, p, units);
    var k := NextKey(s.node);
    var dialogs' := dialogs[k := Opened(x, s.node.procs[p].ptype, p, units)];
    assert Pending(s'.node) == Pending(s.node) + [p];
    QueuePushed(s, s', x, dialogs, dialogs', k, p, s'.node.procs[p]);
  }

  /** The peer that hears nothing of the new transaction yet. */
  lemma OtherSite<Id>(lines: Lines, s: Site<Id>, y: Peer, dialogs: map<int, Dialog<Id>>, k: int, d: Dialog<Id>)
    requires SiteOk(lines, s, y, dialogs) && k !in dialogs && d.token == Queued(Other(y))
    ensures SiteOk(lines, s, y, dialogs[k := d])
  {
    hide PoolOk, InboxOk;
    QueueKept(s, s, y, dialogs, dialogs[k := d], k);
    InboxKept(lines, s.inbox, y, dialogs, dialogs[k := d], k);
  }
}
