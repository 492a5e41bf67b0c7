/** Framing: what a call on one processor leaves alone. */
module DialogFrames {
  import opened Types
  import opened ActionLines
  import opened CursorLists
  import opened Nodes
  import opened DialogPhases
  import opened Dialogs

  /** `s'` treats transaction `k`, and whatever processor is bound to it, exactly as `s` did. */
  ghost predicate Undisturbed<Id>(s: Site<Id>, s': Site<Id>, k: int) {
    && (k in s.node.space <==> k in s'.node.space)
    && (k in s.node.space ==> s'.node.space[k] == s.node.space[k])
    && |s.node.space| <= |s'.node.space|
    && (forall t, role, p :: p in s.node.procs && Bound(s, k, t, role, p) ==> Bound(s', k, t, role, p) && s'.node.procs[p] == s.node.procs[p])
  }

  lemma CoreFramed<Id>(lines: Lines, own: Site<Id>, other: Site<Id>, own': Site<Id>, other': Site<Id>, k: int, d: Dialog<Id>)
    requires DialogCore(lines, own, other, k, d)
    requires Undisturbed(own, own', k) && Undisturbed(other, other', k)
    ensures DialogCore(lines, own', other', k, d)
  {
    if d.host.Some? {
      assert Bound(own, k, d.ptype, Host, d.host.value);
    }
    if d.server.Some? {
      assert Bound(other, k, d.ptype, Server, d.server.value);
    }
  }

  /** The call acted on processor `e.id`, bound to transaction `e.key`, and left it as `q`; a recycled
      processor went to the end of its pool. Queues and inbox are not looked at here. */
  ghost predicate Acts<Id>(s: Site<Id>, s': Site<Id>, e: Event<Id>, q: Proc) {
    && e.Event? && e.id in s.node.procs
    && var p := s.node.procs[e.id];
       && Bound(s, e.key, p.ptype, e.position, e.id)
       && s'.held == s.held && s'.node.space == s.node.space && s'.node.minimum == s.node.minimum
       && s'.node.procs == s.node.procs[e.id := q]
       && q.key == p.key && q.ptype == p.ptype
       && (if e.recycled then IdleProc(q) && s'.node.pool == s.node.pool[p.ptype := s.node.pool[p.ptype] + [e.id]]
           else q.position == p.position && s'.node.pool == s.node.pool)
  }

  lemma ActsPool<Id>(s: Site<Id>, s': Site<Id>, e: Event<Id>, q: Proc)
    requires PoolOk(s) && Acts(s, s', e, q)
    ensures PoolOk(s')
  {
  }

  lemma ActsUndisturbed<Id>(s: Site<Id>, s': Site<Id>, e: Event<Id>, q: Proc, k: int)
    requires Acts(s, s', e, q) && k != e.key
    ensures Undisturbed(s, s', k)
  {
  }

  lemma SameUndisturbed<Id>(s: Site<Id>, s': Site<Id>, k: int)
    requires s'.held == s.held && s'.node.space == s.node.space && s'.node.procs == s.node.procs && s'.node.pool == s.node.pool
    ensures Undisturbed(s, s', k)
  {
  }

  /** The acting processor stays bound unless it was recycled. */
  lemma ActsBound<Id>(s: Site<Id>, s': Site<Id>, e: Event<Id>, q: Proc)
    requires Acts(s, s', e, q)
    ensures !e.recycled ==> Bound(s', e.key, q.ptype, e.position, e.id)
  {
  }

  // ----- the send queue

  /** `p` has left the head of the queue; its transaction's token has left this peer. */
  lemma QueuePopped<Id>(s: Site<Id>, s': Site<Id>, x: Peer, dialogs: map<int, Dialog<Id>>, dialogs': map<int, Dialog<Id>>,
                        p: Id, q: Proc)
    requires QueueOk(s, x, dialogs)
    requires Pending(s.node) != [] && p == Pending(s.node)[0] && Pending(s'.node) == Pending(s.node)[1..]
    requires p in s.node.procs && s'.node.procs == s.node.procs[p := q]
    requires s'.node.queue.actual == 0
    requires var k := s.node.procs[p].key;
      k in dialogs && k in dialogs' && dialogs' == dialogs[k := dialogs'[k]] && dialogs'[k].token != Queued(x)
    requires q.key == s.node.procs[p].key
    ensures QueueOk(s', x, dialogs')
  {
    var a, b := Pending(s.node), Pending(s'.node);
    assert a == [p] + b;
    forall r | r in b
      ensures Awaits(s'.node, x, dialogs', r)
    {
      assert r in a && r != p;
      assert Awaits(s.node, x, dialogs, r) && Awaits(s.node, x, dialogs, p);
    }
  }

  /** `p` has joined the queue; its transaction's token is here now. */
  lemma QueuePushed<Id>(s: Site<Id>, s': Site<Id>, x: Peer, dialogs: map<int, Dialog<Id>>, dialogs': map<int, Dialog<Id>>,
                        k: int, p: Id, q: Proc)
    requires QueueOk(s, x, dialogs)
    requires Pending(s'.node) == Pending(s.node) + [p]
    requires s'.node.procs == s.node.procs[p := q] && q.key == k
    requires s'.node.queue.actual == 0
    requires k in dialogs ==> dialogs[k].token != Queued(x)
    requires p !in Pending(s.node)
    requires k in dialogs' && dialogs' == dialogs[k := dialogs'[k]]
    requires dialogs'[k].token == Queued(x) && AtRole(dialogs'[k], RoleOf(dialogs'[k], x)) == Some(p)
    ensures QueueOk(s', x, dialogs')
  {
    var a, b := Pending(s.node), Pending(s'.node);
    forall r | r in b
      ensures Awaits(s'.node, x, dialogs', r)
    {
      if r != p {
        assert r in a;
        assert Awaits(s.node, x, dialogs, r);
      }
    }
  }

  /** The queue of a peer the token of `k` neither left nor reached. */
  lemma QueueKept<Id>(s: Site<Id>, s': Site<Id>, x: Peer, dialogs: map<int, Dialog<Id>>, dialogs': map<int, Dialog<Id>>,
                      k: int)
    requires QueueOk(s, x, dialogs)
    requires Pending(s'.node) == Pending(s.node) && s'.node.queue.actual == 0
    requires forall p :: p in Pending(s.node) && p in s.node.procs && s.node.procs[p].key != k ==> p in s'.node.procs && s'.node.procs[p] == s.node.procs[p]
    requires k in dialogs ==> dialogs[k].token != Queued(x)
    requires k in dialogs' && dialogs' == dialogs[k := dialogs'[k]] && dialogs'[k].token != Queued(x)
    ensures QueueOk(s', x, dialogs')
  {
    var a := Pending(s.node);
    forall r | r in a
      ensures Awaits(s'.node, x, dialogs', r)
    {
      assert Awaits(s.node, x, dialogs, r);
    }
  }

  lemma QueueSame<Id>(s: Site<Id>, s': Site<Id>, x: Peer, dialogs: map<int, Dialog<Id>>)
    requires QueueOk(s, x, dialogs)
    requires Pending(s'.node) == Pending(s.node) && s'.node.queue.actual == 0
    requires forall p :: p in s.node.procs ==> p in s'.node.procs && s'.node.procs[p] == s.node.procs[p]
    ensures QueueOk(s', x, dialogs)
  {
    forall p | p in Pending(s.node)
      ensures Awaits(s'.node, x, dialogs, p)
    {
      assert Awaits(s.node, x, dialogs, p);
    }
    forall k | k in dialogs && dialogs[k].token == Queued(x)
      ensures Stands(s'.node, x, k, dialogs[k])
    {
      assert Stands(s.node, x, k, dialogs[k]);
    }
  }

  // ----- the channel

  lemma CarriesKept<Id>(lines: Lines, x: Peer, dialogs: map<int, Dialog<Id>>, dialogs': map<int, Dialog<Id>>, k: int, pkt: Packet)
    requires Carries(lines, x, dialogs, pkt) && pkt.key != k
    requires k in dialogs' && dialogs' == dialogs[k := dialogs'[k]]
    ensures Carries(lines, x, dialogs', pkt)
  {
  }

  lemma InboxPopped<Id>(lines: Lines, inbox: seq<Packet>, x: Peer, dialogs: map<int, Dialog<Id>>, dialogs': map<int, Dialog<Id>>)
    requires InboxOk(lines, inbox, x, dialogs) && inbox != []
    requires var k := inbox[0].key;
      k in dialogs' && dialogs' == dialogs[k := dialogs'[k]] && dialogs'[k].token != Flight(x)
    ensures InboxOk(lines, inbox[1..], x, dialogs')
  {
    var k := inbox[0].key;
    var rest := inbox[1..];
    assert Keys(inbox) == [k] + Keys(rest);
    forall i | 0 <= i < |rest|
      ensures Carries(lines, x, dialogs', rest[i])
    {
      assert Keys(inbox)[0] != Keys(inbox)[i + 1];
      CarriesKept(lines, x, dialogs, dialogs', k, inbox[i + 1]);
    }
  }

  lemma InboxPushed<Id>(lines: Lines, inbox: seq<Packet>, x: Peer, dialogs: map<int, Dialog<Id>>, dialogs': map<int, Dialog<Id>>, pkt: Packet)
    requires InboxOk(lines, inbox, x, dialogs)
    requires pkt.key in dialogs ==> dialogs[pkt.key].token != Flight(x)
    requires pkt.key in dialogs' && dialogs' == dialogs[pkt.key := dialogs'[pkt.key]]
    requires Carries(lines, x, dialogs', pkt)
    ensures InboxOk(lines, inbox + [pkt], x, dialogs')
  {
    var more := inbox + [pkt];
    assert Keys(more) == Keys(inbox) + [pkt.key];
    forall i | 0 <= i < |more|
      ensures Carries(lines, x, dialogs', more[i])
      ensures i < |inbox| ==> more[i].key != pkt.key
    {
      if i < |inbox| {
        assert Carries(lines, x, dialogs, inbox[i]);
        CarriesKept(lines, x, dialogs, dialogs', pkt.key, inbox[i]);
      }
    }
  }

  lemma InboxKept<Id>(lines: Lines, inbox: seq<Packet>, x: Peer, dialogs: map<int, Dialog<Id>>, dialogs': map<int, Dialog<Id>>, k: int)
    requires InboxOk(lines, inbox, x, dialogs)
    requires k in dialogs ==> dialogs[k].token != Flight(x)
    requires k in dialogs' && dialogs' == dialogs[k := dialogs'[k]] && dialogs'[k].token != Flight(x)
    ensures InboxOk(lines, inbox, x, dialogs')
  {
    forall i | 0 <= i < |inbox|
      ensures Carries(lines, x, dialogs', inbox[i])
    {
      assert Carries(lines, x, dialogs, inbox[i]);
      CarriesKept(lines, x, dialogs, dialogs', k, inbox[i]);
    }
  }

  /** The channel does not look at which processors a transaction is bound to. */
  lemma InboxRebound<Id>(lines: Lines, inbox: seq<Packet>, x: Peer, dialogs: map<int, Dialog<Id>>, dialogs': map<int, Dialog<Id>>,
                         k: int, p: Id)
    requires InboxOk(lines, inbox, x, dialogs) && k in dialogs
    requires dialogs' == dialogs[k := dialogs[k].(server := Some(p))]
    ensures InboxOk(lines, inbox, x, dialogs')
  {
    forall i | 0 <= i < |inbox|
      ensures Carries(lines, x, dialogs', inbox[i])
    {
      assert Carries(lines, x, dialogs, inbox[i]);
    }
  }
}
