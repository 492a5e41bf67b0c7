/** The dialogs end: how many calls a transaction takes, and that there is always one to make until rest. */
module DialogProgress {
  import opened Types
  import opened ActionLines
  import opened CursorLists
  import opened Nodes
  import opened DialogPhases
  import opened Dialogs
  import opened DialogFrames
  import opened DialogSteps
  import opened DialogTurns
  import opened DialogTheorems

  /** The calls of `generate` and `process` a transaction has taken, told from its record alone: one to
      send and one to deliver each packet, or the one call in which its opening action failed. */
  function Spent<Id(==)>(d: Dialog<Id>): int {
    2 * d.packets - (if d.token.Flight? then 1 else 0) + (if d.token.Gone? && d.packets == 0 then 1 else 0)
  }

  // ----- the events of the two kinds of call

  lemma EmitAnswers<Id>(lines: Lines, m: Node<Id>, out: Steps)
    requires NodeOk(lines, m) && m.queue.items != []
    ensures var p := m.queue.items[m.queue.actual];
      var e := Emit(lines, m, out).event;
      && p in m.procs && e.Event? && e.id == p && e.key == m.procs[p].key && !e.requeued
      && (m.procs[p].resendable ==> e.sent.Some?)
  {
    hide Action;
    assert m.queue.items[m.queue.actual] in m.queue.items;
  }

  /** The call on a transaction waiting to be sent: it sends, or it was the opening action and failed. */
  lemma ProduceEvent<Id>(lines: Lines, w: World<Id>, x: Peer, out: Steps)
    requires Inv(lines, w) && NodeOk(lines, w.At(x).node) && Pending(w.At(x).node) != []
    ensures var e := Generate(lines, w.At(x).node, out).event;
      && e.Event? && e.key in w.dialogs && w.dialogs[e.key].token == Queued(x)
      && !e.requeued && (e.sent.None? ==> w.dialogs[e.key].packets == 0)
  {
    hide Inv, Emit;
    var n := w.At(x).node;
    assert n.queue.Ok() && n.back.Ok();
    hide NodeOk;
    HandOverOk(lines, n);
    EmitAnswers(lines, HandOver(n), out);
    var p := HandOver(n).queue.items[HandOver(n).queue.actual];
    assert p in Pending(n);
    PendingBound(lines, w, x, p);
    QueuedPhase(lines, w, x, n.procs[p].key, p);
  }

  lemma QueuedPhase<Id>(lines: Lines, w: World<Id>, x: Peer, k: int, p: Id)
    requires Inv(lines, w) && k in w.dialogs && w.dialogs[k].token == Queued(x) && p in w.At(x).node.procs
    requires AtRole(w.dialogs[k], RoleOf(w.dialogs[k], x)) == Some(p)
    ensures w.dialogs[k].packets == 0 || w.At(x).node.procs[p].resendable
  {
    hide Inv, Segment, Broken, Content, Waiting, Packets, Switches;
    DialogPhase(lines, w, k);
  }

  lemma DeliverEvent<Id>(lines: Lines, w: World<Id>, x: Peer, out: Steps, spare: Id)
    requires Inv(lines, w) && NodeOk(lines, w.At(x).node) && w.At(x).inbox != []
    ensures var e := Process(lines, w.At(x).node, w.At(x).inbox[0], out, spare).event;
      && e.Event? && e.key in w.dialogs && w.dialogs[e.key].token == Flight(x)
      && e.sent.None? && w.dialogs[e.key].packets > 0
  {
    hide Inv, NodeOk, Admit, Receive;
    HeadCarries(lines, w, x);
    FlightPhase(lines, w, x, w.At(x).inbox[0].key);
  }

  lemma FlightPhase<Id>(lines: Lines, w: World<Id>, x: Peer, k: int)
    requires Inv(lines, w) && k in w.dialogs && w.dialogs[k].token == Flight(x)
    ensures w.dialogs[k].packets > 0
  {
    hide Inv, Segment, Broken, Content, Waiting, Packets, Switches;
    DialogPhase(lines, w, k);
  }

  // ----- counting

  /** The transaction a call of a run acted on. */
  ghost predicate ActsOn<Id>(lines: Lines, w: World<Id>, act: Act<Id>, k: int)
    requires Defined(lines, w) && Enabled(lines, w, act)
  {
    EventOf(lines, w, act).Event? && EventOf(lines, w, act).key == k
  }

  lemma EventSpends<Id>(lines: Lines, w: World<Id>, act: Act<Id>)
    requires Inv(lines, w) && Defined(lines, w) && Enabled(lines, w, act) && EventOf(lines, w, act).Event?
    ensures var e := EventOf(lines, w, act);
      e.key in w.dialogs && Spent(Noted(w.dialogs[e.key], act.x, e)) == Spent(w.dialogs[e.key]) + 1
  {
    hide Inv, NodeOk, Generate, Process;
    match act
    case Produce(x, out) =>
      NothingPending(lines, w.At(x).node, out);
      ProduceEvent(lines, w, x, out);
    case Deliver(x, out, spare) => DeliverEvent(lines, w, x, out, spare);
    case Obtain(_, _, _) =>
    case Submit(_, _, _) =>
  }

  lemma NothingPending<Id>(lines: Lines, n: Node<Id>, out: Steps)
    requires NodeOk(lines, n)
    ensures Pending(n) == [] ==> Generate(lines, n, out).event.Nothing?
  {
    hide Action;
  }

  /** Every call with an event is booked on the one transaction it acts on. */
  lemma StepSpends<Id>(lines: Lines, w: World<Id>, act: Act<Id>, w': World<Id>, k: int)
    requires WellFormed(lines) && Inv(lines, w) && Step(lines, w, act, w')
    ensures k in w.dialogs ==>
      && k in w'.dialogs && w'.dialogs[k].ptype == w.dialogs[k].ptype
      && Spent(w'.dialogs[k]) == Spent(w.dialogs[k]) + if ActsOn(lines, w, act, k) then 1 else 0
    ensures k !in w.dialogs ==> !ActsOn(lines, w, act, k) && (k in w'.dialogs ==> Spent(w'.dialogs[k]) == 0)
  {
    hide Inv, Civil, Roomy, Spent, Generate, Process;
    if EventOf(lines, w, act).Event? {
      EventSpends(lines, w, act);
    }
    if act.Submit? {
      FreshKeyOfStep(lines, w, act);
      OpenedSpends(act.x, w.At(act.x).node.procs[act.id].ptype, act.id, act.units);
    }
  }

  lemma OpenedSpends<Id>(x: Peer, t: int, p: Id, units: Units)
    ensures Spent(Opened(x, t, p, units)) == 0
  {
  }

  /** How many of the first `i` calls of a run acted on transaction `k`. */
  ghost function Handled<Id>(lines: Lines, ws: seq<World<Id>>, acts: seq<Act<Id>>, i: nat, k: int): nat
    requires Run(lines, ws, acts) && i < |ws|
    decreases i
  {
    if i == 0 then 0 else
    assert Step(lines, ws[i - 1], acts[i - 1], ws[i]);
    Handled(lines, ws, acts, i - 1, k) + if ActsOn(lines, ws[i - 1], acts[i - 1], k) then 1 else 0
  }

  lemma {:induction false} HandledIsSpent<Id>(lines: Lines, ws: seq<World<Id>>, acts: seq<Act<Id>>, i: nat, k: int)
    requires WellFormed(lines) && Run(lines, ws, acts) && i < |ws|
    ensures Handled(lines, ws, acts, i, k) == if k in ws[i].dialogs then Spent(ws[i].dialogs[k]) else 0
    decreases i
  {
    hide Inv, Step, Spent, ActsOn;
    if i > 0 {
      assert Step(lines, ws[i - 1], acts[i - 1], ws[i]);
      HandledIsSpent(lines, ws, acts, i - 1, k);
      RunInv(lines, ws, acts, i - 1);
      StepSpends(lines, ws[i - 1], acts[i - 1], ws[i], k);
    }
  }

  // ----- the bound

  lemma {:induction false} SwitchesGrow(line: Line, m: nat, n: nat)
    requires m <= n <= |line|
    ensures Switches(line, m) <= Switches(line, n)
    decreases n - m
  {
    if m < n {
      SwitchesGrow(line, m, n - 1);
    }
  }

  /** The most calls a transaction of this line can take. */
  function Budget(line: Line): nat {
    2 * (Switches(line, |line|) + 1)
  }

  lemma SpentBounded<Id>(line: Line, d: Dialog<Id>, hp: Option<Proc>, sp: Option<Proc>)
    requires PhaseOk(line, d, hp, sp)
    ensures 0 <= Spent(d) <= Budget(line)
  {
    hide Segment, Broken, Content, Waiting, Switches;
    var c := |d.trace|;
    assert c <= |line| by { SegmentFits(line, d.trace, d.start); }
    SwitchesGrow(line, c, |line|);
    if c < |line| {
      SwitchesGrow(line, c + 1, |line|);
    }
  }

  lemma SegmentFits(line: Line, trace: seq<Ran>, start: Units)
    requires Segment(line, trace, 0, start)
    ensures |trace| <= |line|
  {
  }

  /** In any run, whatever else goes on, a transaction takes at most two calls for each change of side
      of its line and two more. Once it is settled the count is exact: two for each packet, or one when
      the opening action failed. */
  lemma BoundedWork<Id>(lines: Lines, ws: seq<World<Id>>, acts: seq<Act<Id>>, i: nat, k: int)
    requires WellFormed(lines) && Run(lines, ws, acts) && i < |ws| && k in ws[i].dialogs
    ensures var d := ws[i].dialogs[k];
      && d.ptype in lines && Handled(lines, ws, acts, i, k) <= Budget(lines[d.ptype])
      && (Settled(ws[i], k) ==> Handled(lines, ws, acts, i, k) == if d.packets > 0 then 2 * d.packets else 1)
  {
    hide Inv, Run, PhaseOk, Settled, Handled;
    RunInv(lines, ws, acts, i);
    DialogPhase(lines, ws[i], k);
    HandledIsSpent(lines, ws, acts, i, k);
    var d := ws[i].dialogs[k];
    SpentBounded(lines[d.ptype], d, View(ws[i].At(d.owner).node, d.host), View(ws[i].At(Other(d.owner)).node, d.server));
    if Settled(ws[i], k) {
      SettledGone(lines, ws[i], k);
    }
  }

  /** As long as the peers are not at rest, whatever the callbacks answer, one of them has a call to make
      that moves a transaction on. */
  lemma NeverStuck<Id>(lines: Lines, ws: seq<World<Id>>, acts: seq<Act<Id>>, i: nat, out: Steps, spare: Id)
    requires WellFormed(lines) && Run(lines, ws, acts) && i < |ws| && !Quiescent(ws[i])
    requires spare !in ws[i].initiator.node.procs && spare !in ws[i].acceptor.node.procs
    ensures Defined(lines, ws[i])
    ensures exists x: Peer ::
      || EventOf(lines, ws[i], Produce(x, out)).Event?
      || (Enabled(lines, ws[i], Deliver(x, out, spare)) && EventOf(lines, ws[i], Deliver(x, out, spare)).Event?)
  {
    hide Run, Inv, NodeOk, Generate, Process, Pending;
    var w := ws[i];
    RunInv(lines, ws, acts, i);
    SiteParts(lines, w, Initiator);
    SiteParts(lines, w, Acceptor);
    var x := if Pending(w.initiator.node) != [] || w.initiator.inbox != [] then Initiator else Acceptor;
    if Pending(w.At(x).node) != [] {
      ProduceEvent(lines, w, x, out);
      assert EventOf(lines, w, Produce(x, out)).Event?;
    } else {
      DeliverEvent(lines, w, x, out, spare);
      assert EventOf(lines, w, Deliver(x, out, spare)).Event?;
    }
  }

  // ----- all transactions together

  lemma SomeKey(m: map<int, int>)
    ensures m == map[] || exists k :: k in m
  {
    assert (forall k :: k !in m) ==> m == map[];
  }

  ghost function Total(m: map<int, int>): int {
    if m == map[] then 0 else
    SomeKey(m);
    var k :| k in m;
    m[k] + Total(m - {k})
  }

  lemma {:induction false} TotalSplit(m: map<int, int>, k: int)
    requires k in m
    ensures Total(m) == m[k] + Total(m - {k})
    decreases |m|
  {
    var j :| j in m && Total(m) == m[j] + Total(m - {j});
    if j != k {
      TotalSplit(m - {j}, k);
      TotalSplit(m - {k}, j);
      assert m - {j} - {k} == m - {k} - {j};
    }
  }

  lemma TotalPut(m: map<int, int>, k: int, v: int)
    ensures Total(m[k := v]) == v + Total(m - {k})
  {
    TotalSplit(m[k := v], k);
    assert m[k := v] - {k} == m - {k};
  }

  lemma {:induction false} TotalAtMost(m: map<int, int>, most: nat)
    requires forall k :: k in m ==> m[k] <= most
    ensures Total(m) <= most * |m|
    decreases |m|
  {
    SomeKey(m);
    if m != map[] {
      var k :| k in m;
      TotalSplit(m, k);
      TotalAtMost(m - {k}, most);
      assert |m - {k}| == |m| - 1;
      assert most * (|m| - 1) == most * |m| - most;
    }
  }

  ghost function Spending<Id>(dialogs: map<int, Dialog<Id>>): map<int, int> {
    map k | k in dialogs :: Spent(dialogs[k])
  }

  lemma SpendingPut<Id>(dialogs: map<int, Dialog<Id>>, k: int, d: Dialog<Id>)
    ensures Spending(dialogs[k := d]) == Spending(dialogs)[k := Spent(d)]
  {
    hide Spent;
  }

  /** How many of the first `i` calls of a run did anything to a transaction. */
  ghost function Moves<Id>(lines: Lines, ws: seq<World<Id>>, acts: seq<Act<Id>>, i: nat): nat
    requires Run(lines, ws, acts) && i < |ws|
    decreases i
  {
    if i == 0 then 0 else
    assert Step(lines, ws[i - 1], acts[i - 1], ws[i]);
    Moves(lines, ws, acts, i - 1) + if EventOf(lines, ws[i - 1], acts[i - 1]).Event? then 1 else 0
  }

  /** The record changes only where the call acted, or gets the new transaction. */
  lemma NextDialogs<Id>(lines: Lines, w: World<Id>, act: Act<Id>)
    requires Defined(lines, w) && Enabled(lines, w, act)
    ensures var e := EventOf(lines, w, act);
      && (e.Event? && e.key in w.dialogs ==> Next(lines, w, act).dialogs == w.dialogs[e.key := Noted(w.dialogs[e.key], act.x, e)])
      && (e.Nothing? && !act.Submit? ==> Next(lines, w, act).dialogs == w.dialogs)
      && (act.Submit? ==>
            && e.Nothing? && act.id in w.At(act.x).node.procs
            && Next(lines, w, act).dialogs ==
               w.dialogs[NextKey(w.At(act.x).node) := Opened(act.x, w.At(act.x).node.procs[act.id].ptype, act.id, act.units)])
  {
    hide NodeOk, Generate, Process, Noted;
  }

  lemma StepTotal<Id>(lines: Lines, w: World<Id>, act: Act<Id>, w': World<Id>)
    requires WellFormed(lines) && Inv(lines, w) && Step(lines, w, act, w')
    ensures Total(Spending(w'.dialogs)) == Total(Spending(w.dialogs)) + if EventOf(lines, w, act).Event? then 1 else 0
  {
    hide Inv, Civil, Roomy, Spent, Move, Next, Total, Enabled, Defined, Spending, Opened;
    var m := Spending(w.dialogs);
    NextDialogs(lines, w, act);
    if EventOf(lines, w, act).Event? {
      var e := EventOf(lines, w, act);
      EventSpends(lines, w, act);
      BookOne(w.dialogs, e.key, Noted(w.dialogs[e.key], act.x, e));
    } else if act.Submit? {
      FreshKeyOfStep(lines, w, act);
      var t := w.At(act.x).node.procs[act.id].ptype;
      OpenedSpends(act.x, t, act.id, act.units);
      BookNone(w.dialogs, NextKey(w.At(act.x).node), Opened(act.x, t, act.id, act.units));
    }
  }

  lemma BookOne<Id>(dialogs: map<int, Dialog<Id>>, k: int, d: Dialog<Id>)
    requires k in dialogs && Spent(d) == Spent(dialogs[k]) + 1
    ensures Total(Spending(dialogs[k := d])) == Total(Spending(dialogs)) + 1
  {
    hide Spent, Total;
    var m := Spending(dialogs);
    SpendingPut(dialogs, k, d);
    TotalPut(m, k, m[k] + 1);
    TotalSplit(m, k);
  }

  lemma BookNone<Id>(dialogs: map<int, Dialog<Id>>, k: int, d: Dialog<Id>)
    requires k !in dialogs && Spent(d) == 0
    ensures Total(Spending(dialogs[k := d])) == Total(Spending(dialogs))
  {
    hide Spent, Total;
    var m := Spending(dialogs);
    SpendingPut(dialogs, k, d);
    TotalPut(m, k, 0);
    assert m - {k} == m;
  }

  lemma {:induction false} MovesIsTotal<Id>(lines: Lines, ws: seq<World<Id>>, acts: seq<Act<Id>>, i: nat)
    requires WellFormed(lines) && Run(lines, ws, acts) && i < |ws|
    ensures Moves(lines, ws, acts, i) == Total(Spending(ws[i].dialogs))
    decreases i
  {
    hide Inv, Step, Spent, Total;
    if i > 0 {
      assert Step(lines, ws[i - 1], acts[i - 1], ws[i]);
      MovesIsTotal(lines, ws, acts, i - 1);
      RunInv(lines, ws, acts, i - 1);
      StepTotal(lines, ws[i - 1], acts[i - 1], ws[i]);
    } else {
      assert Spending(ws[0].dialogs) == map[];
      NoTotal();
    }
  }

  lemma NoTotal()
    ensures Total(map[]) == 0
  {
  }

  lemma {:induction false} FewSwitches(line: Line, m: nat)
    requires m <= |line|
    ensures Switches(line, m) <= m
    decreases m
  {
    if m > 1 {
      FewSwitches(line, m - 1);
    }
  }

  /** However the calls are interleaved, n transactions over lines of at most `longest` steps are at rest
      after at most 2 * (longest + 1) * n calls that do anything. */
  lemma RestIsNear<Id>(lines: Lines, ws: seq<World<Id>>, acts: seq<Act<Id>>, i: nat, longest: nat)
    requires WellFormed(lines) && Run(lines, ws, acts) && i < |ws|
    requires forall t :: t in lines ==> |lines[t]| <= longest
    ensures Moves(lines, ws, acts, i) <= 2 * (longest + 1) * |ws[i].dialogs|
  {
    hide Run, Inv, Total, Moves, PhaseOk, Switches;
    RunInv(lines, ws, acts, i);
    MovesIsTotal(lines, ws, acts, i);
    var m := Spending(ws[i].dialogs);
    forall k | k in m
      ensures m[k] <= 2 * (longest + 1)
    {
      DialogPhase(lines, ws[i], k);
      var d := ws[i].dialogs[k];
      FewSwitches(lines[d.ptype], |lines[d.ptype]|);
      SpentBounded(lines[d.ptype], d, View(ws[i].At(d.owner).node, d.host), View(ws[i].At(Other(d.owner)).node, d.server));
    }
    TotalAtMost(m, 2 * (longest + 1));
    assert m.Keys == ws[i].dialogs.Keys;
    assert |m| == |m.Keys| && |ws[i].dialogs| == |ws[i].dialogs.Keys|;
  }
}
