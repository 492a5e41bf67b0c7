/** The distributed dialog computes what running its line in one place computes. */
module DialogLocal {
  import opened Types
  import opened ActionLines
  import opened CursorLists
  import opened Nodes
  import opened DialogPhases
  import opened Dialogs
  import opened DialogSteps
  import opened DialogTurns
  import opened DialogTheorems
  import opened DialogProgress

  /** The callbacks of a line: what step `i` answers and leaves, given the content before it. */
  type Callbacks = (nat, Units) -> StepOut

  /** Runs the whole line from step `c` in one place, on one content, up to a failure before the last step. */
  function Local(line: Line, c: nat, units: Units, cb: Callbacks): seq<Ran>
    requires c <= |line|
    decreases |line| - c
  {
    if c == |line| then [] else
    var o := cb(c, units);
    [Ran(c, line[c], units, o.result, o.units)] +
    (if c + 1 < |line| && o.result.Fail? then [] else Local(line, c + 1, o.units, cb))
  }

  /** The steps that ran answered as the callbacks do. */
  ghost predicate Obeys(ran: seq<Ran>, cb: Callbacks) {
    forall i :: 0 <= i < |ran| ==> StepOut(ran[i].result, ran[i].after) == cb(ran[i].index, ran[i].before)
  }

  lemma {:induction false} SegmentIsLocal(line: Line, trace: seq<Ran>, start: Units, c: nat, cb: Callbacks)
    requires Segment(line, trace, 0, start) && c <= |trace| && Obeys(trace, cb)
    requires forall i :: 0 <= i < |trace| ==> !trace[i].result.Repeat?
    requires |trace| == |line| || (0 < |trace| && trace[|trace| - 1].result.Fail?)
    requires c == |trace| ==> c == |line|
    ensures trace[c..] == Local(line, c, if c == 0 then start else trace[c - 1].after, cb)
    decreases |trace| - c
  {
    if c < |trace| {
      var units := if c == 0 then start else trace[c - 1].after;
      assert trace[c] == Ran(c, line[c], units, trace[c].result, trace[c].after);
      assert trace[c..] == [trace[c]] + trace[c + 1..];
      if c + 1 < |line| && trace[c].result.Fail? {
        assert c + 1 == |trace|;
      } else if c + 1 < |line| {
        assert c + 1 < |trace|;
        SegmentIsLocal(line, trace, start, c + 1, cb);
      } else {
        SegmentIsLocal(line, trace, start, c + 1, cb);
      }
    }
  }

  /** In every call of the run that acted on transaction `k` the callbacks were `cb`. */
  ghost predicate Answered<Id>(lines: Lines, ws: seq<World<Id>>, acts: seq<Act<Id>>, i: nat, k: int, cb: Callbacks)
    requires Run(lines, ws, acts) && i < |ws|
  {
    forall j :: 0 <= j < i ==>
      && Step(lines, ws[j], acts[j], ws[j + 1])
      && (ActsOn(lines, ws[j], acts[j], k) ==> Obeys(EventOf(lines, ws[j], acts[j]).ran, cb))
  }

  lemma NotedTrace<Id>(d: Dialog<Id>, x: Peer, e: Event<Id>)
    requires e.Event?
    ensures Noted(d, x, e).trace == d.trace + e.ran
  {
  }

  lemma OpenedTrace<Id>(x: Peer, t: int, p: Id, units: Units)
    ensures Opened(x, t, p, units).trace == []
  {
  }

  /** A call adds the steps it ran to the trace of the transaction it acts on. */
  lemma StepTrace<Id>(lines: Lines, w: World<Id>, act: Act<Id>, w': World<Id>, k: int)
    requires WellFormed(lines) && Inv(lines, w) && Step(lines, w, act, w')
    ensures k in w.dialogs ==>
      && k in w'.dialogs
      && (if ActsOn(lines, w, act, k) then w'.dialogs[k].trace == w.dialogs[k].trace + EventOf(lines, w, act).ran
          else w'.dialogs[k].trace == w.dialogs[k].trace)
    ensures k !in w.dialogs && k in w'.dialogs ==> w'.dialogs[k].trace == []
  {
    hide Inv, Civil, Roomy, Next, Move, Enabled, Defined, Spent, Noted, Opened;
    NextDialogs(lines, w, act);
    var e := EventOf(lines, w, act);
    if e.Event? {
      EventSpends(lines, w, act);
      NotedTrace(w.dialogs[e.key], act.x, e);
    } else if act.Submit? {
      FreshKeyOfStep(lines, w, act);
      OpenedTrace(act.x, w.At(act.x).node.procs[act.id].ptype, act.id, act.units);
    }
  }

  lemma StepObeys<Id>(lines: Lines, w: World<Id>, act: Act<Id>, w': World<Id>, k: int, cb: Callbacks)
    requires WellFormed(lines) && Inv(lines, w) && Step(lines, w, act, w')
    requires k in w.dialogs ==> Obeys(w.dialogs[k].trace, cb)
    requires ActsOn(lines, w, act, k) ==> Obeys(EventOf(lines, w, act).ran, cb)
    ensures k in w'.dialogs ==> Obeys(w'.dialogs[k].trace, cb)
  {
    hide Inv, Obeys, Civil, Roomy, Next, Move, Enabled, Defined;
    StepTrace(lines, w, act, w', k);
    NothingObeys(cb);
    if k in w.dialogs && ActsOn(lines, w, act, k) {
      BothObey(w.dialogs[k].trace, EventOf(lines, w, act).ran, cb);
    }
  }

  lemma {:induction false} TraceObeys<Id>(lines: Lines, ws: seq<World<Id>>, acts: seq<Act<Id>>, i: nat, k: int, cb: Callbacks)
    requires WellFormed(lines) && Run(lines, ws, acts) && i < |ws| && Answered(lines, ws, acts, i, k, cb)
    ensures k in ws[i].dialogs ==> Obeys(ws[i].dialogs[k].trace, cb)
    decreases i
  {
    hide Inv, Step, ActsOn, Obeys;
    if i > 0 {
      TraceObeys(lines, ws, acts, i - 1, k, cb);
      RunInv(lines, ws, acts, i - 1);
      StepObeys(lines, ws[i - 1], acts[i - 1], ws[i], k, cb);
    }
  }

  lemma NothingObeys(cb: Callbacks)
    ensures Obeys([], cb)
  {
  }

  lemma BothObey(a: seq<Ran>, b: seq<Ran>, cb: Callbacks)
    requires Obeys(a, cb) && Obeys(b, cb)
    ensures Obeys(a + b, cb)
  {
  }

  /** Whatever else two peers do at the same time, over whatever recycled processors: the steps they run
      for a settled transaction are those of one local run of its line with the same callbacks. */
  lemma DistributedIsLocal<Id>(lines: Lines, ws: seq<World<Id>>, acts: seq<Act<Id>>, i: nat, k: int, cb: Callbacks)
    requires WellFormed(lines) && Run(lines, ws, acts) && i < |ws| && Answered(lines, ws, acts, i, k, cb)
    requires k in ws[i].dialogs && Settled(ws[i], k)
    ensures var d := ws[i].dialogs[k];
      && d.ptype in lines
      && d.trace == Local(lines[d.ptype], 0, d.start, cb)
  {
    hide Inv, Run, Settled, Segment, Answered, Obeys;
    RunInv(lines, ws, acts, i);
    DialogPhase(lines, ws[i], k);
    SettledGone(lines, ws[i], k);
    TraceObeys(lines, ws, acts, i, k, cb);
    var d := ws[i].dialogs[k];
    assert Over(lines[d.ptype], d);
    SegmentIsLocal(lines[d.ptype], d.trace, d.start, 0, cb);
    assert d.trace[0..] == d.trace;
  }

  /** Two runs, between different peers and with different other transactions: on the same line, content
      and callbacks a settled transaction has the same trace and final content, has taken the same number
      of packets and called the same fault handlers. */
  lemma RunsAgree<Id, Jd>(lines: Lines, ws: seq<World<Id>>, acts: seq<Act<Id>>, i: nat, k: int,
                          lines': Lines, ws': seq<World<Jd>>, acts': seq<Act<Jd>>, i': nat, k': int, cb: Callbacks)
    requires WellFormed(lines) && Run(lines, ws, acts) && i < |ws| && Answered(lines, ws, acts, i, k, cb)
    requires k in ws[i].dialogs && Settled(ws[i], k)
    requires WellFormed(lines') && Run(lines', ws', acts') && i' < |ws'| && Answered(lines', ws', acts', i', k', cb)
    requires k' in ws'[i'].dialogs && Settled(ws'[i'], k')
    requires var (d, d') := (ws[i].dialogs[k], ws'[i'].dialogs[k']);
      d.start == d'.start && d.ptype in lines && d'.ptype in lines' && lines[d.ptype] == lines'[d'.ptype]
    ensures var (d, d') := (ws[i].dialogs[k], ws'[i'].dialogs[k']);
      && d.trace == d'.trace && Content(d) == Content(d')
      && d.packets == d'.packets && d.hostFaults == d'.hostFaults && d.serverFaults == d'.serverFaults
  {
    hide Run, Settled, Answered, Local, Switches;
    DistributedIsLocal(lines, ws, acts, i, k, cb);
    DistributedIsLocal(lines', ws', acts', i', k', cb);
    AtRest(lines, ws, acts, i, k);
    AtRest(lines', ws', acts', i', k');
  }

  /** A peer only ever acts in the role it has in the transaction, and runs only steps of that role. */
  lemma ActsInRole<Id>(lines: Lines, w: World<Id>, act: Act<Id>, w': World<Id>)
    requires WellFormed(lines) && Inv(lines, w) && Step(lines, w, act, w')
    requires EventOf(lines, w, act).Event?
    ensures var e := EventOf(lines, w, act);
      && e.key in w.dialogs && e.position == RoleOf(w.dialogs[e.key], act.x)
      && forall j :: 0 <= j < |e.ran| ==> e.ran[j].side == e.position
  {
    hide Inv, Next, Civil, Roomy, Generate, Process;
    var s := w.At(act.x);
    match act
    case Produce(x, out) => ProduceRole(lines, w, x, out);
    case Deliver(x, out, spare) => DeliverRole(lines, w, x, out, spare);
    case Obtain(_, _, _) =>
    case Submit(_, _, _) =>
  }

  lemma GoSides(line: Line, c: nat, side: Position, out: Steps, units: Units)
    requires c <= |line|
    ensures var g := Go(line, c, side, out, units); forall j :: 0 <= j < |g.ran| ==> g.ran[j].side == side
  {
    var s := SkipTo(line, c, side);
    if s < |line| {
      RunIsSegment(line, s, side, out, units);
    }
  }

  lemma ProduceRole<Id>(lines: Lines, w: World<Id>, x: Peer, out: Steps)
    requires Inv(lines, w) && NodeOk(lines, w.At(x).node)
    requires Generate(lines, w.At(x).node, out).event.Event?
    ensures var e := Generate(lines, w.At(x).node, out).event;
      && e.key in w.dialogs && e.position == RoleOf(w.dialogs[e.key], x)
      && forall j :: 0 <= j < |e.ran| ==> e.ran[j].side == e.position
  {
    hide PoolOk, InboxOk, DialogOk, Go;
    var n := w.At(x).node;
    var m := HandOver(n);
    var p := m.queue.items[m.queue.actual];
    assert p in Pending(n);
    PendingBound(lines, w, x, p);
    var proc := n.procs[p];
    GoSides(lines[proc.ptype], proc.cursor, proc.position, out, proc.units);
  }

  lemma DeliverRole<Id>(lines: Lines, w: World<Id>, x: Peer, out: Steps, spare: Id)
    requires Inv(lines, w) && w.At(x).inbox != [] && spare !in w.At(x).node.procs && NodeOk(lines, w.At(x).node)
    requires Process(lines, w.At(x).node, w.At(x).inbox[0], out, spare).event.Event?
    ensures var e := Process(lines, w.At(x).node, w.At(x).inbox[0], out, spare).event;
      && e.key in w.dialogs && e.position == RoleOf(w.dialogs[e.key], x)
      && forall j :: 0 <= j < |e.ran| ==> e.ran[j].side == e.position
  {
    hide Inv, NodeOk, Ready, Accept, Admit, Process;
    var s := w.At(x);
    var pkt := s.inbox[0];
    ProcessIs(lines, s.node, pkt, out, spare);
    HeadCarries(lines, w, x);
    if pkt.key in s.node.space {
      RegisteredReady(lines, w, x);
      AcceptRole(lines, w, x, pkt.key, out);
    } else {
      AdmitReady(lines, w, x, spare);
      var p := Taken(s.node, pkt.ptype, spare);
      AcceptRole(lines, w.Put(x, s.(node := Admit(lines, s.node, pkt, spare)))
                         .(dialogs := w.dialogs[pkt.key := w.dialogs[pkt.key].(server := Some(p))]), x, pkt.key, out);
    }
  }

  lemma AcceptRole<Id>(lines: Lines, w: World<Id>, x: Peer, k: int, out: Steps)
    requires Ready(lines, w, x, k) && NodeOk(lines, w.At(x).node) && k in w.At(x).node.space
    ensures var e := Accept(lines, w.At(x).node, w.At(x).inbox[0], out).event;
      && e.Event? && e.key == k && e.position == RoleOf(w.dialogs[k], x)
      && forall j :: 0 <= j < |e.ran| ==> e.ran[j].side == e.position
  {
    hide PoolOk, QueueOk, InboxOk, DialogOk, PhaseOk, Go;
    var s := w.At(x);
    var d := w.dialogs[k];
    var p := AtRole(d, RoleOf(d, x)).value;
    assert Bound(s, k, d.ptype, RoleOf(d, x), p);
    var me := s.node.procs[p];
    GoSides(lines[me.ptype], me.cursor, me.position, out, s.inbox[0].body.units);
  }
}
