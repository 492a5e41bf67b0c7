/** What holds in every run of the multiplexed protocol. */
module DialogTheorems {
  import opened Types
  import opened ActionLines
  import opened CursorLists
  import opened Nodes
  import opened DialogPhases
  import opened Dialogs
  import opened DialogFrames
  import opened DialogSteps
  import opened DialogTurns

  // ----- runs

  ghost function EventOf<Id>(lines: Lines, w: World<Id>, act: Act<Id>): Event<Id>
    requires Defined(lines, w) && Enabled(lines, w, act)
  {
    Move(lines, w.At(act.x), act).1
  }

  ghost predicate NoRepeat<Id>(e: Event<Id>) {
    e.Event? ==> forall i :: 0 <= i < |e.ran| ==> !e.ran[i].result.Repeat?
  }

  /** One call on one peer, the callbacks answering SUCCESS or FAIL as they like, both transaction
      spaces having room. */
  ghost predicate FreeStep<Id>(lines: Lines, w: World<Id>, act: Act<Id>, w': World<Id>) {
    && Defined(lines, w) && Roomy(w) && Enabled(lines, w, act)
    && NoRepeat(EventOf(lines, w, act))
    && w' == Next(lines, w, act)
  }

  /** A step in which no line that begins on the server fails before its last step. */
  ghost predicate Step<Id>(lines: Lines, w: World<Id>, act: Act<Id>, w': World<Id>) {
    FreeStep(lines, w, act, w') && Civil(lines, Move(lines, w.At(act.x), act).0, EventOf(lines, w, act))
  }

  ghost predicate Run<Id>(lines: Lines, ws: seq<World<Id>>, acts: seq<Act<Id>>) {
    && |ws| == |acts| + 1 && ws[0] == InitialWorld()
    && forall i :: 0 <= i < |acts| ==> Step(lines, ws[i], acts[i], ws[i + 1])
  }

  ghost predicate FreeRun<Id>(lines: Lines, ws: seq<World<Id>>, acts: seq<Act<Id>>) {
    && |ws| == |acts| + 1 && ws[0] == InitialWorld()
    && forall i :: 0 <= i < |acts| ==> FreeStep(lines, ws[i], acts[i], ws[i + 1])
  }

  /** Every line begins with a host step or has at most one step. */
  ghost predicate Reporting(lines: Lines) {
    forall t :: t in lines ==> HostLed(lines[t]) || |lines[t]| <= 1
  }

  lemma FreeStepIsStep<Id>(lines: Lines, w: World<Id>, act: Act<Id>, w': World<Id>)
    requires Reporting(lines) && FreeStep(lines, w, act, w')
    ensures Step(lines, w, act, w')
  {
    hide Move, Next, Defined;
  }

  lemma FreeRunIsRun<Id>(lines: Lines, ws: seq<World<Id>>, acts: seq<Act<Id>>)
    requires Reporting(lines) && FreeRun(lines, ws, acts)
    ensures Run(lines, ws, acts)
  {
    hide FreeStep, Step;
    forall i | 0 <= i < |acts|
      ensures Step(lines, ws[i], acts[i], ws[i + 1])
    {
      FreeStepIsStep(lines, ws[i], acts[i], ws[i + 1]);
    }
  }

  /** The invariant holds in every state of every run. */
  lemma {:induction false} RunInv<Id>(lines: Lines, ws: seq<World<Id>>, acts: seq<Act<Id>>, i: nat)
    requires WellFormed(lines) && Run(lines, ws, acts) && i < |ws|
    ensures Inv(lines, ws[i])
    decreases i
  {
    hide Inv, Step, Next, Move, InitialWorld, Defined, Enabled, Civil, Roomy;
    if i == 0 {
      InitialInv<Id>(lines);
    } else {
      RunInv(lines, ws, acts, i - 1);
      assert Step(lines, ws[i - 1], acts[i - 1], ws[i]);
      StepInv(lines, ws[i - 1], acts[i - 1], ws[i]);
    }
  }

  lemma StepInv<Id>(lines: Lines, w: World<Id>, act: Act<Id>, w': World<Id>)
    requires WellFormed(lines) && Inv(lines, w) && Step(lines, w, act, w')
    ensures Inv(lines, w')
  {
    hide Inv, Next, Move, Roomy, Civil;
    StepKeeps(lines, w, act);
  }

  // ----- order, content and packets

  ghost predicate InOrder<Id>(line: Line, d: Dialog<Id>) {
    && |d.trace| <= |line|
    && (forall j :: 0 <= j < |d.trace| ==> d.trace[j].index == j && d.trace[j].side == line[j])
    && (forall j :: 0 <= j < |d.trace| ==>
          d.trace[j].before == if j == 0 then d.start else d.trace[j - 1].after)
  }

  lemma DialogPhase<Id>(lines: Lines, w: World<Id>, k: int)
    requires Inv(lines, w) && k in w.dialogs
    ensures w.dialogs[k].ptype in lines
    ensures var d := w.dialogs[k];
      PhaseOk(lines[d.ptype], d, View(w.At(d.owner).node, d.host), View(w.At(Other(d.owner)).node, d.server))
  {
    hide SiteOk, PhaseOk, Tied;
    var d := w.dialogs[k];
    assert DialogOk(lines, w.At(d.owner), w.At(Other(d.owner)), k, d);
  }

  /** In every reachable state the steps both peers have run for a transaction are a prefix of its line,
      each run once and by the side it names, each on the content the step before it left. */
  lemma TraceIsPrefix<Id>(lines: Lines, ws: seq<World<Id>>, acts: seq<Act<Id>>, i: nat, k: int)
    requires WellFormed(lines) && Run(lines, ws, acts) && i < |ws| && k in ws[i].dialogs
    ensures var d := ws[i].dialogs[k]; d.ptype in lines && InOrder(lines[d.ptype], d)
  {
    hide Inv, Run, Over, Announced, Answering, Opening;
    RunInv(lines, ws, acts, i);
    DialogPhase(lines, ws[i], k);
    var d := ws[i].dialogs[k];
    assert Segment(lines[d.ptype], d.trace, 0, d.start);
  }

  /** Transaction `k` waits in no queue and is on no channel, whatever else is going on. */
  ghost predicate Settled<Id>(w: World<Id>, k: int) {
    forall x: Peer ::
      && k !in Keys(w.At(x).inbox)
      && forall p :: p in Pending(w.At(x).node) && p in w.At(x).node.procs ==> w.At(x).node.procs[p].key != k
  }

  /** No packet under way, no processor waiting to be sent. */
  ghost predicate Quiescent<Id>(w: World<Id>) {
    && Pending(w.initiator.node) == [] && Pending(w.acceptor.node) == []
    && w.initiator.inbox == [] && w.acceptor.inbox == []
  }

  lemma QuiescentSettles<Id>(w: World<Id>, k: int)
    requires Quiescent(w)
    ensures Settled(w, k)
  {
  }

  lemma SettledGone<Id>(lines: Lines, w: World<Id>, k: int)
    requires Inv(lines, w) && Settled(w, k) && k in w.dialogs
    ensures w.dialogs[k].token.Gone?
  {
    hide NodeOk, PoolOk, DialogOk;
    var d := w.dialogs[k];
    assert forall x :: d.token == Queued(x) ==> Stands(w.At(x).node, x, k, d);
    assert forall x :: d.token == Flight(x) ==> k in Keys(w.At(x).inbox);
  }

  /** Once it is settled, however busy the peers are with others, a transaction has run its whole line in
      exactly max(1, changes of side) packets, or a step other than its last has failed: then it stopped
      there, each side's fault handler ran once and one packet more told the other side; a failed opening
      action sent nothing and ran only the host's handler. A type without a line sends nothing at all. */
  lemma AtRest<Id>(lines: Lines, ws: seq<World<Id>>, acts: seq<Act<Id>>, i: nat, k: int)
    requires WellFormed(lines) && Run(lines, ws, acts) && i < |ws| && k in ws[i].dialogs && Settled(ws[i], k)
    ensures var d := ws[i].dialogs[k];
      && d.ptype in lines
      && var line := lines[d.ptype];
         var changes := Switches(line, |line|);
         if Broken(line, d) then
           var before := Switches(line, |d.trace|);
           if before == 0 then d.packets == 0 && d.hostFaults == 1 && d.serverFaults == 0
           else d.packets == before + 1 && d.hostFaults == 1 && d.serverFaults == 1
         else
           && |d.trace| == |line| && d.hostFaults == 0 && d.serverFaults == 0
           && d.packets == if line == [] then 0 else if changes > 1 then changes else 1
  {
    hide Inv, Run, Segment, Settled, Broken;
    RunInv(lines, ws, acts, i);
    DialogPhase(lines, ws[i], k);
    SettledGone(lines, ws[i], k);
    assert Over(lines[ws[i].dialogs[k].ptype], ws[i].dialogs[k]);
  }

  // ----- failure

  /** A step forgets nothing, and adds nothing to a transaction that has failed. */
  lemma StepExtends<Id>(lines: Lines, w: World<Id>, act: Act<Id>, w': World<Id>, k: int)
    requires WellFormed(lines) && Inv(lines, w) && Step(lines, w, act, w') && k in w.dialogs
    ensures k in w'.dialogs && w'.dialogs[k].ptype == w.dialogs[k].ptype && w'.dialogs[k].owner == w.dialogs[k].owner
    ensures w.dialogs[k].trace <= w'.dialogs[k].trace
  {
    hide Inv, Move, Civil, Roomy, Defined, Enabled;
    if act.Submit? {
      FreshKeyOfStep(lines, w, act);
    }
  }

  lemma FreshKeyOfStep<Id>(lines: Lines, w: World<Id>, act: Act<Id>)
    requires Inv(lines, w) && Roomy(w) && act.Submit?
    ensures NextKey(w.At(act.x).node) !in w.dialogs
  {
    hide Inv, Roomy;
    FreshKey(lines, w, act.x);
  }

  lemma SegmentSucceeds(line: Line, trace: seq<Ran>, start: Units, i: nat)
    requires Segment(line, trace, 0, start)
    ensures i + 1 < |trace| ==> trace[i].result.Success?
  {
  }

  lemma BrokenStays<Id>(line: Line, d: Dialog<Id>, d': Dialog<Id>)
    requires Broken(line, d) && d.trace <= d'.trace && Segment(line, d'.trace, 0, d'.start)
    ensures d'.trace == d.trace
  {
    SegmentSucceeds(line, d'.trace, d'.start, |d.trace| - 1);
  }

  /** Once a step other than the last has failed, no later step of that transaction ever runs on either
      peer. */
  lemma {:induction false} FailureStops<Id>(lines: Lines, ws: seq<World<Id>>, acts: seq<Act<Id>>, i: nat, j: nat, k: int)
    requires WellFormed(lines) && Run(lines, ws, acts) && i <= j < |ws| && k in ws[i].dialogs
    requires var d := ws[i].dialogs[k]; d.ptype in lines && Broken(lines[d.ptype], d)
    ensures k in ws[j].dialogs && ws[j].dialogs[k].trace == ws[i].dialogs[k].trace
    ensures ws[j].dialogs[k].ptype == ws[i].dialogs[k].ptype
    decreases j
  {
    hide Inv, Step, PhaseOk, Segment;
    if i < j {
      FailureStops(lines, ws, acts, i, j - 1, k);
      RunInv(lines, ws, acts, j - 1);
      RunInv(lines, ws, acts, j);
      assert Step(lines, ws[j - 1], acts[j - 1], ws[j]);
      StepExtends(lines, ws[j - 1], acts[j - 1], ws[j], k);
      PhaseSegment(lines, ws[j], k);
      BrokenStays(lines[ws[j].dialogs[k].ptype], ws[j - 1].dialogs[k], ws[j].dialogs[k]);
    }
  }

  lemma PhaseSegment<Id>(lines: Lines, w: World<Id>, k: int)
    requires Inv(lines, w) && k in w.dialogs
    ensures w.dialogs[k].ptype in lines && Segment(lines[w.dialogs[k].ptype], w.dialogs[k].trace, 0, w.dialogs[k].start)
  {
    hide Inv, Segment, Opening, Announced, Answering, Over;
    DialogPhase(lines, w, k);
  }

  /** Each side's fault handler runs at most once, and only for a transaction that has failed. */
  lemma FaultsOnce<Id>(lines: Lines, ws: seq<World<Id>>, acts: seq<Act<Id>>, i: nat, k: int)
    requires WellFormed(lines) && Run(lines, ws, acts) && i < |ws| && k in ws[i].dialogs
    ensures var d := ws[i].dialogs[k];
      && d.hostFaults <= 1 && d.serverFaults <= 1
      && d.ptype in lines && (d.hostFaults + d.serverFaults > 0 <==> Broken(lines[d.ptype], d))
  {
    hide Inv, Run, Segment, Waiting, Packets, Switches, AllOf, Broken, Content;
    RunInv(lines, ws, acts, i);
    DialogPhase(lines, ws[i], k);
    var d := ws[i].dialogs[k];
    if Opening(d, View(ws[i].At(d.owner).node, d.host), View(ws[i].At(Other(d.owner)).node, d.server)) {
      assert !Broken(lines[d.ptype], d) by { EmptyUnbroken(lines[d.ptype], d); }
    }
  }

  lemma EmptyUnbroken<Id>(line: Line, d: Dialog<Id>)
    requires d.trace == []
    ensures !Broken(line, d)
  {
  }
}
