/** How far the guarantees reach: which lines keep recycling safe, and which run in order. */
module DialogLimits {
  import opened Types
  import opened ActionLines
  import opened CursorLists
  import opened Nodes
  import opened DialogPhases
  import opened Dialogs
  import opened DialogSteps
  import opened DialogTheorems
  import opened DialogSafety

  /** Recycling is safe in every run, whatever the callbacks answer. */
  ghost predicate AlwaysSafe(lines: Lines) {
    forall ws: seq<World<int>>, acts: seq<Act<int>>, i ::
      FreeRun(lines, ws, acts) && 0 <= i < |ws| ==> SafeDelivery(ws[i])
  }

  // A line of two or more server steps whose first step fails: the host processor is back in the pool
  // when the failure report for it is sent.

  function Answer(r: Result): Steps {
    (i: nat) => StepOut(r, [])
  }

  ghost function Calls(t: int): seq<Act<int>> {
    [Obtain(Initiator, t, 0), Submit(Initiator, 0, []), Produce(Initiator, Answer(Success)),
     Deliver(Acceptor, Answer(Fail), 0), Produce(Acceptor, Answer(Success))]
  }

  ghost function HostProc(t: int, cursor: nat): Proc {
    NewProc(t).(key := 1, cursor := cursor)
  }

  ghost function ServerProc(t: int): Proc {
    NewProc(t).(key := 1, position := Server, cursor := 1, failed := true, unitFlag := true,
                resendable := true, product := Product(true, []))
  }

  ghost function Fresh(initiator: bool): Site<int> {
    Site(InitialNode(initiator), {}, [])
  }

  ghost function Host1(t: int): Site<int> {
    Site(Node(1, map[], map[0 := NewProc(t)], map[t := []], Empty(), Empty()), {0}, [])
  }

  ghost function Host2(t: int): Site<int> {
    Site(Node(1, map[1 := 0], map[0 := HostProc(t, 0)], map[t := []], Empty(), CursorList([0], 0)), {}, [])
  }

  ghost function Host3(t: int, inbox: seq<Packet>): Site<int> {
    Site(Node(1, map[1 := 0], map[0 := HostProc(t, 0)], map[t := [0]], Empty(), Empty()), {}, inbox)
  }

  ghost function Peer3(t: int): Site<int> {
    Site(InitialNode(false), {}, [Packet(t, 1, Product(false, []))])
  }

  ghost function Peer4(t: int): Site<int> {
    Site(Node(0x4000_0000, map[1 := 0], map[0 := ServerProc(t)], map[t := []], Empty(), CursorList([0], 0)), {}, [])
  }

  ghost function Peer5(t: int): Site<int> {
    Peer4(t).(node := Peer4(t).node.(back := Empty()))
  }

  ghost function Record2(t: int): Dialog<int> {
    Opened(Initiator, t, 0, [])
  }

  ghost function Record3(t: int): Dialog<int> {
    Record2(t).(host := None, token := Flight(Acceptor), packets := 1)
  }

  ghost function Record4(t: int): Dialog<int> {
    Record3(t).(server := Some(0), token := Queued(Acceptor), serverFaults := 1, trace := [Ran(0, Server, [], Fail, [])])
  }

  ghost function Record5(t: int): Dialog<int> {
    Record4(t).(token := Flight(Initiator), packets := 2)
  }

  ghost function States(t: int): seq<World<int>> {
    [InitialWorld(),
     World(Host1(t), Fresh(false), map[]),
     World(Host2(t), Fresh(false), map[1 := Record2(t)]),
     World(Host3(t, []), Peer3(t), map[1 := Record3(t)]),
     World(Host3(t, []), Peer4(t), map[1 := Record4(t)]),
     World(Host3(t, [Packet(t, 1, Product(true, []))]), Peer5(t), map[1 := Record5(t)])]
  }

  lemma Call0(lines: Lines, t: int)
    requires t in lines
    ensures FreeStep(lines, States(t)[0], Calls(t)[0], States(t)[1])
  {
    assert Obtained(Fresh(true), t, 0) == Host1(t);
  }

  lemma Call1(lines: Lines, t: int)
    requires t in lines
    ensures FreeStep(lines, States(t)[1], Calls(t)[1], States(t)[2])
  {
    hide Submitted, NextKey;
    SubmittedHost(t);
    assert Opened(Initiator, Host1(t).node.procs[0].ptype, 0, []) == Record2(t);
  }

  lemma SubmittedHost(t: int)
    ensures NextKey(Host1(t).node) == 1 && Submitted(Host1(t), 0, []) == Host2(t)
  {
    assert [] + [0] == [0];
  }

  lemma Produced2(lines: Lines, t: int)
    requires t in lines && ServerOnly(lines[t]) && |lines[t]| > 1
    ensures var n := Host2(t).node;
      && NodeOk(lines, n)
      && Generate(lines, n, Answer(Success)) ==
         Outcome(Host3(t, []).node, Event(0, 1, Host, [], false, Some(Packet(t, 1, Product(false, []))), false, true))
  {
    var line := lines[t];
    SkipExact(line, 0, |line|, Server);
    var n := Host2(t).node;
    assert [] + [0] == [0];
    var a := Action(line, HostProc(t, 0), Answer(Success));
    assert a.proc == HostProc(t, |line|);
  }

  lemma Call2(lines: Lines, t: int)
    requires t in lines && ServerOnly(lines[t]) && |lines[t]| > 1
    ensures FreeStep(lines, States(t)[2], Calls(t)[2], States(t)[3])
  {
    hide Generate;
    Produced2(lines, t);
    var pkt := Packet(t, 1, Product(false, []));
    assert [] + [pkt] == [pkt] && Record2(t).trace + [] == [];
    var e := Event(0, 1, Host, [], false, Some(pkt), false, true);
    assert Noted(Record2(t), Initiator, e) == Record3(t);
  }

  lemma Delivered3(lines: Lines, t: int)
    requires t in lines && ServerOnly(lines[t]) && |lines[t]| > 1
    ensures var n := Peer3(t).node;
      && NodeOk(lines, n)
      && Process(lines, n, Peer3(t).inbox[0], Answer(Fail), 0) ==
         Outcome(Peer4(t).node, Event(0, 1, Server, [Ran(0, Server, [], Fail, [])], true, None, true, false))
  {
    var line := lines[t];
    assert line[0] == Server;
    var me := NewProc(t).(key := 1, position := Server);
    assert Receive(line, me, Product(false, []), Answer(Fail)).proc == ServerProc(t);
    assert [] + [0] == [0];
  }

  lemma Call3(lines: Lines, t: int)
    requires t in lines && ServerOnly(lines[t]) && |lines[t]| > 1
    ensures FreeStep(lines, States(t)[3], Calls(t)[3], States(t)[4])
  {
    hide Process;
    Delivered3(lines, t);
    assert Peer3(t).inbox[1..] == [];
    var w := States(t)[3];
    assert w.At(Acceptor) == Peer3(t);
    var e := Event(0, 1, Server, [Ran(0, Server, [], Fail, [])], true, None, true, false);
    assert Move(lines, Peer3(t), Calls(t)[3]) == (Peer4(t), e);
    assert Noted(Record3(t), Acceptor, e) == Record4(t);
    assert Next(lines, w, Calls(t)[3]) == States(t)[4];
    assert [] + [Ran(0, Server, [], Fail, [])] == [Ran(0, Server, [], Fail, [])];
  }

  lemma Produced4(lines: Lines, t: int)
    requires t in lines && |lines[t]| > 1
    ensures var n := Peer4(t).node;
      && NodeOk(lines, n)
      && Generate(lines, n, Answer(Success)) ==
         Outcome(Peer5(t).node, Event(0, 1, Server, [], false, Some(Packet(t, 1, Product(true, []))), false, false))
  {
    assert [] + [0] == [0];
  }

  lemma Call4(lines: Lines, t: int)
    requires t in lines && |lines[t]| > 1
    ensures FreeStep(lines, States(t)[4], Calls(t)[4], States(t)[5])
  {
    hide Generate;
    Produced4(lines, t);
    var pkt := Packet(t, 1, Product(true, []));
    assert [] + [pkt] == [pkt] && Record4(t).trace + [] == Record4(t).trace;
    var e := Event(0, 1, Server, [], false, Some(pkt), false, false);
    assert Noted(Record4(t), Acceptor, e) == Record5(t);
  }

  /** A failure report reaches a processor that is back in the pool. */
  lemma StrandedReport(lines: Lines, t: int)
    requires t in lines && ServerOnly(lines[t]) && |lines[t]| > 1
    ensures FreeRun(lines, States(t), Calls(t)) && !SafeDelivery(States(t)[5])
  {
    hide FreeStep;
    Call0(lines, t);
    Call1(lines, t);
    Call2(lines, t);
    Call3(lines, t);
    Call4(lines, t);
    var w := States(t)[5];
    assert !Reaches(w.At(Initiator), w.At(Initiator).inbox[0]);
  }

  /** Recycling is safe in every run exactly when no line consists of two or more server steps only. */
  lemma SafeExactly(lines: Lines)
    requires WellFormed(lines)
    ensures AlwaysSafe(lines) <==> Reporting(lines)
  {
    hide FreeRun, SafeDelivery;
    if Reporting(lines) {
      forall ws: seq<World<int>>, acts: seq<Act<int>>, i | FreeRun(lines, ws, acts) && 0 <= i < |ws|
        ensures SafeDelivery(ws[i])
      {
        FreeRunIsRun(lines, ws, acts);
        RecyclingIsSafe(lines, ws, acts, i);
      }
    } else {
      var t :| t in lines && !HostLed(lines[t]) && |lines[t]| > 1;
      StrandedReport(lines, t);
    }
  }

  /** The opening action runs a prefix of the line in order, for any answers, exactly when the line
      begins with a host step or has only server steps. */
  lemma OrderExactly(line: Line, p: Proc)
    requires p.cursor == 0 && p.position.Host?
    ensures (forall out: Steps :: Segment(line, Action(line, p, out).ran, 0, p.units)) <==> (HostLed(line) || ServerOnly(line))
  {
    if HostLed(line) {
      forall out: Steps
        ensures Segment(line, Action(line, p, out).ran, 0, p.units)
      {
        RunIsSegment(line, 0, Host, out, p.units);
      }
    } else if ServerOnly(line) {
      SkipExact(line, 0, |line|, Server);
    } else {
      var out := Answer(Success);
      var s := SkipTo(line, 0, Host);
      assert 0 < s < |line|;
      RunIsSegment(line, s, Host, out, p.units);
      assert Action(line, p, out).ran[0].index == s;
    }
  }
}
