/** One transaction on its own: the phases a dialog goes through and how each action moves it on. */
module DialogPhases {
  import opened Types
  import opened ActionLines
  import opened Nodes

  datatype Peer = Initiator | Acceptor

  function Other(x: Peer): Peer {
    if x.Initiator? then Acceptor else Initiator
  }

  /** Where the one token of a dialog is. */
  datatype Token = Queued(at: Peer) | Flight(to: Peer) | Gone

  /** History of one transaction. `host` and `server` are the processors still bound to it. */
  datatype Dialog<Id(==)> = Dialog(owner: Peer, ptype: int, start: Units,
                                   host: Option<Id>, server: Option<Id>, token: Token,
                                   trace: seq<Ran>, packets: nat, hostFaults: nat, serverFaults: nat)

  function RoleOf<Id(==)>(d: Dialog<Id>, x: Peer): Position {
    if d.owner == x then Host else Server
  }

  function AtRole<Id(==)>(d: Dialog<Id>, r: Position): Option<Id> {
    if r.Host? then d.host else d.server
  }

  function Faults<Id(==)>(d: Dialog<Id>, r: Position): nat {
    if r.Host? then d.hostFaults else d.serverFaults
  }

  /** The one content both peers compute on. */
  function Content<Id(==)>(d: Dialog<Id>): Units {
    Final(d.trace, d.start)
  }

  /** A step other than the last one of the line has failed. */
  predicate Broken<Id(==)>(line: Line, d: Dialog<Id>) {
    0 < |d.trace| < |line| && d.trace[|d.trace| - 1].result.Fail?
  }

  predicate HostLed(line: Line) {
    line != [] && line[0].Host?
  }

  ghost predicate ServerOnly(line: Line) {
    AllOf(line, 0, |line|, Server)
  }

  /** Number of changes of side among the first `m` steps. */
  function Switches(line: Line, m: nat): nat
    requires m <= |line|
  {
    if m <= 1 then 0 else Switches(line, m - 1) + if line[m - 1] != line[m - 2] then 1 else 0
  }

  /** Packets a dialog has used once its first `c` steps have run and the next side is to run. */
  function Packets(line: Line, c: nat): nat
    requires c <= |line|
  {
    if line == [] then 0 else
    var s := Switches(line, if c < |line| then c + 1 else c);
    if s == 0 then 1 else s
  }

  /** The processor reaches step `c` by skipping steps of the other side, `r`. */
  ghost predicate Waiting(line: Line, p: Proc, c: nat, r: Position) {
    p.cursor <= c <= |line| && AllOf(line, p.cursor, c, r)
  }

  ghost predicate Opening<Id>(d: Dialog<Id>, hp: Option<Proc>, sp: Option<Proc>) {
    && d.token == Queued(d.owner)
    && d.trace == [] && d.packets == 0 && d.hostFaults == 0 && d.serverFaults == 0
    && hp.Some? && hp.value.cursor == 0 && !hp.value.resendable && !hp.value.unitFlag && hp.value.units == d.start
    && sp.None?
  }

  /** The first packet is on its way; a server processor has at most just been registered for it. */
  ghost predicate Announced<Id>(line: Line, d: Dialog<Id>, hp: Option<Proc>, sp: Option<Proc>) {
    var c := |d.trace|;
    && d.token == Flight(Other(d.owner))
    && d.packets == 1 && d.hostFaults == 0 && d.serverFaults == 0
    && (sp.Some? ==> sp.value.cursor == 0)
    && !Broken(line, d)
    && AllOf(line, 0, c, Host) && (HostLed(line) ==> c > 0) && (c < |line| ==> line[c].Server?)
    && line != []
    && (if hp.Some? then HostLed(line) && c < |line| && hp.value.cursor == c && hp.value.resendable
        else c == |line| || ServerOnly(line))
  }

  /** Side `r` has run and stopped before step c; its answer is queued (`sent` false) or on its way. */
  ghost predicate Answering<Id>(line: Line, d: Dialog<Id>, r: Position, sent: bool, own: Option<Proc>, other: Option<Proc>) {
    var c := |d.trace|;
    && HostLed(line) && 0 < c < |line|
    && own.Some? && own.value.resendable && own.value.cursor == c
    && own.value.product == Product(Broken(line, d), Content(d))
    && other.Some? && other.value.resendable
    && Faults(d, Opposite(r)) == 0
    && d.packets > 0
    && (if Broken(line, d) then
          Faults(d, r) == 1 && Switches(line, c) > 0 && d.packets + (if sent then 0 else 1) == Switches(line, c) + 1
        else && Faults(d, r) == 0
             && line[c] == Opposite(r) && line[c - 1] == r
             && Waiting(line, other.value, c, r)
             && d.packets + (if sent then 0 else 1) == Packets(line, c))
  }

  ghost predicate Over<Id>(line: Line, d: Dialog<Id>) {
    && d.token == Gone
    && (if Broken(line, d) then
          if Switches(line, |d.trace|) == 0 then d.packets == 0 && d.hostFaults == 1 && d.serverFaults == 0
          else d.packets == Switches(line, |d.trace|) + 1 && d.hostFaults == 1 && d.serverFaults == 1
        else
          |d.trace| == |line| && d.hostFaults == 0 && d.serverFaults == 0 && d.packets == Packets(line, |line|))
  }

  /** What holds of a transaction and of the processors still bound to it, whatever else is going on. */
  ghost predicate PhaseOk<Id>(line: Line, d: Dialog<Id>, hp: Option<Proc>, sp: Option<Proc>) {
    && (HostLed(line) || ServerOnly(line))
    && Segment(line, d.trace, 0, d.start)
    && (forall i :: 0 <= i < |d.trace| ==> !d.trace[i].result.Repeat?)
    && (Broken(line, d) ==> HostLed(line))
    && match d.token
       case Gone => Over(line, d)
       case Queued(x) =>
         var r := RoleOf(d, x);
         || Opening(d, hp, sp)
         || Answering(line, d, r, false, if r.Host? then hp else sp, if r.Host? then sp else hp)
       case Flight(x) =>
         var r := RoleOf(d, Other(x));
         || Announced(line, d, hp, sp)
         || Answering(line, d, r, true, if r.Host? then hp else sp, if r.Host? then sp else hp)
  }

  // ----- what one action does to the phase

  lemma SkipExact(line: Line, from: nat, c: nat, r: Position)
    requires AllOf(line, from, c, r)
    requires c < |line| ==> line[c] == Opposite(r)
    ensures SkipTo(line, from, Opposite(r)) == c
    decreases c - from
  {
    if from < c {
      SkipExact(line, from + 1, c, r);
    }
  }

  lemma {:induction false} SwitchesInRun(line: Line, from: nat, end: nat, side: Position)
    requires from < end && AllOf(line, from, end, side)
    ensures Switches(line, end) == Switches(line, from + 1)
    decreases end
  {
    if from + 1 < end {
      SwitchesInRun(line, from, end - 1, side);
    }
  }

  /** The steps of a call are only ever answered by success or failure, and a line that begins on
      the server does not fail before its last step. */
  ghost predicate Tame(line: Line, ran: seq<Ran>) {
    forall i :: 0 <= i < |ran| ==>
      && !ran[i].result.Repeat?
      && (ran[i].result.Fail? && ran[i].index + 1 < |line| ==> HostLed(line))
  }

  function Noted<Id(==)>(d: Dialog<Id>, x: Peer, e: Event<Id>): Dialog<Id>
    requires e.Event?
  {
    var bound := if e.recycled then None else Some(e.id);
    d.(trace := d.trace + e.ran,
       packets := if e.sent.Some? then d.packets + 1 else d.packets,
       token := if e.sent.Some? then Flight(Other(x)) else if e.requeued then Queued(x) else Gone,
       host := if e.position.Host? then bound else d.host,
       server := if e.position.Server? then bound else d.server,
       hostFaults := d.hostFaults + if e.faulted && e.position.Host? then 1 else 0,
       serverFaults := d.serverFaults + if e.faulted && e.position.Server? then 1 else 0)
  }

  lemma OpeningRun(line: Line, hp: Proc, out: Steps)
    requires HostLed(line) && hp.cursor == 0 && hp.position.Host?
    requires Tame(line, Action(line, hp, out).ran)
    ensures var a := Action(line, hp, out);
      && RanOn(line, [], hp.units, a.ran, Host)
      && a.proc.cursor == |a.ran|
      && a.proc.units == a.ran[|a.ran| - 1].after
      && a.faulted == a.result.Fail? == (|a.ran| < |line| && a.ran[|a.ran| - 1].result.Fail?)
      && (!a.faulted ==> a.proc.resendable == (|a.ran| < |line|))
  {
    RunIsSegment(line, 0, Host, out, hp.units);
    RunJoins(line, [], hp.units, out, Host);
  }

  /** The opening action of the host, on a line that begins with a host step. */
  lemma HostOpening<Id>(line: Line, d: Dialog<Id>, hp: Proc, out: Steps, id: Id)
    requires HostLed(line) && hp.cursor == 0 && hp.position.Host? && !hp.unitFlag && hp.units == d.start
    requires d.trace == [] && d.packets == 0 && d.hostFaults == 0 && d.serverFaults == 0
    requires Tame(line, Action(line, hp, out).ran)
    ensures var a := Action(line, hp, out);
      var e := OpeningEvent(id, hp.key, Host, a);
      var d' := Noted(d, d.owner, e);
      var hp' := if e.recycled then None else Some(a.proc);
      && RanOn(line, [], d.start, a.ran, Host)
      && d'.trace == a.ran
      && (if a.result.Fail? then Broken(line, d') && Over(line, d') else Announced(line, d', hp', None))
      && Content(d') == a.proc.units
  {
    var a := Action(line, hp, out);
    OpeningRun(line, hp, out);
    var e := OpeningEvent(id, hp.key, Host, a);
    var d' := Noted(d, d.owner, e);
    assert d'.trace == a.ran;
    var c := |a.ran|;
    if a.faulted {
      SwitchesInRun(line, 0, c, Host);
    } else {
      assert !Broken(line, d');
      assert e.recycled <==> c == |line|;
      assert c < |line| ==> line[c] == Server;
    }
  }

  /** The opening action of the host, on a line of server steps, at least one: nothing runs, the packet goes out. */
  lemma ServerOpening<Id>(line: Line, d: Dialog<Id>, hp: Proc, out: Steps, id: Id)
    requires ServerOnly(line) && line != [] && hp.cursor == 0 && hp.position.Host? && !hp.unitFlag && hp.units == d.start
    requires d.trace == [] && d.packets == 0 && d.hostFaults == 0 && d.serverFaults == 0
    ensures var a := Action(line, hp, out);
      var e := OpeningEvent(id, hp.key, Host, a);
      var d' := Noted(d, d.owner, e);
      && a.ran == d'.trace == [] && a.result.Success? && e.recycled
      && Announced(line, d', None, None)
      && Content(d') == a.proc.units
  {
    SkipExact(line, 0, |line|, Server);
  }

  /** The opening action of the host. */
  lemma OpeningPhase<Id>(line: Line, d: Dialog<Id>, hp: Proc, out: Steps, id: Id)
    requires hp.cursor <= |line| && hp.position.Host?
    requires PhaseOk(line, d, Some(hp), None) && Opening(d, Some(hp), None)
    requires Tame(line, Action(line, hp, out).ran)
    ensures var a := Action(line, hp, out);
      var e := OpeningEvent(id, hp.key, Host, a);
      var d' := Noted(d, d.owner, e);
      var hp' := if e.recycled then None else Some(a.proc);
      && PhaseOk(line, d', hp', None)
      && (e.sent.Some? ==> Announced(line, d', hp', None) && e.sent.value.body == Product(Broken(line, d'), Content(d')))
      && !a.proc.unitFlag
      && (e.recycled ==> !a.proc.resendable)
  {
    if HostLed(line) {
      HostOpening(line, d, hp, out, id);
      assert [] + Action(line, hp, out).ran == Action(line, hp, out).ran;
    } else if line != [] {
      ServerOpening(line, d, hp, out, id);
    }
  }

  /** A run that started at step `c` on content `units`, joined to the trace before it. */
  ghost predicate RanOn(line: Line, before: seq<Ran>, start: Units, ran: seq<Ran>, q: Position) {
    var c := |before|;
    var end := c + |ran|;
    && |ran| > 0 && end <= |line|
    && AllOf(line, c, end, q)
    && Segment(line, before + ran, 0, start)
    && !ran[|ran| - 1].result.Repeat?
    && (forall i :: 0 <= i < |ran| ==> !ran[i].result.Repeat?)
    && (end < |line| && ran[|ran| - 1].result.Success? ==> line[end] == Opposite(q))
    && (end < |line| && ran[|ran| - 1].result.Fail? ==> HostLed(line))
  }

  /** The packet count after a run: one more if the other side is to go on, the same at the end. */
  lemma RunPackets(line: Line, c: nat, end: nat, q: Position)
    requires c < end && AllOf(line, c, end, q)
    requires end < |line| ==> line[end] == Opposite(q)
    ensures c > 0 && line[c - 1] == Opposite(q) ==>
      Packets(line, end) == Packets(line, c) + if end < |line| then 1 else 0
    ensures c == 0 ==> Packets(line, end) == 1
  {
    SwitchesInRun(line, c, end, q);
  }

  lemma RunJoins(line: Line, before: seq<Ran>, start: Units, out: Steps, q: Position)
    requires Segment(line, before, 0, start)
    requires before == [] || before[|before| - 1].result.Success?
    requires |before| < |line| && line[|before|] == q
    requires Tame(line, RunFrom(line, |before|, q, out, Final(before, start)).ran)
    ensures RanOn(line, before, start, RunFrom(line, |before|, q, out, Final(before, start)).ran, q)
  {
    var c := |before|;
    var g := RunFrom(line, c, q, out, Final(before, start));
    RunIsSegment(line, c, q, out, Final(before, start));
    assert Segment(line, before + g.ran, 0, start) by { Join(line, before, g.ran, start); }
    var last := |g.ran| - 1;
    assert g.ran[last].index + 1 == g.cursor;
  }

  /** Side `q` runs from step `c` on: what it leaves behind. */
  lemma RunOn<Id>(line: Line, d: Dialog<Id>, me: Proc, out: Steps, q: Position)
    requires me.cursor <= |line| && me.position == q
    requires Segment(line, d.trace, 0, d.start)
    requires d.trace == [] || d.trace[|d.trace| - 1].result.Success?
    requires var c := |d.trace|;
      c < |line| && line[c] == q && Waiting(line, me, c, Opposite(q))
    requires Tame(line, Receive(line, me, Product(false, Content(d)), out).ran)
    ensures var a := Receive(line, me, Product(false, Content(d)), out);
      var end := |d.trace| + |a.ran|;
      && RanOn(line, d.trace, d.start, a.ran, q)
      && a.result.Success?
      && a.proc.units == a.ran[|a.ran| - 1].after
      && a.proc.cursor == end
      && a.proc.resendable == (end < |line|)
      && a.faulted == (end < |line| && a.ran[|a.ran| - 1].result.Fail?)
      && (end < |line| ==> a.proc.product == Product(a.faulted, a.proc.units))
      && (end == |line| ==> !a.proc.unitFlag)
  {
    var c := |d.trace|;
    SkipExact(line, me.cursor, c, Opposite(q));
    RunIsSegment(line, c, q, out, Content(d));
    RunJoins(line, d.trace, d.start, out, q);
  }

  /** Side `q` runs on a packet that reports no failure: the line is over or its answer is queued. */
  lemma RunPhase<Id>(line: Line, d: Dialog<Id>, own: Option<Proc>, me: Proc, out: Steps, q: Position, id: Id)
    requires me.cursor <= |line| && me.position == q
    requires Segment(line, d.trace, 0, d.start)
    requires d.trace == [] || d.trace[|d.trace| - 1].result.Success?
    requires var c := |d.trace|;
      && c < |line| && line[c] == q && Waiting(line, me, c, Opposite(q))
      && (c > 0 ==> line[c - 1] == Opposite(q))
      && d.packets == Packets(line, c)
      && (if own.Some? then HostLed(line) && c > 0 && own.value.cursor == c && own.value.resendable else ServerOnly(line))
    requires d.hostFaults == 0 && d.serverFaults == 0
    requires d.token.Flight? && q == RoleOf(d, d.token.to)
    requires Tame(line, Receive(line, me, Product(false, Content(d)), out).ran)
    ensures var a := Receive(line, me, Product(false, Content(d)), out);
      var d' := Noted(d, d.token.to, DeliveryEvent(id, me.key, q, a));
      && RanOn(line, d.trace, d.start, a.ran, q)
      && a.result.Success?
      && (if a.proc.resendable then d'.token == Queued(d.token.to) && Answering(line, d', q, false, Some(a.proc), own)
          else !a.proc.unitFlag && Over(line, d'))
  {
    var c := |d.trace|;
    var a := Receive(line, me, Product(false, Content(d)), out);
    RunOn(line, d, me, out, q);
    var end := c + |a.ran|;
    if end == |line| || !a.faulted {
      RunPackets(line, c, end, q);
    } else {
      SwitchesInRun(line, c, end, q);
    }
    if end < |line| && !a.faulted {
      assert line[end] == Opposite(q) && line[end - 1] == q;
    }
  }

  /** The phase clauses that do not depend on where the token is. */
  lemma TraceGrows<Id>(line: Line, d: Dialog<Id>, ran: seq<Ran>, q: Position, d': Dialog<Id>)
    requires RanOn(line, d.trace, d.start, ran, q)
    requires forall i :: 0 <= i < |d.trace| ==> !d.trace[i].result.Repeat?
    requires d'.trace == d.trace + ran && d'.start == d.start
    ensures Segment(line, d'.trace, 0, d'.start)
    ensures forall i :: 0 <= i < |d'.trace| ==> !d'.trace[i].result.Repeat?
    ensures Broken(line, d') ==> HostLed(line)
  {
  }

  /** A packet reaches the side whose turn it is. */
  lemma DeliveryPhase<Id>(line: Line, d: Dialog<Id>, own: Option<Proc>, me: Proc, out: Steps, q: Position, id: Id)
    requires me.cursor <= |line| && me.position == q
    requires d.token.Flight? && q == RoleOf(d, d.token.to)
    requires if q.Server? then PhaseOk(line, d, own, Some(me)) else PhaseOk(line, d, Some(me), own)
    requires Answering(line, d, Opposite(q), true, own, Some(me))
    requires Tame(line, Receive(line, me, Product(Broken(line, d), Content(d)), out).ran)
    ensures var a := Receive(line, me, Product(Broken(line, d), Content(d)), out);
      var e := DeliveryEvent(id, me.key, q, a);
      var d' := Noted(d, d.token.to, e);
      var me' := if e.recycled then None else Some(a.proc);
      && (if q.Server? then PhaseOk(line, d', own, me') else PhaseOk(line, d', me', own))
      && (e.recycled ==> !a.proc.unitFlag && !a.proc.resendable)
  {
    var a := Receive(line, me, Product(Broken(line, d), Content(d)), out);
    var d' := Noted(d, d.token.to, DeliveryEvent(id, me.key, q, a));
    if Broken(line, d) {
      assert d'.trace == d.trace;
    } else {
      assert !d.trace[|d.trace| - 1].result.Repeat?;
      RunPhase(line, d, own, me, out, q, id);
      TraceGrows(line, d, a.ran, q, d');
    }
  }

  /** The first packet reaches a server processor that has just been registered. */
  lemma FirstDeliveryPhase<Id>(line: Line, d: Dialog<Id>, hp: Option<Proc>, me: Proc, out: Steps, id: Id)
    requires me.cursor == 0 && me.position.Server?
    requires PhaseOk(line, d, hp, Some(me)) && Announced(line, d, hp, Some(me))
    requires Tame(line, Receive(line, me, Product(Broken(line, d), Content(d)), out).ran)
    ensures var a := Receive(line, me, Product(Broken(line, d), Content(d)), out);
      var e := DeliveryEvent(id, me.key, Server, a);
      var d' := Noted(d, d.token.to, e);
      && PhaseOk(line, d', hp, if e.recycled then None else Some(a.proc))
      && !a.result.Fail?
      && (e.recycled ==> !a.proc.unitFlag && !a.proc.resendable)
  {
    var c := |d.trace|;
    var a := Receive(line, me, Product(Broken(line, d), Content(d)), out);
    var d' := Noted(d, d.token.to, DeliveryEvent(id, me.key, Server, a));
    if c > 0 {
      RunPackets(line, 0, c, Host);
    }
    if c < |line| {
      assert c > 0 ==> !d.trace[c - 1].result.Repeat?;
      RunPhase(line, d, hp, me, out, Server, id);
      TraceGrows(line, d, a.ran, Server, d');
    } else {
      SkipExact(line, 0, c, Host);
      assert d'.trace == d.trace;
    }
  }

  /** A transaction the receiver has not registered is announced; registering it changes nothing else. */
  lemma RegisterPhase<Id>(line: Line, d: Dialog<Id>, x: Peer, hp: Option<Proc>, me: Proc, p: Id)
    requires PhaseOk(line, d, hp, None) && d.token == Flight(x) && me.cursor == 0
    ensures d.owner == Other(x) && d.packets == 1
    ensures Announced(line, d, hp, None)
    ensures PhaseOk(line, d.(server := Some(p)), hp, Some(me))
  {
    var d' := d.(server := Some(p));
    assert Broken(line, d') == Broken(line, d) && d'.trace == d.trace;
  }

  /** A queued answer leaves for the other side. */
  lemma AnswerPhase<Id>(line: Line, d: Dialog<Id>, own: Proc, other: Option<Proc>, r: Position, id: Id)
    requires d.token.Queued? && r == RoleOf(d, d.token.at) && own.position == r
    requires Answering(line, d, r, false, Some(own), other)
    requires if r.Host? then PhaseOk(line, d, Some(own), other) else PhaseOk(line, d, other, Some(own))
    ensures var e := AnswerEvent(id, own);
      var d' := Noted(d, d.token.at, e);
      && (if r.Host? then PhaseOk(line, d', Some(own), other) else PhaseOk(line, d', other, Some(own)))
      && e.sent.value.body == Product(Broken(line, d'), Content(d'))
  {
    assert Noted(d, d.token.at, AnswerEvent(id, own)).trace == d.trace;
  }
}
