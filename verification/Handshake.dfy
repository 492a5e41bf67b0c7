/** The connection handshake: two resumable lines run against each other over FIFO channels. */
module Handshake {
  import opened Types
  import opened Connections

  /** One side: the step it is at, and whether it has failed (its owner then closes and drops it). */
  datatype Side = Side(at: nat, failed: bool, conn: Conn)

  datatype World = World(out: Side, inc: Side)

  datatype Act = StepOut | StepIn | UserAccepts | UserRejects

  function Deliver(side: Side, m: Option<Message>): Side {
    if m.None? then side else side.(conn := side.conn.(inbox := side.conn.inbox + [m.value]))
  }

  /** The state after a step's answer: success moves on, a failure drops the connection, REPEAT stays. */
  function Moved(side: Side, d: Did): Side {
    Side(if d.result.Success? then side.at + 1 else side.at, d.result.Fail?, d.conn)
  }

  ghost predicate Enabled(w: World, act: Act) {
    match act
    case StepOut => !w.out.failed && w.out.at < OUT_STEPS
    case StepIn => !w.inc.failed && w.inc.at < IN_STEPS
    case UserAccepts => true
    case UserRejects => true
  }

  function Next(s: Setting, w: World, act: Act): World
    requires Enabled(w, act)
  {
    match act
    case StepOut =>
      var d := OutStep(s, w.out.conn, w.out.at);
      World(Moved(w.out, d), Deliver(w.inc, d.sent))
    case StepIn =>
      var d := InStep(s, w.inc.conn, w.inc.at);
      World(Deliver(w.out, d.sent), Moved(w.inc, d))
    case UserAccepts => w.(inc := w.inc.(conn := Accepted(w.inc.conn)))
    case UserRejects => w.(inc := w.inc.(conn := Rejected(w.inc.conn)))
  }

  /** The connection has just been established. */
  function Connected(s: Setting): World {
    World(Side(1, false, NewConn(s.outName)), Side(0, false, NewConn(s.inName)))
  }

  ghost predicate Run(s: Setting, ws: seq<World>, acts: seq<Act>) {
    && |ws| == |acts| + 1 && ws[0] == Connected(s)
    && forall i :: 0 <= i < |acts| ==> Enabled(ws[i], acts[i]) && ws[i + 1] == Next(s, ws[i], acts[i])
  }

  // ----- what has been sent and received, by step

  function Signal(s: Setting): Name {
    s.hash(s.inPeer + s.outName)
  }

  function OutSent(s: Setting, at: nat): seq<Message> {
    (if at > 2 then [Meet(s.outName)] else []) +
    (if at > 10 then [Main(OutItems(s, Signal(s)))] else [])
  }

  function InSent(s: Setting, at: nat): seq<Message> {
    (if at > 1 then [Meet(s.inName)] else []) +
    (if at > 7 then [Main(NO_ITEMS.(signal := Signal(s)))] else []) +
    (if at > 11 then [Main(InItems(s, Signal(s)))] else [])
  }

  function OutReceived(at: nat): nat {
    if at > 12 then 3 else if at > 8 then 2 else if at > 4 then 1 else 0
  }

  function InReceived(at: nat): nat {
    if at > 9 then 2 else if at > 3 then 1 else 0
  }

  ghost predicate Channel(inbox: seq<Message>, sent: seq<Message>, received: nat) {
    received <= |sent| && inbox == sent[received..]
  }

  ghost predicate OutOk(s: Setting, o: Side) {
    var c := o.conn;
    && 1 <= o.at <= OUT_STEPS
    && c.localName == s.outName
    && (o.at > 5 ==> c.remoteName == s.inName)
    && (o.at == 2 ==> c.meeting == Some(Meet(s.outName)))
    && (o.at > 3 ==> c.meeting == None) && (o.at == 4 || o.at == 8 || o.at == 12 ==> c.inner == None)
    && (c.main.Some? <==> 10 <= o.at <= 11)
    && (o.at == 5 ==> c.inner == Some(Meet(s.inName)))
    && (o.at == 9 ==> c.inner == Some(Main(NO_ITEMS.(signal := Signal(s)))))
    && (o.at == 10 ==> c.main == Some(Main(OutItems(s, Signal(s)))))
    && (o.at == 13 ==> c.inner == Some(Main(InItems(s, Signal(s)))))
    && (o.at > 13 ==> c.units == InItems(s, Signal(s)))
    && (c.state == ACCEPT <==> o.at > 9)
    && (c.state == REJECT <==> o.failed)
    && (o.at > 9 ==> Signal(s) == s.hash(s.outLocal + s.outName))
    && (o.failed ==> o.at == 9 && Signal(s) != s.hash(s.outLocal + s.outName))
  }

  ghost predicate InOk(s: Setting, i: Side) {
    var c := i.conn;
    && i.at <= IN_STEPS
    && c.localName == s.inName
    && (i.at > 4 ==> c.remoteName == s.outName)
    && (i.at == 1 ==> c.meeting == Some(Meet(s.inName)))
    && (i.at > 2 ==> c.meeting == None) && (i.at == 3 || i.at == 9 ==> c.inner == None)
    && (c.main.Some? <==> i.at == 7 || i.at == 8 || i.at > 10)
    && (i.at == 4 ==> c.inner == Some(Meet(s.outName)))
    && (i.at <= 6 ==> c.units == NO_ITEMS)
    && (i.at == 7 ==> c.main == Some(Main(NO_ITEMS.(signal := Signal(s)))))
    && (i.at == 10 ==> c.inner == Some(Main(OutItems(s, Signal(s)))))
    && (i.at == 11 ==> c.main == Some(Main(InItems(s, Signal(s)))))
    && (i.at > 5 ==> c.state != WAIT)
    && (i.at > 6 ==> c.state == ACCEPT)
    && (i.failed ==> i.at == 6 && c.state == REJECT)
  }

  ghost predicate Inv(s: Setting, w: World) {
    && OutOk(s, w.out) && InOk(s, w.inc) && (w.out.at > 6 ==> w.inc.at > 7)
    && Channel(w.inc.conn.inbox, OutSent(s, w.out.at), InReceived(w.inc.at))
    && Channel(w.out.conn.inbox, InSent(s, w.inc.at), OutReceived(w.out.at))
  }

  // ----- steps

  /** Receiving takes the next packet; the channel shrinks from the front. */
  lemma ChannelPop(inbox: seq<Message>, sent: seq<Message>, received: nat)
    requires Channel(inbox, sent, received) && inbox != []
    ensures received < |sent| && inbox[0] == sent[received] && Channel(inbox[1..], sent, received + 1)
  {
  }

  lemma ChannelPush(inbox: seq<Message>, sent: seq<Message>, received: nat, m: Message)
    requires Channel(inbox, sent, received)
    ensures Channel(inbox + [m], sent + [m], received)
  {
  }

  lemma OutStepOk(s: Setting, o: Side, sentByIn: seq<Message>)
    requires OutOk(s, o) && !o.failed && o.at < OUT_STEPS
    requires Channel(o.conn.inbox, sentByIn, OutReceived(o.at))
    requires exists at :: sentByIn == InSent(s, at)
    ensures var d := OutStep(s, o.conn, o.at);
      && OutOk(s, Moved(o, d))
      && Channel(d.conn.inbox, sentByIn, OutReceived(Moved(o, d).at))
      && OutSent(s, Moved(o, d).at) == OutSent(s, o.at) + (if d.sent.Some? then [d.sent.value] else [])
  {
    if o.conn.inbox != [] {
      ChannelPop(o.conn.inbox, sentByIn, OutReceived(o.at));
    }
  }

  lemma InStepOk(s: Setting, i: Side, sentByOut: seq<Message>)
    requires InOk(s, i) && !i.failed && i.at < IN_STEPS
    requires Channel(i.conn.inbox, sentByOut, InReceived(i.at))
    requires exists at :: sentByOut == OutSent(s, at)
    ensures var d := InStep(s, i.conn, i.at);
      && InOk(s, Moved(i, d))
      && Channel(d.conn.inbox, sentByOut, InReceived(Moved(i, d).at))
      && InSent(s, Moved(i, d).at) == InSent(s, i.at) + (if d.sent.Some? then [d.sent.value] else [])
  {
    if i.conn.inbox != [] {
      ChannelPop(i.conn.inbox, sentByOut, InReceived(i.at));
    }
  }

  /** The outgoing side stops waiting for the other user only when there is a signal to receive. */
  lemma WaitsForSignal(s: Setting, o: Side, inAt: nat)
    requires o.at == 6 && Channel(o.conn.inbox, InSent(s, inAt), OutReceived(o.at))
    ensures OutStep(s, o.conn, o.at).result.Success? <==> inAt > 7
  {
  }

  /** What a side receives or its user decides changes nothing a side relies on. */
  lemma OthersKeep(s: Setting, w: World, m: Option<Message>)
    requires OutOk(s, w.out) && InOk(s, w.inc)
    ensures OutOk(s, Deliver(w.out, m)) && InOk(s, Deliver(w.inc, m))
    ensures InOk(s, w.inc.(conn := Accepted(w.inc.conn))) && InOk(s, w.inc.(conn := Rejected(w.inc.conn)))
  {
  }

  lemma OutKeeps(s: Setting, w: World)
    requires Inv(s, w) && Enabled(w, StepOut)
    ensures Inv(s, Next(s, w, StepOut))
  {
    if w.out.at == 6 {
      WaitsForSignal(s, w.out, w.inc.at);
    }
    OutStepOk(s, w.out, InSent(s, w.inc.at));
    var d := OutStep(s, w.out.conn, w.out.at);
    OthersKeep(s, w, d.sent);
    hide OutStep, OutSent, InSent, OutOk, InOk;
    if d.sent.Some? {
      ChannelPush(w.inc.conn.inbox, OutSent(s, w.out.at), InReceived(w.inc.at), d.sent.value);
    }
  }

  lemma InKeeps(s: Setting, w: World)
    requires Inv(s, w) && Enabled(w, StepIn)
    ensures Inv(s, Next(s, w, StepIn))
  {
    InStepOk(s, w.inc, OutSent(s, w.out.at));
    var d := InStep(s, w.inc.conn, w.inc.at);
    OthersKeep(s, w, d.sent);
    hide InStep, OutSent, InSent, OutOk, InOk;
    if d.sent.Some? {
      ChannelPush(w.out.conn.inbox, InSent(s, w.inc.at), OutReceived(w.out.at), d.sent.value);
    }
  }

  lemma StepKeeps(s: Setting, w: World, act: Act)
    requires Inv(s, w) && Enabled(w, act)
    ensures Inv(s, Next(s, w, act))
  {
    OthersKeep(s, w, None);
    hide OutStep, InStep, OutSent, InSent, OutOk, InOk;
    match act
    case StepOut => OutKeeps(s, w);
    case StepIn => InKeeps(s, w);
    case UserAccepts =>
    case UserRejects =>
  }

  lemma {:induction false} RunInv(s: Setting, ws: seq<World>, acts: seq<Act>, i: nat)
    requires Run(s, ws, acts) && i < |ws|
    ensures Inv(s, ws[i])
    decreases i
  {
    if i > 0 {
      RunInv(s, ws, acts, i - 1);
      hide Inv, Next;
      StepKeeps(s, ws[i - 1], acts[i - 1]);
    }
  }

  // ----- what every run guarantees

  /** The kind of packet a step takes apart. */
  ghost predicate ExpectedKind(w: World) {
    && (w.out.at == 5 && !w.out.failed ==> w.out.conn.inner.Some? && w.out.conn.inner.value.Meet?)
    && (w.out.at == 9 || w.out.at == 13 ==> LoadsMain(w.out.conn))
    && (w.inc.at == 4 ==> w.inc.conn.inner.Some? && w.inc.conn.inner.value.Meet?)
    && (w.inc.at == 10 ==> LoadsMain(w.inc.conn))
  }

  /** Every packet a side takes apart is of the kind it expects. */
  lemma PacketsFit(s: Setting, ws: seq<World>, acts: seq<Act>, i: nat)
    requires Run(s, ws, acts) && i < |ws|
    ensures ExpectedKind(ws[i])
  {
    hide Run;
    RunInv(s, ws, acts, i);
  }

  predicate Decides(act: Act) {
    act.UserAccepts? || act.UserRejects?
  }

  /** The user's first decision is `choice`. */
  ghost predicate FirstIs(acts: seq<Act>, choice: Act) {
    exists j :: 0 <= j < |acts| && acts[j] == choice && forall k :: 0 <= k < j ==> !Decides(acts[k])
  }

  ghost predicate Undecided(acts: seq<Act>) {
    forall k :: 0 <= k < |acts| ==> !Decides(acts[k])
  }

  lemma DecisionGrows(acts: seq<Act>, act: Act, choice: Act)
    requires Decides(choice)
    ensures FirstIs(acts + [act], choice) <==> FirstIs(acts, choice) || (Undecided(acts) && act == choice)
    ensures Undecided(acts + [act]) <==> Undecided(acts) && !Decides(act)
  {
    var all := acts + [act];
    assert forall k :: 0 <= k < |acts| ==> all[k] == acts[k];
    assert all[|acts|] == act;
  }

  /** In every run the incoming side has accepted exactly when the user's first decision was to accept,
      and has rejected exactly when it was to reject; no step of either side decides anything. */
  lemma {:induction false} StateIsDecision(s: Setting, ws: seq<World>, acts: seq<Act>, i: nat)
    requires Run(s, ws, acts) && i < |ws|
    ensures ws[i].inc.conn.state == ACCEPT <==> FirstIs(acts[..i], UserAccepts)
    ensures ws[i].inc.conn.state == REJECT <==> FirstIs(acts[..i], UserRejects)
    ensures ws[i].inc.conn.state == WAIT <==> Undecided(acts[..i])
    decreases i
  {
    if i > 0 {
      StateIsDecision(s, ws, acts, i - 1);
      StepsDecideNothing(s, ws[i - 1], acts[i - 1]);
      assert acts[..i] == acts[..i - 1] + [acts[i - 1]];
      DecisionGrows(acts[..i - 1], acts[i - 1], UserAccepts);
      DecisionGrows(acts[..i - 1], acts[i - 1], UserRejects);
      hide FirstIs, Undecided;
    }
  }

  lemma StepsDecideNothing(s: Setting, w: World, act: Act)
    requires Enabled(w, act)
    ensures Next(s, w, act).inc.conn.state ==
      if w.inc.conn.state != WAIT then w.inc.conn.state
      else if act == UserAccepts then ACCEPT else if act == UserRejects then REJECT else WAIT
  {
  }

  /** If the outgoing side has accepted, so had the user of the incoming one, and each side knows the
      other by its name. */
  lemma Agreement(s: Setting, ws: seq<World>, acts: seq<Act>, i: nat)
    requires Run(s, ws, acts) && i < |ws| && ws[i].out.conn.state == ACCEPT
    ensures FirstIs(acts[..i], UserAccepts) && ws[i].inc.conn.state == ACCEPT
    ensures ws[i].out.conn.remoteName == s.inName && ws[i].inc.conn.remoteName == s.outName
  {
    StateIsDecision(s, ws, acts, i);
    hide Run, FirstIs;
    RunInv(s, ws, acts, i);
  }

  /** What each side has of the other's keys: the incoming side holds the outgoing ones when it makes its
      answer, the outgoing side holds the incoming ones from then on. */
  lemma ItemsExchanged(s: Setting, ws: seq<World>, acts: seq<Act>, i: nat)
    requires Run(s, ws, acts) && i < |ws|
    ensures ws[i].inc.at == 10 ==>
      ws[i].inc.conn.inner == Some(Main(Items(s.hash(s.inPeer + s.outName), "xxx outgoing session key xxx",
                                              "xxx outgoing shadowkey xxx", s.outAvatar)))
    ensures ws[i].out.at >= 14 ==>
      ws[i].out.conn.units == Items(s.hash(s.inPeer + s.outName), "incoming session key", "incoming shadow key", s.inAvatar)
  {
    hide Run;
    RunInv(s, ws, acts, i);
  }

  /** If the incoming side is through its dialog, the outgoing side had verified the signal. */
  lemma DialogMeansVerified(s: Setting, ws: seq<World>, acts: seq<Act>, i: nat)
    requires Run(s, ws, acts) && i < |ws| && ws[i].inc.at >= 12
    ensures ws[i].out.conn.state == ACCEPT
    ensures s.hash(s.inPeer + s.outName) == s.hash(s.outLocal + s.outName)
  {
    hide Run;
    RunInv(s, ws, acts, i);
  }

  /** Until the user accepts, the incoming side has sent nothing but its greeting: no signal is on its
      way or has been received, and the outgoing side waits for one. */
  lemma NoSignalUnlessAccepted(s: Setting, ws: seq<World>, acts: seq<Act>, i: nat)
    requires Run(s, ws, acts) && i < |ws| && !FirstIs(acts[..i], UserAccepts)
    ensures ws[i].inc.at <= 6 && ws[i].out.at <= 6 && ws[i].out.conn.state == WAIT
    ensures forall m :: m in ws[i].out.conn.inbox ==> m.Meet?
    ensures ws[i].inc.at == 6 || ws[i].inc.failed ==> FirstIs(acts[..i], UserRejects)
  {
    StateIsDecision(s, ws, acts, i);
    hide Run, FirstIs;
    RunInv(s, ws, acts, i);
  }

  /** Once the user has rejected, no signal is ever sent, whatever the user does later. */
  lemma RejectedSendsNoSignal(s: Setting, ws: seq<World>, acts: seq<Act>, j: nat, i: nat)
    requires Run(s, ws, acts) && j <= i < |ws| && FirstIs(acts[..j], UserRejects)
    ensures ws[i].inc.conn.state == REJECT && ws[i].inc.at <= 6 && ws[i].out.at <= 6 && ws[i].out.conn.state == WAIT
    ensures forall m :: m in ws[i].out.conn.inbox ==> m.Meet?
    ensures Stuck(s, ws[i]) ==> ws[i].inc.failed && ws[i].inc.at == 6 && ws[i].out.at == 6 && !ws[i].out.failed
  {
    assert forall k :: 0 <= k < j ==> acts[..i][k] == acts[..j][k];
    assert FirstIs(acts[..i], UserRejects);
    StateIsDecision(s, ws, acts, i);
    hide Run, FirstIs;
    RunInv(s, ws, acts, i);
  }

  /** Neither side can take a step that is not a REPEAT. */
  ghost predicate Stuck(s: Setting, w: World) {
    && (!w.out.failed && w.out.at < OUT_STEPS ==> OutStep(s, w.out.conn, w.out.at).result.Repeat?)
    && (!w.inc.failed && w.inc.at < IN_STEPS ==> InStep(s, w.inc.conn, w.inc.at).result.Repeat?)
  }

  ghost predicate Finished(w: World) {
    w.out.at == OUT_STEPS && w.inc.at == IN_STEPS
  }

  /** Once the user has accepted: when nothing more can happen both sides have finished, exactly when the two sides
      agree on the signal; otherwise the outgoing side has refused. */
  lemma AcceptedFinishes(s: Setting, ws: seq<World>, acts: seq<Act>, i: nat)
    requires Run(s, ws, acts) && i < |ws| && FirstIs(acts[..i], UserAccepts) && Stuck(s, ws[i])
    ensures Finished(ws[i]) <==> s.hash(s.inPeer + s.outName) == s.hash(s.outLocal + s.outName)
    ensures !Finished(ws[i]) ==> ws[i].out.failed && ws[i].out.conn.state == REJECT
  {
    StateIsDecision(s, ws, acts, i);
    hide Run, FirstIs;
    RunInv(s, ws, acts, i);
  }

  /** Steps that are not REPEATs bring the end nearer, so an accepted handshake does end. */
  function Remaining(w: World): nat
    requires w.out.at <= OUT_STEPS && w.inc.at <= IN_STEPS
  {
    Left(w.out, OUT_STEPS) + Left(w.inc, IN_STEPS)
  }

  function Left(side: Side, steps: nat): nat
    requires side.at <= steps
  {
    steps - side.at + if side.failed then 0 else 1
  }

  lemma MovesCloser(side: Side, d: Did, steps: nat)
    requires !side.failed && side.at < steps && !d.result.Repeat?
    ensures Left(Moved(side, d), steps) < Left(side, steps)
  {
  }

  lemma OthersStay(w: World, m: Option<Message>)
    requires w.out.at <= OUT_STEPS && w.inc.at <= IN_STEPS
    ensures Left(Deliver(w.out, m), OUT_STEPS) == Left(w.out, OUT_STEPS) && Left(Deliver(w.inc, m), IN_STEPS) == Left(w.inc, IN_STEPS)
    ensures Left(w.inc.(conn := Accepted(w.inc.conn)), IN_STEPS) == Left(w.inc, IN_STEPS)
    ensures Left(w.inc.(conn := Rejected(w.inc.conn)), IN_STEPS) == Left(w.inc, IN_STEPS)
  {
  }

  lemma InBounds(s: Setting, w: World)
    requires Inv(s, w)
    ensures w.out.at <= OUT_STEPS && w.inc.at <= IN_STEPS
  {
  }

  lemma StepsEnd(s: Setting, w: World, act: Act)
    requires Inv(s, w) && Enabled(w, act)
    requires act == StepOut ==> !OutStep(s, w.out.conn, w.out.at).result.Repeat?
    requires act == StepIn ==> !InStep(s, w.inc.conn, w.inc.at).result.Repeat?
    ensures Inv(s, Next(s, w, act))
    ensures act == StepOut || act == StepIn ==> Remaining(Next(s, w, act)) < Remaining(w)
    ensures act == UserAccepts || act == UserRejects ==> Remaining(Next(s, w, act)) == Remaining(w)
  {
    StepKeeps(s, w, act);
    InBounds(s, w);
    InBounds(s, Next(s, w, act));
    hide OutStep, InStep, Inv, Moved, Left, Deliver, Accepted, Rejected;
    match act
    case StepOut =>
      MovesCloser(w.out, OutStep(s, w.out.conn, w.out.at), OUT_STEPS);
      OthersStay(w, OutStep(s, w.out.conn, w.out.at).sent);
    case StepIn =>
      MovesCloser(w.inc, InStep(s, w.inc.conn, w.inc.at), IN_STEPS);
      OthersStay(w, InStep(s, w.inc.conn, w.inc.at).sent);
    case UserAccepts => OthersStay(w, None);
    case UserRejects => OthersStay(w, None);
  }
}
