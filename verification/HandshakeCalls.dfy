/** The handshake as the two sides' owners see it: whole `process` calls, each of them a run of steps. */
module HandshakeCalls {
  import opened Types
  import opened Connections
  import opened ConnectionObjects
  import opened Handshake

  function DeliverAll(side: Side, packets: seq<Message>): Side {
    side.(conn := side.conn.(inbox := side.conn.inbox + packets))
  }

  function After(r: Ran): Side {
    Side(r.at, r.result.Fail?, r.conn)
  }

  /** One `process` call of a side, or a decision of the user: what the call puts on the wire is what the
      other side can receive. */
  function NextCall(s: Setting, w: World, act: Act): World
    requires Enabled(w, act)
  {
    match act
    case StepOut =>
      var r := RunOut(s, w.out.conn, w.out.at, []);
      World(After(r), DeliverAll(w.inc, r.wire))
    case StepIn =>
      var r := RunIn(s, w.inc.conn, w.inc.at, []);
      World(DeliverAll(w.out, r.wire), After(r))
    case _ => Next(s, w, act)
  }

  ghost predicate Calls(s: Setting, cs: seq<World>, calls: seq<Act>) {
    && |cs| == |calls| + 1 && cs[0] == Connected(s)
    && forall i :: 0 <= i < |calls| ==> Enabled(cs[i], calls[i]) && cs[i + 1] == NextCall(s, cs[i], calls[i])
  }

  // ----- one call

  /** `ws` are the worlds that steps of one kind lead through. */
  ghost predicate Path(s: Setting, ws: seq<World>, act: Act) {
    && |ws| > 0
    && forall i :: 0 <= i < |ws| - 1 ==> Enabled(ws[i], act) && ws[i + 1] == Next(s, ws[i], act)
  }

  lemma PathCons(s: Setting, w: World, ws: seq<World>, act: Act)
    requires Path(s, ws, act) && Enabled(w, act) && ws[0] == Next(s, w, act)
    ensures Path(s, [w] + ws, act)
  {
    var all := [w] + ws;
    forall i | 0 <= i < |all| - 1
      ensures Enabled(all[i], act) && all[i + 1] == Next(s, all[i], act)
    {
      assert all[i + 1] == ws[i];
      assert i > 0 ==> all[i] == ws[i - 1];
    }
  }

  /** The worlds one call of the outgoing side leads through. */
  ghost function OutPath(s: Setting, w: World): seq<World>
    requires Enabled(w, StepOut)
    decreases OUT_STEPS - w.out.at
  {
    var v := Next(s, w, StepOut);
    if OutStep(s, w.out.conn, w.out.at).result.Success? && v.out.at < OUT_STEPS then [w] + OutPath(s, v) else [w, v]
  }

  ghost function InPath(s: Setting, w: World): seq<World>
    requires Enabled(w, StepIn)
    decreases IN_STEPS - w.inc.at
  {
    var v := Next(s, w, StepIn);
    if InStep(s, w.inc.conn, w.inc.at).result.Success? && v.inc.at < IN_STEPS then [w] + InPath(s, v) else [w, v]
  }

  /** What a step sends is delivered in front of what the rest of the call sends. */
  lemma SentDelivered(side: Side, wire: seq<Message>, m: Option<Message>, whole: seq<Message>)
    requires Sent(wire, m) <= whole
    ensures wire <= whole
    ensures DeliverAll(Deliver(side, m), whole[|Sent(wire, m)|..]) == DeliverAll(side, whole[|wire|..])
    ensures DeliverAll(side, Sent(wire, m)[|wire|..]) == Deliver(side, m) && wire <= Sent(wire, m)
  {
    var more := whole[|Sent(wire, m)|..];
    if m.Some? {
      assert whole[|wire|..] == [m.value] + more;
      assert side.conn.inbox + [m.value] + more == side.conn.inbox + ([m.value] + more);
      assert Sent(wire, m)[|wire|..] == [m.value];
    } else {
      assert Sent(wire, m)[|wire|..] == [];
      assert side.conn.inbox + [] == side.conn.inbox;
    }
  }

  /** One call of the outgoing side is a run of its steps, at least one: it stops with the first that does
      not succeed or with the last of the line, and delivers exactly what the wire has gained. */
  lemma {:induction false} OutCallIsSteps(s: Setting, w: World, wire: seq<Message>)
    requires Enabled(w, StepOut)
    ensures var r := RunOut(s, w.out.conn, w.out.at, wire);
      var ws := OutPath(s, w);
      && Path(s, ws, StepOut) && |ws| >= 2 && ws[0] == w
      && wire <= r.wire
      && ws[|ws| - 1] == World(After(r), DeliverAll(w.inc, r.wire[|wire|..]))
      && (forall i :: 0 <= i < |ws| - 2 ==> ws[i + 1].out.at == ws[i].out.at + 1)
      && (r.result.Success? <==> r.at == OUT_STEPS)
    decreases OUT_STEPS - w.out.at
  {
    var d := OutStep(s, w.out.conn, w.out.at);
    var v := Next(s, w, StepOut);
    hide OutStep;
    if d.result.Success? && v.out.at < OUT_STEPS {
      var next := Sent(wire, d.sent);
      OutCallIsSteps(s, v, next);
      PathCons(s, w, OutPath(s, v), StepOut);
      SentDelivered(w.inc, wire, d.sent, RunOut(s, w.out.conn, w.out.at, wire).wire);
      assert RunOut(s, w.out.conn, w.out.at, wire) == RunOut(s, v.out.conn, v.out.at, next);
      hide Sent, Deliver, DeliverAll, Path, RunOut;
    } else {
      SentDelivered(w.inc, wire, d.sent, Sent(wire, d.sent));
      hide Sent, Deliver, DeliverAll;
    }
  }

  lemma {:induction false} InCallIsSteps(s: Setting, w: World, wire: seq<Message>)
    requires Enabled(w, StepIn)
    ensures var r := RunIn(s, w.inc.conn, w.inc.at, wire);
      var ws := InPath(s, w);
      && Path(s, ws, StepIn) && |ws| >= 2 && ws[0] == w
      && wire <= r.wire
      && ws[|ws| - 1] == World(DeliverAll(w.out, r.wire[|wire|..]), After(r))
      && (forall i :: 0 <= i < |ws| - 2 ==> ws[i + 1].inc.at == ws[i].inc.at + 1)
      && (r.result.Success? <==> r.at == IN_STEPS)
    decreases IN_STEPS - w.inc.at
  {
    var d := InStep(s, w.inc.conn, w.inc.at);
    var v := Next(s, w, StepIn);
    hide InStep;
    if d.result.Success? && v.inc.at < IN_STEPS {
      var next := Sent(wire, d.sent);
      InCallIsSteps(s, v, next);
      PathCons(s, w, InPath(s, v), StepIn);
      SentDelivered(w.out, wire, d.sent, RunIn(s, w.inc.conn, w.inc.at, wire).wire);
      assert RunIn(s, w.inc.conn, w.inc.at, wire) == RunIn(s, v.inc.conn, v.inc.at, next);
      hide Sent, Deliver, DeliverAll, Path, RunIn;
    } else {
      SentDelivered(w.out, wire, d.sent, Sent(wire, d.sent));
      hide Sent, Deliver, DeliverAll;
    }
  }

  // ----- any number of calls

  function Times(n: nat, act: Act): seq<Act> {
    seq(n, _ => act)
  }

  /** The same first decision, if any. */
  ghost predicate SameChoice(acts: seq<Act>, calls: seq<Act>) {
    && (forall choice | Decides(choice) :: FirstIs(acts, choice) <==> FirstIs(calls, choice))
    && (Undecided(acts) <==> Undecided(calls))
  }

  lemma {:induction false} StepsChooseNothing(acts: seq<Act>, n: nat, act: Act)
    requires !Decides(act)
    ensures SameChoice(acts + Times(n, act), acts)
  {
    if n == 0 {
      assert acts + Times(0, act) == acts;
    } else {
      StepsChooseNothing(acts, n - 1, act);
      assert acts + Times(n, act) == (acts + Times(n - 1, act)) + [act];
      DecisionGrows(acts + Times(n - 1, act), act, UserAccepts);
      DecisionGrows(acts + Times(n - 1, act), act, UserRejects);
      hide FirstIs, Undecided;
    }
  }

  lemma RunExtends(s: Setting, ws: seq<World>, acts: seq<Act>, path: seq<World>, act: Act)
    requires Run(s, ws, acts) && Path(s, path, act) && path[0] == ws[|acts|]
    ensures Run(s, ws + path[1..], acts + Times(|path| - 1, act))
  {
    var (all, does) := (ws + path[1..], acts + Times(|path| - 1, act));
    forall i | 0 <= i < |does|
      ensures Enabled(all[i], does[i]) && all[i + 1] == Next(s, all[i], does[i])
    {
      if i < |acts| {
        assert all[i] == ws[i] && all[i + 1] == ws[i + 1];
      } else {
        assert all[i] == path[i - |acts|] && all[i + 1] == path[i - |acts| + 1];
      }
    }
  }

  /** A run of steps that ends where the calls have led, after the same decision of the user. */
  ghost predicate Unfolds(s: Setting, w: World, calls: seq<Act>, ws: seq<World>, acts: seq<Act>) {
    Run(s, ws, acts) && ws[|acts|] == w && SameChoice(acts, calls)
  }

  /** The worlds one call leads through. */
  ghost function CallPath(s: Setting, w: World, act: Act): seq<World>
    requires Enabled(w, act)
  {
    match act
    case StepOut => OutPath(s, w)
    case StepIn => InPath(s, w)
    case _ => [w, Next(s, w, act)]
  }

  lemma CallIsSteps(s: Setting, w: World, act: Act)
    requires Enabled(w, act)
    ensures var path := CallPath(s, w, act);
      Path(s, path, act) && |path| >= 2 && path[0] == w && path[|path| - 1] == NextCall(s, w, act)
      && (Decides(act) ==> |path| == 2)
  {
    hide Next;
    match act
    case StepOut => OutCallIsSteps(s, w, []);
    case StepIn => InCallIsSteps(s, w, []);
    case _ =>
  }

  lemma ChoiceGrows(acts: seq<Act>, calls: seq<Act>, n: nat, act: Act)
    requires SameChoice(acts, calls) && (Decides(act) ==> n == 1)
    ensures n > 0 ==> SameChoice(acts + Times(n, act), calls + [act])
  {
    hide FirstIs, Undecided;
    if Decides(act) {
      assert Times(1, act) == [act];
      DecisionGrows(acts, act, UserAccepts);
      DecisionGrows(acts, act, UserRejects);
    } else {
      StepsChooseNothing(acts, n, act);
    }
    DecisionGrows(calls, act, UserAccepts);
    DecisionGrows(calls, act, UserRejects);
  }

  lemma ChoiceNone(calls: seq<Act>)
    ensures SameChoice([], calls[..0])
  {
    assert calls[..0] == [];
  }

  /** Whatever calls the two owners make and whenever the user decides, they lead through a run of the
      handshake's steps, so all that holds in every such run holds after every call. */
  lemma {:induction false} CallsAreSteps(s: Setting, cs: seq<World>, calls: seq<Act>, i: nat)
    requires Calls(s, cs, calls) && i < |cs|
    ensures exists ws, acts :: Unfolds(s, cs[i], calls[..i], ws, acts)
    decreases i
  {
    hide NextCall, SameChoice, Next;
    if i == 0 {
      assert SameChoice([], calls[..0]) by { ChoiceNone(calls); }
      assert Unfolds(s, cs[0], calls[..0], [cs[0]], []);
    } else {
      CallsAreSteps(s, cs, calls, i - 1);
      var ws, acts :| Unfolds(s, cs[i - 1], calls[..i - 1], ws, acts);
      var act := calls[i - 1];
      CallIsSteps(s, cs[i - 1], act);
      var path := CallPath(s, cs[i - 1], act);
      RunExtends(s, ws, acts, path, act);
      ChoiceGrows(acts, calls[..i - 1], |path| - 1, act);
      assert calls[..i] == calls[..i - 1] + [act];
      assert Unfolds(s, cs[i], calls[..i], ws + path[1..], acts + Times(|path| - 1, act));
    }
  }

  /** After every call: the invariant of the steps, the user's decision in the state, and, once the user
      has accepted and nothing more can happen, the end exactly when the signals agree. */
  lemma CallsAgree(s: Setting, cs: seq<World>, calls: seq<Act>, i: nat)
    requires Calls(s, cs, calls) && i < |cs|
    ensures Inv(s, cs[i])
    ensures cs[i].inc.conn.state == ACCEPT <==> FirstIs(calls[..i], UserAccepts)
    ensures cs[i].inc.conn.state == REJECT <==> FirstIs(calls[..i], UserRejects)
    ensures FirstIs(calls[..i], UserAccepts) && Stuck(s, cs[i]) ==>
      (Finished(cs[i]) <==> s.hash(s.inPeer + s.outName) == s.hash(s.outLocal + s.outName))
  {
    CallsAreSteps(s, cs, calls, i);
    var ws, acts :| Unfolds(s, cs[i], calls[..i], ws, acts);
    assert acts[..|acts|] == acts && |ws| == |acts| + 1;
    hide Run, Inv, FirstIs, Undecided, Stuck, Finished;
    RunInv(s, ws, acts, |acts|);
    StateIsDecision(s, ws, acts, |acts|);
    if FirstIs(acts, UserAccepts) && Stuck(s, cs[i]) {
      AcceptedFinishes(s, ws, acts, |acts|);
    }
  }
}
