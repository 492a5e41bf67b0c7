/** The connection objects: nested lines updated in place. One `process` call runs the flat line of
    Connections from where the last call stopped. */
module ConnectionObjects {
  import opened Types
  import opened Connections

  /** A connection, the flat step it is at, what it has put on the wire, and the answer of the call. */
  datatype Ran = Ran(conn: Conn, at: nat, wire: seq<Message>, result: Result)

  function Sent(wire: seq<Message>, m: Option<Message>): seq<Message> {
    if m.Some? then wire + [m.value] else wire
  }

  /** Runs the outgoing side's flat line until a step does not succeed or the line is over. */
  function RunOut(s: Setting, c: Conn, k: nat, wire: seq<Message>): Ran
    requires k <= OUT_STEPS
    decreases OUT_STEPS - k
  {
    if k == OUT_STEPS then Ran(c, k, wire, Fail) else
    var d := OutStep(s, c, k);
    var w := Sent(wire, d.sent);
    if !d.result.Success? then Ran(d.conn, k, w, d.result)
    else if k + 1 == OUT_STEPS then Ran(d.conn, k + 1, w, Success)
    else RunOut(s, d.conn, k + 1, w)
  }

  function RunIn(s: Setting, c: Conn, k: nat, wire: seq<Message>): Ran
    requires k <= IN_STEPS
    decreases IN_STEPS - k
  {
    if k == IN_STEPS then Ran(c, k, wire, Fail) else
    var d := InStep(s, c, k);
    var w := Sent(wire, d.sent);
    if !d.result.Success? then Ran(d.conn, k, w, d.result)
    else if k + 1 == IN_STEPS then Ran(d.conn, k + 1, w, Success)
    else RunIn(s, d.conn, k + 1, w)
  }

  /** The part both sides share: the connector, the contents, the meeting line. */
  class WaitingConnection {
    const iLocalName: Name
    var iRemoteName: Name
    var iState: ConnectionState
    var meetBuffer: Option<Message>
    var units: Items
    var mainBuffer: Option<Message>
    var innerBuffer: Option<Message>
    var incoming: seq<Message>
    var wire: seq<Message>
    var meetCursor: nat

    function Value(): Conn
      reads this
    {
      Conn(iLocalName, iRemoteName, iState, meetBuffer, units, mainBuffer, innerBuffer, incoming)
    }

    constructor (name: Name)
      ensures Value() == NewConn(name) && wire == [] && meetCursor == 0
    {
      iLocalName, iRemoteName, iState := name, [], WAIT;
      meetBuffer, mainBuffer, innerBuffer := None, None, None;
      units, incoming, wire, meetCursor := NO_ITEMS, [], [], 0;
    }

    method XSend(buffer: Option<Message>)
      modifies this`wire
      ensures wire == Sent(old(wire), buffer)
    {
      if buffer.Some? {
        wire := wire + [buffer.value];
      }
    }

    method XReceivePacket()
      requires incoming != []
      modifies this`innerBuffer, this`incoming
      ensures Value() == Receive(old(Value())).conn
    {
      innerBuffer := Some(incoming[0]);
      incoming := incoming[1..];
    }

    method SendPacket() returns (r: Result)
      modifies this`wire
      ensures r == Success && wire == Sent(old(wire), SendMain(Value()).sent)
    {
      XSend(mainBuffer);
      r := Success;
    }

    method ReceivePacket() returns (r: Result)
      modifies this`innerBuffer, this`incoming
      ensures Did(Value(), None, r) == Receive(old(Value()))
    {
      if incoming != [] {
        XReceivePacket();
        return Success;
      }
      r := Repeat;
    }

    method DialogClear()
      modifies this`mainBuffer, this`innerBuffer
      ensures Value() == ClearMain(old(Value())).conn
    {
      mainBuffer, innerBuffer := None, None;
    }

    method Meet(k: nat) returns (r: Result)
      requires k < 5
      modifies this`meetBuffer, this`innerBuffer, this`incoming, this`iRemoteName, this`wire
      ensures var d := MeetStep(old(Value()), k);
        Value() == d.conn && r == d.result && wire == Sent(old(wire), d.sent)
    {
      r := Success;
      if k == 0 {
        meetBuffer := Some(Message.Meet(iLocalName));
      } else if k == 1 {
        XSend(meetBuffer);
      } else if k == 2 {
        innerBuffer, meetBuffer := None, None;
      } else if k == 3 {
        r := ReceivePacket();
      } else if innerBuffer.Some? && innerBuffer.value.Meet? {
        iRemoteName := innerBuffer.value.name;
      } else {
        r := Fail;
      }
    }
  }

  class OutgoingConnection {
    const s: Setting
    const base: WaitingConnection
    var mainCursor: nat     // connecting, meeting, waiting, dialog, ending
    var dialogCursor: nat
    var dialogMade: bool

    ghost predicate Valid()
      reads this, base
    {
      && mainCursor <= 5
      && (mainCursor < 1 ==> base.meetCursor == 0) && (mainCursor == 1 ==> base.meetCursor < 5) && (mainCursor > 1 ==> base.meetCursor == 5)
      && (mainCursor < 3 ==> dialogCursor == 0) && (mainCursor == 3 ==> dialogCursor < 7) && (mainCursor > 3 ==> dialogCursor == 7)
      && (dialogMade <==> mainCursor > 2)
    }

    ghost function At(): (k: nat)
      requires Valid()
      reads this, base
      ensures k <= OUT_STEPS
    {
      if mainCursor == 0 then 0 else if mainCursor == 1 then 1 + base.meetCursor else if mainCursor == 2 then 6
      else if mainCursor == 3 then 7 + dialogCursor else if mainCursor == 4 then 14 else 15
    }

    constructor (s: Setting)
      ensures Valid() && this.s == s && fresh(base) && At() == 0 && base.Value() == NewConn(s.outName) && base.wire == []
    {
      this.s := s;
      base := new WaitingConnection(s.outName);
      mainCursor, dialogCursor, dialogMade := 0, 0, false;
    }

    /** iMeetingLine.go(). */
    method InnerMeeting() returns (r: Result)
      requires Valid() && mainCursor == 1
      modifies base
      ensures base.meetCursor <= 5 && (r.Success? <==> base.meetCursor == 5)
      ensures r.Success? ==>
        RunOut(s, old(base.Value()), old(At()), old(base.wire)) == RunOut(s, base.Value(), 6, base.wire)
      ensures !r.Success? ==> Valid()
      ensures !r.Success? ==>
        RunOut(s, old(base.Value()), old(At()), old(base.wire)) == Ran(base.Value(), At(), base.wire, r)
    {
      ghost var whole := RunOut(s, base.Value(), At(), base.wire);
      while base.meetCursor < 5
        invariant base.meetCursor <= 5
        invariant whole == RunOut(s, base.Value(), 1 + base.meetCursor, base.wire)
        decreases 5 - base.meetCursor
      {
        r := base.Meet(base.meetCursor);
        if !r.Success? {
          return;
        }
        base.meetCursor := base.meetCursor + 1;
      }
      r := Success;
    }

    method DialogStep(k: nat) returns (r: Result)
      requires k < 7
      modifies base
      ensures var d := OutDialogStep(s, old(base.Value()), k);
        base.Value() == d.conn && r == d.result && base.wire == Sent(old(base.wire), d.sent)
      ensures base.meetCursor == old(base.meetCursor)
    {
      r := Success;
      if k == 0 || k == 4 {
        base.DialogClear();
      } else if k == 1 || k == 5 {
        r := base.ReceivePacket();
      } else if k == 2 {
        r := ProcessSignal();
      } else if k == 3 {
        r := base.SendPacket();
      } else if base.innerBuffer.Some? && base.innerBuffer.value.Main? {
        base.units := base.innerBuffer.value.items;
      } else {
        r := Fail;
      }
    }

    method ProcessSignal() returns (r: Result)
      modifies base`units, base`iState, base`mainBuffer
      ensures Did(base.Value(), None, r) == OutDialogStep(s, old(base.Value()), 2)
    {
      if !(base.innerBuffer.Some? && base.innerBuffer.value.Main?) {
        return Fail;
      }
      base.units := base.innerBuffer.value.items;
      var innerSignal := s.outLocal;
      innerSignal := innerSignal + base.iLocalName;
      innerSignal := s.hash(innerSignal);
      if base.units.signal == innerSignal {
        base.iState := ACCEPT;
      } else {
        base.iState := REJECT;
        return Fail;
      }
      base.units := OutItems(s, base.units.signal);
      base.mainBuffer := Some(Main(base.units));
      r := Success;
    }

    /** iDialogLine.go(). */
    method Dialog() returns (r: Result)
      requires Valid() && mainCursor == 3
      modifies base, this`dialogCursor
      ensures dialogCursor <= 7 && (r.Success? <==> dialogCursor == 7) && base.meetCursor == old(base.meetCursor)
      ensures r.Success? ==>
        RunOut(s, old(base.Value()), old(At()), old(base.wire)) == RunOut(s, base.Value(), 14, base.wire)
      ensures !r.Success? ==> Valid()
      ensures !r.Success? ==>
        RunOut(s, old(base.Value()), old(At()), old(base.wire)) == Ran(base.Value(), At(), base.wire, r)
    {
      ghost var whole := RunOut(s, base.Value(), At(), base.wire);
      while dialogCursor < 7
        invariant dialogCursor <= 7 && base.meetCursor == 5
        invariant whole == RunOut(s, base.Value(), 7 + dialogCursor, base.wire)
        decreases 7 - dialogCursor
      {
        hide OutDialogStep;
        r := DialogStep(dialogCursor);
        if !r.Success? {
          return;
        }
        dialogCursor := dialogCursor + 1;
      }
      r := Success;
    }

    /** The step of the outer line under its cursor. */
    method MainStep() returns (r: Result)
      requires Valid() && mainCursor < 5
      modifies this`dialogCursor, this`dialogMade, base
      ensures r.Success? ==>
        && (mainCursor > 0 ==> base.meetCursor == 5) && (mainCursor == 0 ==> base.meetCursor == 0)
        && dialogCursor == (if mainCursor >= 3 then 7 else 0) && (dialogMade <==> mainCursor >= 2)
        && RunOut(s, old(base.Value()), old(At()), old(base.wire)) ==
             (var next := if mainCursor == 0 then 1 else if mainCursor == 1 then 6 else if mainCursor == 2 then 7
                          else if mainCursor == 3 then 14 else 15;
              if next == OUT_STEPS then Ran(base.Value(), next, base.wire, Success)
              else RunOut(s, base.Value(), next, base.wire))
      ensures !r.Success? ==> Valid()
      ensures !r.Success? ==>
        RunOut(s, old(base.Value()), old(At()), old(base.wire)) == Ran(base.Value(), At(), base.wire, r)
    {
      hide MeetStep, OutDialogStep;
      r := Success;
      if mainCursor == 1 {
        r := InnerMeeting();
      } else if mainCursor == 2 {
        if base.incoming != [] {
          dialogMade := true;
        } else {
          r := Repeat;
        }
      } else if mainCursor == 3 {
        r := Dialog();
      }
    }

    /** iActionLine.go(): the outer line over the nested ones is the flat line. */
    method Process() returns (r: Result)
      requires Valid()
      modifies this`mainCursor, this`dialogCursor, this`dialogMade, base
      ensures Valid()
      ensures Ran(base.Value(), At(), base.wire, r) == RunOut(s, old(base.Value()), old(At()), old(base.wire))
      ensures old(At()) == OUT_STEPS ==> r.Fail? && unchanged(this) && unchanged(base)
    {
      if mainCursor == 5 {
        return Fail;
      }
      ghost var whole := RunOut(s, base.Value(), At(), base.wire);
      while mainCursor < 5
        invariant Valid()
        invariant mainCursor < 5 ==> whole == RunOut(s, base.Value(), At(), base.wire)
        invariant mainCursor == 5 ==> whole == Ran(base.Value(), At(), base.wire, Success)
        decreases 5 - mainCursor
      {
        hide RunOut;
        r := MainStep();
        if !r.Success? {
          return;
        }
        mainCursor := mainCursor + 1;
      }
      r := Success;
    }
  }

  class IncomingConnection {
    const s: Setting
    const base: WaitingConnection
    var mainCursor: nat     // meeting, waiting, dialog, ending
    var dialogCursor: nat
    var dialogMade: bool

    ghost predicate Valid()
      reads this, base
    {
      && mainCursor <= 4
      && (mainCursor == 0 ==> base.meetCursor < 5) && (mainCursor > 0 ==> base.meetCursor == 5)
      && (mainCursor < 2 ==> dialogCursor == 0) && (mainCursor == 2 ==> dialogCursor < 6) && (mainCursor > 2 ==> dialogCursor == 6)
      && (mainCursor < 2 ==> !dialogMade) && (mainCursor >= 2 ==> (dialogMade <==> base.iState == ACCEPT) && base.iState != WAIT)
    }

    ghost function At(): (k: nat)
      requires Valid()
      reads this, base
      ensures k <= IN_STEPS
    {
      if mainCursor == 0 then base.meetCursor else if mainCursor == 1 then 5
      else if mainCursor == 2 then 6 + dialogCursor else if mainCursor == 3 then 12 else 13
    }

    constructor (s: Setting)
      ensures Valid() && this.s == s && fresh(base) && At() == 0 && base.Value() == NewConn(s.inName) && base.wire == []
    {
      this.s := s;
      base := new WaitingConnection(s.inName);
      mainCursor, dialogCursor, dialogMade := 0, 0, false;
    }

    method Accept()
      requires Valid()
      modifies base`iState
      ensures Valid() && base.Value() == Accepted(old(base.Value()))
      ensures base.iState == if old(base.iState) == WAIT then ACCEPT else old(base.iState)
    {
      if base.iState == WAIT {
        base.iState := ACCEPT;
      }
    }

    method Reject()
      requires Valid()
      modifies base`iState
      ensures Valid() && base.Value() == Rejected(old(base.Value()))
      ensures base.iState == if old(base.iState) == WAIT then REJECT else old(base.iState)
    {
      if base.iState == WAIT {
        base.iState := REJECT;
      }
    }

    /** iMeetingLine.go(). */
    method InnerMeeting() returns (r: Result)
      requires Valid() && mainCursor == 0
      modifies base
      ensures base.meetCursor <= 5 && (r.Success? <==> base.meetCursor == 5) && base.iState == old(base.iState)
      ensures r.Success? ==>
        RunIn(s, old(base.Value()), old(At()), old(base.wire)) == RunIn(s, base.Value(), 5, base.wire)
      ensures !r.Success? ==> Valid()
      ensures !r.Success? ==>
        RunIn(s, old(base.Value()), old(At()), old(base.wire)) == Ran(base.Value(), At(), base.wire, r)
    {
      ghost var whole := RunIn(s, base.Value(), At(), base.wire);
      while base.meetCursor < 5
        invariant base.meetCursor <= 5 && base.iState == old(base.iState)
        invariant whole == RunIn(s, base.Value(), base.meetCursor, base.wire)
        decreases 5 - base.meetCursor
      {
        r := base.Meet(base.meetCursor);
        if !r.Success? {
          return;
        }
        base.meetCursor := base.meetCursor + 1;
      }
      r := Success;
    }

    method DialogStep(k: nat) returns (r: Result)
      requires k < 6
      modifies base
      ensures var d := InDialogStep(s, old(base.Value()), k);
        base.Value() == d.conn && r == d.result && base.wire == Sent(old(base.wire), d.sent)
      ensures base.meetCursor == old(base.meetCursor) && base.iState == old(base.iState)
    {
      r := Success;
      if k == 0 {
        MakeSignal();
      } else if k == 1 || k == 5 {
        r := base.SendPacket();
      } else if k == 2 {
        if base.iState == REJECT {
          return Fail;
        }
        base.DialogClear();
      } else if k == 3 {
        r := base.ReceivePacket();
      } else {
        r := MakeAnswer();
      }
    }

    method MakeSignal()
      modifies base`units, base`mainBuffer
      ensures Did(base.Value(), None, Success) == InDialogStep(s, old(base.Value()), 0)
    {
      var signal: Name := "";
      if base.iState == ACCEPT {
        signal := signal + s.inPeer;
        signal := signal + base.iRemoteName;
        assert signal == s.inPeer + base.iRemoteName;
        signal := s.hash(signal);
      } else if base.iState == REJECT {
        signal := "reject";
      }
      base.units := base.units.(signal := signal);
      base.mainBuffer := Some(Main(base.units));
    }

    method MakeAnswer() returns (r: Result)
      modifies base`units, base`mainBuffer
      ensures Did(base.Value(), None, r) == InDialogStep(s, old(base.Value()), 4)
    {
      if !(base.innerBuffer.Some? && base.innerBuffer.value.Main?) {
        return Fail;
      }
      base.units := InItems(s, base.innerBuffer.value.items.signal);
      base.mainBuffer := Some(Main(base.units));
      r := Success;
    }

    /** iDialogLine.go(): a rejected connection has no dialog line, so this fails. */
    method Dialog() returns (r: Result)
      requires Valid() && mainCursor == 2
      modifies base, this`dialogCursor
      ensures dialogCursor <= 6 && (r.Success? <==> dialogCursor == 6)
      ensures base.meetCursor == old(base.meetCursor) && base.iState == old(base.iState)
      ensures r.Success? ==>
        RunIn(s, old(base.Value()), old(At()), old(base.wire)) == RunIn(s, base.Value(), 12, base.wire)
      ensures !r.Success? ==> Valid()
      ensures !r.Success? ==>
        RunIn(s, old(base.Value()), old(At()), old(base.wire)) == Ran(base.Value(), At(), base.wire, r)
    {
      if !dialogMade {
        return Fail;
      }
      ghost var whole := RunIn(s, base.Value(), At(), base.wire);
      while dialogCursor < 6
        invariant dialogCursor <= 6 && base.meetCursor == 5 && base.iState == ACCEPT
        invariant whole == RunIn(s, base.Value(), 6 + dialogCursor, base.wire)
        decreases 6 - dialogCursor
      {
        hide InDialogStep;
        r := DialogStep(dialogCursor);
        if !r.Success? {
          return;
        }
        dialogCursor := dialogCursor + 1;
      }
      r := Success;
    }

    method MainStep() returns (r: Result)
      requires Valid() && mainCursor < 4
      modifies this`dialogCursor, this`dialogMade, base
      ensures base.iState == old(base.iState)
      ensures r.Success? ==>
        && base.meetCursor == 5 && dialogCursor == (if mainCursor >= 2 then 6 else 0)
        && (mainCursor >= 1 ==> base.iState != WAIT) && (dialogMade <==> mainCursor >= 1 && base.iState == ACCEPT)
        && RunIn(s, old(base.Value()), old(At()), old(base.wire)) ==
             (var next := if mainCursor == 0 then 5 else if mainCursor == 1 then 6 else if mainCursor == 2 then 12 else 13;
              if next == IN_STEPS then Ran(base.Value(), next, base.wire, Success)
              else RunIn(s, base.Value(), next, base.wire))
      ensures !r.Success? ==> Valid()
      ensures !r.Success? ==>
        RunIn(s, old(base.Value()), old(At()), old(base.wire)) == Ran(base.Value(), At(), base.wire, r)
    {
      hide MeetStep, InDialogStep;
      r := Success;
      if mainCursor == 0 {
        r := InnerMeeting();
      } else if mainCursor == 1 {
        match base.iState
        case WAIT => r := Repeat;
        case ACCEPT => dialogMade := true;
        case REJECT =>
      } else if mainCursor == 2 {
        r := Dialog();
      }
    }

    /** iActionLine.go(): the outer line over the nested ones is the flat line. */
    method Process() returns (r: Result)
      requires Valid()
      modifies this`mainCursor, this`dialogCursor, this`dialogMade, base
      ensures Valid()
      ensures Ran(base.Value(), At(), base.wire, r) == RunIn(s, old(base.Value()), old(At()), old(base.wire))
      ensures old(At()) == IN_STEPS ==> r.Fail? && unchanged(this) && unchanged(base)
    {
      if mainCursor == 4 {
        return Fail;
      }
      ghost var whole := RunIn(s, base.Value(), At(), base.wire);
      while mainCursor < 4
        invariant Valid()
        invariant mainCursor < 4 ==> whole == RunIn(s, base.Value(), At(), base.wire)
        invariant mainCursor == 4 ==> whole == Ran(base.Value(), At(), base.wire, Success)
        decreases 4 - mainCursor
      {
        hide RunIn;
        r := MainStep();
        if !r.Success? {
          return;
        }
        mainCursor := mainCursor + 1;
      }
      r := Success;
    }
  }
}
