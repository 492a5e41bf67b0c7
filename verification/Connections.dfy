/** The steps of the two waiting connections, on values: what each does to its side and what it answers. */
module Connections {
  import opened Types

  type Name = seq<char>

  /** The main content's units; its flags unit is never written. An empty name is an empty unit. */
  datatype Items = Items(signal: Name, session: Name, shadow: Name, avatar: Name)

  /** The two kinds of packet of the handshake: two units or five, told apart by their number. */
  datatype Message = Meet(name: Name) | Main(items: Items)

  datatype ConnectionState = WAIT | ACCEPT | REJECT

  /** The hash tool, uninterpreted, and the names both sides get from their connectors and users. */
  datatype Setting = Setting(hash: Name -> Name,
                             outLocal: Name,   // the outgoing side's own address, as its connector tells it
                             inPeer: Name,     // the outgoing side's address, as the incoming connector tells it
                             outAvatar: Name,  // what each side tells the other about its address
                             inAvatar: Name,
                             outName: Name, inName: Name)

  const NO_ITEMS := Items("", "", "", "")

  /** A waiting connection. `meeting` and `main` are the parsed buffers of its two contents, `units` the
      main content's items, `inner` the packet in the connector's buffer, `inbox` what can be received. */
  datatype Conn = Conn(localName: Name, remoteName: Name, state: ConnectionState,
                       meeting: Option<Message>, units: Items, main: Option<Message>,
                       inner: Option<Message>, inbox: seq<Message>)

  function NewConn(name: Name): Conn {
    Conn(name, [], WAIT, None, NO_ITEMS, None, None, [])
  }

  /** What a step leaves, the packet it put on the wire, and its answer. */
  datatype Did = Did(conn: Conn, sent: Option<Message>, result: Result)

  // ----- steps both sides share

  function Receive(c: Conn): Did {
    if c.inbox == [] then Did(c, None, Repeat)
    else Did(c.(inner := Some(c.inbox[0]), inbox := c.inbox[1..]), None, Success)
  }

  /** The meeting line: presend, send, prereceive, receive, ending. */
  function MeetStep(c: Conn, k: nat): Did
    requires k < 5
  {
    if k == 0 then Did(c.(meeting := Some(Meet(c.localName))), None, Success)
    else if k == 1 then Did(c, c.meeting, Success)
    else if k == 2 then Did(c.(meeting := None, inner := None), None, Success)
    else if k == 3 then Receive(c)
    else if c.inner.Some? && c.inner.value.Meet? then Did(c.(remoteName := c.inner.value.name), None, Success)
    else Did(c, None, Fail)
  }

  function SendMain(c: Conn): Did {
    Did(c, c.main, Success)
  }

  function ClearMain(c: Conn): Did {
    Did(c.(main := None, inner := None), None, Success)
  }

  /** `deparseBuffer` of the main content: it takes only the five-item kind. */
  function LoadsMain(c: Conn): bool {
    c.inner.Some? && c.inner.value.Main?
  }

  function OutItems(s: Setting, signal: Name): Items {
    Items(signal, "xxx outgoing session key xxx", "xxx outgoing shadowkey xxx", s.outAvatar)
  }

  function InItems(s: Setting, signal: Name): Items {
    Items(signal, "incoming session key", "incoming shadow key", s.inAvatar)
  }

  // ----- the outgoing side

  const OUT_STEPS := 15

  /** clear, receive, process_signal, send, clear, receive, end. */
  function OutDialogStep(s: Setting, c: Conn, k: nat): Did
    requires k < 7
  {
    if k == 0 || k == 4 then ClearMain(c)
    else if k == 1 || k == 5 then Receive(c)
    else if k == 2 then
      if !LoadsMain(c) then Did(c, None, Fail) else
      var d := c.(units := c.inner.value.items);
      if d.units.signal == s.hash(s.outLocal + d.localName) then
        var u := OutItems(s, d.units.signal);
        Did(d.(state := ACCEPT, units := u, main := Some(Main(u))), None, Success)
      else
        Did(d.(state := REJECT), None, Fail)
    else if k == 3 then SendMain(c)
    else if LoadsMain(c) then Did(c.(units := c.inner.value.items), None, Success)
    else Did(c, None, Fail)
  }

  /** The flat line: connecting, the meeting, waiting, the dialog, ending. */
  function OutStep(s: Setting, c: Conn, k: nat): Did
    requires k < OUT_STEPS
  {
    if k == 0 then Did(c, None, Success)
    else if k < 6 then MeetStep(c, k - 1)
    else if k == 6 then Did(c, None, if c.inbox == [] then Repeat else Success)
    else if k < 14 then OutDialogStep(s, c, k - 7)
    else Did(c, None, Success)
  }

  // ----- the incoming side

  const IN_STEPS := 13

  /** make_signal, send, clear, receive, make_answer, send. */
  function InDialogStep(s: Setting, c: Conn, k: nat): Did
    requires k < 6
  {
    if k == 0 then
      var signal := if c.state == ACCEPT then s.hash(s.inPeer + c.remoteName) else if c.state == REJECT then "reject" else "";
      var u := c.units.(signal := signal);
      Did(c.(units := u, main := Some(Main(u))), None, Success)
    else if k == 1 || k == 5 then SendMain(c)
    else if k == 2 then (if c.state == REJECT then Did(c, None, Fail) else ClearMain(c))
    else if k == 3 then Receive(c)
    else if !LoadsMain(c) then Did(c, None, Fail)
    else
      var u := InItems(s, c.inner.value.items.signal);
      Did(c.(units := u, main := Some(Main(u))), None, Success)
  }

  /** The flat line: the meeting, waiting for the user's decision, the dialog, ending. A rejected
      connection never makes its dialog line, so the dialog fails at once. */
  function InStep(s: Setting, c: Conn, k: nat): Did
    requires k < IN_STEPS
  {
    if k < 5 then MeetStep(c, k)
    else if k == 5 then Did(c, None, if c.state == WAIT then Repeat else Success)
    else if k < 12 then (if c.state == REJECT then Did(c, None, Fail) else InDialogStep(s, c, k - 6))
    else Did(c, None, Success)
  }

  function Accepted(c: Conn): Conn {
    if c.state == WAIT then c.(state := ACCEPT) else c
  }

  function Rejected(c: Conn): Conn {
    if c.state == WAIT then c.(state := REJECT) else c
  }
}
