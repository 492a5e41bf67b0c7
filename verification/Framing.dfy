/** Length-prefixed packets on a byte stream: building them, receiving them, stripping the header. */
module Framing {
  import opened Types
  import opened Wire

  /** A packet as `process` sees it: header fields and payload. */
  datatype RawPacket = RawPacket(ptype: int, transaction: int, payload: Bytes) {
    ghost predicate Ok() {
      && 0 <= ptype < 0x1_0000_0000 && 0 <= transaction < 0x1_0000_0000
      && |payload| + 8 < 0x8000_0000
    }
  }

  function Word(v: int): (b: Bytes)
    requires 0 <= v < 0x1_0000_0000
    ensures |b| == 4
  {
    Widths();
    Le(v, 4)
  }

  function FromWord(b: Bytes): (v: int)
    requires |b| == 4
    ensures 0 <= v < 0x1_0000_0000
  {
    Widths();
    FromLe(b)
  }

  lemma WordRound(v: int)
    requires 0 <= v < 0x1_0000_0000
    ensures FromWord(Word(v)) == v
  {
    Widths();
    LeRound(v, 4);
  }

  /** As a signed length the first word of a frame is the same number. */
  lemma WordIsInt(v: int)
    requires 0 <= v < 0x8000_0000
    ensures FromInt32(Word(v)) == v
  {
    Int32Round(v);
  }

  /** The body of a frame: everything behind its length. */
  function Body(p: RawPacket): (b: Bytes)
    requires p.Ok()
    ensures |b| == |p.payload| + 8
  {
    Word(p.ptype) + Word(p.transaction) + p.payload
  }

  function Frame(p: RawPacket): Bytes
    requires p.Ok()
  {
    Word(|Body(p)|) + Body(p)
  }

  ghost predicate AllOk(ps: seq<RawPacket>) {
    forall i :: 0 <= i < |ps| ==> ps[i].Ok()
  }

  /** The bytes a sequence of packets puts on the stream. */
  function Frames(ps: seq<RawPacket>): Bytes
    requires AllOk(ps)
  {
    if ps == [] then [] else Frame(ps[0]) + Frames(ps[1..])
  }

  /** `process`: takes the 8-byte header off. */
  function Strip(b: Bytes): Option<RawPacket> {
    if |b| < 8 then None else Some(RawPacket(FromWord(b[..4]), FromWord(b[4..8]), b[8..]))
  }

  lemma StripBody(p: RawPacket)
    requires p.Ok()
    ensures Strip(Body(p)) == Some(p)
  {
    var b := Body(p);
    assert b[..4] == Word(p.ptype) && b[4..8] == Word(p.transaction) && b[8..] == p.payload;
    WordRound(p.ptype);
    WordRound(p.transaction);
  }

  /** PacketProcessor::__makePacket. */
  method MakePacket(p: RawPacket) returns (b: Bytes)
    requires p.Ok()
    ensures b == Frame(p)
  {
    var size := |p.payload| + 12 - 4;
    b := Word(size) + Word(p.ptype) + Word(p.transaction);
    b := b + p.payload;
    FrameLayout(Word(size), Word(p.ptype), Word(p.transaction), p.payload);
  }

  lemma FrameLayout(a: Bytes, b: Bytes, c: Bytes, d: Bytes)
    ensures a + b + c + d == a + (b + c + d)
  {
  }

  /** A connector: the bytes that have arrived and not been read, and the receiving state. */
  class NodeConnector {
    var incoming: Bytes
    var innerBuffer: Bytes
    var iTb: int
    var iPacketSize: int

    constructor ()
      ensures incoming == [] && innerBuffer == [] && iPacketSize == 0
    {
      incoming, innerBuffer, iTb, iPacketSize := [], [], 0, 0;
    }

    /** The socket moves the whole requested length or, when it is not there, fails. */
    method Receive(n: int) returns (data: Bytes)
      modifies this`incoming, this`iTb
      ensures if 0 < n <= |old(incoming)| then
                iTb == n && data == old(incoming)[..n] && incoming == old(incoming)[n..]
              else iTb == 0 && data == [] && incoming == old(incoming)
    {
      if 0 < n <= |incoming| {
        data, iTb := incoming[..n], n;
        incoming := incoming[n..];
      } else {
        data, iTb := [], 0;
      }
    }

    /** x_receivePacket into the inner buffer, which is reserved upwards and keeps what lies behind. */
    method ReceivePacket() returns (r: Result)
      modifies this`incoming, this`iTb, this`iPacketSize, this`innerBuffer
      ensures old(iPacketSize) == 0 && |old(incoming)| < 4 ==> r.Fail? && incoming == old(incoming) && iPacketSize == 0
      ensures old(iPacketSize) == 0 && |old(incoming)| >= 4 ==>
        var n := FromInt32(old(incoming)[..4]);
        var rest := old(incoming)[4..];
        && (n == 0 ==> r.Success? && incoming == rest && iPacketSize == 0)
        && (0 < n <= |rest| ==>
              && r.Success? && incoming == rest[n..] && iPacketSize == 0 && iTb == n
              && |innerBuffer| >= n && innerBuffer[..n] == rest[..n])
        && (n < 0 || n > |rest| ==> r.Fail? && incoming == rest && iPacketSize == n)
      ensures old(iPacketSize) != 0 ==>
        var n := old(iPacketSize);
        if 0 < n <= |old(incoming)| then
          && r.Success? && incoming == old(incoming)[n..] && iPacketSize == 0 && iTb == n
          && |innerBuffer| >= n && innerBuffer[..n] == old(incoming)[..n]
        else r.Fail? && incoming == old(incoming) && iPacketSize == n
      ensures r.Fail? ==> innerBuffer == old(innerBuffer)
    {
      if iPacketSize == 0 {
        var head := Receive(4);
        if iTb < 1 {
          return Fail;
        }
        if iTb == 4 {
          iPacketSize := FromInt32(head);
        } else {
          return Repeat;
        }
      }
      if iPacketSize == 0 {
        return Success;
      }
      var data := Receive(iPacketSize);
      if iTb < 1 {
        return Fail;
      }
      innerBuffer := data + (if |data| < |innerBuffer| then innerBuffer[|data|..] else []);
      if iTb == iPacketSize {
        iPacketSize := 0;
        return Success;
      }
      return Repeat;
    }

    /** One packet off the stream: receive, copy the transported bytes, strip the header. */
    method Next() returns (r: Result, p: Option<RawPacket>)
      modifies this`incoming, this`iTb, this`iPacketSize, this`innerBuffer
      requires iPacketSize == 0
      ensures forall q: RawPacket, rest: Bytes :: q.Ok() && old(incoming) == Frame(q) + rest ==>
        r.Success? && p == Some(q) && incoming == rest && iPacketSize == 0
    {
      ghost var was := incoming;
      r := ReceivePacket();
      p := None;
      if r.Success? && 0 <= iTb <= |innerBuffer| {
        p := Strip(innerBuffer[..iTb]);
      }
      forall q: RawPacket, rest: Bytes | q.Ok() && was == Frame(q) + rest
        ensures r.Success? && p == Some(q) && incoming == rest && iPacketSize == 0
      {
        FrameHead(q, rest);
        StripBody(q);
      }
    }

    /** Receives as many packets as were sent: the same packets, in the same order, and the connector is
        idle again behind them. */
    method ReceiveAll(ghost sent: seq<RawPacket>, ghost rest: Bytes, n: nat) returns (got: seq<Option<RawPacket>>)
      requires AllOk(sent) && n == |sent| && incoming == Frames(sent) + rest && iPacketSize == 0
      modifies this`incoming, this`iTb, this`iPacketSize, this`innerBuffer
      ensures |got| == n && forall i :: 0 <= i < n ==> got[i] == Some(sent[i])
      ensures incoming == rest && iPacketSize == 0
    {
      got := [];
      for i := 0 to n
        invariant |got| == i && forall j :: 0 <= j < i ==> got[j] == Some(sent[j])
        invariant incoming == Frames(sent[i..]) + rest && iPacketSize == 0
      {
        NextFrame(sent, i, rest);
        hide Frame, Frames;
        var r, p := Next();
        got := got + [p];
      }
      assert sent[n..] == [] && Frames([]) + rest == rest;
    }
  }

  lemma NextFrame(sent: seq<RawPacket>, i: nat, rest: Bytes)
    requires AllOk(sent) && i < |sent|
    ensures sent[i].Ok() && AllOk(sent[i..]) && AllOk(sent[i + 1..])
    ensures Frames(sent[i..]) + rest == Frame(sent[i]) + (Frames(sent[i + 1..]) + rest)
  {
    var left := sent[i..];
    assert left[0] == sent[i] && left[1..] == sent[i + 1..];
    Assoc(Frame(sent[i]), Frames(sent[i + 1..]), rest);
  }

  /** The head of a stream that begins with a frame. */
  lemma FrameHead(q: RawPacket, rest: Bytes)
    requires q.Ok()
    ensures var s := Frame(q) + rest;
      && |s| >= 4 && FromInt32(s[..4]) == |Body(q)|
      && |Body(q)| <= |s[4..]| && s[4..][..|Body(q)|] == Body(q) && s[4..][|Body(q)|..] == rest
  {
    WordIsInt(|Body(q)|);
    hide Body, Word, FromInt32;
    Split(Word(|Body(q)|), Body(q), rest);
  }

  lemma WordBytes(v: int)
    requires 0 <= v < 0x1_0000_0000
    ensures WordAt(Word(v), 0) == v
  {
    WordRound(v);
    WordIsLe(Word(v), 0);
    assert Word(v)[0..4] == Word(v);
  }

  /** The bytes of a frame by offset: length of what follows, type, transaction, payload. */
  lemma FrameBytes(p: RawPacket)
    requires p.Ok()
    ensures var b := Frame(p);
      && |b| == 12 + |p.payload|
      && WordAt(b, 0) == 8 + |p.payload| && WordAt(b, 4) == p.ptype && WordAt(b, 8) == p.transaction
      && b[12..] == p.payload
    ensures var b := Body(p);
      WordAt(b, 0) == p.ptype && WordAt(b, 4) == p.transaction && b[8..] == p.payload
  {
    var size := |Body(p)|;
    WordBytes(size);
    WordBytes(p.ptype);
    WordBytes(p.transaction);
    var b, c := Frame(p), Body(p);
    var w0, w1, w2 := Word(size), Word(p.ptype), Word(p.transaction);
    hide Word;
    assert c[0..4] == w1 && c[4..8] == w2 && c[8..] == p.payload;
    assert b[0..4] == w0 && b[4..8] == w1 && b[8..12] == w2 && b[12..] == p.payload;
    Words3(b, w0, w1, w2);
    SameWord(c, 0, w1, 0);
    SameWord(c, 4, w2, 0);
  }

  lemma Words3(b: Bytes, w0: Bytes, w1: Bytes, w2: Bytes)
    requires |w0| == 4 && |w1| == 4 && |w2| == 4 && |b| >= 12
    requires b[0..4] == w0 && b[4..8] == w1 && b[8..12] == w2
    ensures WordAt(b, 0) == WordAt(w0, 0) && WordAt(b, 4) == WordAt(w1, 0) && WordAt(b, 8) == WordAt(w2, 0)
  {
    SameWord(b, 0, w0, 0);
    SameWord(b, 4, w1, 0);
    SameWord(b, 8, w2, 0);
  }

  /** Stripping reads the same offsets: any bytes of a header, not only those a frame was made of. */
  lemma StripBytes(b: Bytes)
    ensures Strip(b).Some? <==> |b| >= 8
    ensures |b| >= 8 ==> Strip(b).value == RawPacket(WordAt(b, 0), WordAt(b, 4), b[8..])
  {
    if |b| >= 8 {
      WordIsLe(b, 0);
      WordIsLe(b, 4);
      assert b[0..4] == b[..4];
    }
  }

  lemma Split(head: Bytes, body: Bytes, rest: Bytes)
    requires |head| == 4
    ensures var s := head + body + rest;
      s[..4] == head && |s[4..]| >= |body| && s[4..][..|body|] == body && s[4..][|body|..] == rest
  {
    var s := head + body + rest;
    assert s[4..] == body + rest;
  }

  /** Different sequences of packets never make the same stream. */
  lemma {:induction false} FramesUnique(ps: seq<RawPacket>, qs: seq<RawPacket>)
    requires AllOk(ps) && AllOk(qs) && Frames(ps) == Frames(qs)
    ensures ps == qs
    decreases |ps|
  {
    assert ps == [] <==> |Frames(ps)| == 0;
    assert qs == [] <==> |Frames(qs)| == 0;
    if ps != [] {
      FrameHead(ps[0], Frames(ps[1..]));
      FrameHead(qs[0], Frames(qs[1..]));
      StripBody(ps[0]);
      StripBody(qs[0]);
      FramesUnique(ps[1..], qs[1..]);
      assert ps == [ps[0]] + ps[1..] && qs == [qs[0]] + qs[1..];
    }
  }
}
