// How a byte stream is cut back into packets: the loop of netProc_Recv as a
// function of all bytes received so far.
module Framing {
  import opened Bytes
  import opened Ciphers
  import opened Messages
  import opened Wrappers

  // Waiting: more bytes are needed. The others end the connection.
  datatype Status = Waiting | BadCode | BadCheckSum | Refused

  datatype Received = Received(payloads: seq<seq<Byte>>, rest: seq<Byte>, status: Status) {
    function After(p: seq<Byte>): Received {
      Prepend([p])
    }

    function Prepend(earlier: seq<seq<Byte>>): Received {
      this.(payloads := earlier + payloads)
    }
  }

  // The next packet is complete.
  predicate Complete(s: seq<Byte>)
    ensures Complete(s) ==> |s| >= HEADER_SIZE
  {
    |s| >= HEADER_SIZE && |s| >= HEADER_SIZE + WordAt(s, 1)
  }

  function FrameLength(s: seq<Byte>): (n: nat)
    requires Complete(s)
    ensures HEADER_SIZE <= n <= |s|
  {
    HEADER_SIZE + WordAt(s, 1)
  }

  // The payload of the first packet, decoded.
  function FirstPayload(s: seq<Byte>, fixedKey: Byte): (p: seq<Byte>)
    requires Complete(s)
  {
    Unwire(s[..FrameLength(s)], fixedKey)[HEADER_SIZE..]
  }

  // Its decoded checksum byte is right.
  predicate FirstIntact(s: seq<Byte>, fixedKey: Byte)
    requires Complete(s)
  {
    Unwire(s[..FrameLength(s)], fixedKey)[4] == CheckSum(FirstPayload(s, fixedKey))
  }

  // `accept` is the dispatcher's answer for a payload.
  function Parse(s: seq<Byte>, fixedKey: Byte, accept: seq<Byte> -> bool): (r: Received)
    decreases |s|
  {
    if |s| < HEADER_SIZE then Received([], s, Waiting)
    else if s[0] != PROTOCOL_CODE then Received([], s, BadCode)
    else if !Complete(s) then Received([], s, Waiting)
    else
      var n, payload := FrameLength(s), FirstPayload(s, fixedKey);
      if !FirstIntact(s, fixedKey) then Received([], s[n..], BadCheckSum)
      else if !accept(payload) then Received([payload], s[n..], Refused)
      else Parse(s[n..], fixedKey, accept).After(payload)
  }

  // Bytes that arrive after a verdict change nothing; bytes that arrive while
  // waiting are parsed together with what was left over.
  function Resume(r: Received, more: seq<Byte>, fixedKey: Byte, accept: seq<Byte> -> bool): Received {
    if r.status != Waiting then r.(rest := r.rest + more)
    else Parse(r.rest + more, fixedKey, accept).Prepend(r.payloads)
  }

  // Parsing a prefix first and going on later gives the same packets as parsing
  // everything at once.
  lemma {:induction false} ParseResumes(a: seq<Byte>, b: seq<Byte>, fixedKey: Byte, accept: seq<Byte> -> bool)
    ensures Parse(a + b, fixedKey, accept) == Resume(Parse(a, fixedKey, accept), b, fixedKey, accept)
    decreases |a|
  {
    if Complete(a) && a[0] == PROTOCOL_CODE {
      FirstPacketStays(a, b, fixedKey);
      if FirstIntact(a, fixedKey) && accept(FirstPayload(a, fixedKey)) {
        var rest := a[FrameLength(a)..];
        ParseResumes(rest, b, fixedKey, accept);
        AfterResume(Parse(rest, fixedKey, accept), FirstPayload(a, fixedKey), b, fixedKey, accept);
      }
    } else if |a| >= HEADER_SIZE {
      assert (a + b)[0] == a[0];
    }
  }

  // More bytes behind a complete packet do not change it.
  lemma FirstPacketStays(a: seq<Byte>, b: seq<Byte>, fixedKey: Byte)
    requires Complete(a)
    ensures Complete(a + b) && FrameLength(a + b) == FrameLength(a) && (a + b)[0] == a[0]
    ensures FirstPayload(a + b, fixedKey) == FirstPayload(a, fixedKey)
    ensures FirstIntact(a + b, fixedKey) == FirstIntact(a, fixedKey)
    ensures (a + b)[FrameLength(a)..] == a[FrameLength(a)..] + b
  {
    assert (a + b)[..FrameLength(a)] == a[..FrameLength(a)];
  }

  lemma AfterResume(r: Received, p: seq<Byte>, more: seq<Byte>, fixedKey: Byte, accept: seq<Byte> -> bool)
    ensures Resume(r.After(p), more, fixedKey, accept) == Resume(r, more, fixedKey, accept).After(p)
  {
    PrependTwice(Parse(r.rest + more, fixedKey, accept), [p], r.payloads);
  }

  lemma PrependTwice(r: Received, first: seq<seq<Byte>>, second: seq<seq<Byte>>)
    ensures r.Prepend(second).Prepend(first) == r.Prepend(first + second)
  {
    assert first + (second + r.payloads) == (first + second) + r.payloads;
  }

  // The stream cut into the pieces in which recv happens to deliver it.
  function ParsePieces(pieces: seq<seq<Byte>>, start: Received, fixedKey: Byte, accept: seq<Byte> -> bool): Received {
    if pieces == [] then start
    else ParsePieces(pieces[1..], Resume(start, pieces[0], fixedKey, accept), fixedKey, accept)
  }

  function Concat(pieces: seq<seq<Byte>>): seq<Byte> {
    if pieces == [] then [] else pieces[0] + Concat(pieces[1..])
  }

  // How TCP cuts the stream does not matter.
  lemma {:induction false} PiecesDoNotMatter(pieces: seq<seq<Byte>>, before: seq<Byte>, fixedKey: Byte,
                                             accept: seq<Byte> -> bool)
    ensures ParsePieces(pieces, Parse(before, fixedKey, accept), fixedKey, accept)
         == Parse(before + Concat(pieces), fixedKey, accept)
    decreases |pieces|
  {
    if pieces == [] {
      assert before + Concat(pieces) == before;
    } else {
      ParseResumes(before, pieces[0], fixedKey, accept);
      PiecesDoNotMatter(pieces[1..], before + pieces[0], fixedKey, accept);
      AppendConcat(before, pieces);
      OnePiece(pieces, Parse(before, fixedKey, accept), fixedKey, accept);
    }
  }

  lemma AppendConcat(before: seq<Byte>, pieces: seq<seq<Byte>>)
    requires pieces != []
    ensures before + Concat(pieces) == (before + pieces[0]) + Concat(pieces[1..])
  {
  }

  lemma OnePiece(pieces: seq<seq<Byte>>, start: Received, fixedKey: Byte, accept: seq<Byte> -> bool)
    requires pieces != []
    ensures ParsePieces(pieces, start, fixedKey, accept)
         == ParsePieces(pieces[1..], Resume(start, pieces[0], fixedKey, accept), fixedKey, accept)
  {
  }

  // ---- which packets are delivered ------------------------------------------------------

  // A packet whose random key and check byte may be any, before it is encoded.
  function Frame(payload: seq<Byte>, randomKey: Byte, check: Byte): (f: seq<Byte>)
    requires |payload| < 0x1_0000
    ensures |f| == |payload| + 5
  {
    [0x89, |payload| % 0x100, |payload| / 0x100, randomKey, check] + payload
  }

  // It is delivered exactly if its check byte is the sum of its payload, modulo
  // 256; then the dispatcher's answer decides whether parsing goes on. Otherwise
  // exactly this packet is gone.
  lemma FrameJudged(payload: seq<Byte>, randomKey: Byte, check: Byte, more: seq<Byte>, fixedKey: Byte,
                    accept: seq<Byte> -> bool)
    requires |payload| < 0x1_0000
    ensures var r := Parse(Wire(Frame(payload, randomKey, check), fixedKey) + more, fixedKey, accept);
            var later := Parse(more, fixedKey, accept);
            if check != Total(payload) % 0x100 then r == Received([], more, BadCheckSum)
            else if accept(payload) then r == Received([payload] + later.payloads, later.rest, later.status)
            else r == Received([payload], more, Refused)
  {
    FrameOnWire(payload, randomKey, check, more, fixedKey);
    CheckSumIsTotal(payload);
  }

  lemma FrameOnWire(payload: seq<Byte>, randomKey: Byte, check: Byte, more: seq<Byte>, fixedKey: Byte)
    requires |payload| < 0x1_0000
    ensures var s := Wire(Frame(payload, randomKey, check), fixedKey) + more;
            && Complete(s) && s[0] == 0x89 && FrameLength(s) == |payload| + 5 && s[FrameLength(s)..] == more
            && FirstPayload(s, fixedKey) == payload && (FirstIntact(s, fixedKey) <==> check == CheckSum(payload))
  {
    var f := Frame(payload, randomKey, check);
    var s := Wire(f, fixedKey) + more;
    UnwireWire(f, fixedKey);
    assert s[..|f|] == Wire(f, fixedKey);
    assert f[HEADER_SIZE..] == payload;
  }

  // Every stream: it is too short for a header or for the packet announced and
  // waits, or has a wrong first byte and is refused, or starts with a packet of
  // that kind.
  lemma EveryStreamJudged(s: seq<Byte>, fixedKey: Byte, accept: seq<Byte> -> bool)
    ensures |s| < 5 ==> Parse(s, fixedKey, accept) == Received([], s, Waiting)
    ensures |s| >= 5 && s[0] != 0x89 ==> Parse(s, fixedKey, accept) == Received([], s, BadCode)
    ensures |s| >= 5 && s[0] == 0x89 && |s| < 5 + Announced(s) ==>
              Parse(s, fixedKey, accept) == Received([], s, Waiting)
    ensures |s| >= 5 && s[0] == 0x89 && |s| >= 5 + Announced(s) ==> StartsWithFrame(s, fixedKey)
  {
    if |s| >= 5 && s[0] == 0x89 && |s| >= 5 + Announced(s) {
      FrameFound(s, fixedKey);
    }
  }

  // The second and third byte as a number.
  function Announced(s: seq<Byte>): nat
    requires |s| >= 5
  {
    var low: nat, high: nat := s[1], s[2];
    low + 0x100 * high
  }

  ghost predicate StartsWithFrame(s: seq<Byte>, fixedKey: Byte) {
    exists payload: seq<Byte>, randomKey, check, more ::
      |payload| < 0x1_0000 && s == Wire(Frame(payload, randomKey, check), fixedKey) + more
  }

  lemma FrameFound(s: seq<Byte>, fixedKey: Byte)
    requires |s| >= 5 && s[0] == 0x89 && |s| >= 5 + Announced(s)
    ensures StartsWithFrame(s, fixedKey)
  {
    var n := 5 + Announced(s);
    var w, more := s[..n], s[n..];
    var plain := Unwire(w, fixedKey);
    EncodeDecode(w[4..], fixedKey, w[3], 0, 0, 1);
    assert plain[4..] == Decoded(w[4..], fixedKey, w[3]) && plain[..4] == w[..4];
    assert Wire(plain, fixedKey) == w;
    assert plain == Frame(plain[5..], plain[3], plain[4]);
    assert s == w + more;
  }

  // A built packet one of whose payload bytes is changed before it is encoded
  // is not delivered.
  lemma ChangedByteIsRefused(m: Message, i: nat, x: Byte, more: seq<Byte>, fixedKey: Byte, accept: seq<Byte> -> bool)
    requires m.Valid() && i < |Payload(m)| && x != Payload(m)[i]
    ensures Parse(Wire(Packet(m)[5 + i := x], fixedKey) + more, fixedKey, accept) == Received([], more, BadCheckSum)
  {
    var p := Payload(m);
    assert Packet(m)[5 + i := x] == Frame(p[i := x], RANDOM_KEY, CheckSum(p));
    FrameJudged(p[i := x], RANDOM_KEY, CheckSum(p), more, fixedKey, accept);
    CheckSumSeesOneChange(p, i, x);
    CheckSumIsTotal(p[i := x]);
  }

  // ---- senders and receiver agree ----------------------------------------------------

  function WireAll(ms: seq<Message>, fixedKey: Byte): (s: seq<Byte>)
    requires forall m :: m in ms ==> m.Valid()
  {
    if ms == [] then [] else Wire(Packet(ms[0]), fixedKey) + WireAll(ms[1..], fixedKey)
  }

  function PayloadAll(ms: seq<Message>): (s: seq<seq<Byte>>)
    requires forall m :: m in ms ==> m.Valid()
    ensures |s| == |ms|
  {
    if ms == [] then [] else [Payload(ms[0])] + PayloadAll(ms[1..])
  }

  // The header of a packet on the wire is readable as it is and says how long
  // the packet is.
  lemma HeaderOnWire(m: Message, fixedKey: Byte, tail: seq<Byte>)
    requires m.Valid()
    ensures var s := Wire(Packet(m), fixedKey) + tail;
            && Complete(s) && s[0] == PROTOCOL_CODE && FrameLength(s) == |Packet(m)|
            && s[..FrameLength(s)] == Wire(Packet(m), fixedKey) && s[FrameLength(s)..] == tail
  {
  }

  // Any sequence of built packets, encoded and sent one after another, is cut
  // back into exactly their payloads, whatever follows.
  lemma {:induction false} ParseWireAll(ms: seq<Message>, tail: seq<Byte>, fixedKey: Byte, accept: seq<Byte> -> bool)
    requires forall m :: m in ms ==> m.Valid() && accept(Payload(m))
    ensures Parse(WireAll(ms, fixedKey) + tail, fixedKey, accept)
         == Parse(tail, fixedKey, accept).Prepend(PayloadAll(ms))
    decreases |ms|
  {
    if ms == [] {
      assert WireAll(ms, fixedKey) + tail == tail;
      assert PayloadAll(ms) + Parse(tail, fixedKey, accept).payloads == Parse(tail, fixedKey, accept).payloads;
    } else {
      WireAllFirst(ms, tail, fixedKey);
      ParseOneWire(ms[0], WireAll(ms[1..], fixedKey) + tail, fixedKey, accept);
      ParseWireAll(ms[1..], tail, fixedKey, accept);
      PrependTwice(Parse(tail, fixedKey, accept), [Payload(ms[0])], PayloadAll(ms[1..]));
    }
  }

  lemma WireAllFirst(ms: seq<Message>, tail: seq<Byte>, fixedKey: Byte)
    requires ms != [] && forall m :: m in ms ==> m.Valid()
    ensures WireAll(ms, fixedKey) + tail == Wire(Packet(ms[0]), fixedKey) + (WireAll(ms[1..], fixedKey) + tail)
  {
  }

  lemma ParseOneWire(m: Message, later: seq<Byte>, fixedKey: Byte, accept: seq<Byte> -> bool)
    requires m.Valid() && accept(Payload(m))
    ensures Parse(Wire(Packet(m), fixedKey) + later, fixedKey, accept)
         == Parse(later, fixedKey, accept).After(Payload(m))
  {
    HeaderOnWire(m, fixedKey, later);
    UnwireWire(Packet(m), fixedKey);
    assert Packet(m)[HEADER_SIZE..] == Payload(m) && Packet(m)[4] == CheckSum(Payload(m));
  }

  function ParseAll(payloads: seq<seq<Byte>>): seq<Option<Message>> {
    if payloads == [] then [] else [ParsePayload(payloads[0])] + ParseAll(payloads[1..])
  }

  // End to end: the messages sent are the messages read, in order, however the
  // network cuts the stream.
  lemma {:induction false} MessagesSurviveTheWire(ms: seq<Message>, pieces: seq<seq<Byte>>, fixedKey: Byte)
    requires forall m :: m in ms ==> m.Valid()
    requires Concat(pieces) == WireAll(ms, fixedKey)
    ensures var r := ParsePieces(pieces, Received([], [], Waiting), fixedKey, payload => true);
            && r.status == Waiting && r.rest == [] && |ParseAll(r.payloads)| == |ms|
            && forall i :: 0 <= i < |ms| ==> ParseAll(r.payloads)[i] == Some(ms[i])
  {
    PiecesDoNotMatter(pieces, [], fixedKey, payload => true);
    WholeStream(ms, fixedKey, payload => true);
    assert [] + Concat(pieces) == WireAll(ms, fixedKey);
    ParseAllPayloads(ms);
  }

  lemma WholeStream(ms: seq<Message>, fixedKey: Byte, accept: seq<Byte> -> bool)
    requires forall m :: m in ms ==> m.Valid()
    requires forall payload :: accept(payload)
    ensures Parse(WireAll(ms, fixedKey), fixedKey, accept) == Received(PayloadAll(ms), [], Waiting)
  {
    ParseWireAll(ms, [], fixedKey, accept);
    assert WireAll(ms, fixedKey) + [] == WireAll(ms, fixedKey);
    assert PayloadAll(ms) + [] == PayloadAll(ms);
  }

  lemma {:induction false} ParseAllPayloads(ms: seq<Message>)
    requires forall m :: m in ms ==> m.Valid()
    ensures |ParseAll(PayloadAll(ms))| == |ms|
    ensures forall i :: 0 <= i < |ms| ==> ParseAll(PayloadAll(ms))[i] == Some(ms[i])
    decreases |ms|
  {
    if ms != [] {
      ParsePayloadInverts(ms[0]);
      ParseAllPayloads(ms[1..]);
      assert PayloadAll(ms)[1..] == PayloadAll(ms[1..]);
    }
  }
}
