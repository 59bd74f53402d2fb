/** The DWIN serial protocol: the buffered, resynchronising decoder and the frame encoder.

  A packet is 5A A5 LEN CMD DATA, where LEN counts the bytes after itself.  A packet with LEN = 0 has no
  command byte; the decoder still reads the byte after the header.  When that byte is not buffered yet the
  read falls outside the buffer, so its value is a parameter (`stray`) of every decoding call. */
module DwinParser {
  import opened Basics

  const HEAD0: Byte := 0x5A
  const HEAD1: Byte := 0xA5
  const READ_VP: Byte := 0x83
  const WRITE_VP: Byte := 0x82

  datatype Kind = VpData | WriteAckOk | WriteAck | UnknownDwin | OtherKind(name: string)

  datatype Message = Message(source: string, kind: Kind, payload: seq<Byte>)

  datatype Decoding = Decoding(messages: seq<Message>, rest: seq<Byte>)

  // ---------------------------------------------------------------- decoding

  predicate HasHeader(buf: seq<Byte>) {
    |buf| >= 3 && buf[0] == HEAD0 && buf[1] == HEAD1
  }

  function PacketSize(buf: seq<Byte>): nat
    requires HasHeader(buf)
  {
    3 + buf[2] as int
  }

  predicate HasPacket(buf: seq<Byte>) {
    HasHeader(buf) && |buf| >= PacketSize(buf)
  }

  function CommandByte(buf: seq<Byte>, stray: Byte): Byte {
    if |buf| > 3 then buf[3] else stray
  }

  /** The message for one complete packet whose command byte was read as `cmd`. */
  function Interpret(source: string, packet: seq<Byte>, cmd: Byte): Message
    requires HasPacket(packet) && |packet| == PacketSize(packet)
  {
    var body := if |packet| > 4 then packet[4..] else [];
    if cmd == READ_VP then Message(source, VpData, body)
    else if cmd == WRITE_VP then
      if packet[2] == 3 && packet[4] == 0x4F && packet[5] == 0x4B then Message(source, WriteAckOk, body)
      else Message(source, WriteAck, body)
    else Message(source, UnknownDwin, packet)
  }

  function Prepend(messages: seq<Message>, d: Decoding): Decoding {
    Decoding(messages + d.messages, d.rest)
  }

  /** What one pass over a buffer yields: the messages found and the bytes kept for the next call. */
  function Decode(source: string, buf: seq<Byte>, stray: Byte): Decoding
    decreases |buf|
  {
    if |buf| < 3 then Decoding([], buf)
    else if !HasHeader(buf) then Decode(source, buf[1..], stray)
    else if !HasPacket(buf) then Decoding([], buf)
    else
      var size := PacketSize(buf);
      Prepend([Interpret(source, buf[..size], CommandByte(buf, stray))], Decode(source, buf[size..], stray))
  }

  /** The decoder object: bytes that did not yet complete a packet stay in `buffer`. */
  class Parser {
    var buffer: seq<Byte>

    constructor ()
      ensures buffer == []
    {
      buffer := [];
    }

    method Parse(input: seq<Byte>, source: string, stray: Byte) returns (messages: seq<Message>)
      modifies this
      ensures Decoding(messages, buffer) == Decode(source, old(buffer) + input, stray)
      ensures |buffer| < 258
    {
      messages := [];
      buffer := buffer + input;
      while |buffer| >= 3
        invariant Decode(source, old(buffer) + input, stray) == Prepend(messages, Decode(source, buffer, stray))
        decreases |buffer|
      {
        if buffer[0] != HEAD0 || buffer[1] != HEAD1 {
          buffer := buffer[1..];
          continue;
        }
        var len := buffer[2];
        var packetSize := 3 + len as int;
        if |buffer| < packetSize {
          break;
        }
        var cmd := if |buffer| > 3 then buffer[3] else stray;
        var kind, payload := UnknownDwin, [];
        if cmd == READ_VP {
          kind := VpData;
          if packetSize > 4 {
            payload := buffer[4..packetSize];
          }
        } else if cmd == WRITE_VP {
          kind := if len == 3 && buffer[4] == 0x4F && buffer[5] == 0x4B then WriteAckOk else WriteAck;
          if packetSize > 4 {
            payload := buffer[4..packetSize];
          }
        } else {
          payload := buffer[..packetSize];
        }
        assert packetSize > 4 ==> buffer[4..packetSize] == buffer[..packetSize][4..];
        assert Message(source, kind, payload) == Interpret(source, buffer[..packetSize], cmd);
        PrependTwice(messages, [Message(source, kind, payload)], Decode(source, buffer[packetSize..], stray));
        messages := messages + [Message(source, kind, payload)];
        buffer := buffer[packetSize..];
      }
      RestIsShort(source, buffer, stray);
    }
  }

  lemma PrependTwice(m: seq<Message>, n: seq<Message>, d: Decoding)
    ensures Prepend(m, Prepend(n, d)) == Prepend(m + n, d)
  {
    assert m + (n + d.messages) == (m + n) + d.messages;
  }

  /** The carried bytes hold no complete packet, so another pass over them changes nothing,
      and there are at most 257 of them. */
  lemma {:induction false} RestIsShort(source: string, buf: seq<Byte>, stray: Byte)
    ensures var rest := Decode(source, buf, stray).rest;
            |rest| < 258 && forall s :: Decode(source, rest, s) == Decoding([], rest)
    decreases |buf|
  {
    if |buf| < 3 {
    } else if !HasHeader(buf) {
      RestIsShort(source, buf[1..], stray);
    } else if HasPacket(buf) {
      RestIsShort(source, buf[PacketSize(buf)..], stray);
    }
  }

  // ------------------------------------------------------- cutting the stream

  /** Decoding in two calls: `a` first, then `b` behind the bytes kept from `a`. */
  function DecodeInTwo(source: string, a: seq<Byte>, strayA: Byte, b: seq<Byte>, strayB: Byte): Decoding {
    var first := Decode(source, a, strayA);
    Prepend(first.messages, Decode(source, first.rest + b, strayB))
  }

  /** The last packet decoded from `buf` is a bare 5A A5 00 that ends the buffer. */
  predicate EndsInBareHeader(buf: seq<Byte>)
    decreases |buf|
  {
    if |buf| < 3 then false
    else if !HasHeader(buf) then EndsInBareHeader(buf[1..])
    else if !HasPacket(buf) then false
    else |buf| == 3 || EndsInBareHeader(buf[PacketSize(buf)..])
  }

  /** No packet met while decoding `buf` has LEN = 0. */
  predicate NoBarePacket(buf: seq<Byte>)
    decreases |buf|
  {
    if |buf| < 3 then true
    else if !HasHeader(buf) then NoBarePacket(buf[1..])
    else buf[2] != 0 && (HasPacket(buf) ==> NoBarePacket(buf[PacketSize(buf)..]))
  }

  function BareMessage(source: string, cmd: Byte): Message {
    Interpret(source, [HEAD0, HEAD1, 0], cmd)
  }

  /** A packet that is complete in the first part is decoded there, with the command byte known by then. */
  lemma PacketInTwo(source: string, a: seq<Byte>, strayA: Byte, b: seq<Byte>, strayB: Byte)
    requires HasPacket(a)
    ensures var size := PacketSize(a);
            && DecodeInTwo(source, a, strayA, b, strayB) ==
               Prepend([Interpret(source, a[..size], CommandByte(a, strayA))],
                       DecodeInTwo(source, a[size..], strayA, b, strayB))
            && Decode(source, a + b, strayB) ==
               Prepend([Interpret(source, a[..size], CommandByte(a + b, strayB))],
                       Decode(source, a[size..] + b, strayB))
  {
    var size := PacketSize(a);
    assert (a + b)[..size] == a[..size] && (a + b)[size..] == a[size..] + b;
    var x := Decode(source, a[size..], strayA);
    PrependTwice([Interpret(source, a[..size], CommandByte(a, strayA))], x.messages,
                 Decode(source, x.rest + b, strayB));
  }

  lemma SkipInTwo(source: string, a: seq<Byte>, strayA: Byte, b: seq<Byte>, strayB: Byte)
    requires !HasPacket(a)
    ensures if |a| < 3 || HasHeader(a) then DecodeInTwo(source, a, strayA, b, strayB) == Decode(source, a + b, strayB)
            else DecodeInTwo(source, a, strayA, b, strayB) == DecodeInTwo(source, a[1..], strayA, b, strayB) &&
                 Decode(source, a + b, strayB) == Decode(source, a[1..] + b, strayB)
  {
    if |a| >= 3 && !HasHeader(a) {
      assert (a + b)[1..] == a[1..] + b;
    }
  }

  /** Exactly when one cut is invisible: unless the first part ends in a bare header, and then precisely
      when the out-of-range read and the byte that follows classify the bare packet alike. */
  lemma {:induction false} TwoCalls(source: string, a: seq<Byte>, strayA: Byte, b: seq<Byte>, strayB: Byte)
    ensures DecodeInTwo(source, a, strayA, b, strayB) == Decode(source, a + b, strayB) <==>
            (EndsInBareHeader(a) ==>
               BareMessage(source, strayA) == BareMessage(source, if b == [] then strayB else b[0]))
    decreases |a|
  {
    hide Decode, DecodeInTwo;
    if !HasPacket(a) {
      SkipInTwo(source, a, strayA, b, strayB);
      if |a| >= 3 && !HasHeader(a) {
        TwoCalls(source, a[1..], strayA, b, strayB);
      }
    } else {
      var size := PacketSize(a);
      var tail := a[size..];
      TwoCalls(source, tail, strayA, b, strayB);
      PacketInTwo(source, a, strayA, b, strayB);
      PrependIsInjective(Interpret(source, a[..size], CommandByte(a, strayA)),
                         DecodeInTwo(source, tail, strayA, b, strayB),
                         Interpret(source, a[..size], CommandByte(a + b, strayB)), Decode(source, tail + b, strayB));
      if |a| == 3 {
        assert a[..size] == [HEAD0, HEAD1, 0];
        EmptyInTwo(source, strayA, b, strayB);
      }
    }
  }

  lemma EmptyInTwo(source: string, strayA: Byte, b: seq<Byte>, strayB: Byte)
    ensures DecodeInTwo(source, [], strayA, b, strayB) == Decode(source, [] + b, strayB)
  {
    assert [] + b == b;
  }

  lemma PrependIsInjective(m: Message, d: Decoding, n: Message, e: Decoding)
    ensures Prepend([m], d) == Prepend([n], e) <==> m == n && d == e
  {
    var x, y := Prepend([m], d), Prepend([n], e);
    assert x.messages[0] == m && x.messages[1..] == d.messages;
    assert y.messages[0] == n && y.messages[1..] == e.messages;
  }

  /** Bytes kept from a prefix continue the stream exactly where the prefix stopped. */
  lemma {:induction false} NoBarePacketInPrefix(source: string, a: seq<Byte>, stray: Byte, b: seq<Byte>)
    requires NoBarePacket(a + b)
    ensures !EndsInBareHeader(a) && NoBarePacket(Decode(source, a, stray).rest + b)
    decreases |a|
  {
    if |a| < 3 {
    } else if !HasHeader(a) {
      assert (a + b)[1..] == a[1..] + b;
      NoBarePacketInPrefix(source, a[1..], stray, b);
    } else if HasPacket(a) {
      assert (a + b)[PacketSize(a)..] == a[PacketSize(a)..] + b;
      NoBarePacketInPrefix(source, a[PacketSize(a)..], stray, b);
    }
  }

  /** A stream that holds a complete bare packet has a prefix ending in one. */
  lemma {:induction false} BarePacketPrefix(s: seq<Byte>) returns (k: nat)
    requires !NoBarePacket(s)
    ensures k <= |s| && EndsInBareHeader(s[..k])
    decreases |s|
  {
    if !HasHeader(s) {
      var j := BarePacketPrefix(s[1..]);
      k := j + 1;
      assert s[..k][1..] == s[1..][..j];
    } else if s[2] == 0 {
      k := 3;
    } else {
      var size := PacketSize(s);
      var j := BarePacketPrefix(s[size..]);
      k := j + size;
      assert s[..k][size..] == s[size..][..j];
      assert s[..k][2] == s[2];
      assert HasPacket(s[..k]) && |s[..k]| > 3;
    }
  }

  /** No cut of `s`, and no value found by an out-of-range read, can be told from the result. */
  ghost predicate CutsAreInvisible(source: string, s: seq<Byte>) {
    forall k, x, y | 0 <= k <= |s| :: DecodeInTwo(source, s[..k], x, s[k..], y) == Decode(source, s, y)
  }

  /** Cuts are invisible in exactly the streams without a LEN = 0 packet. */
  lemma CutsAreInvisibleIff(source: string, s: seq<Byte>)
    ensures CutsAreInvisible(source, s) <==> NoBarePacket(s)
  {
    if NoBarePacket(s) {
      forall k, x, y | 0 <= k <= |s|
        ensures DecodeInTwo(source, s[..k], x, s[k..], y) == Decode(source, s, y)
      {
        assert s[..k] + s[k..] == s;
        NoBarePacketInPrefix(source, s[..k], x, s[k..]);
        TwoCalls(source, s[..k], x, s[k..], y);
      }
    } else {
      var k := BarePacketPrefix(s);
      var y: Byte := 0;
      var next := if s[k..] == [] then y else s[k];
      var x := if next == READ_VP then WRITE_VP else READ_VP;
      assert BareMessage(source, x).kind != BareMessage(source, next).kind;
      TwoCalls(source, s[..k], x, s[k..], y);
      assert s[..k] + s[k..] == s;
      assert DecodeInTwo(source, s[..k], x, s[k..], y) != Decode(source, s, y);
    }
  }

  datatype Chunk = Chunk(data: seq<Byte>, stray: Byte)

  function Flatten(chunks: seq<Chunk>): seq<Byte> {
    if chunks == [] then [] else chunks[0].data + Flatten(chunks[1..])
  }

  /** A run of `Parse` calls: all messages returned, and the buffer left by the last call. */
  function DecodeInChunks(source: string, buffer: seq<Byte>, chunks: seq<Chunk>): Decoding
    decreases |chunks|
  {
    if chunks == [] then Decoding([], buffer)
    else
      var d := Decode(source, buffer + chunks[0].data, chunks[0].stray);
      Prepend(d.messages, DecodeInChunks(source, d.rest, chunks[1..]))
  }

  /** Chunk invariance: however a stream without LEN = 0 packets is cut into calls, the messages and the
      final buffer are those of one decode of the whole stream. */
  lemma {:induction false} ChunkInvariance(source: string, buffer: seq<Byte>, chunks: seq<Chunk>, stray: Byte)
    requires NoBarePacket(buffer + Flatten(chunks))
    requires forall s :: Decode(source, buffer, s) == Decoding([], buffer)
    ensures DecodeInChunks(source, buffer, chunks) == Decode(source, buffer + Flatten(chunks), stray)
    decreases |chunks|
  {
    if chunks == [] {
      assert buffer + Flatten(chunks) == buffer;
    } else {
      var a, b := buffer + chunks[0].data, Flatten(chunks[1..]);
      assert buffer + Flatten(chunks) == a + b;
      var x := chunks[0].stray;
      NoBarePacketInPrefix(source, a, x, b);
      TwoCalls(source, a, x, b, stray);
      RestIsShort(source, a, x);
      ChunkInvariance(source, Decode(source, a, x).rest, chunks[1..], stray);
    }
  }

  // ---------------------------------------------------------------- encoding

  /** What the rest of the program asks the display to do. */
  datatype Command =
    | ChangePage(payload: seq<Byte>)
    | ChangeNumber(payload: seq<Byte>)
    | WriteVp(payload: seq<Byte>)
    | PlaySound(payload: seq<Byte>)
    | SetBrightness(payload: seq<Byte>)
    | OtherCommand(payload: seq<Byte>)

  /** The bytes put on the wire; empty when the encoder rejects the command. */
  function Wire(c: Command): seq<Byte>
    requires c.PlaySound? ==> c.payload != []
  {
    var p := c.payload;
    match c
    case ChangePage(_) =>
      if |p| != 2 then [] else [HEAD0, HEAD1, 0x07, WRITE_VP, 0x00, 0x84, 0x5A, 0x01, p[0], p[1]]
    case ChangeNumber(_) =>
      if |p| < 3 || |p| - 2 > 252 then [] else [HEAD0, HEAD1, 1 + |p|, WRITE_VP] + p
    case WriteVp(_) =>
      if |p| < 2 then [] else [HEAD0, HEAD1, (1 + |p|) % 256, WRITE_VP] + p
    case PlaySound(_) => [HEAD0, HEAD1, 0x05, WRITE_VP, 0x00, 0xA0, p[0]]
    case SetBrightness(_) =>
      if |p| < 3 then [] else [HEAD0, HEAD1, 0x05, WRITE_VP, p[0], p[1], p[2]]
    case OtherCommand(_) => []
  }

  method Serialize(c: Command) returns (data: seq<Byte>)
    requires c.PlaySound? ==> c.payload != []
    ensures data == Wire(c)
  {
    data := [];
    var p := c.payload;
    if c.ChangePage? {
      if |p| != 2 {
        return;
      }
      data := data + [HEAD0] + [HEAD1] + [0x07] + [WRITE_VP];
      data := data + [0x00] + [0x84];
      data := data + [0x5A] + [0x01];
      data := data + [p[0]] + [p[1]];
    } else if c.ChangeNumber? {
      if |p| < 2 {
        return;
      }
      var dataLen := |p| - 2;
      if dataLen == 0 || dataLen > 252 {
        return;
      }
      data := data + [HEAD0] + [HEAD1] + [1 + 2 + dataLen] + [WRITE_VP];
      data := data + [p[0]] + [p[1]];
      for i := 2 to |p|
        invariant data == [HEAD0, HEAD1, 1 + |p|, WRITE_VP] + p[..i]
      {
        data := data + [p[i]];
      }
    } else if c.WriteVp? {
      if |p| < 2 {
        return;
      }
      var dataLen := |p| - 2;
      data := data + [HEAD0] + [HEAD1] + [(1 + 2 + dataLen) % 256] + [WRITE_VP];
      data := data + p;
    } else if c.PlaySound? {
      data := data + [HEAD0] + [HEAD1] + [0x05] + [WRITE_VP] + [0x00] + [0xA0] + [p[0]];
    } else if c.SetBrightness? {
      if |p| < 3 {
        return;
      }
      data := data + [HEAD0] + [HEAD1] + [0x05] + [WRITE_VP] + [p[0]] + [p[1]] + [p[2]];
    }
  }

  /** The LEN byte counts the bytes behind it. */
  predicate LenIsHonest(frame: seq<Byte>) {
    |frame| >= 3 && frame[2] == |frame| - 3
  }

  /** The frames with a truthful LEN: never those for sound and brightness, and a VP write
      exactly up to 252 data bytes, where the LEN byte does not wrap. */
  lemma LenIsHonestIff(c: Command)
    requires c.PlaySound? ==> c.payload != []
    requires Wire(c) != []
    ensures LenIsHonest(Wire(c)) <==> !c.PlaySound? && !c.SetBrightness? && |c.payload| - 2 <= 252
  {
  }

  /** The payload that a frame for `c` carries: the VP address followed by the data. */
  function VpAndData(c: Command): seq<Byte> {
    if c.ChangePage? then [0x00, 0x84, 0x5A, 0x01] + c.payload else c.payload
  }

  predicate Sendable(c: Command) {
    !c.PlaySound? && !c.SetBrightness? && Wire(c) != [] && |c.payload| - 2 <= 252
  }

  function AckFor(source: string, c: Command): Message {
    var kind := if VpAndData(c) == [0x4F, 0x4B] then WriteAckOk else WriteAck;
    Message(source, kind, VpAndData(c))
  }

  lemma DecodeFrame(source: string, c: Command, more: seq<Byte>, stray: Byte)
    requires Sendable(c)
    ensures Decode(source, Wire(c) + more, stray) == Prepend([AckFor(source, c)], Decode(source, more, stray))
  {
    var f := Wire(c);
    var buf := f + more;
    assert buf[0] == HEAD0 && buf[1] == HEAD1 && buf[2] == f[2] == |f| - 3 && buf[3] == WRITE_VP;
    assert buf[..|f|] == f && buf[|f|..] == more;
    assert f[4..] == VpAndData(c);
    assert f[2] == 3 ==> VpAndData(c) == [f[4], f[5]];
  }

  /** Whatever the display sends next, the frame of the command decodes to its one message in front of the rest. */
  ghost predicate AlwaysDecodes(source: string, c: Command)
    requires c.PlaySound? ==> c.payload != []
  {
    forall more: seq<Byte>, stray: Byte ::
      Decode(source, Wire(c) + more, stray) == Prepend([AckFor(source, c)], Decode(source, more, stray))
  }

  /** Sound and brightness frames are one byte short of their LEN: alone they wait, and otherwise the next byte sent
      becomes a part of them. */
  function ShortData(c: Command): seq<Byte>
    requires (c.PlaySound? && c.payload != []) || (c.SetBrightness? && |c.payload| >= 3)
  {
    if c.PlaySound? then [0x00, 0xA0, c.payload[0]] else c.payload[..3]
  }

  lemma ShortFrameTakesNextByte(source: string, c: Command, more: seq<Byte>, stray: Byte)
    requires c.PlaySound? ==> c.payload != []
    requires (c.PlaySound? || c.SetBrightness?) && Wire(c) != []
    ensures Decode(source, Wire(c) + more, stray) ==
            if more == [] then Decoding([], [0x5A, 0xA5, 0x05, 0x82] + ShortData(c))
            else Prepend([Message(source, WriteAck, ShortData(c) + [more[0]])], Decode(source, more[1..], stray))
  {
    var f := Wire(c);
    assert f == [0x5A, 0xA5, 0x05, 0x82] + ShortData(c);
    if more == [] {
      assert f + more == f;
    } else {
      var buf := f + more;
      assert buf[..8] == f + [more[0]] && buf[8..] == more[1..];
      assert (f + [more[0]])[4..] == f[4..] + [more[0]];
    }
  }

  /** The LEN byte of a longer write wraps, so that its first message carries less than was written. */
  lemma LongWriteIsCut(source: string, c: Command, more: seq<Byte>, stray: Byte)
    requires c.WriteVp? && |c.payload| - 2 > 252
    ensures var d := Decode(source, Wire(c) + more, stray);
            d.messages != [] && |d.messages[0].payload| < |c.payload|
  {
    var buf := Wire(c) + more;
    assert HasPacket(buf) && PacketSize(buf) <= 258;
    assert PacketSize(buf) == 3 + (1 + |c.payload|) % 256;
  }

  /** Exactly the sendable commands decode so.  Sound and brightness frames are incomplete, longer writes wrap their
      LEN byte, and rejected commands are not sent at all. */
  lemma AlwaysDecodesIff(source: string, c: Command)
    requires c.PlaySound? ==> c.payload != []
    ensures AlwaysDecodes(source, c) <==> Sendable(c)
  {
    hide Decode, Wire;
    if Sendable(c) {
      forall more: seq<Byte>, stray: Byte
        ensures Decode(source, Wire(c) + more, stray) == Prepend([AckFor(source, c)], Decode(source, more, stray))
      {
        DecodeFrame(source, c, more, stray);
      }
    } else {
      DecodesNothing(source);
      assert Wire(c) + [] == Wire(c);
      if Wire(c) != [] && c.WriteVp? {
        LongWriteIsCut(source, c, [], 0);
      } else if Wire(c) != [] {
        OnlyShortFramesLeft(c);
        ShortFrameTakesNextByte(source, c, [], 0);
      }
      assert Decode(source, Wire(c) + [], 0) != Prepend([AckFor(source, c)], Decode(source, [], 0));
    }
  }

  lemma DecodesNothing(source: string)
    ensures Decode(source, [], 0) == Decoding([], [])
  {
  }

  lemma OnlyShortFramesLeft(c: Command)
    requires c.PlaySound? ==> c.payload != []
    requires Wire(c) != [] && !Sendable(c) && !c.WriteVp?
    ensures c.PlaySound? || c.SetBrightness?
  {
  }

  predicate NoHeaderPair(g: seq<Byte>) {
    forall i :: 0 <= i < |g| - 1 ==> !(g[i] == HEAD0 && g[i + 1] == HEAD1)
  }

  lemma {:induction false} SkipNoise(source: string, g: seq<Byte>, f: seq<Byte>, stray: Byte)
    requires NoHeaderPair(g) && |f| >= 3 && f[0] != HEAD1
    ensures Decode(source, g + f, stray) == Decode(source, f, stray)
  {
    if g == [] {
      assert g + f == f;
    } else {
      assert (g + f)[1..] == g[1..] + f;
      assert (g + f)[0] == g[0] && (g + f)[1] == if |g| == 1 then f[0] else g[1];
      forall i | 0 <= i < |g[1..]| - 1 ensures !(g[1..][i] == HEAD0 && g[1..][i + 1] == HEAD1) {
        assert g[1..][i] == g[i + 1] && g[1..][i + 1] == g[i + 2];
      }
      SkipNoise(source, g[1..], f, stray);
    }
  }

  function LastTwo(g: seq<Byte>): seq<Byte> {
    if |g| <= 2 then g else g[|g| - 2..]
  }

  lemma {:induction false} OnlyNoise(source: string, g: seq<Byte>, stray: Byte)
    requires NoHeaderPair(g)
    ensures Decode(source, g, stray) == Decoding([], LastTwo(g))
  {
    if |g| > 2 {
      forall i | 0 <= i < |g[1..]| - 1 ensures !(g[1..][i] == HEAD0 && g[1..][i + 1] == HEAD1) {
        assert g[1..][i] == g[i + 1] && g[1..][i + 1] == g[i + 2];
      }
      assert !(g[0] == HEAD0 && g[0 + 1] == HEAD1);
      OnlyNoise(source, g[1..], stray);
    }
  }

  datatype Item = Item(noise: seq<Byte>, command: Command)

  predicate Transmittable(items: seq<Item>) {
    forall x | x in items :: NoHeaderPair(x.noise) && Sendable(x.command)
  }

  function Transmit(items: seq<Item>, tail: seq<Byte>): seq<Byte>
    requires Transmittable(items)
  {
    if items == [] then tail
    else items[0].noise + (Wire(items[0].command) + Transmit(items[1..], tail))
  }

  function Acks(source: string, items: seq<Item>): seq<Message> {
    if items == [] then [] else [AckFor(source, items[0].command)] + Acks(source, items[1..])
  }

  /** Unique decodability: commands, encoded one after the other with noise in between, decode to exactly
      one message each, in order, carrying VP address and data; of the trailing noise at most two bytes stay. */
  lemma {:induction false} RoundTrip(source: string, items: seq<Item>, tail: seq<Byte>, stray: Byte)
    requires Transmittable(items) && NoHeaderPair(tail)
    ensures Decode(source, Transmit(items, tail), stray) ==
            Decoding(Acks(source, items), LastTwo(tail))
    decreases |items|
  {
    if items == [] {
      OnlyNoise(source, tail, stray);
    } else {
      var x, more := items[0], Transmit(items[1..], tail);
      SkipNoise(source, x.noise, Wire(x.command) + more, stray);
      DecodeFrame(source, x.command, more, stray);
      RoundTrip(source, items[1..], tail, stray);
    }
  }

  /** So the frame sent behind a sound or brightness frame is lost: its first byte is taken as data and the rest is
      skipped as noise. */
  lemma ShortFrameSwallowsNextFrame(source: string, short: Command, c: Command, stray: Byte)
    requires short.PlaySound? ==> short.payload != []
    requires (short.PlaySound? || short.SetBrightness?) && Wire(short) != []
    requires Sendable(c) && NoHeaderPair(VpAndData(c))
    ensures Decode(source, Wire(short) + Wire(c), stray) ==
            Decoding([Message(source, WriteAck, ShortData(short) + [0x5A])], LastTwo(Wire(c)))
  {
    hide Decode;
    var g := Wire(c)[1..];
    assert Wire(c)[4..] == VpAndData(c);
    forall i | 0 <= i < |g| - 1 ensures !(g[i] == HEAD0 && g[i + 1] == HEAD1) {
      if i >= 3 {
        assert g[i] == VpAndData(c)[i - 3] && g[i + 1] == VpAndData(c)[i - 3 + 1];
      }
    }
    OnlyNoise(source, g, stray);
    ShortFrameTakesNextByte(source, short, Wire(c), stray);
  }

  // --------------------------------------------------- what the display sends

  /** What a packet with this command byte and these data means: 83 carries a touched VP address and its data, 82
      acknowledges a write, and anything else is passed on as a whole. */
  function Meaning(source: string, cmd: Byte, data: seq<Byte>): Message
    requires |data| < 255
  {
    if cmd == 0x83 then Message(source, VpData, data)
    else if cmd != 0x82 then Message(source, UnknownDwin, [0x5A, 0xA5, 1 + |data|, cmd] + data)
    else if data == [0x4F, 0x4B] then Message(source, WriteAckOk, data)
    else Message(source, WriteAck, data)
  }

  /** Every packet with a command byte decodes to its meaning, in front of what follows. */
  lemma DecodePacket(source: string, cmd: Byte, data: seq<Byte>, more: seq<Byte>, stray: Byte)
    requires |data| < 255
    ensures Decode(source, [0x5A, 0xA5, 1 + |data|, cmd] + data + more, stray) ==
            Prepend([Meaning(source, cmd, data)], Decode(source, more, stray))
  {
    var packet := [0x5A, 0xA5, 1 + |data|, cmd] + data;
    var buf := packet + more;
    assert buf[..|packet|] == packet && buf[|packet|..] == more;
    assert packet[4..] == data;
    assert |packet| <= 4 ==> data == [];
    assert |data| == 2 ==> packet[4] == data[0] && packet[5] == data[1];
    assert data == [0x4F, 0x4B] <==> |data| == 2 && data[0] == 0x4F && data[1] == 0x4B;
  }

  /** A packet with LEN = 0 carries nothing; how it is taken depends on the byte behind it. */
  lemma DecodeBarePacket(source: string, more: seq<Byte>, stray: Byte)
    ensures var next := if more == [] then stray else more[0];
            var message := if next == 0x83 then Message(source, VpData, [])
                           else if next == 0x82 then Message(source, WriteAck, [])
                           else Message(source, UnknownDwin, [0x5A, 0xA5, 0x00]);
            Decode(source, [0x5A, 0xA5, 0x00] + more, stray) == Prepend([message], Decode(source, more, stray))
  {
    var buf := [0x5A, 0xA5, 0x00] + more;
    assert buf[..3] == [0x5A, 0xA5, 0x00] && buf[3..] == more;
  }

  /** A packet of the display behind some noise. */
  datatype Sending = Sending(noise: seq<Byte>, cmd: Byte, data: seq<Byte>)

  predicate Received(sendings: seq<Sending>) {
    forall s <- sendings :: NoHeaderPair(s.noise) && |s.data| < 255
  }

  function Stream(sendings: seq<Sending>, tail: seq<Byte>): seq<Byte>
    requires Received(sendings)
  {
    if sendings == [] then tail
    else
      var s := sendings[0];
      s.noise + ([0x5A, 0xA5, 1 + |s.data|, s.cmd] + s.data + Stream(sendings[1..], tail))
  }

  function Meanings(source: string, sendings: seq<Sending>): seq<Message>
    requires Received(sendings)
  {
    if sendings == [] then []
    else [Meaning(source, sendings[0].cmd, sendings[0].data)] + Meanings(source, sendings[1..])
  }

  /** Whatever the display sends, with noise in between, is understood: one message for each packet, in order, with its
      meaning; of the trailing noise at most two bytes stay. */
  lemma {:induction false} DisplayIsUnderstood(source: string, sendings: seq<Sending>, tail: seq<Byte>, stray: Byte)
    requires Received(sendings) && NoHeaderPair(tail)
    ensures Decode(source, Stream(sendings, tail), stray) == Decoding(Meanings(source, sendings), LastTwo(tail))
  {
    hide Decode;
    if sendings == [] {
      OnlyNoise(source, tail, stray);
    } else {
      var s, rest := sendings[0], Stream(sendings[1..], tail);
      DisplayIsUnderstood(source, sendings[1..], tail, stray);
      DecodePacket(source, s.cmd, s.data, rest, stray);
      SkipNoise(source, s.noise, [0x5A, 0xA5, 1 + |s.data|, s.cmd] + s.data + rest, stray);
    }
  }
}
