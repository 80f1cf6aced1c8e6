/** RCON framing as bytes: a little-endian 32-bit length, request ID and type, the payload, two zero bytes. */
module Rcon {
  import opened Types

  const WORD := 0x1_0000_0000
  const HALF := 0x8000_0000

  type int32 = x: int | -0x8000_0000 <= x < 0x8000_0000

  /** Conversion of any integer to int32 keeps its low 32 bits. */
  function ToInt32(x: int): int32 {
    var u := x % WORD;
    if u >= HALF then u - WORD else u
  }

  function ToUint32(x: int32): nat {
    x % WORD
  }

  // ---- 32-bit words ----

  function Word(u: nat): (r: seq<byte>)
    requires u < WORD
    ensures |r| == 4
  {
    [u % 256, u / 256 % 256, u / 65536 % 256, u / 16777216]
  }

  function WordOf(s: seq<byte>): (u: nat)
    requires |s| == 4
    ensures u < WORD
  {
    s[0] as int + 256 * (s[1] as int) + 65536 * (s[2] as int) + 16777216 * (s[3] as int)
  }

  /** Words are little-endian. */
  lemma LittleEndian(u: nat)
    requires u < 0x1_0000_0000
    ensures var w := Word(u);
            w[0] == u % 256 && w[1] == u / 256 % 256 && w[2] == u / 65536 % 256 && w[3] == u / 16777216
    ensures Word(0x04030201) == [1, 2, 3, 4]
  {
  }

  lemma WordReadsBack(u: nat)
    requires u < WORD
    ensures WordOf(Word(u)) == u
  {
    assert u / 65536 == u / 256 / 256 && u / 16777216 == u / 65536 / 256;
  }

  lemma WordWritesBack(s: seq<byte>)
    requires |s| == 4
    ensures Word(WordOf(s)) == s
  {
    var u := WordOf(s);
    var a: int, b: int, c: int, d: int := s[0], s[1], s[2], s[3];
    assert u == a + 256 * (b + 256 * (c + 256 * d));
    assert u / 256 == b + 256 * (c + 256 * d);
    assert u / 65536 == u / 256 / 256 == c + 256 * d;
    assert u / 16777216 == u / 65536 / 256 == d;
  }

  lemma IntReadsBack(x: int32)
    ensures ToUint32(x) < WORD && ToInt32(ToUint32(x)) == x
  {
  }

  lemma IntWritesBack(u: nat)
    requires u < WORD
    ensures ToUint32(ToInt32(u)) == u
  {
  }

  // ---- frames ----

  const ZEROS: seq<byte> := [0, 0]

  /** The bytes of one packet. The length field is the body's length as an int32, whatever becomes of it. */
  function Frame(id: int32, kind: int32, payload: seq<byte>): (r: seq<byte>)
    ensures |r| == |payload| + 14
  {
    Word(ToUint32(ToInt32(4 + 4 + |payload| + 2))) + Word(ToUint32(id)) + Word(ToUint32(kind)) + payload + ZEROS
  }

  function Value(a: int, b: int, c: int, d: int): int {
    a + 256 * b + 65536 * c + 16777216 * d
  }

  /** Byte by byte, for every payload whose length fits the field: the number of bytes that follow, then ID and type in
      two's complement, all little-endian, then the payload, and two zero bytes. */
  lemma FrameLayout(id: int32, kind: int32, payload: seq<byte>)
    requires |payload| + 10 < 0x8000_0000
    ensures var s := Frame(id, kind, payload);
            && |s| == 4 + (|payload| + 10)
            && Value(s[0], s[1], s[2], s[3]) == |payload| + 10
            && Value(s[4], s[5], s[6], s[7]) == (if id < 0 then 0x1_0000_0000 + id else id)
            && Value(s[8], s[9], s[10], s[11]) == (if kind < 0 then 0x1_0000_0000 + kind else kind)
            && s[12..12 + |payload|] == payload
            && s[12 + |payload|] == 0 && s[13 + |payload|] == 0
  {
    hide Word;
    var s := Frame(id, kind, payload);
    var a, b, c := Word(|payload| + 10), Word(ToUint32(id)), Word(ToUint32(kind));
    assert s == a + b + c + payload + ZEROS;
    assert s[..4] == a && s[4..8] == b && s[8..12] == c;
    WordReadsBack(|payload| + 10);
    WordReadsBack(ToUint32(id));
    WordReadsBack(ToUint32(kind));
  }

  /** PutUint32: four bytes at an offset. */
  method PutWord(buf: array<byte>, at: nat, u: nat)
    requires u < WORD && at + 4 <= buf.Length
    modifies buf
    ensures buf[..] == old(buf[..at]) + Word(u) + old(buf[at + 4..])
    ensures forall j :: at + 4 <= j < buf.Length ==> buf[j] == old(buf[j])
  {
    buf[at] := u % 256;
    buf[at + 1] := u / 256 % 256;
    buf[at + 2] := u / 65536 % 256;
    buf[at + 3] := u / 16777216;
  }

  /** The three words at the front of a buffer of zeros. */
  method PutHead(buf: array<byte>, length: nat, id: nat, kind: nat)
    requires buf.Length >= 12 && length < WORD && id < WORD && kind < WORD
    modifies buf
    ensures buf[..12] == Word(length) + Word(id) + Word(kind)
    ensures forall j :: 12 <= j < buf.Length ==> buf[j] == old(buf[j])
  {
    hide Word;
    PutWord(buf, 0, length);
    PutWord(buf, 4, id);
    PutWord(buf, 8, kind);
  }

  /** copy: the payload at offset 12. */
  method CopyBody(buf: array<byte>, payload: seq<byte>)
    requires buf.Length >= 12 + |payload|
    modifies buf
    ensures buf[..] == old(buf[..12]) + payload + old(buf[12 + |payload|..])
  {
    for i := 0 to |payload|
      invariant buf[12..12 + i] == payload[..i]
      invariant forall j :: 0 <= j < 12 || 12 + i <= j < buf.Length ==> buf[j] == old(buf[j])
    {
      buf[12 + i] := payload[i];
    }
  }

  /** The buffer writePacket fills, at its offsets. */
  method FillPacket(id: int32, kind: int32, payload: seq<byte>) returns (buf: array<byte>)
    ensures fresh(buf) && buf[..] == Frame(id, kind, payload)
  {
    hide Word;
    buf := new byte[4 + 4 + 4 + |payload| + 2](_ => 0);
    PutHead(buf, ToUint32(ToInt32(4 + 4 + |payload| + 2)), ToUint32(id), ToUint32(kind));
    assert buf[12 + |payload|..] == ZEROS;
    CopyBody(buf, payload);
  }

  // ---- reading ----

  datatype Packet = Packet(id: int32, body: seq<byte>)

  datatype Outcome = Got(packet: Packet) | NoLength | TooShort(length: int32) | NoPayload

  /** What reading one packet from a stream gives, and what is left of the stream. */
  function Deframe(s: seq<byte>): (Outcome, seq<byte>) {
    if |s| < 4 then (NoLength, [])
    else
      var length := ToInt32(WordOf(s[..4]));
      if length < 10 then (TooShort(length), s[4..])
      else if |s| < 4 + length then (NoPayload, [])
      else (Got(Packet(ToInt32(WordOf(s[4..8])), s[12..4 + length - 2])), s[4 + length..])
  }

  /** A connection delivers its bytes in order, in pieces of any size. */
  class Connection {
    var incoming: seq<byte>
    var sent: seq<byte>

    constructor (script: seq<byte>)
      ensures incoming == script && sent == []
    {
      incoming, sent := script, [];
    }

    /** One Read: at least one byte if any is left. Callers know no more than this contract. */
    method Read(most: nat) returns (piece: seq<byte>)
      requires most > 0
      modifies this`incoming
      ensures |piece| <= most && old(incoming) == piece + incoming
      ensures piece == [] <==> old(incoming) == []
    {
      var n := if |incoming| < most then |incoming| else most;
      piece := incoming[..n];
      incoming := incoming[n..];
    }

    /** ReadFull: reads until `n` bytes are there or the stream ends. */
    method ReadFull(n: nat) returns (bytes: seq<byte>, ok: bool)
      modifies this`incoming
      ensures ok <==> |old(incoming)| >= n
      ensures if ok then bytes == old(incoming)[..n] && incoming == old(incoming)[n..] else incoming == []
    {
      bytes := [];
      while |bytes| < n
        invariant |bytes| <= n && old(incoming) == bytes + incoming
        decreases n - |bytes|
      {
        var piece := Read(n - |bytes|);
        if piece == [] {
          return bytes, false;
        }
        bytes := bytes + piece;
      }
      ok := true;
    }

    /** writePacket. */
    method WritePacket(id: int32, kind: int32, payload: seq<byte>)
      modifies this`sent
      ensures sent == old(sent) + Frame(id, kind, payload)
    {
      var buf := FillPacket(id, kind, payload);
      sent := sent + buf[..];
    }

    /** readPacket. */
    method ReadPacket() returns (outcome: Outcome)
      modifies this`incoming
      ensures (outcome, incoming) == Deframe(old(incoming))
    {
      var head, ok := ReadFull(4);
      if !ok {
        return NoLength;
      }
      var length := ToInt32(WordOf(head));
      if length < 10 {
        return TooShort(length);
      }
      ghost var rest := incoming;
      var buf, full := ReadFull(length);
      if !full {
        return NoPayload;
      }
      var id := ToInt32(WordOf(buf[0..4]));
      var body := buf[8..];
      if |body| >= 2 {
        body := body[..|body| - 2];
      }
      ghost var s, n: int := old(incoming), length;
      assert rest == s[4..] && buf == s[4..4 + n];
      assert buf[0..4] == s[4..8] && body == s[12..4 + n - 2] && incoming == s[4 + n..];
      outcome := Got(Packet(id, body));
    }
  }

  // ---- a command session ----

  const COMMAND := 2
  const LOGIN := 3

  datatype Session =
    | Reply(body: seq<byte>)
    | WrongId(body: seq<byte>, id: int32)
    | LoginRefused
    | LoginUnread
    | ReplyUnread

  /** What the client takes for a login: a reply whose body is not empty. */
  predicate LoggedIn(s: seq<byte>) {
    Deframe(s).0.Got? && Deframe(s).0.packet.body != []
  }

  /** SendCommand over an open connection that takes every write. */
  method SendCommand(c: Connection, password: seq<byte>, command: seq<byte>) returns (session: Session)
    modifies c
    ensures c.sent == old(c.sent) + Frame(0, 3, password)
                      + if Deframe(old(c.incoming)).0.Got? && Deframe(old(c.incoming)).0.packet.body != []
                        then Frame(1, 2, command) else []
    ensures LoggedIn(old(c.incoming)) ==>
              session == match Deframe(Deframe(old(c.incoming)).1).0
                         case Got(p) => if p.id == 1 then Reply(p.body) else WrongId(p.body, p.id)
                         case _ => ReplyUnread
    ensures !LoggedIn(old(c.incoming)) ==>
            session == if Deframe(old(c.incoming)).0.Got? then LoginRefused else LoginUnread
  {
    hide Deframe, Frame;
    c.WritePacket(0, LOGIN, password);
    var login := c.ReadPacket();
    if !login.Got? {
      return LoginUnread;
    }
    if login.packet.body == [] {
      return LoginRefused;
    }
    c.WritePacket(1, COMMAND, command);
    var reply := c.ReadPacket();
    if !reply.Got? {
      return ReplyUnread;
    }
    if reply.packet.id != 1 {
      return WrongId(reply.packet.body, reply.packet.id);
    }
    session := Reply(reply.packet.body);
  }

  /** The login check looks at the reply's body and at nothing else: an accepted login answered with an empty body is
      refused, and a refusal, which the protocol marks by request ID -1, passes if it has a body. */
  lemma LoginIgnoresId(id: int32, kind: int32, body: seq<byte>, rest: seq<byte>)
    requires |body| <= HALF - 11
    ensures LoggedIn(Frame(id, kind, body) + rest) <==> body != []
  {
    hide Deframe, Frame;
    ReadsBack(id, kind, body, rest);
  }

  // ---- round trips ----

  lemma FrameHead(id: int32, kind: int32, payload: seq<byte>, rest: seq<byte>)
    ensures var s := Frame(id, kind, payload) + rest;
            && WordOf(s[..4]) == ToUint32(ToInt32(|payload| + 10))
            && WordOf(s[4..8]) == ToUint32(id)
            && s[12..12 + |payload|] == payload && s[14 + |payload|..] == rest
  {
    var s := Frame(id, kind, payload) + rest;
    var length := ToUint32(ToInt32(4 + 4 + |payload| + 2));
    assert s[..4] == Word(length) && s[4..8] == Word(ToUint32(id));
    WordReadsBack(length);
    WordReadsBack(ToUint32(id));
  }

  /** A packet written is read back with its ID and payload, and nothing more is taken from the stream, exactly when
      the payload has at most 2^31 - 11 bytes; any longer one corrupts its own length field. */
  lemma ReadsBack(id: int32, kind: int32, payload: seq<byte>, rest: seq<byte>)
    ensures Deframe(Frame(id, kind, payload) + rest) == (Got(Packet(id, payload)), rest) <==> |payload| <= HALF - 11
  {
    var s := Frame(id, kind, payload) + rest;
    FrameHead(id, kind, payload, rest);
    IntReadsBack(id);
    var length := ToInt32(|payload| + 10);
    IntReadsBack(length);
    if |payload| <= HALF - 11 {
      assert length == |payload| + 10;
    } else if Deframe(s).0.Got? {
      assert length != |payload| + 10;
      assert |Deframe(s).0.packet.body| == length - 10;
    }
  }

  datatype Message = Message(id: int32, kind: int32, payload: seq<byte>)

  function Frames(ms: seq<Message>): seq<byte> {
    if ms == [] then [] else Frame(ms[0].id, ms[0].kind, ms[0].payload) + Frames(ms[1..])
  }

  function Packets(ms: seq<Message>): (r: seq<Packet>)
    ensures |r| == |ms|
  {
    seq(|ms|, i requires 0 <= i < |ms| => Packet(ms[i].id, ms[i].payload))
  }

  /** Reading `n` packets one after the other; nothing if one of the reads fails. */
  function DeframeAll(n: nat, s: seq<byte>): (Option<seq<Packet>>, seq<byte>) {
    if n == 0 then (Some([]), s)
    else
      var (first, left) := Deframe(s);
      if !first.Got? then (None, left)
      else
        var (more, rest) := DeframeAll(n - 1, left);
        (if more == None then None else Some([first.packet] + more.value), rest)
  }

  /** Whatever is written one after the other is read back in order, with exactly the rest left over. */
  lemma {:induction false} StreamReadsBack(ms: seq<Message>, rest: seq<byte>)
    requires forall i :: 0 <= i < |ms| ==> |ms[i].payload| <= HALF - 11
    ensures DeframeAll(|ms|, Frames(ms) + rest) == (Some(Packets(ms)), rest)
    decreases |ms|
  {
    hide Frame, Deframe;
    if ms == [] {
      assert Frames(ms) + rest == rest;
    } else {
      var head, tail := Frame(ms[0].id, ms[0].kind, ms[0].payload), Frames(ms[1..]);
      StreamReadsBack(ms[1..], rest);
      assert Frames(ms) + rest == head + (tail + rest);
      ReadsBack(ms[0].id, ms[0].kind, ms[0].payload, tail + rest);
      assert Packets(ms) == [Packet(ms[0].id, ms[0].payload)] + Packets(ms[1..]);
    }
  }

  /** A frame that was accepted is the frame of its ID, type and body exactly when it ends in two zero bytes. */
  lemma Reframes(s: seq<byte>)
    requires Deframe(s).0.Got?
    ensures var (got, rest) := Deframe(s);
            var p := got.packet;
            s == Frame(p.id, ToInt32(WordOf(s[8..12])), p.body) + rest
            <==> s[12 + |p.body|..14 + |p.body|] == ZEROS
  {
    hide Word, WordOf, ToInt32, ToUint32;
    var length := ToInt32(WordOf(s[..4]));
    var (got, rest) := Deframe(s);
    var p, kind := got.packet, ToInt32(WordOf(s[8..12]));
    assert |p.body| + 10 == length;
    IntSame(length);
    WordWritesBack(s[..4]);
    WordWritesBack(s[4..8]);
    WordWritesBack(s[8..12]);
    IntWritesBack(WordOf(s[..4]));
    IntWritesBack(WordOf(s[4..8]));
    IntWritesBack(WordOf(s[8..12]));
    var front := s[..4] + s[4..8] + s[8..12] + p.body;
    assert Frame(p.id, kind, p.body) == front + ZEROS;
    SplitFrame(s, length, front);
    assert (front + ZEROS + rest)[12 + |p.body|..14 + |p.body|] == ZEROS;
  }

  lemma IntSame(x: int32)
    ensures ToInt32(x) == x
  {
  }

  lemma SplitFrame(s: seq<byte>, length: int, front: seq<byte>)
    requires 10 <= length && 4 + length <= |s|
    requires front == s[..4] + s[4..8] + s[8..12] + s[12..4 + length - 2]
    ensures s == front + s[2 + length..4 + length] + s[4 + length..]
  {
    assert front == s[..2 + length];
  }

  /** A read fails exactly when the length is missing, below ten, or more than what is left. */
  lemma ReadFails(s: seq<byte>)
    ensures !Deframe(s).0.Got? <==>
              |s| < 4 || ToInt32(WordOf(s[..4])) < 10 || |s| < 4 + ToInt32(WordOf(s[..4]))
    ensures Deframe(s).0.Got? ==> |Deframe(s).0.packet.body| == ToInt32(WordOf(s[..4])) - 10
                                  && Deframe(s).1 == s[|s| - |Deframe(s).1|..]
  {
  }
}
