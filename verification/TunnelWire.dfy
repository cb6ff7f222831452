/**
 * The frame format of the L4 tunnel.
 *
 * Every binary WebSocket message is `[kind:1][stream id:4, big endian][payload]`.
 * Both ends drop a message shorter than the five header bytes.
 */
module TunnelWire {
  import opened Wrappers

  type Byte = b: int | 0 <= b < 256
  type Bytes = seq<Byte>
  type Message = seq<Byte>

  const ID_LIMIT: nat := 0x1_0000_0000
  type StreamId = n: nat | n < ID_LIMIT

  const FRAME_OPEN: Byte := 1
  const FRAME_DATA: Byte := 2
  const FRAME_CLOSE: Byte := 3

  /** The largest payload of one DATA frame produced by the replay loop and by the copy loops. */
  const CHUNK: nat := 16 * 1024

  datatype Frame = Frame(kind: Byte, id: StreamId, payload: Bytes)

  function PutUint32(n: StreamId): (bs: Bytes)
    ensures |bs| == 4
  {
    [n / 0x100_0000, n / 0x1_0000 % 256, n / 256 % 256, n % 256]
  }

  function Uint32(bs: Bytes): StreamId
    requires |bs| == 4
  {
    var b0: int, b1: int, b2: int, b3: int := bs[0], bs[1], bs[2], bs[3];
    0x100_0000 * b0 + 0x1_0000 * b1 + 256 * b2 + b3
  }

  lemma Uint32Inverse(n: StreamId)
    ensures Uint32(PutUint32(n)) == n
  {
    var a, b, c := n / 256, n / 0x1_0000, n / 0x100_0000;
    assert n == 256 * a + n % 256;
    assert b == a / 256 && a == 256 * b + a % 256;
    assert c == b / 256 && b == 256 * c + b % 256;
  }

  lemma PutUint32Inverse(bs: Bytes)
    requires |bs| == 4
    ensures PutUint32(Uint32(bs)) == bs
  {
    var n := Uint32(bs);
    var b0: int, b1: int, b2: int, b3: int := bs[0], bs[1], bs[2], bs[3];
    var a := 0x1_0000 * b0 + 256 * b1 + b2;
    assert n == 256 * a + b3 && n / 256 == a && n % 256 == b3;
    var b := 256 * b0 + b1;
    assert a == 256 * b + b2 && a / 256 == b && a % 256 == b2;
    assert n / 0x1_0000 == b;
    assert b / 256 == b0 && b % 256 == b1;
    assert n / 0x100_0000 == b0;
  }

  function Encode(f: Frame): Message {
    [f.kind] + PutUint32(f.id) + f.payload
  }

  function Decode(raw: Message): Option<Frame> {
    if |raw| < 5 then None else Some(Frame(raw[0], Uint32(raw[1..5]), raw[5..]))
  }

  /** Reading back a written frame gives exactly that frame. */
  lemma DecodeEncode(f: Frame)
    ensures Decode(Encode(f)) == Some(f)
  {
    var raw := Encode(f);
    assert raw[1..5] == PutUint32(f.id);
    assert raw[5..] == f.payload;
    Uint32Inverse(f.id);
  }

  /** Every message of at least five bytes is the encoding of exactly one frame. */
  lemma DecodeExact(raw: Message, f: Frame)
    ensures Decode(raw) == Some(f) <==> raw == Encode(f)
  {
    if Decode(raw) == Some(f) {
      PutUint32Inverse(raw[1..5]);
      assert raw == [raw[0]] + raw[1..5] + raw[5..];
    }
    if raw == Encode(f) {
      DecodeEncode(f);
    }
  }

  /** `writeFrame`: a fresh buffer with room for the header and the payload, filled in place. */
  method BuildFrame(f: Frame) returns (buf: array<Byte>)
    ensures fresh(buf)
    ensures buf[..] == Encode(f)
    ensures Decode(buf[..]) == Some(f)
  {
    var head := PutUint32(f.id);
    buf := new Byte[5 + |f.payload|];
    buf[0] := f.kind;
    buf[1], buf[2], buf[3], buf[4] := head[0], head[1], head[2], head[3];
    forall i | 0 <= i < |f.payload| {
      buf[5 + i] := f.payload[i];
    }
    assert buf[..] == Encode(f);
    DecodeEncode(f);
  }

  /** All chunks laid end to end. */
  function Concat(chunks: seq<Bytes>): Bytes {
    if chunks == [] then [] else chunks[0] + Concat(chunks[1..])
  }

  lemma {:induction false} ConcatAppend(a: seq<Bytes>, b: seq<Bytes>)
    ensures Concat(a + b) == Concat(a) + Concat(b)
  {
    if a == [] {
      assert a + b == b;
    } else {
      ConcatAppend(a[1..], b);
      assert (a + b)[0] == a[0] && (a + b)[1..] == a[1..] + b;
      assert a[0] + (Concat(a[1..]) + Concat(b)) == (a[0] + Concat(a[1..])) + Concat(b);
    }
  }

  lemma ConcatSnoc(a: seq<Bytes>, x: Bytes)
    ensures Concat(a + [x]) == Concat(a) + x
  {
    ConcatAppend(a, [x]);
    assert |[x][1..]| == 0;
  }

  /** What the far side makes of a batch of messages: the payload of every DATA frame with this id. */
  function PayloadsFor(id: StreamId, wire: seq<Message>): seq<Bytes> {
    if wire == [] then []
    else
      (match Decode(wire[0])
       case Some(Frame(kind, sid, payload)) => if kind == FRAME_DATA && sid == id then [payload] else []
       case None => []) + PayloadsFor(id, wire[1..])
  }

  lemma {:induction false} PayloadsForSnoc(id: StreamId, wire: seq<Message>, chunk: Bytes)
    ensures PayloadsFor(id, wire + [Encode(Frame(FRAME_DATA, id, chunk))]) == PayloadsFor(id, wire) + [chunk]
  {
    var last: Message := Encode(Frame(FRAME_DATA, id, chunk));
    if wire == [] {
      DecodeEncode(Frame(FRAME_DATA, id, chunk));
      var one: seq<Message> := [last];
      assert wire + one == one && one[1..] == [];
    } else {
      PayloadsForSnoc(id, wire[1..], chunk);
      assert (wire + [last])[1..] == wire[1..] + [last];
    }
  }

  /** `m` is a DATA frame of stream `id` carrying between 1 and CHUNK bytes. */
  ghost predicate ChunkFrame(m: Message, id: StreamId) {
    exists payload: Bytes :: m == Encode(Frame(FRAME_DATA, id, payload)) && 1 <= |payload| <= CHUNK
  }

  lemma OneMoreChunk(id: StreamId, sent: seq<Message>, req: Bytes, off: nat, end: nat)
    requires off < end <= |req| && end - off <= CHUNK
    requires Concat(PayloadsFor(id, sent)) == req[..off]
    ensures
      var m := Encode(Frame(FRAME_DATA, id, req[off..end]));
      ChunkFrame(m, id) && Concat(PayloadsFor(id, sent + [m])) == req[..end]
  {
    var chunk := req[off..end];
    PayloadsForSnoc(id, sent, chunk);
    ConcatSnoc(PayloadsFor(id, sent), chunk);
    assert req[..off] + chunk == req[..end];
  }

  /**
   * The replay loop: the reconstructed request goes out in 16 KiB DATA frames. The WebSocket
   * accepts `budget` more messages and then fails, which ends the loop.
   *
   * Whatever was sent reads back, on the far side, as a prefix of the request; when no write
   * failed it reads back as exactly the request.
   */
  method ReplayRequest(id: StreamId, req: Bytes, budget: nat) returns (sent: seq<Message>, ok: bool)
    ensures forall m | m in sent :: ChunkFrame(m, id)
    ensures Concat(PayloadsFor(id, sent)) <= req
    ensures ok ==> Concat(PayloadsFor(id, sent)) == req
    ensures !ok ==> |sent| == budget
    ensures ok <==> |req| <= budget * CHUNK
  {
    sent, ok := [], true;
    var off := 0;
    while off < |req|
      invariant 0 <= off <= |req|
      invariant forall m | m in sent :: ChunkFrame(m, id)
      invariant Concat(PayloadsFor(id, sent)) == req[..off]
      invariant |sent| <= budget
      invariant off <= |sent| * CHUNK
      invariant off < |req| ==> off == |sent| * CHUNK
    {
      var end := off + CHUNK;
      if end > |req| {
        end := |req|;
      }
      if |sent| == budget {
        return sent, false;
      }
      OneMoreChunk(id, sent, req, off, end);
      var m := Encode(Frame(FRAME_DATA, id, req[off..end]));
      sent := sent + [m];
      off := end;
    }
    assert req[..off] == req;
  }
}
