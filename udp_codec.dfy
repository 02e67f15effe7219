/** The byte-level framing of the UDP connection layer: the frames a
    connection builds (acknowledgement, ping, pong), the record a data or
    registration message is built from, and the reading of a received datagram
    by its type byte. */
module Codec {
  import opened GoInts
  import opened Msg
  import opened BigEndian

  /** Largest datagram a read loop accepts (the size of its read buffer). */
  const MAX_UDP_PACKAGE_SIZE := 1024

  /** A data or registration message: the three values `msg.New` is given.
      Its byte encoding (`Message.Bytes`) is not part of this model. */
  datatype Message = Message(kind: uint8, sequence: uint32, payload: seq<uint8>)

  /** One datagram handed to a socket: bytes this layer built itself, or the
      encoding of a message. */
  datatype Datagram = Raw(bytes: seq<uint8>) | Encoded(message: Message)

  // ---------------------------------------------------------------------------
  // Frames built by a connection

  /** The acknowledgement frame: the ACK type byte and the big-endian sequence
      number, MSG_SEQ_END bytes in all. */
  function AckBytes(s: uint32): (f: seq<uint8>)
    ensures |f| == MSG_SEQ_END
    ensures f[MSG_TYPE_BEGIN] == TYPE_ACK
    ensures Uint32(f[MSG_SEQ_BEGIN..MSG_SEQ_END]) == s
  {
    var f := [TYPE_ACK] + PutUint32(s);
    assert f[MSG_SEQ_BEGIN..MSG_SEQ_END] == PutUint32(s);
    f
  }

  /** The keepalive frame: MSG_TYPE_SIZE bytes holding the PING type. */
  function PingBytes(): (f: seq<uint8>)
    ensures |f| == MSG_TYPE_SIZE && f[MSG_TYPE_BEGIN] == TYPE_PING
  {
    [TYPE_PING]
  }

  /** The reply to a keepalive: the single PONG type byte. */
  function PongBytes(): (f: seq<uint8>)
    ensures |f| == MSG_TYPE_SIZE && f[MSG_TYPE_BEGIN] == TYPE_PONG
  {
    [TYPE_PONG]
  }

  /** The acknowledgement frame is the first two fields of the data header,
      not the 13-byte acknowledgement header. */
  lemma AckFrameIsShort(s: uint32)
    ensures |AckBytes(s)| == MSG_SEQ_END == ACK_SEQ_END < ACK_HEADER_SIZE
    ensures AckBytes(s)[MSG_SEQ_BEGIN..MSG_SEQ_END] == PutUint32(s)
  {
  }

  // ---------------------------------------------------------------------------
  // Reading a received datagram

  /** The four bytes at [1, 5) of a read buffer holding `buf`: the buffer
      keeps the capacity of the 1024-byte array it was read into, so slicing
      up to 5 never fails, and the bytes past the datagram are the zeros that
      array was made with. */
  function SeqWindow(buf: seq<uint8>): (w: seq<uint8>)
    ensures |w| == MSG_SEQ_SIZE
    ensures forall i :: 0 <= i < MSG_SEQ_SIZE ==> w[i] == if MSG_SEQ_BEGIN + i < |buf| then buf[MSG_SEQ_BEGIN + i] else 0
    ensures |buf| >= MSG_SEQ_END ==> w == buf[MSG_SEQ_BEGIN..MSG_SEQ_END]
  {
    if |buf| >= MSG_SEQ_END then buf[MSG_SEQ_BEGIN..MSG_SEQ_END]
    else
      var have := if |buf| > MSG_SEQ_BEGIN then buf[MSG_SEQ_BEGIN..] else [];
      have + seq(MSG_SEQ_SIZE - |have|, _ => 0)
  }

  /** The sequence number a read loop takes from a datagram. */
  function SeqOf(buf: seq<uint8>): (s: uint32)
    ensures PutUint32(s) == SeqWindow(buf)
  {
    PutUint32OfUint32(SeqWindow(buf));
    Uint32(SeqWindow(buf))
  }

  /** What a read loop finds in a datagram, chosen by the byte at offset 0.
      The payload of a data or registration frame is everything from offset 9
      on (the length field at [5, 9) is never read). A data or registration
      datagram shorter than its header still has its sequence number read and
      acknowledged; the slice from offset 9 on then fails. An empty datagram
      has no type byte. */
  datatype Frame =
    | AckFrame(sequence: uint32)
    | PingFrame
    | NormalFrame(sequence: uint32, payload: seq<uint8>)
    | RegFrame(sequence: uint32, key: seq<uint8>)
    | TruncatedFrame(kind: uint8, sequence: uint32)
    | OtherFrame(kind: uint8)
    | EmptyFrame

  /** The frame a datagram holds. A data or registration frame is exactly its
      type byte, the four bytes of its sequence number, the (unread) length
      field and the payload. */
  function Parse(buf: seq<uint8>): (f: Frame)
    ensures f.EmptyFrame? <==> |buf| == 0
    ensures f.AckFrame? <==> |buf| > 0 && buf[MSG_TYPE_BEGIN] == TYPE_ACK
    ensures f.AckFrame? ==> PutUint32(f.sequence) == SeqWindow(buf)
    ensures f.PingFrame? <==> |buf| > 0 && buf[MSG_TYPE_BEGIN] == TYPE_PING
    ensures f.NormalFrame? ==>
      |buf| >= MSG_HEADER_END && buf == [TYPE_NORMAL] + PutUint32(f.sequence) + buf[MSG_LEN_BEGIN..MSG_LEN_END] + f.payload
    ensures f.RegFrame? ==>
      |buf| >= MSG_HEADER_END && buf == [TYPE_REG as uint8] + PutUint32(f.sequence) + buf[MSG_LEN_BEGIN..MSG_LEN_END] + f.key
    ensures f.TruncatedFrame? <==>
      0 < |buf| < MSG_HEADER_END && (buf[MSG_TYPE_BEGIN] == TYPE_NORMAL || buf[MSG_TYPE_BEGIN] == TYPE_REG)
    ensures f.TruncatedFrame? ==> f.kind == buf[MSG_TYPE_BEGIN] && PutUint32(f.sequence) == SeqWindow(buf)
    ensures f.OtherFrame? ==>
      f.kind == buf[MSG_TYPE_BEGIN] &&
      f.kind != TYPE_ACK && f.kind != TYPE_PING && f.kind != TYPE_NORMAL && f.kind != TYPE_REG
  {
    if |buf| == 0 then EmptyFrame
    else
      var t := buf[MSG_TYPE_BEGIN];
      if t == TYPE_ACK then AckFrame(SeqOf(buf))
      else if t == TYPE_PING then PingFrame
      else if t == TYPE_NORMAL || t == TYPE_REG then
        if |buf| < MSG_HEADER_END then TruncatedFrame(t, SeqOf(buf))
        else
          assert buf == [t] + buf[MSG_SEQ_BEGIN..MSG_SEQ_END] + buf[MSG_LEN_BEGIN..MSG_LEN_END] + buf[MSG_HEADER_END..];
          if t == TYPE_NORMAL then NormalFrame(SeqOf(buf), buf[MSG_HEADER_END..])
          else RegFrame(SeqOf(buf), buf[MSG_HEADER_END..])
      else OtherFrame(t)
  }

  /** An acknowledgement shorter than five bytes is read as if the missing
      bytes were zero: the one-byte `[ACK]` acknowledges sequence number 0. */
  lemma ShortAckReadsZeros()
    ensures Parse([TYPE_ACK]) == AckFrame(0)
  {
    var f := Parse([TYPE_ACK]);
    assert SeqWindow([TYPE_ACK]) == [0, 0, 0, 0];
    assert PutUint32(0) == [0, 0, 0, 0];
    PutUint32Injective(f.sequence, 0);
  }

  /** The receiver reads back the sequence number an acknowledgement carries. */
  lemma ParseAckBytes(s: uint32)
    ensures Parse(AckBytes(s)) == AckFrame(s)
  {
  }

  /** A keepalive frame reads as a PING. */
  lemma ParsePingBytes()
    ensures Parse(PingBytes()) == PingFrame
  {
  }

  /** A data frame with sequence number `s` and payload `p` reads back as
      exactly that, whatever its length field says. */
  lemma ParseNormal(s: uint32, len: seq<uint8>, p: seq<uint8>)
    requires |len| == MSG_LEN_SIZE
    ensures Parse([TYPE_NORMAL] + PutUint32(s) + len + p) == NormalFrame(s, p)
  {
    var buf := [TYPE_NORMAL] + PutUint32(s) + len + p;
    assert buf[MSG_SEQ_BEGIN..MSG_SEQ_END] == PutUint32(s);
    assert buf[MSG_HEADER_END..] == p;
  }

  /** A registration frame with sequence number `s` and key bytes `k` reads
      back as exactly that, whatever its length field says. */
  lemma ParseReg(s: uint32, len: seq<uint8>, k: seq<uint8>)
    requires |len| == MSG_LEN_SIZE
    ensures Parse([TYPE_REG as uint8] + PutUint32(s) + len + k) == RegFrame(s, k)
  {
    var buf := [TYPE_REG as uint8] + PutUint32(s) + len + k;
    assert buf[MSG_SEQ_BEGIN..MSG_SEQ_END] == PutUint32(s);
    assert buf[MSG_HEADER_END..] == k;
  }
}
