/** The per-connection state of the UDP connection layer and one iteration of
    each of its loops.

    A socket is modelled by the datagrams it accepted (`written`, one log per
    destination address) and by an outcome `io` that the caller chooses for
    each write. The inbound channel `In` is the list of payloads handed to the
    owner (`delivered`) and a closed flag; the outbound channel `Out` is a
    closed flag, its items arrive as events of the write loops. The connection
    registry is a log of its Register and UnRegister calls. */
module Conn {
  import opened GoInts
  import opened Msg
  import opened BigEndian
  import opened Codec
  import opened Pending

  /** Seconds between two keepalive pings of a listening-side connection. */
  const TICK_PERIOD := 60

  // ---------------------------------------------------------------------------
  // Peer keys and their registry names

  /** A peer's public key: opaque bytes (the key type is not part of this
      model). */
  datatype PubKey = PubKey(raw: seq<uint8>)

  /** The key of a connection whose peer has not registered. */
  const ZERO_KEY := PubKey([])

  predicate IsLowerHex(c: char)
  {
    '0' <= c <= '9' || 'a' <= c <= 'f'
  }

  function HexDigit(d: int): (c: char)
    requires 0 <= d < 16
    ensures IsLowerHex(c)
  {
    if d < 10 then ('0' as int + d) as char else ('a' as int + d - 10) as char
  }

  function HexOf(b: seq<uint8>): (h: string)
    ensures |h| == 2 * |b|
    ensures forall i :: 0 <= i < |h| ==> IsLowerHex(h[i])
  {
    if b == [] then ""
    else [HexDigit(b[0] as int / 16), HexDigit(b[0] as int % 16)] + HexOf(b[1..])
  }

  /** `Hex()` of a key: two lower-case hexadecimal digits per byte. */
  function Hex(key: PubKey): (h: string)
    ensures |h| == 2 * |key.raw|
    ensures forall i :: 0 <= i < |h| ==> IsLowerHex(h[i])
  {
    HexOf(key.raw)
  }

  lemma {:induction false} HexOfInjective(a: seq<uint8>, b: seq<uint8>)
    requires HexOf(a) == HexOf(b)
    ensures a == b
    decreases |a|
  {
    if a != [] {
      var ha, hb := HexOf(a), HexOf(b);
      assert ha[0] == hb[0] && ha[1] == hb[1];
      var x, y := a[0] as int, b[0] as int;
      assert x / 16 == y / 16 && x % 16 == y % 16;
      assert x == 16 * (x / 16) + x % 16 && y == 16 * (y / 16) + y % 16;
      assert ha[2..] == HexOf(a[1..]) && hb[2..] == HexOf(b[1..]);
      HexOfInjective(a[1..], b[1..]);
      assert a == [a[0]] + a[1..] && b == [b[0]] + b[1..];
    }
  }

  /** Distinct keys get distinct registry names. */
  lemma HexInjective(a: PubKey, b: PubKey)
    requires Hex(a) == Hex(b)
    ensures a == b
  {
    HexOfInjective(a.raw, b.raw);
  }

  // ---------------------------------------------------------------------------
  // Outcomes, events and loop steps

  /** A socket error; `Timeout` is a `net.Error` whose `Timeout()` holds. */
  datatype Error = Timeout | Failure(code: nat)

  /** The error a socket call returns: `Ok` is `nil`. */
  datatype Outcome = Ok | Fail(err: Error)

  /** What one loop iteration leads to: the next iteration, a return from the
      loop with the given error (`Return(Ok)` is `return nil`), or a Go panic
      that nothing recovers. */
  datatype Step = Continue | Return(result: Outcome) | Panic

  /** The loop goes on after a successful write and returns its error
      otherwise. */
  function Resume(io: Outcome): (s: Step)
    ensures s.Continue? <==> io.Ok?
    ensures io.Fail? ==> s == Return(io)
  {
    if io.Ok? then Continue else Return(io)
  }

  /** The result of one socket read. */
  datatype ReadEvent = Received(buf: seq<uint8>) | ReadFailed(err: Error)

  /** A value taken from `Out`: a `[]byte`, a `[][]byte`, or anything else. */
  datatype OutItem = Bytes(data: seq<uint8>) | Slices(parts: seq<seq<uint8>>) | Unsupported

  /** What wakes the listening-side write loop: a `Tick` is one firing of its
      TICK_PERIOD-second ticker; a `Receive` is a receive from `Out` (which,
      once `Out` is closed, reports the closing instead of an item). */
  datatype WriteEvent = Tick | Receive(item: OutItem)

  datatype RegistryCall = RegisterCall(keyHex: string, conn: UdpConn) | UnRegisterCall(keyHex: string, conn: UdpConn)

  // ---------------------------------------------------------------------------
  // The value view of a connection

  datatype ConnState = ConnState(
    sequence: uint32,
    pending: Table,
    lastTime: int,
    closed: bool,
    pubkey: PubKey,
    delivered: seq<seq<uint8>>,
    inClosed: bool,
    outClosed: bool,
    written: seq<Datagram>)

  /** The state of a connection that has just been made. */
  function Fresh(now: int): ConnState
  {
    ConnState(0, map[], now, false, ZERO_KEY, [], false, false, [])
  }

  /** The invariant every connection keeps: pending entries sit under their
      own sequence numbers, and `close()` closes `In` before anything else
      can stop it. `Out` may be closed with `closed` still false: the owner of
      the channel `GetChanOut` hands out can close it. */
  predicate ValidState(s: ConnState)
  {
    && KeyedBySeq(s.pending)
    && (s.closed ==> s.inClosed)
  }

  /** The socket log after a write: the datagram is added when the write
      succeeds. */
  function Logged(w: seq<Datagram>, d: Datagram, io: Outcome): (r: seq<Datagram>)
    ensures io.Ok? ==> r == w + [d]
    ensures io.Fail? ==> r == w
  {
    if io.Ok? then w + [d] else w
  }

  /** A send of a `kind` message: the counter moves to the next uint32, the
      message is recorded under that number whether or not the write
      succeeds, and one encoded datagram is logged when it does. */
  function AfterSend(s: ConnState, kind: uint8, payload: seq<uint8>, io: Outcome): (t: ConnState)
    ensures t.sequence == Increment(s.sequence)
    ensures t.pending.Keys == s.pending.Keys + {t.sequence}
    ensures t.pending[t.sequence] == Message(kind, t.sequence, payload)
    ensures forall k :: k in s.pending && k != t.sequence ==> t.pending[k] == s.pending[k]
    ensures io.Ok? ==> t.written == s.written + [Encoded(Message(kind, t.sequence, payload))]
    ensures io.Fail? ==> t.written == s.written
    ensures t == s.(sequence := t.sequence, pending := t.pending, written := t.written)
    ensures ValidState(s) ==> ValidState(t)
  {
    var n := Increment(s.sequence);
    var m := Message(kind, n, payload);
    s.(sequence := n, pending := Record(s.pending, m), written := Logged(s.written, Encoded(m), io))
  }

  /** A data message sent and then acknowledged leaves the pending table as
      it was, provided its number was not already pending: the receiver reads
      the number back out of the acknowledgement frame. */
  lemma SendThenAckRestores(s: ConnState, payload: seq<uint8>, io: Outcome)
    requires Increment(s.sequence) !in s.pending
    ensures var t := AfterSend(s, TYPE_NORMAL, payload, io);
            var f := Parse(AckBytes(t.sequence));
            f.AckFrame? && Acknowledge(t.pending, f.sequence) == s.pending
  {
    var t := AfterSend(s, TYPE_NORMAL, payload, io);
    ParseAckBytes(t.sequence);
    assert Acknowledge(t.pending, t.sequence) == s.pending;
  }

  /** A send keeps the number of pending messages exactly when the counter
      has wrapped onto a number still pending, whose message it replaces. */
  lemma SendReplacesOnlyOnWrap(s: ConnState, kind: uint8, payload: seq<uint8>, io: Outcome)
    ensures var t := AfterSend(s, kind, payload, io);
            (|t.pending| == |s.pending|) <==> t.sequence in s.pending
    ensures var t := AfterSend(s, kind, payload, io);
            t.sequence !in s.pending ==> |t.pending| == |s.pending| + 1
  {
    var t := AfterSend(s, kind, payload, io);
    if t.sequence !in s.pending {
      assert t.pending.Keys == s.pending.Keys + {t.sequence};
      assert |t.pending.Keys| == |s.pending.Keys| + 1;
    } else {
      assert t.pending.Keys == s.pending.Keys;
    }
  }

  /** The state after sending `payloads`, in order, as `kind` messages, every
      write with outcome `io`. */
  function SendAll(s: ConnState, kind: uint8, payloads: seq<seq<uint8>>, io: Outcome): ConnState
    decreases |payloads|
  {
    if payloads == [] then s
    else AfterSend(SendAll(s, kind, payloads[..|payloads| - 1], io), kind, payloads[|payloads| - 1], io)
  }

  /** The datagrams a run of `kind` messages is written as, the counter
      standing at `q` before the run. */
  function SentRun(kind: uint8, q: uint32, payloads: seq<seq<uint8>>): (w: seq<Datagram>)
    ensures |w| == |payloads|
    ensures forall i :: 0 <= i < |payloads| ==> w[i] == Encoded(Message(kind, NumberOf(q, i), payloads[i]))
    decreases |payloads|
  {
    if payloads == [] then []
    else
      var n := |payloads| - 1;
      SentRun(kind, q, payloads[..n]) + [Encoded(Message(kind, NumberOf(q, n), payloads[n]))]
  }

  /** A run of sends, field by field: the counter advanced once per send, the
      run recorded in the table, the run logged when the writes succeed, and
      nothing else changed. */
  lemma {:induction false} SendAllFields(s: ConnState, kind: uint8, payloads: seq<seq<uint8>>, io: Outcome)
    ensures var t := SendAll(s, kind, payloads, io);
            && t.sequence == Advance(s.sequence, |payloads|)
            && t.pending == RecordRun(s.pending, kind, s.sequence, payloads)
            && t.written == (if io.Ok? then s.written + SentRun(kind, s.sequence, payloads) else s.written)
            && t == s.(sequence := t.sequence, pending := t.pending, written := t.written)
    decreases |payloads|
  {
    if payloads != [] {
      var n := |payloads| - 1;
      SendAllFields(s, kind, payloads[..n], io);
      if io.Ok? {
        assert s.written + SentRun(kind, s.sequence, payloads) ==
          (s.written + SentRun(kind, s.sequence, payloads[..n])) + [Encoded(Message(kind, NumberOf(s.sequence, n), payloads[n]))];
      }
    }
  }

  /** A run of sends advances the counter once per send. */
  lemma {:induction false} SendAllCounter(s: ConnState, kind: uint8, payloads: seq<seq<uint8>>, io: Outcome)
    ensures SendAll(s, kind, payloads, io).sequence == Advance(s.sequence, |payloads|)
    decreases |payloads|
  {
    if payloads != [] {
      SendAllCounter(s, kind, payloads[..|payloads| - 1], io);
    }
  }

  /** After a run of sends the counter has advanced by the run's length,
      modulo 2^32. */
  lemma SendAllSequence(s: ConnState, kind: uint8, payloads: seq<seq<uint8>>, io: Outcome)
    ensures SendAll(s, kind, payloads, io).sequence as int == (s.sequence as int + |payloads|) % UINT32_MODULUS
  {
    SendAllCounter(s, kind, payloads, io);
    AdvanceMod(s.sequence, |payloads|);
  }

  /** In a run of at most 2^32 sends every message is still pending, each
      under its own number. */
  lemma SendAllPending(s: ConnState, kind: uint8, payloads: seq<seq<uint8>>, io: Outcome)
    requires |payloads| <= UINT32_MODULUS
    ensures var t := SendAll(s, kind, payloads, io);
            forall i :: 0 <= i < |payloads| ==>
              NumberOf(s.sequence, i) in t.pending &&
              t.pending[NumberOf(s.sequence, i)] == Message(kind, NumberOf(s.sequence, i), payloads[i])
  {
    SendAllFields(s, kind, payloads, io);
    RecordRunPending(s.pending, kind, s.sequence, payloads);
  }

  /** A run of sends leaves every entry it does not reach as it was. */
  lemma SendAllKeeps(s: ConnState, kind: uint8, payloads: seq<seq<uint8>>, io: Outcome, k: uint32)
    requires k in s.pending
    requires forall i :: 0 <= i < |payloads| ==> NumberOf(s.sequence, i) != k
    ensures k in SendAll(s, kind, payloads, io).pending
    ensures SendAll(s, kind, payloads, io).pending[k] == s.pending[k]
  {
    SendAllFields(s, kind, payloads, io);
    RecordRunKeeps(s.pending, kind, s.sequence, payloads, k);
  }

  /** When every write of a run succeeds, the socket log gains the run's
      messages in order, each under its number; when every write fails it
      gains nothing. */
  lemma SendAllWritten(s: ConnState, kind: uint8, payloads: seq<seq<uint8>>, io: Outcome)
    ensures var t := SendAll(s, kind, payloads, io);
            io.Ok? ==>
              && |t.written| == |s.written| + |payloads|
              && t.written[..|s.written|] == s.written
              && forall i :: 0 <= i < |payloads| ==>
                   t.written[|s.written| + i] == Encoded(Message(kind, NumberOf(s.sequence, i), payloads[i]))
    ensures io.Fail? ==> SendAll(s, kind, payloads, io).written == s.written
  {
    SendAllFields(s, kind, payloads, io);
    var t := SendAll(s, kind, payloads, io);
    if io.Ok? {
      assert t.written[..|s.written|] == s.written;
    }
  }

  // ---------------------------------------------------------------------------
  // close()

  /** `close()` reaches UnRegister only when neither channel was closed. */
  predicate Unregisters(s: ConnState)
  {
    !s.inClosed && !s.outClosed
  }

  /** `close()` sets `closed` and closes `In`; when `In` was open it goes on to
      close `Out`. Closing a closed channel panics and the deferred recover
      ends the call there. */
  function AfterClose(s: ConnState): (t: ConnState)
    ensures t.closed && t.inClosed
    ensures t.outClosed == (s.outClosed || !s.inClosed)
    ensures t == s.(closed := true, inClosed := true, outClosed := t.outClosed)
    ensures ValidState(s) ==> ValidState(t)
  {
    if s.inClosed then s.(closed := true)
    else s.(closed := true, inClosed := true, outClosed := true)
  }

  function CloseTimes(s: ConnState, n: nat): ConnState
  {
    if n == 0 then s else AfterClose(CloseTimes(s, n - 1))
  }

  /** How many of `n` successive `close()` calls reach UnRegister. */
  function UnregisterCount(s: ConnState, n: nat): nat
  {
    if n == 0 then 0 else UnregisterCount(s, n - 1) + (if Unregisters(CloseTimes(s, n - 1)) then 1 else 0)
  }

  /** Closing N >= 1 times has the effect of closing once, and UnRegister is
      reached at most once, exactly when the first call finds both channels
      open. */
  lemma {:induction false} CloseRepeated(s: ConnState, n: nat)
    requires n >= 1
    ensures CloseTimes(s, n) == AfterClose(s)
    ensures UnregisterCount(s, n) == if Unregisters(s) then 1 else 0
  {
    if n > 1 {
      CloseRepeated(s, n - 1);
      assert CloseTimes(s, n - 1).inClosed;
    }
  }

  /** Once a read timeout has closed `In`, no number of `close()` calls closes
      `Out` or reaches UnRegister: the connection stays registered and its
      write loop is never told to stop. */
  lemma TimedOutStaysRegistered(s: ConnState, n: nat)
    requires n >= 1 && s.inClosed && !s.outClosed
    ensures CloseTimes(s, n).closed && !CloseTimes(s, n).outClosed
    ensures UnregisterCount(s, n) == 0
  {
    CloseRepeated(s, n);
  }

  /** When the owner of `Out` has closed it while `In` is still open, the
      first `close()` closes `In` and then panics on `Out`, so no number of
      `close()` calls reaches UnRegister. */
  lemma OwnerClosedOutStaysRegistered(s: ConnState, n: nat)
    requires n >= 1 && !s.inClosed && s.outClosed
    ensures CloseTimes(s, n) == s.(closed := true, inClosed := true)
    ensures UnregisterCount(s, n) == 0
  {
    CloseRepeated(s, n);
  }

  // ---------------------------------------------------------------------------
  // Concatenation of fragments (the `bytes.Buffer` of WriteSlice)

  function Concat(parts: seq<seq<uint8>>): seq<uint8>
    decreases |parts|
  {
    if parts == [] then [] else Concat(parts[..|parts| - 1]) + parts[|parts| - 1]
  }

  lemma {:induction false} ConcatAppend(a: seq<seq<uint8>>, b: seq<seq<uint8>>)
    ensures Concat(a + b) == Concat(a) + Concat(b)
    decreases |b|
  {
    if b == [] {
      assert a + b == a;
    } else {
      var b' := b[..|b| - 1];
      assert (a + b)[..|a + b| - 1] == a + b';
      ConcatAppend(a, b');
    }
  }

  /** Fragment `i` appears, whole and in place, right after the fragments
      before it. */
  lemma ConcatFragment(parts: seq<seq<uint8>>, i: nat)
    requires i < |parts|
    ensures var off := |Concat(parts[..i])|;
            off + |parts[i]| <= |Concat(parts)| && Concat(parts)[off..off + |parts[i]|] == parts[i]
  {
    assert parts == parts[..i] + [parts[i]] + parts[i + 1..];
    ConcatAppend(parts[..i] + [parts[i]], parts[i + 1..]);
    ConcatAppend(parts[..i], [parts[i]]);
    assert Concat([parts[i]]) == parts[i] by {
      assert [parts[i]][..0] == [];
    }
  }

  /** The fragments written into a buffer one after the other, in order. */
  method Concatenate(src: seq<seq<uint8>>) returns (r: seq<uint8>)
    ensures r == Concat(src)
  {
    r := [];
    for i := 0 to |src|
      invariant r == Concat(src[..i])
    {
      assert src[..i + 1][..i] == src[..i];
      r := r + src[i];
    }
    assert src[..|src|] == src;
  }

  /** The acknowledgement frame, filled in place as `ack` does. */
  method FillAck(s: uint32) returns (resp: array<uint8>)
    ensures fresh(resp) && resp[..] == AckBytes(s)
  {
    resp := new uint8[MSG_SEQ_END];
    resp[MSG_TYPE_BEGIN] := TYPE_ACK;
    PutUint32At(resp, MSG_SEQ_BEGIN, s);
    assert resp[..] == [resp[MSG_TYPE_BEGIN]] + resp[MSG_SEQ_BEGIN..MSG_SEQ_END];
  }

  // ---------------------------------------------------------------------------
  // The connection registry

  /** The registry the connections call into; only its calls are modelled. */
  class ConnectionFactory {
    var calls: seq<RegistryCall>

    constructor ()
      ensures calls == []
    {
      calls := [];
    }

    method Register(keyHex: string, c: UdpConn)
      modifies this
      ensures calls == old(calls) + [RegisterCall(keyHex, c)]
    {
      calls := calls + [RegisterCall(keyHex, c)];
    }

    method UnRegister(keyHex: string, c: UdpConn)
      modifies this
      ensures calls == old(calls) + [UnRegisterCall(keyHex, c)]
    {
      calls := calls + [UnRegisterCall(keyHex, c)];
    }
  }

  // ---------------------------------------------------------------------------
  // UDPConn: one logical connection

  class UdpConn {
    const factory: ConnectionFactory
    var sequence: uint32
    var pending: Table
    var lastTime: int
    var closed: bool
    var pubkey: PubKey
    /** Payloads handed to the owner through `In`, oldest first. */
    var delivered: seq<seq<uint8>>
    var inClosed: bool
    var outClosed: bool
    /** Datagrams the socket accepted for this connection's address. */
    ghost var written: seq<Datagram>

    ghost function State(): ConnState
      reads this
    {
      ConnState(sequence, pending, lastTime, closed, pubkey, delivered, inClosed, outClosed, written)
    }

    ghost predicate Valid()
      reads this
    {
      ValidState(State())
    }

    /** NewUDPConn: open channels, an empty pending table, `lastTime` now. */
    constructor (factory: ConnectionFactory, now: int)
      ensures this.factory == factory
      ensures State() == Fresh(now) && Valid()
    {
      this.factory := factory;
      sequence := 0;
      pending := map[];
      lastTime := now;
      closed := false;
      pubkey := ZERO_KEY;
      delivered := [];
      inClosed := false;
      outClosed := false;
      written := [];
    }

    method WriteBytes(d: Datagram, io: Outcome) returns (err: Outcome)
      modifies this
      ensures err == io
      ensures State() == old(State()).(written := Logged(old(written), d, io))
    {
      written := Logged(written, d, io);
      err := io;
    }

    /** Writes the acknowledgement of `s`; nothing but the socket log changes. */
    method Ack(s: uint32, io: Outcome) returns (err: Outcome)
      modifies this
      ensures err == io
      ensures State() == old(State()).(written := Logged(old(written), Raw(AckBytes(s)), io))
    {
      var resp := FillAck(s);
      err := WriteBytes(Raw(resp[..]), io);
    }

    /** Writes one keepalive frame; nothing but the socket log changes. */
    method Ping(io: Outcome) returns (err: Outcome)
      modifies this
      ensures err == io
      ensures State() == old(State()).(written := Logged(old(written), Raw(PingBytes()), io))
    {
      var b := new uint8[MSG_TYPE_SIZE];
      b[MSG_TYPE_BEGIN] := TYPE_PING;
      assert b[..] == PingBytes();
      err := WriteBytes(Raw(b[..]), io);
    }

    /** Sends `p` as one NORMAL message under the next sequence number. */
    method Write(p: seq<uint8>, io: Outcome) returns (err: Outcome)
      requires Valid()
      modifies this
      ensures Valid() && err == io
      ensures State() == AfterSend(old(State()), TYPE_NORMAL, p, io)
    {
      var n := Increment(sequence);
      sequence := n;
      var m := Message(TYPE_NORMAL, n, p);
      pending := Record(pending, m);
      err := WriteBytes(Encoded(m), io);
    }

    /** `In <- p`: a send on a closed channel panics. */
    method Deliver(p: seq<uint8>) returns (step: Step)
      modifies this
      ensures old(inClosed) ==> step == Panic && State() == old(State())
      ensures !old(inClosed) ==> step == Continue && State() == old(State()).(delivered := old(delivered) + [p])
    {
      if inClosed {
        return Panic;
      }
      delivered := delivered + [p];
      step := Continue;
    }

    /** `close(In)` after a read timeout: closing a closed channel panics. */
    method CloseIn() returns (step: Step)
      requires Valid()
      modifies this
      ensures Valid()
      ensures old(inClosed) ==> step == Panic && State() == old(State())
      ensures !old(inClosed) ==> step == Continue && State() == old(State()).(inClosed := true)
    {
      if inClosed {
        return Panic;
      }
      inClosed := true;
      step := Continue;
    }

    /** close(): `closed` becomes true; the first call closes both channels and
        unregisters the connection under its key's hex name; a call that finds
        `In` closed stops there (the panic is recovered). */
    method Close()
      requires Valid()
      modifies this, factory
      ensures Valid()
      ensures State() == AfterClose(old(State()))
      ensures factory.calls == old(factory.calls) +
        (if Unregisters(old(State())) then [UnRegisterCall(Hex(old(pubkey)), this)] else [])
    {
      closed := true;
      if inClosed {
        return;
      }
      inClosed := true;
      if outClosed {
        return;
      }
      outClosed := true;
      factory.UnRegister(Hex(pubkey), this);
    }

    method GetPublicKey() returns (key: PubKey)
      ensures key == pubkey
    {
      key := pubkey;
    }

    method IsClosed() returns (c: bool)
      ensures c == closed
    {
      c := closed;
    }

    method GetLastTime() returns (t: int)
      ensures t == lastTime
    {
      t := lastTime;
    }

    /** One iteration of the listening-side write loop: a tick sends a ping; a
        receive from a closed `Out` ends the loop with no error; a `[]byte`
        item is sent with Write; any other item is dropped. A failed write
        ends the loop with its error. */
    method WriteLoopStep(ev: WriteEvent, io: Outcome) returns (step: Step)
      requires Valid()
      modifies this
      ensures Valid()
      ensures ev.Tick? ==>
        step == Resume(io) && State() == old(State()).(written := Logged(old(written), Raw(PingBytes()), io))
      ensures ev.Receive? && old(outClosed) ==> step == Return(Ok) && State() == old(State())
      ensures ev.Receive? && !old(outClosed) && ev.item.Bytes? ==>
        step == Resume(io) && State() == AfterSend(old(State()), TYPE_NORMAL, ev.item.data, io)
      ensures ev.Receive? && !old(outClosed) && !ev.item.Bytes? ==> step == Continue && State() == old(State())
    {
      match ev
      case Tick =>
        var err := Ping(io);
        step := Resume(err);
      case Receive(item) =>
        if outClosed {
          return Return(Ok);
        }
        match item
        case Bytes(d) =>
          var err := Write(d, io);
          step := Resume(err);
        case _ =>
          step := Continue;
    }
  }

  // ---------------------------------------------------------------------------
  // UDPServerConn: the listening socket and its demultiplexing read loop

  class UdpServerConn {
    /** The listening connection's own state (the embedded UDPConn). */
    const conn: UdpConn
    const factory: ConnectionFactory

    /** NewUDPServerConn. The embedded state has no start time. */
    constructor (factory: ConnectionFactory)
      ensures this.factory == factory && fresh(conn)
      ensures conn.State() == Fresh(0) && conn.Valid()
    {
      this.factory := factory;
      conn := new UdpConn(factory, 0);
    }

    /** A failed read: a timeout closes the peer's `In` (the connection is
        for the read's address), any other error ends the loop. */
    method ReadFailure(e: Error, cc: UdpConn) returns (step: Step)
      requires cc.Valid()
      modifies cc
      ensures cc.Valid()
      ensures e.Timeout? ==>
        if old(cc.inClosed) then step == Panic && cc.State() == old(cc.State())
        else step == Continue && cc.State() == old(cc.State()).(inClosed := true)
      ensures !e.Timeout? ==> step == Return(Fail(e)) && cc.State() == old(cc.State())
    {
      if e.Timeout? {
        step := cc.CloseIn();
      } else {
        step := Return(Fail(e));
      }
    }

    /** An ACK datagram: its number leaves the listening connection's pending
        table (not `cc`'s) and `cc.lastTime` is stamped. */
    method ReceiveAck(s: uint32, cc: UdpConn, now: int)
      requires conn.Valid() && cc.Valid() && cc != conn
      modifies conn, cc
      ensures conn.Valid() && cc.Valid()
      ensures conn.State() == old(conn.State()).(pending := Acknowledge(old(conn.pending), s))
      ensures cc.State() == old(cc.State()).(lastTime := now)
    {
      conn.pending := Acknowledge(conn.pending, s);
      cc.lastTime := now;
    }

    /** A PING datagram: the PONG goes out through the listening connection;
        `cc.lastTime` is stamped when it was written. */
    method ReceivePing(cc: UdpConn, now: int, io: Outcome) returns (step: Step)
      requires conn.Valid() && cc.Valid() && cc != conn
      modifies conn, cc
      ensures conn.Valid() && cc.Valid()
      ensures step == Resume(io)
      ensures conn.State() == old(conn.State()).(written := Logged(old(conn.written), Raw(PongBytes()), io))
      ensures cc.State() == if io.Ok? then old(cc.State()).(lastTime := now) else old(cc.State())
    {
      var err := conn.WriteBytes(Raw(PongBytes()), io);
      if err.Fail? {
        return Return(err);
      }
      cc.lastTime := now;
      step := Continue;
    }

    /** A NORMAL datagram: acknowledged through `cc`, then its payload goes to
        `cc.In` and `cc.lastTime` is stamped. */
    method ReceiveNormal(s: uint32, payload: seq<uint8>, cc: UdpConn, now: int, io: Outcome) returns (step: Step)
      requires cc.Valid()
      modifies cc
      ensures cc.Valid()
      ensures var acked := old(cc.State()).(written := old(cc.written) + [Raw(AckBytes(s))]);
        if io.Fail? then step == Return(io) && cc.State() == old(cc.State())
        else if old(cc.inClosed) then step == Panic && cc.State() == acked
        else step == Continue && cc.State() == acked.(delivered := old(cc.delivered) + [payload], lastTime := now)
    {
      var err := cc.Ack(s, io);
      if err.Fail? {
        return Return(err);
      }
      step := cc.Deliver(payload);
      if step.Panic? {
        return;
      }
      cc.lastTime := now;
    }

    /** A NORMAL or REG datagram shorter than its header: acknowledged through
        `cc`, after which taking its body fails. */
    method ReceiveTruncated(s: uint32, cc: UdpConn, io: Outcome) returns (step: Step)
      requires cc.Valid()
      modifies cc
      ensures cc.Valid()
      ensures io.Fail? ==> step == Return(io) && cc.State() == old(cc.State())
      ensures io.Ok? ==> step == Panic && cc.State() == old(cc.State()).(written := old(cc.written) + [Raw(AckBytes(s))])
    {
      var err := cc.Ack(s, io);
      if err.Fail? {
        return Return(err);
      }
      step := Panic;
    }

    /** A REG datagram: acknowledged through `cc`, then `cc` takes the key,
        is registered under the key's hex name and `cc.lastTime` is stamped. */
    method ReceiveReg(s: uint32, k: seq<uint8>, cc: UdpConn, now: int, io: Outcome) returns (step: Step)
      requires cc.Valid()
      modifies cc, factory
      ensures cc.Valid()
      ensures io.Fail? ==>
        step == Return(io) && cc.State() == old(cc.State()) && factory.calls == old(factory.calls)
      ensures io.Ok? ==>
        && step == Continue
        && cc.State() == old(cc.State()).(written := old(cc.written) + [Raw(AckBytes(s))],
                                           pubkey := PubKey(k), lastTime := now)
        && factory.calls == old(factory.calls) + [RegisterCall(Hex(PubKey(k)), cc)]
    {
      var err := cc.Ack(s, io);
      if err.Fail? {
        return Return(err);
      }
      var key := PubKey(k);
      cc.pubkey := key;
      factory.Register(Hex(key), cc);
      cc.lastTime := now;
      step := Continue;
    }

    /** One iteration of the server read loop, for one socket read whose
        sender the registry resolved to the peer connection `cc`.
        ACK deletes from the listening connection's own pending table and
        PING is answered through the listening connection, not through `cc`.
        NORMAL and REG are acknowledged through `cc` first; a failed
        acknowledgement ends the loop with nothing delivered or bound. Every
        datagram whose case did not end the loop stamps `cc.lastTime`. */
    method ReadLoopStep(ev: ReadEvent, cc: UdpConn, now: int, io: Outcome) returns (step: Step)
      requires conn.Valid() && cc.Valid() && cc != conn
      requires ev.Received? ==> |ev.buf| <= MAX_UDP_PACKAGE_SIZE
      modifies conn, cc, factory
      ensures conn.Valid() && cc.Valid()
      // a read timeout closes the peer's In; any other read error ends the loop
      ensures ev.ReadFailed? ==> conn.State() == old(conn.State()) && factory.calls == old(factory.calls)
      ensures ev.ReadFailed? && ev.err.Timeout? ==>
        if old(cc.inClosed) then step == Panic && cc.State() == old(cc.State())
        else step == Continue && cc.State() == old(cc.State()).(inClosed := true)
      ensures ev.ReadFailed? && !ev.err.Timeout? ==>
        step == Return(Fail(ev.err)) && cc.State() == old(cc.State())
      // ACK
      ensures ev.Received? && Parse(ev.buf).AckFrame? ==>
        && step == Continue
        && conn.State() == old(conn.State()).(pending := Acknowledge(old(conn.pending), Parse(ev.buf).sequence))
        && cc.State() == old(cc.State()).(lastTime := now)
        && factory.calls == old(factory.calls)
      // PING
      ensures ev.Received? && Parse(ev.buf).PingFrame? ==>
        && step == Resume(io)
        && conn.State() == old(conn.State()).(written := Logged(old(conn.written), Raw(PongBytes()), io))
        && cc.State() == (if io.Ok? then old(cc.State()).(lastTime := now) else old(cc.State()))
        && factory.calls == old(factory.calls)
      // NORMAL
      ensures ev.Received? && Parse(ev.buf).NormalFrame? ==>
        var f := Parse(ev.buf);
        var acked := old(cc.State()).(written := old(cc.written) + [Raw(AckBytes(f.sequence))]);
        && conn.State() == old(conn.State())
        && factory.calls == old(factory.calls)
        && (if io.Fail? then step == Return(io) && cc.State() == old(cc.State())
            else if old(cc.inClosed) then step == Panic && cc.State() == acked
            else step == Continue && cc.State() == acked.(delivered := old(cc.delivered) + [f.payload], lastTime := now))
      // REG
      ensures ev.Received? && Parse(ev.buf).RegFrame? ==>
        var f := Parse(ev.buf);
        && conn.State() == old(conn.State())
        && (if io.Fail? then
              step == Return(io) && cc.State() == old(cc.State()) && factory.calls == old(factory.calls)
            else
              && step == Continue
              && cc.State() == old(cc.State()).(written := old(cc.written) + [Raw(AckBytes(f.sequence))],
                                                 pubkey := PubKey(f.key), lastTime := now)
              && factory.calls == old(factory.calls) + [RegisterCall(Hex(PubKey(f.key)), cc)])
      // any other type
      ensures ev.Received? && Parse(ev.buf).OtherFrame? ==>
        && step == Continue
        && conn.State() == old(conn.State())
        && cc.State() == old(cc.State()).(lastTime := now)
        && factory.calls == old(factory.calls)
      // a NORMAL or REG datagram shorter than its header
      ensures ev.Received? && Parse(ev.buf).TruncatedFrame? ==>
        && conn.State() == old(conn.State())
        && factory.calls == old(factory.calls)
        && (if io.Fail? then step == Return(io) && cc.State() == old(cc.State())
            else step == Panic && cc.State() == old(cc.State()).(written := old(cc.written) + [Raw(AckBytes(Parse(ev.buf).sequence))]))
      // an empty datagram has no type byte to read
      ensures ev.Received? && Parse(ev.buf).EmptyFrame? ==>
        step == Panic && conn.State() == old(conn.State()) && cc.State() == old(cc.State()) && factory.calls == old(factory.calls)
    {
      match ev {
      case ReadFailed(e) =>
        step := ReadFailure(e, cc);
      case Received(buf) =>
        match Parse(buf) {
        case AckFrame(s) =>
          ReceiveAck(s, cc, now);
          step := Continue;
        case PingFrame =>
          step := ReceivePing(cc, now, io);
        case NormalFrame(s, payload) =>
          step := ReceiveNormal(s, payload, cc, now, io);
        case RegFrame(s, k) =>
          step := ReceiveReg(s, k, cc, now, io);
        case TruncatedFrame(_, s) =>
          step := ReceiveTruncated(s, cc, io);
        case OtherFrame(_) =>
          cc.lastTime := now;
          step := Continue;
        case EmptyFrame =>
          step := Panic;
        }
      }
    }
  }

  // ---------------------------------------------------------------------------
  // UDPClientConn: one dedicated socket to one peer

  class UdpClientConn {
    /** The client's connection state (the embedded UDPConn). */
    const conn: UdpConn

    /** NewUDPClientConn: open channels and an empty pending table; no start
        time is set. */
    constructor (factory: ConnectionFactory)
      ensures fresh(conn) && conn.factory == factory
      ensures conn.State() == Fresh(0) && conn.Valid()
    {
      conn := new UdpConn(factory, 0);
    }

    /** Writes the acknowledgement of `s` on the dedicated socket. */
    method Ack(s: uint32, io: Outcome) returns (err: Outcome)
      modifies conn
      ensures err == io
      ensures conn.State() == old(conn.State()).(written := Logged(old(conn.written), Raw(AckBytes(s)), io))
    {
      var resp := FillAck(s);
      err := conn.WriteBytes(Raw(resp[..]), io);
    }

    /** Sends `p` as one NORMAL message under the next sequence number. */
    method Write(p: seq<uint8>, io: Outcome) returns (err: Outcome)
      requires conn.Valid()
      modifies conn
      ensures conn.Valid() && err == io
      ensures conn.State() == AfterSend(old(conn.State()), TYPE_NORMAL, p, io)
    {
      var n := Increment(conn.sequence);
      conn.sequence := n;
      var m := Message(TYPE_NORMAL, n, p);
      conn.pending := Record(conn.pending, m);
      err := conn.WriteBytes(Encoded(m), io);
    }

    /** Sends the fragments of `src`, concatenated in order, as ONE NORMAL
        message under ONE new sequence number. */
    method WriteSlice(src: seq<seq<uint8>>, io: Outcome) returns (err: Outcome)
      requires conn.Valid()
      modifies conn
      ensures conn.Valid() && err == io
      ensures conn.State() == AfterSend(old(conn.State()), TYPE_NORMAL, Concat(src), io)
    {
      var n := Increment(conn.sequence);
      conn.sequence := n;
      var payload := Concatenate(src);
      var m := Message(TYPE_NORMAL, n, payload);
      conn.pending := Record(conn.pending, m);
      err := conn.WriteBytes(Encoded(m), io);
    }

    /** Announces the client's key: one REG message carrying the key bytes. */
    method SendReg(key: PubKey, io: Outcome) returns (err: Outcome)
      requires conn.Valid()
      modifies conn
      ensures conn.Valid() && err == io
      ensures conn.State() == AfterSend(old(conn.State()), TYPE_REG, key.raw, io)
    {
      var n := Increment(conn.sequence);
      conn.sequence := n;
      var m := Message(TYPE_REG, n, key.raw);
      conn.pending := Record(conn.pending, m);
      err := conn.WriteBytes(Encoded(m), io);
    }

    /** One iteration of the client read loop. Only ACK and NORMAL are acted
        on; `lastTime` is never touched. A NORMAL datagram shorter than its
        header is acknowledged and then fails, as does an empty datagram
        before anything happens. */
    method ReadLoopStep(ev: ReadEvent, io: Outcome) returns (step: Step)
      requires conn.Valid()
      requires ev.Received? ==> |ev.buf| <= MAX_UDP_PACKAGE_SIZE
      modifies conn
      ensures conn.Valid()
      ensures ev.ReadFailed? ==> step == Return(Fail(ev.err)) && conn.State() == old(conn.State())
      ensures ev.Received? && Parse(ev.buf).AckFrame? ==>
        && step == Continue
        && conn.State() == old(conn.State()).(pending := Acknowledge(old(conn.pending), Parse(ev.buf).sequence))
      ensures ev.Received? && Parse(ev.buf).NormalFrame? ==>
        var f := Parse(ev.buf);
        var acked := old(conn.State()).(written := old(conn.written) + [Raw(AckBytes(f.sequence))]);
        if io.Fail? then step == Return(io) && conn.State() == old(conn.State())
        else if old(conn.inClosed) then step == Panic && conn.State() == acked
        else step == Continue && conn.State() == acked.(delivered := old(conn.delivered) + [f.payload])
      ensures ev.Received? && Parse(ev.buf).TruncatedFrame? && Parse(ev.buf).kind == TYPE_NORMAL ==>
        if io.Fail? then step == Return(io) && conn.State() == old(conn.State())
        else step == Panic && conn.State() == old(conn.State()).(written := old(conn.written) + [Raw(AckBytes(Parse(ev.buf).sequence))])
      ensures ev.Received? && Parse(ev.buf).EmptyFrame? ==> step == Panic && conn.State() == old(conn.State())
      ensures ev.Received? && (Parse(ev.buf).PingFrame? || Parse(ev.buf).RegFrame? || Parse(ev.buf).OtherFrame? ||
                               (Parse(ev.buf).TruncatedFrame? && Parse(ev.buf).kind != TYPE_NORMAL)) ==>
        step == Continue && conn.State() == old(conn.State())
    {
      match ev
      case ReadFailed(e) =>
        step := Return(Fail(e));
      case Received(buf) =>
        match Parse(buf)
        case AckFrame(s) =>
          conn.pending := Acknowledge(conn.pending, s);
          step := Continue;
        case NormalFrame(s, payload) =>
          var err := Ack(s, io);
          if err.Fail? {
            return Return(err);
          }
          step := conn.Deliver(payload);
        case TruncatedFrame(kind, s) =>
          if kind == TYPE_NORMAL {
            var err := Ack(s, io);
            if err.Fail? {
              return Return(err);
            }
            step := Panic;
          } else {
            step := Continue;
          }
        case EmptyFrame =>
          step := Panic;
        case _ =>
          step := Continue;
    }

    /** One iteration of the client write loop (it has no ticker): a receive
        from a closed `Out` ends the loop with no error; `[]byte` goes out with
        Write, `[][]byte` with WriteSlice; anything else is skipped. A failed
        write ends the loop with its error. */
    method WriteLoopStep(item: OutItem, io: Outcome) returns (step: Step)
      requires conn.Valid()
      modifies conn
      ensures conn.Valid()
      ensures old(conn.outClosed) ==> step == Return(Ok) && conn.State() == old(conn.State())
      ensures !old(conn.outClosed) && item.Bytes? ==>
        step == Resume(io) && conn.State() == AfterSend(old(conn.State()), TYPE_NORMAL, item.data, io)
      ensures !old(conn.outClosed) && item.Slices? ==>
        step == Resume(io) && conn.State() == AfterSend(old(conn.State()), TYPE_NORMAL, Concat(item.parts), io)
      ensures !old(conn.outClosed) && item.Unsupported? ==> step == Continue && conn.State() == old(conn.State())
    {
      if conn.outClosed {
        return Return(Ok);
      }
      match item
      case Bytes(d) =>
        var err := Write(d, io);
        step := Resume(err);
      case Slices(parts) =>
        var err := WriteSlice(parts, io);
        step := Resume(err);
      case Unsupported =>
        step := Continue;
    }
  }

  // ---------------------------------------------------------------------------
  // A client and a server talking

  /** A client registers `key` and then sends `hello`: the REG message goes
      out under sequence number 1 and the data message under 2. The
      acknowledgements of both, read back, leave its pending table empty. */
  method ClientRegisterThenSend(key: PubKey, hello: seq<uint8>) returns (ghost written: seq<Datagram>, clientPending: Table)
    ensures written == [Encoded(Message(TYPE_REG, 1, key.raw)), Encoded(Message(TYPE_NORMAL, 2, hello))]
    ensures clientPending == map[]
  {
    var factory := new ConnectionFactory();
    var client := new UdpClientConn(factory);
    var e1 := client.SendReg(key, Ok);
    var e2 := client.Write(hello, Ok);
    written := client.conn.written;
    ParseAckBytes(2);
    var s1 := client.ReadLoopStep(Received(AckBytes(2)), Ok);
    ParseAckBytes(1);
    var s2 := client.ReadLoopStep(Received(AckBytes(1)), Ok);
    clientPending := client.conn.pending;
  }

  /** A server reads, for a new peer connection `cc`, a REG datagram with
      sequence number 1 carrying `key` and then a data datagram with sequence
      number 2 carrying `hello`, each laid out as the message package's data
      header describes (with length fields nobody reads). It acknowledges 1
      and 2 in that order, binds and registers the key, delivers only
      "hello" (a registration is not delivered), and stamps the peer, made at
      `created`, with the time `now` of the reads. */
  method ServerReceivesRegThenData(key: PubKey, hello: seq<uint8>, lenReg: seq<uint8>, lenData: seq<uint8>,
                                    created: int, now: int)
    returns (cc: UdpConn, calls: seq<RegistryCall>)
    requires created != now
    requires |lenReg| == MSG_LEN_SIZE && |lenData| == MSG_LEN_SIZE
    requires MSG_HEADER_SIZE + |key.raw| <= MAX_UDP_PACKAGE_SIZE && MSG_HEADER_SIZE + |hello| <= MAX_UDP_PACKAGE_SIZE
    ensures cc.pubkey == key && cc.lastTime == now
    ensures cc.delivered == [hello]
    ensures cc.written == [Raw(AckBytes(1)), Raw(AckBytes(2))]
    ensures calls == [RegisterCall(Hex(key), cc)]
  {
    var factory := new ConnectionFactory();
    var server := new UdpServerConn(factory);
    cc := new UdpConn(factory, created);
    var regBytes := [TYPE_REG as uint8] + PutUint32(1) + lenReg + key.raw;
    ParseReg(1, lenReg, key.raw);
    assert Parse(regBytes) == RegFrame(1, key.raw);
    var s1 := server.ReadLoopStep(Received(regBytes), cc, now, Ok);
    assert PubKey(key.raw) == key;
    assert cc.pubkey == key && cc.delivered == [] && cc.written == [Raw(AckBytes(1))];
    assert factory.calls == [RegisterCall(Hex(key), cc)];
    var dataBytes := [TYPE_NORMAL] + PutUint32(2) + lenData + hello;
    ParseNormal(2, lenData, hello);
    assert Parse(dataBytes) == NormalFrame(2, hello);
    var s2 := server.ReadLoopStep(Received(dataBytes), cc, now, Ok);
    calls := factory.calls;
  }
}
