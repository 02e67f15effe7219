# UDP connection layer: verified model

This project models the UDP connection layer of a small peer-to-peer messaging network:
- byte-level framing of datagrams: acknowledgement, keepalive, data and registration frames, and the header constants of the message package;
- the per-connection state machine.

A connection keeps a 32-bit sequence counter and a table of pending sends keyed by sequence number. It also keeps the time of the last datagram seen, a closed flag and the peer's public key, plus two channels: `In` delivers payloads to the owner and `Out` takes items to send.

There are two kinds of connection:
- A **server** reads one shared socket and hands each datagram to the peer connection for its sender address.
- A **client** owns a dedicated socket to one peer.

Each side has a read loop and a write loop. The model gives one iteration of each as a method.

The modules:
- `GoInts` (`go_ints.dfy`): Go's `byte` and `uint32` as integer ranges, and the wrapping increment.
- `Msg` (`msg_const.dfy`): the header constants, type codes and status flags. Each constant a Go constant block repeats implicitly is written out. The layout, distinctness and bit-disjointness facts are lemmas.
- `BigEndian` (`big_endian.dfy`): the four-byte big-endian reading and writing the layer uses, including the in-place write into a byte array.
- `Codec` (`udp_codec.dfy`):
  - the frames a connection builds;
  - the record a data or registration message is built from;
  - `Parse`, which says what a read loop finds in a datagram from its type byte.
- `Pending` (`udp_pending.dfy`): the pending-send table, with record and acknowledge and their algebra, plus histories of sends and acknowledgements.
- `Conn` (`udp_conn.dfy`):
  - the classes `UdpConn`, `UdpServerConn`, `UdpClientConn` and a registry call log `ConnectionFactory`;
  - the value view `ConnState` of a connection and the pure functions the methods are specified by (`AfterSend`, `AfterClose`, `Concat`);
  - the lemmas about runs of sends, repeated closes and the hex key names;
  - two scenarios in which a client registers and sends, and a server receives.

External pieces are logs and parameters:
- **Socket writes.** Each `UdpConn` has a ghost log `written` of the datagrams the socket accepted for its address. Each write takes its outcome `io` as a parameter, and the datagram is logged only when `io` is `Ok`.
- **`In`.** The payloads delivered so far, plus an `inClosed` flag.
- **`Out`.** An `outClosed` flag. The items it yields arrive as events of the write loops.
- **The connection registry.** A log of its Register and UnRegister calls.
- **The peer connection for an address.** The server's read step receives it as the parameter `cc`.
- **The clock.** Passed as `now`.
- **Goroutine panics.** An unrecovered panic is the loop result `Panic`. This covers a send on a closed `In`, closing a closed `In` after a read timeout, and the slicing failures below.

Points where the code does something easy to miss:
- **ACK on the server.** An ACK received by the server deletes from the *listening* connection's own pending table, not from the peer connection's. A PONG is written through the listening connection too.
- **`lastTime`.** It is stamped only after a datagram whose case did not end the loop. A failed acknowledgement or PONG write skips it, and so do the panicking cases. The client never stamps it.
- **Ticker.** Only the listening-side write loop has the 60-second ticker. The client's write loop has none.
- **Registration datagrams** are acknowledged, bound and registered, but not delivered to `In`.
- **Short and empty datagrams.** The read buffer keeps the 1024-byte capacity of the array it was read into:
  - The sequence number of a short datagram is read with zeros past its end (`SeqWindow`; `ShortAckReadsZeros`).
  - On the server, a NORMAL or REG datagram shorter than 9 bytes is acknowledged, and then taking its body panics (`TruncatedFrame`).
  - On the client, a NORMAL datagram shorter than 9 bytes is acknowledged and then panics the same way. A REG datagram of any length is ignored there, like every other type the client does not handle.
  - An empty datagram panics at its type byte, on both sides.
- **`close()` after a timeout.** A read timeout closes `In`. A later `close()` then stops at the recovered panic, without closing `Out` or unregistering (`TimedOutStaysRegistered`).
- **`Out` closed by its owner.** `GetChanOut` hands out `Out`, and its owner may close it without `closed` being set. The write loops then return with no error. A later `close()` closes `In`, panics on `Out` and never unregisters (`OwnerClosedOutStaysRegistered`). The connection invariant therefore does not tie `outClosed` to `closed`.
- **PING on the server.** The PONG goes through the listening connection, and `NewUDPServerConn` (conn/udp.go:44-49) never sets that connection's address. A write to a nil address fails on an unconnected socket, so as written a PING would end the server's read loop. The model leaves the outcome of that write a parameter, like every other write, and its contracts cover both outcomes.

## Model

| member | source | states |
|---|---|---|
| GoInts.IncrementMod | conn/udp.go:149 | the increment is addition of one modulo 2^32 |
| GoInts.AdvanceMod | conn/udp.go:148-153 | `n` increments of the counter add `n` modulo 2^32 |
| GoInts.AdvanceDistinct | conn/udp.go:148-153 | counter values fewer than 2^32 increments apart differ |
| Msg.PackageHeaderLayout | msg/const.go:3-12 | the CRC32 package header is the single field [0,4) and PKG_HEADER_SIZE is 4 |
| Msg.DataHeaderLayout | msg/const.go:14-34 | type [0,1), seq [1,5), len [5,9) are contiguous; MSG_HEADER_END = MSG_HEADER_SIZE = 9 = the sum of the three field sizes |
| Msg.AckHeaderLayout | msg/const.go:55-68 | type [0,1), seq [1,5), next-seq [5,9), acked-seq [9,13) are contiguous; ACK_HEADER_END = ACK_HEADER_SIZE = 13 |
| Msg.UdpHeaderLayout | msg/const.go:70-88 | the six UDP header fields are contiguous from 0 to 21; with 11 bytes of padding UDP_PADDING = UDP_HEADER_END = UDP_HEADER_SIZE = 32 |
| Msg.ContiguousWidth | msg/const.go:23-34 | the extent of a contiguous field layout is the sum of its field widths |
| Msg.TypeCodesDistinct | msg/const.go:36-44 | the seven type codes are pairwise distinct; NORMAL, FEC, SYN are below 0x80 and ACK, PING, PONG, FIN at or above it |
| Msg.StatusFlagsDisjoint | msg/const.go:46-52 | the status flags are 1, 2, 4, 8, 16, each a single bit, and any two AND to 0 |
| Msg.CombineRecovers | msg/const.go:46-52 | in an OR of chosen status flags, a flag is set exactly when it was chosen |
| Msg.CombineBelow | msg/const.go:46-52 | an OR of the first k flags sets none of the later flags' bits |
| BigEndian.PutUint32 | conn/udp.go:169 | the four bytes are `v>>24, v>>16, v>>8, v` (each modulo 256) and reading them back gives `v` |
| BigEndian.PutUint32OfUint32 | conn/udp.go:72 | writing the value read from four bytes gives those bytes back |
| BigEndian.PutUint32Injective | conn/udp.go:169 | different sequence numbers give different bytes |
| BigEndian.PutUint32At | conn/udp.go:169 | the four bytes of `v` are written at the offset and no other byte of the array changes |
| Codec.AckBytes | conn/udp.go:166-171 | the acknowledgement frame is MSG_SEQ_END = 5 bytes, starts with ACK, and its bytes [1,5) read back as the sequence number |
| Codec.PingBytes | conn/udp.go:207-211 | the keepalive frame is the one byte PING |
| Codec.PongBytes | conn/udp.go:75 | the keepalive reply is the one byte PONG |
| Codec.AckFrameIsShort | conn/udp.go:167 | the acknowledgement frame ends at MSG_SEQ_END = ACK_SEQ_END, short of the 13-byte acknowledgement header |
| Codec.SeqWindow | conn/udp.go:53-72 | the bytes [1,5) of a read buffer are the datagram's bytes where it has them and zero past its end |
| Codec.SeqOf | conn/udp.go:72 | the sequence number read is the value whose big-endian bytes are that window |
| Codec.Parse | conn/udp.go:69-97 | dispatch on the type byte: an empty datagram has none; ACK and PING at offset 0 are recognised whatever the length; NORMAL/REG of at least 9 bytes are exactly type, sequence bytes, length field, payload; shorter ones are truncated; other types are neither of the four |
| Codec.ShortAckReadsZeros | conn/udp.go:71-72 | a one-byte `[ACK]` datagram acknowledges sequence number 0 |
| Codec.ParseAckBytes | conn/udp.go:236-238 | a receiver reads an acknowledgement frame back as an ACK for the same sequence number |
| Codec.ParsePingBytes | conn/udp.go:74 | the keepalive frame reads as a PING |
| Codec.ParseNormal | conn/udp.go:79-85 | a data frame reads back as its sequence number and payload, whatever its length field says |
| Codec.ParseReg | conn/udp.go:86-92 | a registration frame reads back as its sequence number and key bytes, whatever its length field says |
| Pending.Record | conn/udp.go:151 | storing a message adds its number to the keys, maps it to the message, keeps every other entry and keeps entries keyed by their own numbers |
| Pending.Acknowledge | conn/udp.go:73 | deleting a number removes exactly that key and keeps every other entry |
| Pending.AcknowledgeUnknown | conn/udp.go:238 | acknowledging a number that is not pending changes nothing |
| Pending.AcknowledgeIdempotent | conn/udp.go:238 | a repeated acknowledgement changes nothing more than the first |
| Pending.AcknowledgeUndoesRecord | conn/udp.go:148-153 | acknowledging a freshly recorded number restores the table |
| Pending.AcknowledgeCommutes | conn/udp.go:236-238 | acknowledgements of two numbers can be processed in either order |
| Pending.ReplayOutstanding | conn/udp.go:148-153 | a number pending after a history of sends and acknowledgements was pending at the start and never acknowledged, or was sent and not acknowledged afterwards |
| Pending.SentStaysPending | conn/udp.go:148-153 | a send that no later event acknowledges leaves its number pending, whatever else follows |
| Pending.InitialStaysPending | conn/udp.go:72-73 | a number pending at the start that no event acknowledges stays pending |
| Pending.PendingExactly | conn/udp.go:148-153 | a number is pending after a history if and only if it was pending at the start and never acknowledged, or was sent and not acknowledged afterwards |
| Pending.AllAckedLeavesNothingPending | conn/udp.go:236-238 | from an empty table, when every send is followed by an acknowledgement of its number in any interleaving, the table ends empty |
| Conn.HexDigit | conn/udp.go:96 | a digit becomes a lower-case hexadecimal character |
| Conn.HexOf | conn/udp.go:96 | the hex name has two lower-case hex digits per key byte |
| Conn.Hex | conn/udp.go:96 | the registry name of a key is its lower-case hex encoding, twice as long as the key |
| Conn.HexOfInjective | conn/udp.go:96 | different byte strings have different hex encodings |
| Conn.HexInjective | conn/udp.go:96 | different keys are registered under different names |
| Conn.AfterSend | conn/udp.go:148-153 | a send moves the counter to its increment, maps exactly that number to a record of the type, number and payload, keeps every other pending entry, logs one encoded datagram when the write succeeds and leaves the log unchanged when it fails, changes nothing else, and keeps the connection invariant |
| Conn.SendThenAckRestores | conn/udp.go:148-153 | a data message sent and then acknowledged (the number read back out of the ACK frame) leaves the pending table as before |
| Conn.SendReplacesOnlyOnWrap | conn/udp.go:149-151 | a send leaves the number of pending messages unchanged exactly when the counter has wrapped onto a pending number; otherwise it grows by one |
| Pending.RecordRunPending | conn/udp.go:148-153 | when a run of at most 2^32 messages is recorded into a table, every message of the run is present, each under the number it was sent under |
| Pending.RecordRunKeeps | conn/udp.go:148-153 | recording a run leaves every entry whose number the run does not reach as it was |
| Conn.SendAllFields | conn/udp.go:148-153 | a run of sends advances the counter once per send, records the run in the table, logs the run's datagrams in order when the writes succeed, and changes nothing else |
| Conn.SendAllSequence | conn/udp.go:148-153 | after a run of sends the counter has advanced by the run's length modulo 2^32 |
| Conn.SendAllPending | conn/udp.go:148-153 | in a run of at most 2^32 sends every message is pending under its own number |
| Conn.SendAllKeeps | conn/udp.go:148-153 | a run of sends keeps every entry whose number it does not reach |
| Conn.SendAllWritten | conn/udp.go:148-153 | when every write succeeds the socket log gains the run's messages in order, each under its number; when every write fails it gains nothing |
| Conn.AfterClose | conn/udp.go:193-205 | close sets `closed` and closes `In`; it closes `Out` only when `In` was open; nothing else changes; the invariant is kept |
| Conn.CloseRepeated | conn/udp.go:193-205 | N >= 1 closes have the effect of one, and UnRegister is reached once if the first call found both channels open and never otherwise |
| Conn.OwnerClosedOutStaysRegistered | conn/udp.go:193-205 | when the owner closed `Out` while `In` was open, every `close()` call sets `closed` and closes `In`, and none reaches UnRegister |
| Conn.TimedOutStaysRegistered | conn/udp.go:57-61 | after a read timeout closed `In`, no number of closes closes `Out` or unregisters |
| Conn.ConcatAppend | conn/udp.go:290-293 | concatenating two lists of fragments is concatenating their concatenations |
| Conn.ConcatFragment | conn/udp.go:290-293 | each fragment appears whole, in place, right after the fragments before it |
| Conn.Concatenate | conn/udp.go:290-293 | the loop writing the fragments into a buffer yields their in-order concatenation |
| Conn.FillAck | conn/udp.go:167-169 | the frame filled in place equals the acknowledgement frame |
| Conn.ConnectionFactory.Register | conn/udp.go:96 | a Register call is appended to the registry log |
| Conn.ConnectionFactory.UnRegister | conn/udp.go:204 | an UnRegister call is appended to the registry log |
| Conn.UdpConn.constructor | conn/udp.go:40-42 | a new connection has counter 0, an empty table, `lastTime` now, open channels and the zero key |
| Conn.UdpConn.WriteBytes | conn/udp.go:161-164 | a socket write returns its outcome and logs the datagram only on success |
| Conn.UdpConn.Ack | conn/udp.go:166-171 | acknowledging writes exactly the one 5-byte ACK frame for the number and changes no other field |
| Conn.UdpConn.Ping | conn/udp.go:207-211 | a ping writes exactly the one-byte PING frame and changes no other field |
| Conn.UdpConn.Write | conn/udp.go:148-153 | the new state is `AfterSend` of the old with type NORMAL, and the write error is returned |
| Conn.UdpConn.Deliver | conn/udp.go:85 | a payload is appended to `In`, or, when `In` is closed, the send panics and nothing changes |
| Conn.UdpConn.CloseIn | conn/udp.go:57-61 | a read timeout closes `In`, or panics when it is already closed |
| Conn.UdpConn.Close | conn/udp.go:193-205 | the new state is `AfterClose` of the old, and UnRegister is called under the key's hex name exactly when both channels were open |
| Conn.UdpConn.GetPublicKey | conn/udp.go:155-159 | returns the bound key |
| Conn.UdpConn.IsClosed | conn/udp.go:177-181 | returns the closed flag |
| Conn.UdpConn.GetLastTime | conn/udp.go:187-191 | returns the time of the last datagram |
| Conn.UdpConn.WriteLoopStep | conn/udp.go:123-145 | a tick pings; a receive from a closed `Out` returns with no error and nothing sent; a `[]byte` item is one `Write`; other items are dropped; a failed write ends the loop with its error |
| Conn.UdpServerConn.constructor | conn/udp.go:44-49 | a new listening connection has empty state and the given registry |
| Conn.UdpServerConn.ReadFailure | conn/udp.go:54-65 | a timeout closes the peer's `In` (panicking if closed), any other read error ends the loop with that error |
| Conn.UdpServerConn.ReceiveAck | conn/udp.go:71-73 | an ACK deletes its number from the listening connection's table only and stamps the peer's `lastTime` |
| Conn.UdpServerConn.ReceivePing | conn/udp.go:74-78 | a PING is answered with one PONG through the listening connection; the peer is stamped only when it was written |
| Conn.UdpServerConn.ReceiveNormal | conn/udp.go:79-85 | a NORMAL frame is acknowledged through the peer; on failure the loop ends with nothing delivered; otherwise the payload goes to `In` (or panics when closed) and `lastTime` is stamped |
| Conn.UdpServerConn.ReceiveTruncated | conn/udp.go:79-92 | a NORMAL or REG frame shorter than its header is acknowledged and then panics |
| Conn.UdpServerConn.ReceiveReg | conn/udp.go:86-101 | a REG frame is acknowledged through the peer; on success the peer takes the key (overwriting any earlier one), is registered under its hex name and is stamped; on failure nothing else happens |
| Conn.UdpServerConn.ReadLoopStep | conn/udp.go:51-102 | one server read: each datagram type's effect on the listening connection, the peer connection and the registry, including which cases stamp `lastTime` and which end the loop or panic |
| Conn.UdpClientConn.constructor | conn/udp.go:217-224 | a new client connection has counter 0, an empty table and open channels |
| Conn.UdpClientConn.Ack | conn/udp.go:304-309 | acknowledging writes exactly the one 5-byte ACK frame on the dedicated socket |
| Conn.UdpClientConn.Write | conn/udp.go:281-286 | the new state is `AfterSend` with type NORMAL |
| Conn.UdpClientConn.WriteSlice | conn/udp.go:288-297 | one send, under one new number, of the in-order concatenation of the fragments (empty for no fragments) |
| Conn.UdpClientConn.SendReg | conn/udp.go:311-316 | the new state is `AfterSend` with type REG and the key bytes as payload |
| Conn.UdpClientConn.ReadLoopStep | conn/udp.go:226-249 | a read error ends the loop; ACK clears its number; NORMAL is acknowledged before delivery and a failed acknowledgement returns with nothing delivered; every other type is ignored; `lastTime` never changes |
| Conn.UdpClientConn.WriteLoopStep | conn/udp.go:251-279 | a closed `Out` returns with no error; `[]byte` goes through `Write`, `[][]byte` through `WriteSlice`; anything else is skipped; a failed write ends the loop |
| Conn.ClientRegisterThenSend | conn/udp.go:311-316 | a client's REG goes out under number 1 and the following data message under 2; the acknowledgements of both clear its pending table |
| Conn.ServerReceivesRegThenData | conn/udp.go:86-101 | a server receiving REG 1 and then data 2 for a peer acknowledges 1 and 2 in order, binds and registers the key once, delivers only the data payload and stamps the peer, made at an earlier time, with the time of the reads |

## Left out

- Sockets, goroutines, `select`, `time.Ticker`, `fieldsMutex` and the atomic increment are left out as concurrency and timing concerns. Each loop is one iteration on an explicit event, the increment is a plain step, and locks are not modelled.
- `log` calls are not modelled.
- `msg.New` and `Message.Bytes` are not part of this model. A sent message is the record `Message(kind, sequence, payload)`, and the socket log holds it as `Encoded`. The server scenario builds its datagrams with the data-header layout of the constants; the client scenario's log holds `Encoded` records.
- The key type, `NewPubKey` (and whatever length check it makes) and the zero value of the key type are not part of this model. A key is opaque bytes, the zero key is the empty key, and `Hex` is a lower-case hex encoding.
- `GetOrCreateUDPConn` is not part of this model. The server's read step receives the resolved peer connection as a parameter, and the registry is reduced to its Register and UnRegister call log.
- The panic stubs `UDPConn.ReadLoop`, `UDPConn.WriteSlice` and `UDPConn.SendReg` (conn/udp.go:106-112, 183-185) are not modelled. The client connection's own `WriteSlice` and `SendReg` are.
- The nil-field quirks of the constructors are not modelled, and each constructor here gives every field a working value:
  - `NewUDPConn` sets no registry, and the constructor here takes one.
  - `NewUDPClientConn` sets no lock and no registry, and the client constructor here takes a registry.
  - `NewUDPServerConn` (conn/udp.go:44-49) sets no channels, pending map, lock or address on the listening connection. The model gives it open channels and an empty table. A delete from a nil map is a no-op in Go, so the empty table agrees with how the ACK case uses it.
- `GetChanOut` (conn/udp.go:173-175) only returns the channel. `Out` is modelled by its closed flag, with its items as write-loop events.
- Conn.UdpConn.Close: the Go `close()` logs a recovered panic; here the call just stops at that point.
- Closing `Out` through the channel `GetChanOut` returns is code of the channel's owner, not of this layer, so no method here sets `outClosed` alone. The invariant and every method contract admit that state.
- Conn.UdpServerConn.ReadLoopStep and Conn.UdpClientConn.ReadLoopStep require the datagram to be at most 1024 bytes, the size of the read buffer.
- Conn.ServerReceivesRegThenData and Conn.ClientRegisterThenSend are two halves of one exchange. The model has no network object carrying one side's socket log to the other.
- The model does not order the socket log relative to `In`. "The acknowledgement is written before the payload is delivered" appears only as "a failed acknowledgement delivers nothing".
