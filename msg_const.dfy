/** Wire layout constants of the message package.

    In a Go constant block a line that has no `=` repeats the expression of the
    line before it. Each such constant is written below with the repeated
    expression spelled out, so that its value follows the source exactly. */
module Msg {
  import opened GoInts

  // ---------------------------------------------------------------------------
  // Package header: a CRC32 checksum in front of a package

  const PKG_CRC32_SIZE := 4

  const PKG_CRC32_BEGIN := 0
  const PKG_CRC32_END := PKG_CRC32_BEGIN + PKG_CRC32_SIZE
  /** Repeats `PKG_CRC32_BEGIN + PKG_CRC32_SIZE`. */
  const PKG_HEADER_SIZE := PKG_CRC32_BEGIN + PKG_CRC32_SIZE

  // ---------------------------------------------------------------------------
  // Field sizes

  const MSG_TYPE_SIZE := 1
  const UDP_TYPE_SIZE := 1
  const MSG_SEQ_SIZE := 4
  const MSG_LEN_SIZE := 4

  const MAX_MESSAGE_SIZE := 10240

  // ---------------------------------------------------------------------------
  // Data message header: type, sequence number, payload length

  const MSG_HEADER_BEGIN := 0
  /** Repeats `0`. */
  const MSG_TYPE_BEGIN := 0
  const MSG_TYPE_END := MSG_TYPE_BEGIN + MSG_TYPE_SIZE
  /** Repeats `MSG_TYPE_BEGIN + MSG_TYPE_SIZE`. */
  const MSG_SEQ_BEGIN := MSG_TYPE_BEGIN + MSG_TYPE_SIZE
  const MSG_SEQ_END := MSG_SEQ_BEGIN + MSG_SEQ_SIZE
  /** Repeats `MSG_SEQ_BEGIN + MSG_SEQ_SIZE`. */
  const MSG_LEN_BEGIN := MSG_SEQ_BEGIN + MSG_SEQ_SIZE
  const MSG_LEN_END := MSG_LEN_BEGIN + MSG_LEN_SIZE
  /** Repeats `MSG_LEN_BEGIN + MSG_LEN_SIZE`. */
  const MSG_HEADER_END := MSG_LEN_BEGIN + MSG_LEN_SIZE
  /** Repeats `MSG_LEN_BEGIN + MSG_LEN_SIZE`. */
  const MSG_HEADER_SIZE := MSG_LEN_BEGIN + MSG_LEN_SIZE

  // ---------------------------------------------------------------------------
  // Message type codes (the first byte of every datagram)

  const TYPE_NORMAL: uint8 := 0x01
  const TYPE_FEC: uint8 := 0x02
  const TYPE_SYN: uint8 := 0x03
  const TYPE_ACK: uint8 := 0x80
  const TYPE_PING: uint8 := 0x81
  const TYPE_PONG: uint8 := 0x82
  const TYPE_FIN: uint8 := 0x83

  /** The seven type codes, in declaration order. */
  const TYPE_CODES: seq<uint8> := [TYPE_NORMAL, TYPE_FEC, TYPE_SYN, TYPE_ACK, TYPE_PING, TYPE_PONG, TYPE_FIN]

  /** The registration type code is declared outside this file. The server's
      dispatch switch lists it beside ACK, PING and NORMAL, and Go refuses
      duplicate constant cases, so it differs from those three; nothing else is
      known about it. */
  type RegCode = t: uint8 | t != TYPE_ACK && t != TYPE_PING && t != TYPE_NORMAL witness TYPE_FEC

  const TYPE_REG: RegCode

  // ---------------------------------------------------------------------------
  // Message status flags (`1 << iota`)

  const MSG_STATUS_INIT: bv32 := 1 << 0
  const MSG_STATUS_TRANSMITTED: bv32 := 1 << 1
  const MSG_STATUS_ACKED: bv32 := 1 << 2
  const MSG_STATUS_LOSS: bv32 := 1 << 3
  const MSG_STATUS_CANCEL: bv32 := 1 << 4

  const STATUS_FLAGS: seq<bv32> :=
    [MSG_STATUS_INIT, MSG_STATUS_TRANSMITTED, MSG_STATUS_ACKED, MSG_STATUS_LOSS, MSG_STATUS_CANCEL]

  // ---------------------------------------------------------------------------
  // Acknowledgement header: type, sequence number, next and acked sequence numbers

  const ACK_HEADER_BEGIN := 0
  /** Repeats `0`. */
  const ACK_TYPE_BEGIN := 0
  const ACK_TYPE_END := ACK_TYPE_BEGIN + MSG_TYPE_SIZE
  /** Repeats `ACK_TYPE_BEGIN + MSG_TYPE_SIZE`. */
  const ACK_SEQ_BEGIN := ACK_TYPE_BEGIN + MSG_TYPE_SIZE
  const ACK_SEQ_END := ACK_SEQ_BEGIN + MSG_SEQ_SIZE
  /** Repeats `ACK_SEQ_BEGIN + MSG_SEQ_SIZE`. */
  const ACK_NEXT_SEQ_BEGIN := ACK_SEQ_BEGIN + MSG_SEQ_SIZE
  const ACK_NEXT_SEQ_END := ACK_NEXT_SEQ_BEGIN + MSG_SEQ_SIZE
  /** Repeats `ACK_NEXT_SEQ_BEGIN + MSG_SEQ_SIZE`. */
  const ACK_ACKED_SEQ_BEGIN := ACK_NEXT_SEQ_BEGIN + MSG_SEQ_SIZE
  const ACK_ACKED_SEQ_END := ACK_ACKED_SEQ_BEGIN + MSG_SEQ_SIZE
  /** Repeats `ACK_ACKED_SEQ_BEGIN + MSG_SEQ_SIZE`. */
  const ACK_HEADER_END := ACK_ACKED_SEQ_BEGIN + MSG_SEQ_SIZE
  /** Repeats `ACK_ACKED_SEQ_BEGIN + MSG_SEQ_SIZE`. */
  const ACK_HEADER_SIZE := ACK_ACKED_SEQ_BEGIN + MSG_SEQ_SIZE

  // ---------------------------------------------------------------------------
  // UDP header: the data header followed by three sequence numbers and padding

  const UDP_HEADER_BEGIN := 0
  /** Repeats `0`. */
  const UDP_TYPE_BEGIN := 0
  const UDP_TYPE_END := UDP_TYPE_BEGIN + MSG_TYPE_SIZE
  /** Repeats `UDP_TYPE_BEGIN + MSG_TYPE_SIZE`. */
  const UDP_SEQ_BEGIN := UDP_TYPE_BEGIN + MSG_TYPE_SIZE
  const UDP_SEQ_END := UDP_SEQ_BEGIN + MSG_SEQ_SIZE
  /** Repeats `UDP_SEQ_BEGIN + MSG_SEQ_SIZE`. */
  const UDP_LEN_BEGIN := UDP_SEQ_BEGIN + MSG_SEQ_SIZE
  const UDP_LEN_END := UDP_LEN_BEGIN + MSG_LEN_SIZE
  /** Repeats `UDP_LEN_BEGIN + MSG_LEN_SIZE`. */
  const UDP_ACK_SEQ_BEGIN := UDP_LEN_BEGIN + MSG_LEN_SIZE
  const UDP_ACK_SEQ_END := UDP_ACK_SEQ_BEGIN + MSG_SEQ_SIZE
  /** Repeats `UDP_ACK_SEQ_BEGIN + MSG_SEQ_SIZE`. */
  const UDP_ACK_NEXT_SEQ_BEGIN := UDP_ACK_SEQ_BEGIN + MSG_SEQ_SIZE
  const UDP_ACK_NEXT_SEQ_END := UDP_ACK_NEXT_SEQ_BEGIN + MSG_SEQ_SIZE
  /** Repeats `UDP_ACK_NEXT_SEQ_BEGIN + MSG_SEQ_SIZE`. */
  const UDP_ACK_ACKED_SEQ_BEGIN := UDP_ACK_NEXT_SEQ_BEGIN + MSG_SEQ_SIZE
  const UDP_ACK_ACKED_SEQ_END := UDP_ACK_ACKED_SEQ_BEGIN + MSG_SEQ_SIZE
  const UDP_PADDING := UDP_ACK_ACKED_SEQ_END + 11
  /** Repeats `UDP_ACK_ACKED_SEQ_END + 11`. */
  const UDP_HEADER_END := UDP_ACK_ACKED_SEQ_END + 11
  /** Repeats `UDP_ACK_ACKED_SEQ_END + 11`. */
  const UDP_HEADER_SIZE := UDP_ACK_ACKED_SEQ_END + 11

  // ---------------------------------------------------------------------------
  // Layout properties

  /** Field `i` is non-empty and begins where the one before it ends (the
      first one at `start`). */
  predicate FieldInPlace(start: int, fields: seq<(int, int)>, i: nat)
    requires i < |fields|
  {
    fields[i].0 < fields[i].1 && fields[i].0 == (if i == 0 then start else fields[i - 1].1)
  }

  /** A header is a list of (begin, end) byte ranges, each non-empty, laid out
      back to back from `start`. */
  predicate Contiguous(start: int, fields: seq<(int, int)>)
  {
    forall i: nat :: i < |fields| ==> FieldInPlace(start, fields, i)
  }

  /** The end of the last field, or `start` when there is none. */
  function LayoutEnd(start: int, fields: seq<(int, int)>): int
  {
    if fields == [] then start else fields[|fields| - 1].1
  }

  /** The sum of the field widths of a contiguous layout is its extent. */
  lemma {:induction false} ContiguousWidth(start: int, fields: seq<(int, int)>)
    requires Contiguous(start, fields)
    ensures LayoutEnd(start, fields) - start == Widths(fields)
    decreases |fields|
  {
    if fields != [] {
      var n := |fields| - 1;
      var init := fields[..n];
      assert Contiguous(start, init) by {
        forall i: nat | i < |init|
          ensures FieldInPlace(start, init, i)
        {
          assert FieldInPlace(start, fields, i);
          assert init[i] == fields[i];
          if i > 0 {
            assert init[i - 1] == fields[i - 1];
          }
        }
      }
      ContiguousWidth(start, init);
      assert FieldInPlace(start, fields, n);
      if n > 0 {
        assert init[n - 1] == fields[n - 1];
      }
      assert LayoutEnd(start, init) == fields[n].0;
      assert fields == init + [fields[n]];
      WidthsAppend(init, fields[n]);
    }
  }

  function Widths(fields: seq<(int, int)>): int
  {
    if fields == [] then 0 else Widths(fields[..|fields| - 1]) + (fields[|fields| - 1].1 - fields[|fields| - 1].0)
  }

  lemma WidthsAppend(fields: seq<(int, int)>, f: (int, int))
    ensures Widths(fields + [f]) == Widths(fields) + (f.1 - f.0)
  {
    assert (fields + [f])[..|fields|] == fields;
  }

  const DATA_HEADER_FIELDS: seq<(int, int)> :=
    [(MSG_TYPE_BEGIN, MSG_TYPE_END), (MSG_SEQ_BEGIN, MSG_SEQ_END), (MSG_LEN_BEGIN, MSG_LEN_END)]

  const ACK_HEADER_FIELDS: seq<(int, int)> :=
    [(ACK_TYPE_BEGIN, ACK_TYPE_END), (ACK_SEQ_BEGIN, ACK_SEQ_END),
     (ACK_NEXT_SEQ_BEGIN, ACK_NEXT_SEQ_END), (ACK_ACKED_SEQ_BEGIN, ACK_ACKED_SEQ_END)]

  const UDP_HEADER_FIELDS: seq<(int, int)> :=
    [(UDP_TYPE_BEGIN, UDP_TYPE_END), (UDP_SEQ_BEGIN, UDP_SEQ_END), (UDP_LEN_BEGIN, UDP_LEN_END),
     (UDP_ACK_SEQ_BEGIN, UDP_ACK_SEQ_END), (UDP_ACK_NEXT_SEQ_BEGIN, UDP_ACK_NEXT_SEQ_END),
     (UDP_ACK_ACKED_SEQ_BEGIN, UDP_ACK_ACKED_SEQ_END)]

  /** The CRC32 package header is the single field [0, 4). */
  lemma PackageHeaderLayout()
    ensures Contiguous(0, [(PKG_CRC32_BEGIN, PKG_CRC32_END)])
    ensures PKG_CRC32_BEGIN == 0 && PKG_CRC32_END == 4 && PKG_HEADER_SIZE == PKG_CRC32_END == 4
  {
  }

  /** Data header: type [0,1), seq [1,5), len [5,9), and its end and size are
      both 9, the sum of the three field sizes. */
  lemma DataHeaderLayout()
    ensures Contiguous(MSG_HEADER_BEGIN, DATA_HEADER_FIELDS)
    ensures DATA_HEADER_FIELDS == [(0, 1), (1, 5), (5, 9)]
    ensures MSG_HEADER_END == MSG_HEADER_SIZE == LayoutEnd(MSG_HEADER_BEGIN, DATA_HEADER_FIELDS) == 9
    ensures MSG_HEADER_SIZE == MSG_TYPE_SIZE + MSG_SEQ_SIZE + MSG_LEN_SIZE
  {
    ContiguousWidth(MSG_HEADER_BEGIN, DATA_HEADER_FIELDS);
  }

  /** Acknowledgement header: type [0,1), seq [1,5), next-seq [5,9),
      acked-seq [9,13); its end and size are both 13. */
  lemma AckHeaderLayout()
    ensures Contiguous(ACK_HEADER_BEGIN, ACK_HEADER_FIELDS)
    ensures ACK_HEADER_FIELDS == [(0, 1), (1, 5), (5, 9), (9, 13)]
    ensures ACK_HEADER_END == ACK_HEADER_SIZE == LayoutEnd(ACK_HEADER_BEGIN, ACK_HEADER_FIELDS) == 13
    ensures ACK_HEADER_SIZE == MSG_TYPE_SIZE + 3 * MSG_SEQ_SIZE
  {
  }

  /** UDP header: the six fields run back to back from 0 to 21, and 11 bytes
      of padding make its end and size 32. */
  lemma UdpHeaderLayout()
    ensures Contiguous(UDP_HEADER_BEGIN, UDP_HEADER_FIELDS)
    ensures LayoutEnd(UDP_HEADER_BEGIN, UDP_HEADER_FIELDS) == UDP_ACK_ACKED_SEQ_END == 21
    ensures UDP_PADDING == UDP_HEADER_END == UDP_HEADER_SIZE == 32
    ensures UDP_HEADER_SIZE == UDP_ACK_ACKED_SEQ_END + 11
  {
  }

  /** The seven type codes are pairwise distinct; the data codes NORMAL, FEC
      and SYN have the high bit clear, the control codes ACK, PING, PONG and
      FIN have it set. */
  lemma TypeCodesDistinct()
    ensures forall i, j :: 0 <= i < j < |TYPE_CODES| ==> TYPE_CODES[i] != TYPE_CODES[j]
    ensures TYPE_NORMAL < 0x80 && TYPE_FEC < 0x80 && TYPE_SYN < 0x80
    ensures TYPE_ACK >= 0x80 && TYPE_PING >= 0x80 && TYPE_PONG >= 0x80 && TYPE_FIN >= 0x80
  {
  }

  /** Each status flag is a single bit and no two share a bit. */
  lemma StatusFlagsDisjoint()
    ensures STATUS_FLAGS == [1, 2, 4, 8, 16]
    ensures forall i :: 0 <= i < |STATUS_FLAGS| ==>
      STATUS_FLAGS[i] != 0 && STATUS_FLAGS[i] & (STATUS_FLAGS[i] - 1) == 0
    ensures forall i, j :: 0 <= i < |STATUS_FLAGS| && 0 <= j < |STATUS_FLAGS| && i != j ==>
      STATUS_FLAGS[i] & STATUS_FLAGS[j] == 0
  {
  }

  /** The OR of the flags selected by `chosen` (one boolean per flag). */
  function Combine(chosen: seq<bool>): bv32
    requires |chosen| <= |STATUS_FLAGS|
  {
    if chosen == [] then 0
    else Combine(chosen[..|chosen| - 1]) | (if chosen[|chosen| - 1] then STATUS_FLAGS[|chosen| - 1] else 0)
  }

  /** OR-combining status flags loses nothing: a flag is set in the
      combination exactly when it was chosen. */
  lemma {:induction false} CombineRecovers(chosen: seq<bool>, i: nat)
    requires |chosen| <= |STATUS_FLAGS| && i < |STATUS_FLAGS|
    ensures (Combine(chosen) & STATUS_FLAGS[i] != 0) <==> (i < |chosen| && chosen[i])
    decreases |chosen|
  {
    StatusFlagsDisjoint();
    if chosen != [] {
      var n := |chosen| - 1;
      CombineRecovers(chosen[..n], i);
      CombineBelow(chosen[..n]);
      assert i != n ==> (if chosen[n] then STATUS_FLAGS[n] else 0) & STATUS_FLAGS[i] == 0;
    }
  }

  /** A combination of the first k flags sets no bit at or above k. */
  lemma {:induction false} CombineBelow(chosen: seq<bool>)
    requires |chosen| <= |STATUS_FLAGS|
    ensures forall j :: |chosen| <= j < |STATUS_FLAGS| ==> Combine(chosen) & STATUS_FLAGS[j] == 0
    decreases |chosen|
  {
    StatusFlagsDisjoint();
    if chosen != [] {
      CombineBelow(chosen[..|chosen| - 1]);
    }
  }
}
