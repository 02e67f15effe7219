/** The pending-send table of a connection: a map from sequence number to the
    message last sent under it. A send records its message; a received
    acknowledgement deletes its sequence number. */
module Pending {
  import opened GoInts
  import opened Codec

  type Table = map<uint32, Message>

  /** Every entry is stored under its own sequence number. */
  predicate KeyedBySeq(p: Table)
  {
    forall k :: k in p ==> p[k].sequence == k
  }

  /** `pending[m.sequence] = m`: the new entry replaces any older one under the
      same number and every other entry stays as it was. */
  function Record(p: Table, m: Message): (r: Table)
    ensures r.Keys == p.Keys + {m.sequence}
    ensures r[m.sequence] == m
    ensures forall k :: k in p && k != m.sequence ==> r[k] == p[k]
    ensures KeyedBySeq(p) ==> KeyedBySeq(r)
  {
    p[m.sequence := m]
  }

  /** `delete(pending, s)`: the key `s` is gone and every other entry stays as
      it was; an unknown `s` is no error. */
  function Acknowledge(p: Table, s: uint32): (r: Table)
    ensures r.Keys == p.Keys - {s}
    ensures forall k :: k in r ==> r[k] == p[k]
    ensures KeyedBySeq(p) ==> KeyedBySeq(r)
  {
    p - {s}
  }

  /** Acknowledging a sequence number that is not pending changes nothing. */
  lemma AcknowledgeUnknown(p: Table, s: uint32)
    requires s !in p
    ensures Acknowledge(p, s) == p
  {
  }

  /** A repeated acknowledgement changes nothing more than the first. */
  lemma AcknowledgeIdempotent(p: Table, s: uint32)
    ensures Acknowledge(Acknowledge(p, s), s) == Acknowledge(p, s)
  {
  }

  /** Acknowledging a freshly recorded number restores the table it was
      recorded into. */
  lemma AcknowledgeUndoesRecord(p: Table, m: Message)
    requires m.sequence !in p
    ensures Acknowledge(Record(p, m), m.sequence) == p
  {
  }

  /** Acknowledgements of different numbers can be processed in either order. */
  lemma AcknowledgeCommutes(p: Table, s: uint32, t: uint32)
    ensures Acknowledge(Acknowledge(p, s), t) == Acknowledge(Acknowledge(p, t), s)
  {
  }

  // ---------------------------------------------------------------------------
  // Runs of sends

  /** The number the `i`-th of a run of sends (counting from 0) goes out under,
      when the counter stood at `q` before the run. */
  function NumberOf(q: uint32, i: nat): uint32
  {
    Advance(q, i + 1)
  }

  /** The table after a run of `kind` messages is recorded, the counter
      standing at `q` before the run. */
  function RecordRun(p: Table, kind: uint8, q: uint32, payloads: seq<seq<uint8>>): Table
    decreases |payloads|
  {
    if payloads == [] then p
    else
      var n := |payloads| - 1;
      Record(RecordRun(p, kind, q, payloads[..n]), Message(kind, NumberOf(q, n), payloads[n]))
  }

  /** In a run of at most 2^32 sends every message is recorded under its own
      number. */
  lemma {:induction false} RecordRunPending(p: Table, kind: uint8, q: uint32, payloads: seq<seq<uint8>>)
    requires |payloads| <= UINT32_MODULUS
    ensures var r := RecordRun(p, kind, q, payloads);
            forall i :: 0 <= i < |payloads| ==>
              NumberOf(q, i) in r && r[NumberOf(q, i)] == Message(kind, NumberOf(q, i), payloads[i])
    decreases |payloads|
  {
    if payloads != [] {
      var n := |payloads| - 1;
      var init := payloads[..n];
      RecordRunPending(p, kind, q, init);
      var r := RecordRun(p, kind, q, payloads);
      forall i | 0 <= i < |payloads|
        ensures NumberOf(q, i) in r && r[NumberOf(q, i)] == Message(kind, NumberOf(q, i), payloads[i])
      {
        if i < n {
          AdvanceDistinct(q, i + 1, n + 1);
          assert init[i] == payloads[i];
        }
      }
    }
  }

  /** A run leaves every entry whose number it does not reach as it was. */
  lemma {:induction false} RecordRunKeeps(p: Table, kind: uint8, q: uint32, payloads: seq<seq<uint8>>, k: uint32)
    requires k in p
    requires forall i :: 0 <= i < |payloads| ==> NumberOf(q, i) != k
    ensures k in RecordRun(p, kind, q, payloads) && RecordRun(p, kind, q, payloads)[k] == p[k]
    decreases |payloads|
  {
    if payloads != [] {
      var n := |payloads| - 1;
      assert NumberOf(q, n) != k;
      RecordRunKeeps(p, kind, q, payloads[..n], k);
    }
  }

  // ---------------------------------------------------------------------------
  // Histories of sends and acknowledgements

  datatype Event = Sent(message: Message) | AckReceived(sequence: uint32)

  function Apply(p: Table, e: Event): Table
  {
    match e
    case Sent(m) => Record(p, m)
    case AckReceived(s) => Acknowledge(p, s)
  }

  /** The table after the events of `evs`, in order, starting from `p`. */
  function Replay(p: Table, evs: seq<Event>): Table
    decreases |evs|
  {
    if evs == [] then p else Apply(Replay(p, evs[..|evs| - 1]), evs[|evs| - 1])
  }

  /** Some event after position `i` acknowledges `k`. */
  predicate AckedAfter(evs: seq<Event>, i: nat, k: uint32)
  {
    exists j :: i < j < |evs| && evs[j] == AckReceived(k)
  }

  /** A number is still pending after a history only if it was pending at the
      start and never acknowledged, or some send under it was not followed by
      an acknowledgement of it. */
  lemma {:induction false} ReplayOutstanding(p: Table, evs: seq<Event>, k: uint32)
    requires k in Replay(p, evs)
    ensures || (k in p && AckReceived(k) !in evs)
            || (exists i :: 0 <= i < |evs| && evs[i].Sent? && evs[i].message.sequence == k && !AckedAfter(evs, i, k))
    decreases |evs|
  {
    if evs != [] {
      var n := |evs| - 1;
      var init := evs[..n];
      assert evs == init + [evs[n]];
      match evs[n]
      case Sent(m) =>
        if m.sequence == k {
          assert !AckedAfter(evs, n, k);
        } else {
          ReplayOutstanding(p, init, k);
          if k in p && AckReceived(k) !in init {
          } else {
            var i :| 0 <= i < |init| && init[i].Sent? && init[i].message.sequence == k && !AckedAfter(init, i, k);
            assert evs[i] == init[i];
            assert !AckedAfter(evs, i, k) by {
              forall j | i < j < |evs| ensures evs[j] != AckReceived(k) {
                if j < n { assert evs[j] == init[j]; }
              }
            }
          }
        }
      case AckReceived(s) =>
        assert k != s;
        ReplayOutstanding(p, init, k);
        if k in p && AckReceived(k) !in init {
        } else {
          var i :| 0 <= i < |init| && init[i].Sent? && init[i].message.sequence == k && !AckedAfter(init, i, k);
          assert evs[i] == init[i];
          assert !AckedAfter(evs, i, k) by {
            forall j | i < j < |evs| ensures evs[j] != AckReceived(k) {
              if j < n { assert evs[j] == init[j]; }
            }
          }
        }
    }
  }

  /** A send that no later event acknowledges leaves its number pending,
      whatever else happens after it (a later send under the same number
      replaces the message but keeps the number). */
  lemma {:induction false} SentStaysPending(p: Table, evs: seq<Event>, i: nat)
    requires i < |evs| && evs[i].Sent?
    requires !AckedAfter(evs, i, evs[i].message.sequence)
    ensures evs[i].message.sequence in Replay(p, evs)
    decreases |evs|
  {
    var k := evs[i].message.sequence;
    var n := |evs| - 1;
    var init := evs[..n];
    if i < n {
      assert init[i] == evs[i];
      assert !AckedAfter(init, i, k) by {
        forall j | i < j < |init| ensures init[j] != AckReceived(k) {
          assert init[j] == evs[j];
        }
      }
      SentStaysPending(p, init, i);
      assert evs[n] != AckReceived(k);
    }
  }

  /** A number pending at the start that no event acknowledges stays
      pending. */
  lemma {:induction false} InitialStaysPending(p: Table, evs: seq<Event>, k: uint32)
    requires k in p && AckReceived(k) !in evs
    ensures k in Replay(p, evs)
    decreases |evs|
  {
    if evs != [] {
      var n := |evs| - 1;
      var init := evs[..n];
      assert AckReceived(k) !in init by {
        forall j | 0 <= j < |init| ensures init[j] != AckReceived(k) {
          assert init[j] == evs[j];
        }
      }
      InitialStaysPending(p, init, k);
      assert evs[n] != AckReceived(k);
    }
  }

  /** The pending table after a history, exactly: a number is pending if and
      only if it was pending at the start and never acknowledged, or some send
      under it was not followed by an acknowledgement of it. */
  lemma PendingExactly(p: Table, evs: seq<Event>, k: uint32)
    ensures k in Replay(p, evs) <==>
            || (k in p && AckReceived(k) !in evs)
            || (exists i :: 0 <= i < |evs| && evs[i].Sent? && evs[i].message.sequence == k && !AckedAfter(evs, i, k))
  {
    if k in Replay(p, evs) {
      ReplayOutstanding(p, evs, k);
    } else if k in p && AckReceived(k) !in evs {
      InitialStaysPending(p, evs, k);
    } else if exists i :: 0 <= i < |evs| && evs[i].Sent? && evs[i].message.sequence == k && !AckedAfter(evs, i, k) {
      var i :| 0 <= i < |evs| && evs[i].Sent? && evs[i].message.sequence == k && !AckedAfter(evs, i, k);
      SentStaysPending(p, evs, i);
    }
  }

  /** Starting from an empty table, when every send is eventually followed by
      an acknowledgement of its number, in any interleaving, the table ends
      empty. */
  lemma AllAckedLeavesNothingPending(evs: seq<Event>)
    requires forall i :: 0 <= i < |evs| && evs[i].Sent? ==> AckedAfter(evs, i, evs[i].message.sequence)
    ensures Replay(map[], evs) == map[]
  {
    forall k | k in Replay(map[], evs) ensures false {
      ReplayOutstanding(map[], evs, k);
    }
  }
}
