/** Big-endian 32-bit integers, as `binary.BigEndian.Uint32` and
    `binary.BigEndian.PutUint32` read and write them in the connection layer. */
module BigEndian {
  import opened GoInts

  /** The four bytes of `v`, most significant first. */
  function PutUint32(v: uint32): (b: seq<uint8>)
    ensures |b| == 4
    ensures b[0] as int == v as int / 0x100_0000
    ensures b[1] as int == v as int / 0x1_0000 % 0x100
    ensures b[2] as int == v as int / 0x100 % 0x100
    ensures b[3] as int == v as int % 0x100
    ensures Uint32(b) == v
  {
    var x := v as int;
    var w1 := x / 0x100;
    var w2 := w1 / 0x100;
    var w3 := w2 / 0x100;
    assert x == w1 * 0x100 + x % 0x100;
    assert w1 == w2 * 0x100 + w1 % 0x100;
    assert w2 == w3 * 0x100 + w2 % 0x100;
    assert x == w2 * 0x1_0000 + (w1 % 0x100) * 0x100 + x % 0x100;
    assert x == w3 * 0x100_0000 + (w2 % 0x100) * 0x1_0000 + (w1 % 0x100) * 0x100 + x % 0x100;
    assert x / 0x1_0000 == w2;
    assert x / 0x100_0000 == w3;
    [w3 as uint8, (w2 % 0x100) as uint8, (w1 % 0x100) as uint8, (x % 0x100) as uint8]
  }

  /** The value of the first four bytes of `b`, the first one most significant. */
  function Uint32(b: seq<uint8>): uint32
    requires |b| >= 4
  {
    (((b[0] as int * 0x100 + b[1] as int) * 0x100 + b[2] as int) * 0x100 + b[3] as int) as uint32
  }

  /** One base-256 digit step. */
  lemma Digit(q: int, r: int)
    requires 0 <= r < 0x100
    ensures (q * 0x100 + r) / 0x100 == q && (q * 0x100 + r) % 0x100 == r
  {
  }

  /** Writing the value that was read gives the same four bytes back. */
  lemma PutUint32OfUint32(b: seq<uint8>)
    requires |b| == 4
    ensures PutUint32(Uint32(b)) == b
  {
    var b0, b1, b2, b3 := b[0] as int, b[1] as int, b[2] as int, b[3] as int;
    Digit((b0 * 0x100 + b1) * 0x100 + b2, b3);
    Digit(b0 * 0x100 + b1, b2);
    Digit(b0, b1);
  }

  /** Two values with the same four bytes are equal. */
  lemma PutUint32Injective(v: uint32, w: uint32)
    requires PutUint32(v) == PutUint32(w)
    ensures v == w
  {
    assert Uint32(PutUint32(v)) == Uint32(PutUint32(w));
  }

  /** `binary.BigEndian.PutUint32(b[off:], v)`: the four bytes of `v` are
      written at `off` and nothing else in `b` changes. */
  method PutUint32At(b: array<uint8>, off: nat, v: uint32)
    requires off + 4 <= b.Length
    modifies b
    ensures b[off..off + 4] == PutUint32(v)
    ensures forall i :: 0 <= i < b.Length && !(off <= i < off + 4) ==> b[i] == old(b[i])
  {
    var bytes := PutUint32(v);
    b[off] := bytes[0];
    b[off + 1] := bytes[1];
    b[off + 2] := bytes[2];
    b[off + 3] := bytes[3];
  }
}
