/** The little-endian codecs of src/util/buf.h, on machine words and byte arrays. */
module LittleEndian {

  /** The base-256 value of a byte string, least significant byte first. */
  function Positional(b: seq<bv8>): nat {
    if b == [] then 0 else b[0] as int + 256 * Positional(b[1..])
  }

  // ---- The codecs ---------------------------------------------------------------------------

  function Bytes16(v: bv16): (b: seq<bv8>)
    ensures |b| == 2
  {
    [(v & 0xFF) as bv8, ((v >> 8) & 0xFF) as bv8]
  }

  function Bytes32(v: bv32): (b: seq<bv8>)
    ensures |b| == 4
  {
    [(v & 0xFF) as bv8, ((v >> 8) & 0xFF) as bv8, ((v >> 16) & 0xFF) as bv8, ((v >> 24) & 0xFF) as bv8]
  }

  function Bytes64(v: bv64): (b: seq<bv8>)
    ensures |b| == 8
  {
    [(v & 0xFF) as bv8, ((v >> 8) & 0xFF) as bv8, ((v >> 16) & 0xFF) as bv8, ((v >> 24) & 0xFF) as bv8,
     ((v >> 32) & 0xFF) as bv8, ((v >> 40) & 0xFF) as bv8, ((v >> 48) & 0xFF) as bv8, ((v >> 56) & 0xFF) as bv8]
  }

  method Encode16(buf: array<bv8>, at: nat, value: bv16)
    requires at + 2 <= buf.Length
    modifies buf
    ensures buf[..] == old(buf[..at]) + Bytes16(value) + old(buf[at + 2..])
  {
    buf[at] := (value & 0xFF) as bv8;
    buf[at + 1] := ((value >> 8) & 0xFF) as bv8;
  }

  method Encode32(buf: array<bv8>, at: nat, value: bv32)
    requires at + 4 <= buf.Length
    modifies buf
    ensures buf[..] == old(buf[..at]) + Bytes32(value) + old(buf[at + 4..])
  {
    buf[at] := (value & 0xFF) as bv8;
    buf[at + 1] := ((value >> 8) & 0xFF) as bv8;
    buf[at + 2] := ((value >> 16) & 0xFF) as bv8;
    buf[at + 3] := ((value >> 24) & 0xFF) as bv8;
  }

  method Encode64(buf: array<bv8>, at: nat, value: bv64)
    requires at + 8 <= buf.Length
    modifies buf
    ensures buf[..] == old(buf[..at]) + Bytes64(value) + old(buf[at + 8..])
  {
    buf[at] := (value & 0xFF) as bv8;
    buf[at + 1] := ((value >> 8) & 0xFF) as bv8;
    buf[at + 2] := ((value >> 16) & 0xFF) as bv8;
    buf[at + 3] := ((value >> 24) & 0xFF) as bv8;
    buf[at + 4] := ((value >> 32) & 0xFF) as bv8;
    buf[at + 5] := ((value >> 40) & 0xFF) as bv8;
    buf[at + 6] := ((value >> 48) & 0xFF) as bv8;
    buf[at + 7] := ((value >> 56) & 0xFF) as bv8;
  }

  function Decode16(b: seq<bv8>): bv16
    requires |b| >= 2
  {
    b[0] as bv16 | (b[1] as bv16 << 8)
  }

  function Decode32(b: seq<bv8>): bv32
    requires |b| >= 4
  {
    b[0] as bv32 | (b[1] as bv32 << 8) | (b[2] as bv32 << 16) | (b[3] as bv32 << 24)
  }

  function Decode64(b: seq<bv8>): bv64
    requires |b| >= 8
  {
    b[0] as bv64 | (b[1] as bv64 << 8) | (b[2] as bv64 << 16) | (b[3] as bv64 << 24)
    | (b[4] as bv64 << 32) | (b[5] as bv64 << 40) | (b[6] as bv64 << 48) | (b[7] as bv64 << 56)
  }

  // ---- Round trips ----------------------------------------------------------------------------

  /** Decoding what was encoded, whatever follows it in the buffer. */
  lemma DecodeEncode16(v: bv16, rest: seq<bv8>)
    ensures Decode16(Bytes16(v) + rest) == v
  {
  }

  lemma DecodeEncode32(v: bv32, rest: seq<bv8>)
    ensures Decode32(Bytes32(v) + rest) == v
  {
  }

  lemma DecodeEncode64(v: bv64, rest: seq<bv8>)
    ensures Decode64(Bytes64(v) + rest) == v
  {
  }

  /** Encoding what was decoded gives the bytes back. */
  lemma EncodeDecode16(b: seq<bv8>)
    requires |b| == 2
    ensures Bytes16(Decode16(b)) == b
  {
  }

  lemma EncodeDecode32(b: seq<bv8>)
    requires |b| == 4
    ensures Bytes32(Decode32(b)) == b
  {
  }

  lemma EncodeDecode64(b: seq<bv8>)
    requires |b| == 8
    ensures Bytes64(Decode64(b)) == b
  {
  }

  /** A 64-bit field is its low 32-bit field followed by its high one. */
  lemma HalvesOf64(v: bv64)
    ensures Bytes64(v) == Bytes32((v & 0xFFFF_FFFF) as bv32) + Bytes32((v >> 32) as bv32)
  {
  }

  // ---- The value ----------------------------------------------------------------------------------

  lemma Pair(b: seq<bv8>)
    requires |b| >= 2
    ensures Positional(b) == b[0] as int + 256 * b[1] as int + 65536 * Positional(b[2..])
  {
    assert b[1..][1..] == b[2..];
  }

  lemma Quad(b: seq<bv8>)
    requires |b| >= 4
    ensures Positional(b) == Positional(b[..4]) + 0x1_0000_0000 * Positional(b[4..])
  {
    Pair(b);
    Pair(b[2..]);
    Pair(b[..4]);
    Pair(b[..4][2..]);
    assert b[2..][2..] == b[4..] && b[..4][2..] == b[2..4] && b[2..4][2..] == [];
  }

  lemma Word(lo: bv8, hi: bv8)
    ensures (lo as bv16 | (hi as bv16 << 8)) as int == lo as int + 256 * hi as int
  {
  }

  lemma DoubleWord(lo: bv16, hi: bv16)
    ensures (lo as bv32 | (hi as bv32 << 16)) as int == lo as int + 65536 * hi as int
  {
  }

  lemma QuadWord(lo: bv32, hi: bv32)
    ensures (lo as bv64 | (hi as bv64 << 32)) as int == lo as int + 0x1_0000_0000 * hi as int
  {
  }

  lemma Value16(b: seq<bv8>)
    requires |b| == 2
    ensures Decode16(b) as int == Positional(b)
  {
    Pair(b);
    Word(b[0], b[1]);
  }

  lemma Split32(b: seq<bv8>)
    requires |b| == 4
    ensures Decode32(b) == Decode16(b[..2]) as bv32 | (Decode16(b[2..]) as bv32 << 16)
  {
  }

  /** A word made of two halves has the value of its bytes if the halves have theirs. */
  lemma Join32(b: seq<bv8>, lo: bv16, hi: bv16)
    requires |b| == 4 && lo as int == Positional(b[..2]) && hi as int == Positional(b[2..])
    ensures (lo as bv32 | (hi as bv32 << 16)) as int == Positional(b)
  {
    Pair(b);
    Pair(b[..2]);
    DoubleWord(lo, hi);
  }

  lemma Halves32(b: seq<bv8>) returns (lo: bv16, hi: bv16)
    requires |b| == 4
    ensures lo as int == Positional(b[..2]) && hi as int == Positional(b[2..])
    ensures Decode32(b) == lo as bv32 | (hi as bv32 << 16)
  {
    lo, hi := Decode16(b[..2]), Decode16(b[2..]);
    Value16(b[..2]);
    Value16(b[2..]);
    Split32(b);
  }

  lemma Value32(b: seq<bv8>)
    requires |b| == 4
    ensures Decode32(b) as int == Positional(b)
  {
    var lo, hi := Halves32(b);
    Join32(b, lo, hi);
  }

  lemma Split64(b: seq<bv8>)
    requires |b| == 8
    ensures Decode64(b) == Decode32(b[..4]) as bv64 | (Decode32(b[4..]) as bv64 << 32)
  {
  }

  lemma Join64(b: seq<bv8>, lo: bv32, hi: bv32)
    requires |b| == 8 && lo as int == Positional(b[..4]) && hi as int == Positional(b[4..])
    ensures (lo as bv64 | (hi as bv64 << 32)) as int == Positional(b)
  {
    Quad(b);
    QuadWord(lo, hi);
  }

  lemma Halves64(b: seq<bv8>) returns (lo: bv32, hi: bv32)
    requires |b| == 8
    ensures lo as int == Positional(b[..4]) && hi as int == Positional(b[4..])
    ensures Decode64(b) == lo as bv64 | (hi as bv64 << 32)
  {
    lo, hi := Decode32(b[..4]), Decode32(b[4..]);
    Value32(b[..4]);
    Value32(b[4..]);
    Split64(b);
  }

  lemma Value64(b: seq<bv8>)
    requires |b| == 8
    ensures Decode64(b) as int == Positional(b)
  {
    var lo, hi := Halves64(b);
    Join64(b, lo, hi);
  }
}
