/**
 * Bytes, 32-bit words and the little-endian correspondence between them
 * (`u32::from_le_bytes`, and the in-memory layout of a `uint32_t` array on
 * the little-endian hosts the engine runs on).
 */
module Bytes {

  type byte = x: int | 0 <= x < 0x100
  type u32 = x: int | 0 <= x < 0x1_0000_0000

  /** `u32::from_le_bytes`: the first byte is the least significant. */
  function LeWord(b0: byte, b1: byte, b2: byte, b3: byte): u32
  {
    b0 + 0x100 * b1 + 0x1_0000 * b2 + 0x100_0000 * b3
  }

  /** `u32::to_le_bytes`. */
  function LeBytes(w: u32): (r: seq<byte>)
    ensures |r| == 4
  {
    [w % 0x100, (w / 0x100) % 0x100, (w / 0x1_0000) % 0x100, w / 0x100_0000]
  }

  /** Splitting a word into bytes and joining them again is the identity. */
  lemma LeWordOfLeBytes(w: u32)
    ensures LeWord(LeBytes(w)[0], LeBytes(w)[1], LeBytes(w)[2], LeBytes(w)[3]) == w
  {
    var q1, q2, q3 := w / 0x100, w / 0x1_0000, w / 0x100_0000;
    assert w == w % 0x100 + 0x100 * q1;
    assert q2 == q1 / 0x100 && q1 == q1 % 0x100 + 0x100 * q2;
    assert q3 == q2 / 0x100 && q2 == q2 % 0x100 + 0x100 * q3;
  }

  /** Joining four bytes into a word and splitting it again is the identity. */
  lemma LeBytesOfLeWord(b0: byte, b1: byte, b2: byte, b3: byte)
    ensures LeBytes(LeWord(b0, b1, b2, b3)) == [b0, b1, b2, b3]
  {
    var w := LeWord(b0, b1, b2, b3);
    assert w / 0x100 == b1 + 0x100 * b2 + 0x1_0000 * b3;
    assert w / 0x1_0000 == b2 + 0x100 * b3;
  }

  /**
   * `chunks_exact(4)` followed by `from_le_bytes`: one word per complete
   * group of four bytes; a trailing partial group is dropped.
   */
  function Words(data: seq<byte>): (r: seq<u32>)
    ensures |r| == |data| / 4
    decreases |data|
  {
    if |data| < 4 then []
    else [LeWord(data[0], data[1], data[2], data[3])] + Words(data[4..])
  }

  /** Word `k` is made of bytes `4k` to `4k + 3`, least significant first. */
  lemma {:induction false} WordAt(data: seq<byte>, k: nat)
    requires k < |data| / 4
    ensures Words(data)[k] == LeWord(data[4 * k], data[4 * k + 1], data[4 * k + 2], data[4 * k + 3])
  {
    if k > 0 {
      WordAt(data[4..], k - 1);
      assert data[4..][4 * (k - 1)] == data[4 * k];
    }
  }

  /** The bytes a word sequence occupies in memory, first word first. */
  function WordBytes(words: seq<u32>): (r: seq<byte>)
    ensures |r| == 4 * |words|
  {
    if words == [] then [] else LeBytes(words[0]) + WordBytes(words[1..])
  }

  /** Decoding the in-memory bytes of a word sequence gives the words back. */
  lemma {:induction false} WordsOfWordBytes(words: seq<u32>)
    ensures Words(WordBytes(words)) == words
  {
    if words != [] {
      var b := WordBytes(words);
      LeWordOfLeBytes(words[0]);
      assert b[4..] == WordBytes(words[1..]);
      WordsOfWordBytes(words[1..]);
    }
  }
}
