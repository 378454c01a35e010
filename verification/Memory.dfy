/** Byte-addressed memory, as the heap of the kernel sees it: machine words of
    W bytes are stored little-endian at any address. */
module Memory {

  type Byte = b: int | 0 <= b < 256

  type WordBytes = w: nat | 0 < w witness 4

  /** sizeof(size_t), which is also the size of a pointer. Nothing below depends on its value. */
  const W: WordBytes

  /** 256 to the power n. */
  function Pow256(n: nat): (p: int)
    ensures 0 < p
  {
    if n == 0 then 1 else 256 * Pow256(n - 1)
  }

  /** The number of distinct machine words. */
  const MODULUS: int := Pow256(W)

  /** The unsigned number stored in a little-endian byte string. */
  function Value(s: seq<Byte>): (v: nat)
  {
    if s == [] then 0 else s[0] + 256 * Value(s[1..])
  }

  /** The n low-order bytes of v. */
  function Bytes(n: nat, v: nat): (s: seq<Byte>)
    ensures |s| == n
  {
    if n == 0 then [] else [v % 256] + Bytes(n - 1, v / 256)
  }

  /** Storing a number in enough bytes and reading it back gives the number. */
  lemma {:induction false} ValueOfBytes(n: nat, v: nat)
    requires v < Pow256(n)
    ensures Value(Bytes(n, v)) == v
  {
    if n != 0 {
      ValueOfBytes(n - 1, v / 256);
      assert Bytes(n, v)[1..] == Bytes(n - 1, v / 256);
    }
  }

  lemma {:induction false} ValueBelow(s: seq<Byte>)
    ensures Value(s) < Pow256(|s|)
  {
    if s != [] {
      ValueBelow(s[1..]);
    }
  }

  /** The word stored at address a. */
  ghost function Word(m: seq<Byte>, a: int): (v: nat)
    requires 0 <= a && a + W <= |m|
  {
    Value(m[a..a + W])
  }

  /** m' is m with the word v stored at a; every other byte is as it was. */
  ghost predicate Stored(m: seq<Byte>, a: int, v: nat, m': seq<Byte>) {
    && 0 <= a && a + W <= |m| == |m'|
    && Word(m', a) == v
    && forall k :: 0 <= k < |m| && !(a <= k < a + W) ==> m'[k] == m[k]
  }

  /** Two memories that agree on a word's bytes hold the same word. */
  lemma SameBytesSameWord(m: seq<Byte>, m': seq<Byte>, a: int)
    requires 0 <= a && a + W <= |m| && |m'| == |m|
    requires forall k :: a <= k < a + W ==> m'[k] == m[k]
    ensures Word(m', a) == Word(m, a)
  {
    assert m'[a..a + W] == m[a..a + W];
  }

  /** Storing a word leaves every word beside it as it was. */
  lemma OtherWordKept(m: seq<Byte>, a: int, v: nat, m': seq<Byte>, b: int)
    requires Stored(m, a, v, m')
    requires 0 <= b && b + W <= |m| && (b + W <= a || a + W <= b)
    ensures Word(m', b) == Word(m, b)
  {
    SameBytesSameWord(m, m', b);
  }

  method LoadWord(mem: array<Byte>, a: int) returns (v: nat)
    requires 0 <= a && a + W <= mem.Length
    ensures v == Word(mem[..], a) < MODULUS
  {
    assert mem[..][a..a + W] == mem[a..a + W];
    v := Value(mem[a..a + W]);
    ValueBelow(mem[a..a + W]);
  }

  method StoreWord(mem: array<Byte>, a: int, v: nat)
    requires 0 <= a && a + W <= mem.Length
    requires v < MODULUS
    modifies mem
    ensures Stored(old(mem[..]), a, v, mem[..])
  {
    var bytes := Bytes(W, v);
    forall i | 0 <= i < W {
      mem[a + i] := bytes[i];
    }
    ValueOfBytes(W, v);
    assert mem[..][a..a + W] == bytes;
  }
}
