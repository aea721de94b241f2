/** The secure hash standard as RFC 3174 defines it: padding (section 4), functions and
    constants (section 5), and the method with an 80-word schedule (section 6.1). */
module Sha1Spec {
  import opened WordBits

  type byte = bv8
  type word = bv32

  /** The five words H0 to H4, and the five registers A to E. */
  datatype Regs = Regs(a: word, b: word, c: word, d: word, e: word)

  function Rotl(n: nat, x: word): word
    requires 0 < n < 32
  {
    (x << n) | (x >> (32 - n))
  }

  function Choose(b: word, c: word, d: word): word { (b & c) | (!b & d) }

  function Parity(b: word, c: word, d: word): word { b ^ c ^ d }

  function Majority(b: word, c: word, d: word): word { (b & c) | (b & d) | (c & d) }

  function F(t: nat, b: word, c: word, d: word): word
    requires t < 80
  {
    if t < 20 then Choose(b, c, d) else if t < 40 then Parity(b, c, d) else if t < 60 then Majority(b, c, d)
        else Parity(b, c, d)
  }

  function K(t: nat): word
    requires t < 80
  {
    if t < 20 then 0x5A827999 else if t < 40 then 0x6ED9EBA1 else if t < 60 then 0x8F1BBCDC else 0xCA62C1D6
  }

  /** The word of four bytes, most significant first. */
  function WordOf(b0: byte, b1: byte, b2: byte, b3: byte): word {
    ((b0 as word) << 24) | ((b1 as word) << 16) | ((b2 as word) << 8) | (b3 as word)
  }

  function Xor(a: word, b: word, c: word, d: word): word { a ^ b ^ c ^ d }

  function Sum(a: word, b: word, c: word, d: word, e: word): word { a + b + c + d + e }

  /** Word `t` of the message schedule of a block. */
  function W(block: seq<byte>, t: nat): word
    requires |block| == 64 && t < 80
  {
    if t < 16 then WordOf(block[4 * t], block[4 * t + 1], block[4 * t + 2], block[4 * t + 3])
    else Rotl(1, Xor(W(block, t - 3), W(block, t - 8), W(block, t - 14), W(block, t - 16)))
  }

  function Round(r: Regs, t: nat, w: word): Regs
    requires t < 80
  {
    Regs(Sum(Rotl(5, r.a), F(t, r.b, r.c, r.d), r.e, w, K(t)), r.a, Rotl(30, r.b), r.c, r.d)
  }

  /** The registers after the first `t` rounds. */
  function Rounds(h: Regs, block: seq<byte>, t: nat): Regs
    requires |block| == 64 && t <= 80
  {
    if t == 0 then h else Round(Rounds(h, block, t - 1), t - 1, W(block, t - 1))
  }

  /** Addition of words, modulo 2 to the 32. */
  function Plus(a: word, b: word): word { a + b }

  function AddRegs(h: Regs, r: Regs): Regs {
    Regs(Plus(h.a, r.a), Plus(h.b, r.b), Plus(h.c, r.c), Plus(h.d, r.d), Plus(h.e, r.e))
  }

  function ProcessBlock(h: Regs, block: seq<byte>): Regs
    requires |block| == 64
  {
    AddRegs(h, Rounds(h, block, 80))
  }

  function InitialHash(): Regs {
    Regs(0x67452301, 0xEFCDAB89, 0x98BADCFE, 0x10325476, 0xC3D2E1F0)
  }

  /** The hash of whole blocks, from the words `h`. */
  function ProcessBlocks(h: Regs, m: seq<byte>): Regs
    requires |m| % 64 == 0
    decreases |m|
  {
    if m == [] then h
    else ProcessBlock(ProcessBlocks(h, m[..|m| - 64]), m[|m| - 64..])
  }

  function Zeros(n: nat): seq<byte> {
    seq(n, _ => 0)
  }

  function LowByte(x: nat): byte { (x % 256) as byte }

  /** The `n` low-order bytes of a number, most significant first. */
  function BigEndian(x: nat, n: nat): (r: seq<byte>)
    ensures |r| == n
  {
    if n == 0 then [] else BigEndian(x / 256, n - 1) + [LowByte(x)]
  }

  /** The number of zero bytes that bring a message of `n` bytes, a 0x80 byte and an 8-byte
      length to a multiple of 64 bytes. */
  function ZeroCount(n: nat): (zeros: nat)
    ensures (n + 1 + zeros + 8) % 64 == 0
  {
    (119 - n % 64) % 64
  }

  function Pad(m: seq<byte>): (r: seq<byte>)
    ensures |r| % 64 == 0
  {
    m + [0x80] + Zeros(ZeroCount(|m|)) + BigEndian(8 * |m| % TWO_TO_THE_64, 8)
  }

  function WordBytes(x: word): seq<byte> {
    [(x >> 24) as byte, ((x >> 16) & 0xff) as byte, ((x >> 8) & 0xff) as byte, (x & 0xff) as byte]
  }

  function RegsBytes(r: Regs): seq<byte> {
    WordBytes(r.a) + WordBytes(r.b) + WordBytes(r.c) + WordBytes(r.d) + WordBytes(r.e)
  }

  /** The message digest of a message. */
  function Hash(m: seq<byte>): seq<byte> {
    RegsBytes(ProcessBlocks(InitialHash(), Pad(m)))
  }
}
