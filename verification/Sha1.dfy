/** The incremental SHA-1 implementation: a circular 16-word schedule, rounds that rename the
    registers instead of moving them, and a buffer for the block that is not complete yet. */
module Sha1 {
  import opened Sha1Spec
  import opened WordBits

  // ---------------------------------------------------------------- boolean functions and constants

  function F1(x: word, y: word, z: word): word { z ^ (x & (y ^ z)) }

  function F2(x: word, y: word, z: word): word { x ^ y ^ z }

  function F3(x: word, y: word, z: word): word { (x & y) | (z & (x | y)) }

  const K1: word := 0x5A827999
  const K2: word := 0x6ED9EBA1
  const K3: word := 0x8F1BBCDC
  const K4: word := 0xCA62C1D6

  /** The four stretches of twenty rounds that share a boolean function and a constant. */
  datatype Phase = Phase1 | Phase2 | Phase3 | Phase4

  function PhaseF(p: Phase, x: word, y: word, z: word): word {
    match p
    case Phase1 => F1(x, y, z)
    case Phase2 => F2(x, y, z)
    case Phase3 => F3(x, y, z)
    case Phase4 => F2(x, y, z)
  }

  function PhaseK(p: Phase): word {
    match p
    case Phase1 => K1
    case Phase2 => K2
    case Phase3 => K3
    case Phase4 => K4
  }

  function PhaseOf(t: nat): Phase {
    if t < 20 then Phase1 else if t < 40 then Phase2 else if t < 60 then Phase3 else Phase4
  }

  lemma ChooseBits(x: word, y: word, z: word)
    ensures z ^ (x & (y ^ z)) == (x & y) | (!x & z)
  {
  }

  lemma ChooseRewritten(x: word, y: word, z: word)
    ensures F1(x, y, z) == Choose(x, y, z)
  {
    ChooseBits(x, y, z);
  }

  lemma MajorityBits(x: word, y: word, z: word)
    ensures (x & y) | (z & (x | y)) == (x & y) | (x & z) | (y & z)
  {
  }

  lemma MajorityRewritten(x: word, y: word, z: word)
    ensures F3(x, y, z) == Majority(x, y, z)
  {
    MajorityBits(x, y, z);
  }

  lemma ParityKept(x: word, y: word, z: word)
    ensures F2(x, y, z) == Parity(x, y, z)
  {
  }

  /** The rewritten boolean functions are those of the standard. */
  lemma PhaseIsStandard(t: nat, x: word, y: word, z: word)
    requires t < 80
    ensures PhaseF(PhaseOf(t), x, y, z) == F(t, x, y, z)
    ensures PhaseK(PhaseOf(t)) == K(t)
  {
    hide F1, F2, F3, Choose, Parity, Majority;
    ChooseRewritten(x, y, z);
    ParityKept(x, y, z);
    MajorityRewritten(x, y, z);
  }

  // ---------------------------------------------------------------- rounds

  /** A round that leaves the new value of register A in E and the new value of C in B. */
  function SubRound(a: word, b: word, c: word, d: word, e: word, p: Phase, data: word): (word, word) {
    (AddTo(e, Rotl(5, a), PhaseF(p, b, c, d), PhaseK(p), data), Rotl(30, b))
  }

  function AddTo(e: word, r: word, f: word, k: word, w: word): word { e + (r + f + k + w) }

  lemma SumOrder(r: word, f: word, k: word, w: word, e: word)
    ensures AddTo(e, r, f, k, w) == Sum(r, f, e, w, k)
  {
  }

  /** With the registers renamed, the short round is the round of the standard. */
  lemma SubRoundIsRound(h: Regs, input: seq<byte>, t: nat, r: Regs)
    requires |input| == 64 && t < 80 && r == Rounds(h, input, t)
    ensures var x := SubRound(r.a, r.b, r.c, r.d, r.e, PhaseOf(t), W(input, t));
            Regs(x.0, r.a, x.1, r.c, r.d) == Rounds(h, input, t + 1)
  {
    hide Rotl, PhaseF, F, K, PhaseK, W, Sum, AddTo;
    PhaseIsStandard(t, r.b, r.c, r.d);
    SumOrder(Rotl(5, r.a), F(t, r.b, r.c, r.d), K(t), W(input, t), r.e);
  }

  // ---------------------------------------------------------------- schedule

  /** Before round `t` the buffer holds the words read, or the last sixteen words expanded. */
  ghost predicate Holds(data: seq<word>, input: seq<byte>, t: nat)
    requires |input| == 64 && t <= 80
  {
    var next := if t < 16 then 16 else t;
    |data| == 16 && forall k :: next - 16 <= k < next ==> data[k % 16] == W(input, k)
  }

  lemma XorOrder(a: word, b: word, c: word, d: word)
    ensures Xor(a, b, c, d) == Xor(d, c, b, a)
  {
  }

  lemma HeldWords(data: seq<word>, input: seq<byte>, t: nat)
    requires |input| == 64 && 16 <= t < 80 && Holds(data, input, t)
    ensures |data| == 16 && data[t % 16] == W(input, t - 16) && data[(t - 14) % 16] == W(input, t - 14)
    ensures data[(t - 8) % 16] == W(input, t - 8) && data[(t - 3) % 16] == W(input, t - 3)
  {
    hide W;
    assert data[(t - 16) % 16] == W(input, t - 16);
  }

  lemma HoldsNext(data: seq<word>, input: seq<byte>, t: nat)
    requires |input| == 64 && 16 <= t < 80 && Holds(data, input, t)
    ensures Holds(data[t % 16 := W(input, t)], input, t + 1)
  {
    hide W;
  }

  /** Word `t` of the schedule, computed in place over the word it replaces. */
  method Expand(data: array<word>, t: nat, ghost input: seq<byte>) returns (w: word)
    requires |input| == 64 && 16 <= t < 80 && Holds(data[..], input, t)
    modifies data
    ensures w == W(input, t) && Holds(data[..], input, t + 1)
  {
    hide Rotl, Xor, WordOf, Holds;
    ghost var before := data[..];
    HeldWords(before, input, t);
    HoldsNext(before, input, t);
    XorOrder(data[t % 16], data[(t - 14) % 16], data[(t - 8) % 16], data[(t - 3) % 16]);
    w := Rotl(1, Xor(data[t % 16], data[(t - 14) % 16], data[(t - 8) % 16], data[(t - 3) % 16]));
    data[t % 16] := w;
    assert data[..] == before[t % 16 := w];
  }

  /** The data word of round `t`: one of the words read, or a word expanded on the fly. */
  method NextWord(data: array<word>, t: nat, ghost input: seq<byte>) returns (w: word)
    requires |input| == 64 && t < 80 && Holds(data[..], input, t)
    modifies data
    ensures w == W(input, t) && Holds(data[..], input, t + 1)
  {
    if t < 16 {
      assert data[..][t % 16] == W(input, t);
      w := data[t];
    } else {
      w := Expand(data, t, input);
    }
  }

  /** Round `t` on renamed registers: E receives the new A, and B the new C. */
  method OneRound(data: array<word>, t: nat, p: Phase, a: word, b: word, c: word, d: word, e: word,
                  ghost h: Regs, ghost input: seq<byte>)
    returns (e': word, b': word)
    requires |input| == 64 && t < 80 && p == PhaseOf(t) && Holds(data[..], input, t)
    requires Regs(a, b, c, d, e) == Rounds(h, input, t)
    modifies data
    ensures Holds(data[..], input, t + 1)
    ensures Regs(e', a, b', c, d) == Rounds(h, input, t + 1)
  {
    hide W, Holds, SubRound, Rounds;
    var w := NextWord(data, t, input);
    SubRoundIsRound(h, input, t, Regs(a, b, c, d, e));
    var x := SubRound(a, b, c, d, e, p, w);
    e', b' := x.0, x.1;
  }

  /** Five rounds, after which every register has its own name again. */
  method FiveRounds(data: array<word>, t: nat, p: Phase, A0: word, B0: word, C0: word, D0: word, E0: word,
                    ghost h: Regs, ghost input: seq<byte>)
    returns (A: word, B: word, C: word, D: word, E: word)
    requires |input| == 64 && t <= 75 && t % 5 == 0 && p == PhaseOf(t)
    requires Holds(data[..], input, t)
    requires Regs(A0, B0, C0, D0, E0) == Rounds(h, input, t)
    modifies data
    ensures Holds(data[..], input, t + 5)
    ensures Regs(A, B, C, D, E) == Rounds(h, input, t + 5)
  {
    hide Holds, Rounds;
    A, B, C, D, E := A0, B0, C0, D0, E0;
    E, B := OneRound(data, t, p, A, B, C, D, E, h, input);
    D, A := OneRound(data, t + 1, p, E, A, B, C, D, h, input);
    C, E := OneRound(data, t + 2, p, D, E, A, B, C, h, input);
    B, D := OneRound(data, t + 3, p, C, D, E, A, B, h, input);
    A, C := OneRound(data, t + 4, p, B, C, D, E, A, h, input);
  }

  method TwentyRounds(data: array<word>, t: nat, p: Phase, A0: word, B0: word, C0: word, D0: word, E0: word,
                      ghost h: Regs, ghost input: seq<byte>)
    returns (A: word, B: word, C: word, D: word, E: word)
    requires |input| == 64 && t <= 60 && t % 20 == 0 && p == PhaseOf(t)
    requires Holds(data[..], input, t)
    requires Regs(A0, B0, C0, D0, E0) == Rounds(h, input, t)
    modifies data
    ensures Holds(data[..], input, t + 20)
    ensures Regs(A, B, C, D, E) == Rounds(h, input, t + 20)
  {
    hide Holds, Rounds;
    A, B, C, D, E := FiveRounds(data, t, p, A0, B0, C0, D0, E0, h, input);
    A, B, C, D, E := FiveRounds(data, t + 5, p, A, B, C, D, E, h, input);
    A, B, C, D, E := FiveRounds(data, t + 10, p, A, B, C, D, E, h, input);
    A, B, C, D, E := FiveRounds(data, t + 15, p, A, B, C, D, E, h, input);
  }

  // ---------------------------------------------------------------- compression

  function ReadWord(input: seq<byte>, i: nat): word
    requires i + 4 <= |input|
  {
    WordOf(input[i], input[i + 1], input[i + 2], input[i + 3])
  }

  function StateOf(s: seq<word>): Regs
    requires |s| == 5
  {
    Regs(s[0], s[1], s[2], s[3], s[4])
  }

  method AddToState(state: array<word>, A: word, B: word, C: word, D: word, E: word)
    requires state.Length == 5
    modifies state
    ensures StateOf(state[..]) == AddRegs(old(StateOf(state[..])), Regs(A, B, C, D, E))
  {
    hide Plus;
    state[0] := Plus(state[0], A);
    state[1] := Plus(state[1], B);
    state[2] := Plus(state[2], C);
    state[3] := Plus(state[3], D);
    state[4] := Plus(state[4], E);
  }

  method LoadBlock(input: seq<byte>) returns (data: array<word>)
    requires |input| == 64
    ensures fresh(data) && Holds(data[..], input, 0)
  {
    hide W, ReadWord;
    data := new word[16];
    for i := 0 to 16
      invariant forall k :: 0 <= k < i ==> data[k] == W(input, k)
    {
      ReadIsSchedule(input, i);
      data[i] := ReadWord(input, 4 * i);
    }
  }

  /** Folds one block into the state, as section 6.1 of RFC 3174 defines it. */
  method Compress(state: array<word>, input: seq<byte>)
    requires state.Length == 5 && |input| == 64
    modifies state
    ensures StateOf(state[..]) == ProcessBlock(old(StateOf(state[..])), input)
  {
    hide Rounds, Holds, AddRegs;
    var data := LoadBlock(input);
    ghost var h := StateOf(state[..]);
    var A, B, C, D, E := state[0], state[1], state[2], state[3], state[4];
    NoRounds(h, input);
    A, B, C, D, E := TwentyRounds(data, 0, Phase1, A, B, C, D, E, h, input);
    A, B, C, D, E := TwentyRounds(data, 20, Phase2, A, B, C, D, E, h, input);
    A, B, C, D, E := TwentyRounds(data, 40, Phase3, A, B, C, D, E, h, input);
    A, B, C, D, E := TwentyRounds(data, 60, Phase4, A, B, C, D, E, h, input);
    AddToState(state, A, B, C, D, E);
  }

  lemma NoRounds(h: Regs, input: seq<byte>)
    requires |input| == 64
    ensures Rounds(h, input, 0) == h
  {
  }

  lemma ReadIsSchedule(input: seq<byte>, i: nat)
    requires |input| == 64 && i < 16
    ensures ReadWord(input, 4 * i) == W(input, i)
  {
    hide WordOf;
  }

  // ---------------------------------------------------------------- the length of the message

  /** The number of bits hashed, in 64-bit arithmetic. */
  function BitCount(count: nat, index: nat): nat {
    (count * 512) % TWO_TO_THE_64 + index * 8
  }

  lemma CountIs(count: nat, index: nat)
    requires index < 64
    ensures BitCount(count, index) == count * 512 % TWO_TO_THE_64 + 8 * index % TWO_TO_THE_64
  {
  }

  lemma JoinedCount(count: bv64, index: bv64)
    requires Value(index) < 64
    requires NoBitInCommon(Eightfold(Eightfold(Eightfold(count))), Eightfold(index))
    requires Ends(Eightfold(Eightfold(Eightfold(count))), 64)
    ensures Value(Or(Eightfold(Eightfold(Eightfold(count))), Eightfold(index))) == BitCount(Value(count), Value(index))
  {
    OrIsSum(Eightfold(Eightfold(Eightfold(count))), Eightfold(index), 64);
    EightTimes(count);
    EightTimes(Eightfold(count));
    EightTimes(Eightfold(Eightfold(count)));
    EightTimes(index);
    hide *;
    ThreeTimesEight(Value(count), Value(Eightfold(count)), Value(Eightfold(Eightfold(count))));
    CountIs(Value(count), Value(index));
  }

  /** Joining the shifted block counter and the shifted buffer index by OR gives that number. */
  lemma BitsAreCount(count: bv64, index: bv64)
    requires index < 64
    ensures ((count << 9) | (index << 3)) as nat == BitCount(count as nat, index as nat)
  {
    CountedApart(count, index);
    SmallIndex(index);
    JoinedCount(count, index);
    CountedAs(count, index);
    hide *;
  }

  lemma CountedApart(count: bv64, index: bv64)
    requires index < 64
    ensures NoBitInCommon(Eightfold(Eightfold(Eightfold(count))), Eightfold(index))
    ensures Ends(Eightfold(Eightfold(Eightfold(count))), 64)
  {
  }

  lemma SmallIndex(index: bv64)
    requires index < 64
    ensures Value(index) < 64
  {
  }

  lemma CountedAs(count: bv64, index: bv64)
    ensures ((count << 9) | (index << 3)) as nat == Value(Or(Eightfold(Eightfold(Eightfold(count))), Eightfold(index)))
    ensures count as nat == Value(count) && index as nat == Value(index)
  {
  }

  /** A block counter that wraps around still gives the message length modulo 2 to the 64. */
  lemma BitCountIsLength(blocks: nat, index: nat)
    requires index < 64
    ensures BitCount(blocks % TWO_TO_THE_64, index) == 8 * (64 * blocks + index) % TWO_TO_THE_64
  {
    var m := TWO_TO_THE_64;
    var count := blocks % m;
    var low := (count * 512) % m;
    var carry := count * 512 / m;
    assert count * 512 == carry * m + low;
    assert low % 512 == 0;
    assert low <= m - 512;
    RemainderIs(8 * (64 * blocks + index), blocks / m * 512 + carry, low + index * 8, m);
  }

  lemma ShiftedTwice(x: nat)
    ensures x / 0x100 / 0x100 == x / 0x1_0000
    ensures x / 0x1_0000 / 0x1_0000 == x / 0x1_0000_0000
    ensures x / 0x1_0000_0000 / 0x1_0000 == x / 0x1_0000_0000_0000
  {
  }

  lemma ShiftedByte(x: nat)
    ensures x / 0x1_0000 / 0x100 == x / 0x100_0000
    ensures x / 0x1_0000_0000 / 0x100 == x / 0x100_0000_0000
    ensures x / 0x1_0000_0000_0000 / 0x100 == x / 0x100_0000_0000_0000
  {
  }

  lemma BigEndianStep(x: nat, n: nat)
    ensures BigEndian(x, n + 2) == BigEndian(x / 0x1_0000, n) + [LowByte(x / 0x100), LowByte(x)]
  {
    ShiftedTwice(x);
    assert BigEndian(x / 0x100, n + 1) == BigEndian(x / 0x1_0000, n) + [LowByte(x / 0x100)];
  }

  /** The length bytes as they are stored, each shifted down from the bit count. */
  lemma LengthBytes(x: nat)
    ensures BigEndian(x, 8) ==
        [LowByte(x / 0x100_0000_0000_0000), LowByte(x / 0x1_0000_0000_0000), LowByte(x / 0x100_0000_0000),
                                LowByte(x / 0x1_0000_0000), LowByte(x / 0x100_0000), LowByte(x / 0x1_0000),
                                    LowByte(x / 0x100), LowByte(x)]
  {
    hide LowByte, BigEndian;
    ShiftedTwice(x);
    ShiftedByte(x);
    BigEndianStep(x, 6);
    BigEndianStep(x / 0x1_0000, 4);
    BigEndianStep(x / 0x1_0000_0000, 2);
    BigEndianStep(x / 0x1_0000_0000_0000, 0);
    assert BigEndian(x / 0x1_0000_0000_0000 / 0x1_0000, 0) == [];
    assert x / 0x1_0000 / 0x100 == x / 0x100_0000;
  }

  lemma AppendBlock(h: Regs, m: seq<byte>, block: seq<byte>)
    requires |m| % 64 == 0 && |block| == 64
    ensures ProcessBlocks(h, m + block) == ProcessBlock(ProcessBlocks(h, m), block)
  {
    var all := m + block;
    assert all[..|all| - 64] == m && all[|all| - 64..] == block;
  }

  // ---------------------------------------------------------------- the context

  /** Copies bytes into a buffer. */
  method CopyTo(target: array<byte>, offset: nat, data: seq<byte>)
    requires offset + |data| <= target.Length
    modifies target
    ensures target[..] == old(target[..offset]) + data + old(target[offset + |data|..])
  {
    forall i | 0 <= i < |data| {
      target[offset + i] := data[i];
    }
  }

  /** Clears bytes of a buffer. */
  method Clear(target: array<byte>, offset: nat, count: nat)
    requires offset + count <= target.Length
    modifies target
    ensures target[..] == old(target[..offset]) + Zeros(count) + old(target[offset + count..])
  {
    forall i | offset <= i < offset + count {
      target[i] := 0;
    }
  }

  /** Stores a 64-bit number in the last eight bytes of a block. */
  method StoreLength(block: array<byte>, bits: nat)
    requires block.Length == 64
    modifies block
    ensures block[..] == old(block[..56]) + BigEndian(bits, 8)
  {
    hide LowByte, BigEndian;
    LengthBytes(bits);
    block[56] := LowByte(bits / 0x100_0000_0000_0000);
    block[57] := LowByte(bits / 0x1_0000_0000_0000);
    block[58] := LowByte(bits / 0x100_0000_0000);
    block[59] := LowByte(bits / 0x1_0000_0000);
    block[60] := LowByte(bits / 0x100_0000);
    block[61] := LowByte(bits / 0x1_0000);
    block[62] := LowByte(bits / 0x100);
    block[63] := LowByte(bits);
  }

  /** Where padding ends the message: in the block that is open, or in one more. */
  function LastBlocks(tail: seq<byte>, length: seq<byte>): (r: (seq<byte>, seq<byte>))
    requires |tail| < 64 && |length| == 8
    ensures |r.0| == 0 || |r.0| == 64
    ensures |r.1| == 64
  {
    if |tail| <= 55 then ([], tail + [0x80] + Zeros(55 - |tail|) + length)
    else (tail + [0x80] + Zeros(63 - |tail|), Zeros(56) + length)
  }

  lemma PadIsLastBlocks(m: seq<byte>, hashed: seq<byte>, tail: seq<byte>)
    requires m == hashed + tail && |hashed| % 64 == 0 && |tail| < 64
    ensures var last := LastBlocks(tail, BigEndian(8 * |m| % TWO_TO_THE_64, 8));
            Pad(m) == hashed + last.0 + last.1
  {
    hide BigEndian;
    var z := ZeroCount(|m|);
    assert |m| % 64 == |tail|;
    if |tail| > 55 {
      assert Zeros(z) == Zeros(63 - |tail|) + Zeros(56);
    }
  }

  lemma BlocksOnBlocks(h: Regs, m: seq<byte>, first: seq<byte>, second: seq<byte>)
    requires |m| % 64 == 0 && (|first| == 0 || |first| == 64) && |second| == 64
    ensures |m + first + second| % 64 == 0
    ensures var g := ProcessBlocks(h, m);
            ProcessBlocks(h, m + first + second) ==
              ProcessBlock(if first == [] then g else ProcessBlock(g, first), second)
  {
    hide ProcessBlock, ProcessBlocks;
    if first == [] {
      assert m + first == m;
      AppendBlock(h, m, second);
    } else {
      AppendBlock(h, m, first);
      AppendBlock(h, m + first, second);
    }
  }

  lemma HashOfLastBlocks(m: seq<byte>, hashed: seq<byte>, tail: seq<byte>)
    requires m == hashed + tail && |hashed| % 64 == 0 && |tail| < 64
    ensures var last := LastBlocks(tail, BigEndian(8 * |m| % TWO_TO_THE_64, 8));
            var h := ProcessBlocks(InitialHash(), hashed);
            ProcessBlocks(InitialHash(), Pad(m)) ==
              ProcessBlock(if last.0 == [] then h else ProcessBlock(h, last.0), last.1)
  {
    hide ProcessBlock, ProcessBlocks, BigEndian, Pad, LastBlocks, InitialHash;
    PadIsLastBlocks(m, hashed, tail);
    var last := LastBlocks(tail, BigEndian(8 * |m| % TWO_TO_THE_64, 8));
    BlocksOnBlocks(InitialHash(), hashed, last.0, last.1);
  }

  lemma EmptyStands(s: seq<word>)
    requires s == [0x67452301, 0xEFCDAB89, 0x98BADCFE, 0x10325476, 0xC3D2E1F0]
    ensures StateOf(s) == ProcessBlocks(InitialHash(), [])
  {
  }

  lemma CountNext(count: nat, n: nat)
    requires n % 64 == 0 && count == n / 64 % TWO_TO_THE_64
    ensures (n + 64) % 64 == 0 && (count + 1) % TWO_TO_THE_64 == (n + 64) / 64 % TWO_TO_THE_64
  {
  }

  /** The running state of a hash; `message` is everything hashed so far. */
  class Context {
    const state: array<word>
    var count: nat
    const block: array<byte>
    var index: nat
    ghost var message: seq<byte>

    ghost predicate Valid()
      reads this, state, block
    {
      && state.Length == 5 && block.Length == 64
      && (state as object) != (block as object)
      && index < 64 && index <= |message|
      && Stands(message[..|message| - index])
      && block[..index] == message[|message| - index..]
    }

    /** The state and count stand for these whole blocks. */
    ghost predicate Stands(hashed: seq<byte>)
      requires state.Length == 5
      reads `count, state
    {
      && |hashed| % 64 == 0
      && count == |hashed| / 64 % TWO_TO_THE_64
      && StateOf(state[..]) == ProcessBlocks(InitialHash(), hashed)
    }

    constructor ()
      ensures Valid() && message == [] && fresh(state) && fresh(block)
    {
      hide ProcessBlocks, InitialHash, StateOf;
      state := new word[5][0x67452301, 0xEFCDAB89, 0x98BADCFE, 0x10325476, 0xC3D2E1F0];
      block := new byte[64];
      count, index, message := 0, 0, [];
      new;
      EmptyStands(state[..]);
      assert message[..0] == [];
    }

    /** Folds in one whole block; `hashed` is what the state stands for. */
    method CompressBlock(input: seq<byte>, ghost hashed: seq<byte>)
      requires state.Length == 5 && |input| == 64 && Stands(hashed)
      modifies state, this`count
      ensures Stands(hashed + input)
    {
      hide ProcessBlock, ProcessBlocks, InitialHash, StateOf;
      CountNext(count, |hashed|);
      Compress(state, input);
      count := (count + 1) % TWO_TO_THE_64;
      AppendBlock(InitialHash(), hashed, input);
      assert |hashed + input| == |hashed| + 64;
    }

    /** Hashes the whole blocks of `data` and buffers what is left. */
    method UpdateBlocks(data: seq<byte>, ghost before: seq<byte>)
      requires state.Length == 5 && block.Length == 64 && (state as object) != (block as object)
      requires Stands(before)
      modifies this, state, block
      ensures Valid() && message == before + data
    {
      hide Stands;
      var rest := data;
      ghost var hashed := before;
      while |rest| >= 64
        invariant hashed + rest == before + data
        invariant Stands(hashed)
        decreases |rest|
      {
        CompressBlock(rest[..64], hashed);
        assert hashed + rest[..64] + rest[64..] == hashed + rest;
        hashed := hashed + rest[..64];
        rest := rest[64..];
      }
      CopyTo(block, 0, rest);
      index := |rest|;
      message := before + data;
      assert message[..|message| - index] == hashed && message[|message| - index..] == rest;
      assert block[..index] == rest;
    }

    method Update(data: seq<byte>)
      requires Valid()
      modifies this, state, block
      ensures Valid() && message == old(message) + data
    {
      hide Stands;
      ghost var hashed := message[..|message| - index];
      ghost var pending := message[|message| - index..];
      assert message == hashed + pending;
      if index != 0 {
        var left := 64 - index;
        if |data| < left {
          CopyTo(block, index, data);
          index := index + |data|;
          message := message + data;
          assert message[..|message| - index] == hashed;
          assert block[..index] == pending + data == message[|message| - index..];
        } else {
          CopyTo(block, index, data[..left]);
          assert block[..] == pending + data[..left];
          CompressBlock(block[..], hashed);
          assert hashed + block[..] + data[left..] == message + data;
          UpdateBlocks(data[left..], hashed + block[..]);
        }
      } else {
        assert hashed == message;
        UpdateBlocks(data, hashed);
      }
    }

    /** Pads the message and gives its digest; the state cannot be updated afterwards. */
    method Digest() returns (digest: seq<byte>)
      requires Valid()
      modifies state, block
      ensures digest == Hash(message)
    {
      hide ProcessBlock, ProcessBlocks, BigEndian, RegsBytes, Pad;
      ghost var n := |message| - index;
      ghost var tail := message[n..];
      HashOfLastBlocks(message, message[..n], tail);
      assert message == message[..n] + tail;
      var i := index;
      block[i] := 0x80;
      i := i + 1;
      assert block[..i] == tail + [0x80];
      if i > 64 - 8 {
        Clear(block, i, 64 - i);
        assert block[..] == tail + [0x80] + Zeros(63 - index);
        Compress(state, block[..]);
        Clear(block, 0, 64 - 8);
        assert block[..56] == Zeros(56);
      } else {
        Clear(block, i, 64 - 8 - i);
        assert block[..56] == tail + [0x80] + Zeros(55 - index);
      }
      BitCountIsLength(n / 64, index);
      StoreLength(block, BitCount(count, index));
      Compress(state, block[..]);
      digest := RegsBytes(StateOf(state[..]));
    }
  }

  function Concat(chunks: seq<seq<byte>>): seq<byte> {
    if chunks == [] then [] else Concat(chunks[..|chunks| - 1]) + chunks[|chunks| - 1]
  }

  lemma ConcatNone()
    ensures Concat([]) == []
  {
  }

  lemma ConcatPrefix(chunks: seq<seq<byte>>, i: nat)
    requires i < |chunks|
    ensures Concat(chunks[..i + 1]) == Concat(chunks[..i]) + chunks[i]
  {
    var done := chunks[..i + 1];
    assert done[..i] == chunks[..i] && done[i] == chunks[i];
  }

  /** However a message is split into chunks, hashing it incrementally gives its digest. */
  method HashChunks(chunks: seq<seq<byte>>) returns (digest: seq<byte>)
    ensures digest == Hash(Concat(chunks))
  {
    hide Hash, Concat, Context.Valid;
    assert Concat([]) == [] by { ConcatNone(); }
    var context := new Context();
    for i := 0 to |chunks|
      invariant context.Valid() && fresh(context) && fresh(context.state) && fresh(context.block)
      invariant context.message == Concat(chunks[..i])
    {
      context.Update(chunks[i]);
      ConcatPrefix(chunks, i);
    }
    assert chunks[..|chunks|] == chunks;
    digest := context.Digest();
  }
}
