/** Whole-payload signatures: FNV-1a over 64-bit words, and the set of known-bad hashes. */
module Signatures {
  import opened Packets
  import opened Arithmetic

  const WORD_RANGE := 0x1_0000_0000_0000_0000

  type Word = x: int | 0 <= x < 0x1_0000_0000_0000_0000

  const FNV_OFFSET_BASIS: Word := 0xcbf29ce484222325
  const FNV_PRIME: Word := 0x100000001b3

  /** The prime's inverse modulo 2^64, which exists because the prime is odd, and how often 2^64 goes into
      their product. */
  const FNV_PRIME_INVERSE: Word := 0xce965057aff6957b
  const FNV_PRIME_CARRY: Word := 0xce9650590f

  // --- exclusive or, bit by bit ---

  function Pow2(bits: nat): nat { if bits == 0 then 1 else 2 * Pow2(bits - 1) }

  function Xor(a: nat, b: nat, bits: nat): nat {
    if bits == 0 then 0 else (if a % 2 == b % 2 then 0 else 1) + 2 * Xor(a / 2, b / 2, bits - 1)
  }

  lemma {:induction false} XorBelow(a: nat, b: nat, bits: nat)
    ensures Xor(a, b, bits) < Pow2(bits)
  {
    if bits > 0 { XorBelow(a / 2, b / 2, bits - 1); }
  }

  lemma {:induction false} XorUndoesItself(a: nat, b: nat, bits: nat)
    requires a < Pow2(bits)
    ensures Xor(Xor(a, b, bits), b, bits) == a
  {
    if bits > 0 {
      XorUndoesItself(a / 2, b / 2, bits - 1);
      var x := Xor(a, b, bits);
      assert x / 2 == Xor(a / 2, b / 2, bits - 1) && x % 2 == if a % 2 == b % 2 then 0 else 1;
    }
  }

  lemma {:induction false} XorSeparates(a: nat, b: nat, c: nat, bits: nat)
    requires b < Pow2(bits) && c < Pow2(bits) && b != c
    ensures Xor(a, b, bits) != Xor(a, c, bits)
  {
    if bits > 0 && b / 2 != c / 2 {
      XorSeparates(a / 2, b / 2, c / 2, bits - 1);
    }
  }

  lemma EightBits()
    ensures Pow2(8) == 0x100
  {}

  /** `hash ^= byte` changes only the low eight bits. */
  function XorByte(hash: Word, b: Byte): Word {
    XorBelow(hash % 0x100, b, 8);
    EightBits();
    hash / 0x100 * 0x100 + Xor(hash % 0x100, b, 8)
  }

  // --- the hash ---

  /** One byte's step, wrapping at 64 bits. */
  function Step(hash: Word, b: Byte): Word {
    XorByte(hash, b) * FNV_PRIME % WORD_RANGE
  }

  function HashFrom(hash: Word, data: seq<Byte>): Word {
    if data == [] then hash else Step(HashFrom(hash, data[..|data| - 1]), data[|data| - 1])
  }

  function Fnv1a(data: seq<Byte>): Word { HashFrom(FNV_OFFSET_BASIS, data) }

  method Fnv1aHash(data: seq<Byte>) returns (hash: Word)
    ensures hash == Fnv1a(data)
  {
    hash := FNV_OFFSET_BASIS;
    for i := 0 to |data|
      invariant hash == Fnv1a(data[..i])
    {
      assert data[..i + 1][..i] == data[..i];
      hash := XorByte(hash, data[i]);
      hash := hash * FNV_PRIME % WORD_RANGE;
    }
    assert data[..|data|] == data;
  }

  // --- known answers ---

  /** Bit `k` of an exclusive or is one exactly where the operands' bits differ. */
  lemma {:induction false} XorIsBitwise(a: nat, b: nat, bits: nat, k: nat)
    requires k < bits
    ensures Bit(Xor(a, b, bits), k) == if Bit(a, k) == Bit(b, k) then 0 else 1
  {
    XorHalves(a, b, bits);
    hide Xor;
    if k > 0 {
      XorIsBitwise(a / 2, b / 2, bits - 1, k - 1);
    }
  }

  lemma XorHalves(a: nat, b: nat, bits: nat)
    requires bits > 0
    ensures Xor(a, b, bits) % 2 == if a % 2 == b % 2 then 0 else 1
    ensures Xor(a, b, bits) / 2 == Xor(a / 2, b / 2, bits - 1)
  {
    var rest, low := Xor(a / 2, b / 2, bits - 1), if a % 2 == b % 2 then 0 else 1;
    assert Xor(a, b, bits) == low + 2 * rest;
  }

  function Bit(x: nat, k: nat): nat { if k == 0 then x % 2 else Bit(x / 2, k - 1) }

  lemma NextByte(hash: Word, data: seq<Byte>, b: Byte)
    ensures HashFrom(hash, data + [b]) == Step(HashFrom(hash, data), b)
  {
    assert (data + [b])[..|data|] == data;
  }

  /** One more bit of an exclusive or of literals. */
  lemma MixedBit(a: nat, b: nat, x: nat, bits: nat)
    requires bits > 0 && x % 2 == (a % 2 + b % 2) % 2 && Xor(a / 2, b / 2, bits - 1) == x / 2
    ensures Xor(a, b, bits) == x
  {}

  lemma XorNoBits(a: nat, b: nat)
    ensures Xor(a, b, 0) == 0
  {}

  lemma MixedA()
    ensures Step(0xcbf29ce484222325, 0x61) == 0xaf63dc4c8601ec8c
  {
    hide Xor;
    XorNoBits(0, 0);
    MixedBit(0, 0, 0, 1);
    MixedBit(0, 1, 1, 2);
    MixedBit(1, 3, 2, 3);
    MixedBit(2, 6, 4, 4);
    MixedBit(4, 12, 8, 5);
    MixedBit(9, 24, 17, 6);
    MixedBit(18, 48, 34, 7);
    MixedBit(37, 97, 68, 8);
  }

  lemma MixedB()
    ensures Step(0xaf63dc4c8601ec8c, 0x62) == 0x089c4407b545986a
  {
    hide Xor;
    XorNoBits(0, 0);
    MixedBit(1, 0, 1, 1);
    MixedBit(2, 1, 3, 2);
    MixedBit(4, 3, 7, 3);
    MixedBit(8, 6, 14, 4);
    MixedBit(17, 12, 29, 5);
    MixedBit(35, 24, 59, 6);
    MixedBit(70, 49, 119, 7);
    MixedBit(140, 98, 238, 8);
  }

  /** FNV-1a, 64 bits: the empty string is the offset basis, and "a" and "ab" have their published hashes. */
  lemma KnownAnswers()
    ensures Fnv1a([]) == 0xcbf29ce484222325
    ensures Fnv1a([0x61]) == 0xaf63dc4c8601ec8c
    ensures Fnv1a([0x61, 0x62]) == 0x089c4407b545986a
  {
    hide Step;
    MixedA();
    MixedB();
    NextByte(FNV_OFFSET_BASIS, [], 0x61);
    NextByte(FNV_OFFSET_BASIS, [0x61], 0x62);
    assert [] + [0x61] == [0x61] && [0x61] + [0x62] == [0x61, 0x62];
  }

  // --- each step is a bijection ---

  /** Multiplying by the prime and then by its inverse gives the word back, modulo 2^64. */
  lemma MultiplicationUndone(x: Word, factor: Word, inverse: Word)
    requires if factor == FNV_PRIME then inverse == FNV_PRIME_INVERSE
             else factor == FNV_PRIME_INVERSE && inverse == FNV_PRIME
    ensures x * factor % WORD_RANGE * inverse % WORD_RANGE == x
  {
    assert factor * inverse == 1 + FNV_PRIME_CARRY * WORD_RANGE;
    var q, r := x * factor / WORD_RANGE, x * factor % WORD_RANGE;
    assert x * factor == WORD_RANGE * q + r;
    assert r * inverse == x * (factor * inverse) - WORD_RANGE * (q * inverse);
    assert x * (factor * inverse) == x + WORD_RANGE * (x * FNV_PRIME_CARRY);
    DivModUnique(r * inverse, WORD_RANGE, x * FNV_PRIME_CARRY - q * inverse, x);
  }

  /** What the hash was before byte `b`. */
  function Unstep(hash: Word, b: Byte): Word {
    XorByte(hash * FNV_PRIME_INVERSE % WORD_RANGE, b)
  }

  lemma XorByteUndone(hash: Word, b: Byte)
    ensures XorByte(XorByte(hash, b), b) == hash
  {
    hide Xor, Pow2;
    EightBits();
    XorBelow(hash % 0x100, b, 8);
    XorUndoesItself(hash % 0x100, b, 8);
  }

  /** For a fixed byte, each step is a bijection on 64-bit states. */
  lemma StepIsBijection(hash: Word, b: Byte)
    ensures Unstep(Step(hash, b), b) == hash
    ensures Step(Unstep(hash, b), b) == hash
  {
    MultiplicationUndone(XorByte(hash, b), FNV_PRIME, FNV_PRIME_INVERSE);
    XorByteUndone(hash, b);
    MultiplicationUndone(hash, FNV_PRIME_INVERSE, FNV_PRIME);
    XorByteUndone(hash * FNV_PRIME_INVERSE % WORD_RANGE, b);
  }

  /** From one state, different bytes lead to different states. */
  lemma StepSeparates(hash: Word, a: Byte, b: Byte)
    requires a != b
    ensures Step(hash, a) != Step(hash, b)
  {
    hide Xor, Pow2;
    EightBits();
    XorSeparates(hash % 0x100, a, b, 8);
    MultiplicationUndone(XorByte(hash, a), FNV_PRIME, FNV_PRIME_INVERSE);
    MultiplicationUndone(XorByte(hash, b), FNV_PRIME, FNV_PRIME_INVERSE);
  }

  /** States that differ stay different through any common suffix. */
  lemma {:induction false} SuffixKeepsApart(x: Word, y: Word, suffix: seq<Byte>)
    requires x != y
    ensures HashFrom(x, suffix) != HashFrom(y, suffix)
  {
    if suffix != [] {
      var front, last := suffix[..|suffix| - 1], suffix[|suffix| - 1];
      SuffixKeepsApart(x, y, front);
      StepIsBijection(HashFrom(x, front), last);
      StepIsBijection(HashFrom(y, front), last);
    }
  }

  lemma {:induction false} HashOfConcat(hash: Word, a: seq<Byte>, b: seq<Byte>)
    ensures HashFrom(hash, a + b) == HashFrom(HashFrom(hash, a), b)
  {
    if b == [] {
      assert a + b == a;
    } else {
      assert (a + b)[..|a + b| - 1] == a + b[..|b| - 1];
      HashOfConcat(hash, a, b[..|b| - 1]);
    }
  }

  /** Payloads of equal length that differ in exactly one byte never collide, at any length and position. */
  lemma OneByteChangesHash(data: seq<Byte>, i: nat, b: Byte)
    requires i < |data| && b != data[i]
    ensures Fnv1a(data[i := b]) != Fnv1a(data)
  {
    var prefix, suffix := data[..i], data[i + 1..];
    var before := HashFrom(FNV_OFFSET_BASIS, prefix);
    assert data == prefix + ([data[i]] + suffix) && data[i := b] == prefix + ([b] + suffix);
    HashOfConcat(FNV_OFFSET_BASIS, prefix, [data[i]] + suffix);
    HashOfConcat(FNV_OFFSET_BASIS, prefix, [b] + suffix);
    HashOfConcat(before, [data[i]], suffix);
    HashOfConcat(before, [b], suffix);
    OneByteHash(before, data[i]);
    OneByteHash(before, b);
    StepSeparates(before, data[i], b);
    SuffixKeepsApart(Step(before, data[i]), Step(before, b), suffix);
  }

  lemma OneByteHash(hash: Word, b: Byte)
    ensures HashFrom(hash, [b]) == Step(hash, b)
  {
    assert [b][..0] == [];
  }

  // --- the database ---

  const EICAR :=
    "X5O!P%@AP[4\\" + "PZX54(P^)7CC" + ")7}$EICAR-ST"
    + "ANDARD-ANTIV" + "IRUS-TEST-FI" + "LE!$H+H*"

  /** The bytes of an ASCII string. */
  function Ascii(s: string): seq<Byte> {
    seq(|s|, i requires 0 <= i < |s| => s[i] as int % 0x100)
  }

  lemma AsciiAppend(a: string, b: string)
    ensures Ascii(a + b) == Ascii(a) + Ascii(b)
  {}

  lemma EicarFront()
    ensures Ascii("X5O!P%@AP[4\\") == [0x58, 0x35, 0x4f, 0x21, 0x50, 0x25, 0x40, 0x41, 0x50, 0x5b, 0x34, 0x5c]
    ensures Ascii("PZX54(P^)7CC") == [0x50, 0x5a, 0x58, 0x35, 0x34, 0x28, 0x50, 0x5e, 0x29, 0x37, 0x43, 0x43]
    ensures Ascii(")7}$EICAR-ST") == [0x29, 0x37, 0x7d, 0x24, 0x45, 0x49, 0x43, 0x41, 0x52, 0x2d, 0x53, 0x54]
  {}

  lemma EicarBack()
    ensures Ascii("ANDARD-ANTIV") == [0x41, 0x4e, 0x44, 0x41, 0x52, 0x44, 0x2d, 0x41, 0x4e, 0x54, 0x49, 0x56]
    ensures Ascii("IRUS-TEST-FI") == [0x49, 0x52, 0x55, 0x53, 0x2d, 0x54, 0x45, 0x53, 0x54, 0x2d, 0x46, 0x49]
    ensures Ascii("LE!$H+H*") == [0x4c, 0x45, 0x21, 0x24, 0x48, 0x2b, 0x48, 0x2a]
  {}

  /** The antivirus test string, byte by byte in hexadecimal. */
  lemma EicarBytes()
    ensures Ascii(EICAR) ==
            [0x58, 0x35, 0x4f, 0x21, 0x50, 0x25, 0x40, 0x41, 0x50, 0x5b, 0x34, 0x5c]
            + [0x50, 0x5a, 0x58, 0x35, 0x34, 0x28, 0x50, 0x5e, 0x29, 0x37, 0x43, 0x43]
            + [0x29, 0x37, 0x7d, 0x24, 0x45, 0x49, 0x43, 0x41, 0x52, 0x2d, 0x53, 0x54]
            + [0x41, 0x4e, 0x44, 0x41, 0x52, 0x44, 0x2d, 0x41, 0x4e, 0x54, 0x49, 0x56]
            + [0x49, 0x52, 0x55, 0x53, 0x2d, 0x54, 0x45, 0x53, 0x54, 0x2d, 0x46, 0x49]
            + [0x4c, 0x45, 0x21, 0x24, 0x48, 0x2b, 0x48, 0x2a]
  {
    hide Ascii;
    EicarFront();
    EicarBack();
    AsciiAppend("X5O!P%@AP[4\\", "PZX54(P^)7CC");
    AsciiAppend("X5O!P%@AP[4\\" + "PZX54(P^)7CC", ")7}$EICAR-ST");
    AsciiAppend("X5O!P%@AP[4\\" + "PZX54(P^)7CC" + ")7}$EICAR-ST", "ANDARD-ANTIV");
    AsciiAppend("X5O!P%@AP[4\\" + "PZX54(P^)7CC" + ")7}$EICAR-ST" + "ANDARD-ANTIV", "IRUS-TEST-FI");
    AsciiAppend("X5O!P%@AP[4\\" + "PZX54(P^)7CC" + ")7}$EICAR-ST" + "ANDARD-ANTIV" + "IRUS-TEST-FI", "LE!$H+H*");
  }

  class SignatureDatabase {
    var knownBadHashes: set<Word>
    /** The signatures added so far; hashes added directly are not among them. */
    ghost var signatures: set<seq<Byte>>

    ghost predicate Valid()
      reads this
    {
      forall s <- signatures :: Fnv1a(s) in knownBadHashes
    }

    constructor ()
      ensures Valid() && signatures == {Ascii(EICAR)} && knownBadHashes == {Fnv1a(Ascii(EICAR))}
    {
      var hash := Fnv1aHash(Ascii(EICAR));
      knownBadHashes, signatures := {hash}, {Ascii(EICAR)};
    }

    method AddSignature(rawBytes: seq<Byte>)
      requires Valid()
      modifies this
      ensures Valid() && signatures == old(signatures) + {rawBytes}
      ensures knownBadHashes == old(knownBadHashes) + {Fnv1a(rawBytes)}
    {
      var hash := Fnv1aHash(rawBytes);
      AddHash(hash);
      signatures := signatures + {rawBytes};
    }

    method AddHash(hash: Word)
      requires Valid()
      modifies this`knownBadHashes
      ensures Valid() && knownBadHashes == old(knownBadHashes) + {hash}
    {
      knownBadHashes := knownBadHashes + {hash};
    }

    /** A null pointer is `None`. Every added signature matches, except the empty one. */
    method Matches(payload: Option<seq<Byte>>) returns (r: bool)
      requires Valid()
      ensures r <==> payload.Some? && payload.value != [] && Fnv1a(payload.value) in knownBadHashes
      ensures payload.Some? && payload.value != [] && payload.value in signatures ==> r
    {
      if payload.None? || |payload.value| == 0 {
        return false;
      }
      var hash := Fnv1aHash(payload.value);
      return hash in knownBadHashes;
    }
  }

  /** A one-byte variant of a signature matches only if some other known hash happens to be its own. */
  lemma VariantNeedsAnotherHash(known: set<Word>, signature: seq<Byte>, i: nat, b: Byte)
    requires i < |signature| && b != signature[i]
    requires Fnv1a(signature[i := b]) in known
    ensures Fnv1a(signature[i := b]) in known - {Fnv1a(signature)}
  {
    OneByteChangesHash(signature, i, b);
  }
}
