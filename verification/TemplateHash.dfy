/** The template hash a fleet stamps on its GameServer: FNV-1a, 32 bits
    (draft-eastlake-fnv, section 2), printed as eight hexadecimal digits. */
module TemplateHash {
  import opened Types

  const MODULUS := 0x1_0000_0000
  const OFFSET_BASIS: Word := 2166136261
  const PRIME := 16777619
  const PRIME_INVERSE := 899433627

  type Word = w: int | 0 <= w < 0x1_0000_0000

  // ---- exclusive or ----

  /** Bitwise exclusive or of naturals. */
  function Xor(a: nat, b: nat): nat
    decreases a + b
  {
    if a == 0 && b == 0 then 0 else (a % 2 + b % 2) % 2 + 2 * Xor(a / 2, b / 2)
  }

  lemma XorUnfolds(a: nat, b: nat)
    ensures Xor(a, b) == (a % 2 + b % 2) % 2 + 2 * Xor(a / 2, b / 2)
  {
  }

  lemma {:induction false} XorTwice(a: nat, b: nat)
    ensures Xor(Xor(a, b), b) == a
    decreases a + b
  {
    hide Xor;
    XorUnfolds(a, b);
    XorUnfolds(Xor(a, b), b);
    if a != 0 || b != 0 {
      XorTwice(a / 2, b / 2);
    }
  }

  lemma {:induction false} XorSymmetric(a: nat, b: nat)
    ensures Xor(a, b) == Xor(b, a)
    decreases a + b
  {
    if a != 0 || b != 0 {
      XorSymmetric(a / 2, b / 2);
    }
  }

  function Pow2(n: nat): nat {
    if n == 0 then 1 else 2 * Pow2(n - 1)
  }

  lemma {:induction false} XorBounded(a: nat, b: nat, n: nat)
    requires a < Pow2(n) && b < Pow2(n)
    ensures Xor(a, b) < Pow2(n)
    decreases n
  {
    if n == 0 {
    } else {
      XorBounded(a / 2, b / 2, n - 1);
    }
  }

  lemma Pow2Of32()
    ensures Pow2(32) == MODULUS
  {
    assert Pow2(8) == 256;
    assert Pow2(16) == 65536;
    assert Pow2(24) == 16777216;
  }

  function XorByte(h: Word, b: byte): Word {
    Pow2Of32();
    XorBounded(h, b, 32);
    Xor(h, b)
  }

  // ---- multiplication modulo 2^32 ----

  function Times(h: Word, k: nat): Word {
    h * k % MODULUS
  }

  lemma PrimeInvertible(h: Word)
    ensures Times(Times(h, PRIME), PRIME_INVERSE) == h
  {
    var k, r := h * PRIME / MODULUS, h * PRIME % MODULUS;
    assert h * PRIME == k * MODULUS + r;
    assert r * PRIME_INVERSE == h + (h * 3513497 - k * PRIME_INVERSE) * MODULUS;
  }

  lemma InverseInvertible(h: Word)
    ensures Times(Times(h, PRIME_INVERSE), PRIME) == h
  {
    var k, r := h * PRIME_INVERSE / MODULUS, h * PRIME_INVERSE % MODULUS;
    assert h * PRIME_INVERSE == k * MODULUS + r;
    assert r * PRIME == h + (h * 3513497 - k * PRIME) * MODULUS;
  }

  // ---- the hash ----

  function HashStep(h: Word, b: byte): Word {
    Times(XorByte(h, b), PRIME)
  }

  /** The hash state reached from `h` after `data`. */
  function Absorb(h: Word, data: seq<byte>): Word
    decreases |data|
  {
    if data == [] then h else Absorb(HashStep(h, data[0]), data[1..])
  }

  lemma {:induction false} AbsorbConcat(h: Word, a: seq<byte>, b: seq<byte>)
    ensures Absorb(h, a + b) == Absorb(Absorb(h, a), b)
    decreases |a|
  {
    if a == [] {
      assert a + b == b;
    } else {
      assert (a + b)[1..] == a[1..] + b;
      AbsorbConcat(HashStep(h, a[0]), a[1..], b);
    }
  }

  /** New32a, Write and Sum32 of Go's hash/fnv. */
  method Sum32a(data: seq<byte>) returns (h: Word)
    ensures h == Absorb(OFFSET_BASIS, data)
  {
    h := OFFSET_BASIS;
    for i := 0 to |data|
      invariant h == Absorb(OFFSET_BASIS, data[..i])
    {
      AbsorbConcat(OFFSET_BASIS, data[..i], [data[i]]);
      assert data[..i] + [data[i]] == data[..i + 1];
      h := XorByte(h, data[i]);
      h := Times(h, PRIME);
    }
    assert data[..|data|] == data;
  }

  /** Undoes one step. */
  function HashUnstep(h: Word, b: byte): Word {
    XorByte(Times(h, PRIME_INVERSE), b)
  }

  /** For a fixed byte, a step is a bijection on 32-bit states. */
  lemma StepBijective(h: Word, b: byte)
    ensures HashUnstep(HashStep(h, b), b) == h
    ensures HashStep(HashUnstep(h, b), b) == h
  {
    PrimeInvertible(XorByte(h, b));
    XorTwice(h, b);
    XorTwice(Times(h, PRIME_INVERSE), b);
    InverseInvertible(h);
  }

  /** For a fixed state, a step is injective in the byte. */
  lemma StepInjectiveInByte(h: Word, a: byte, b: byte)
    requires HashStep(h, a) == HashStep(h, b)
    ensures a == b
  {
    PrimeInvertible(XorByte(h, a));
    PrimeInvertible(XorByte(h, b));
    XorSymmetric(h, a);
    XorSymmetric(h, b);
    XorTwice(a, h);
    XorTwice(b, h);
  }

  lemma {:induction false} AbsorbInjectiveInState(h: Word, k: Word, data: seq<byte>)
    requires Absorb(h, data) == Absorb(k, data)
    ensures h == k
    decreases |data|
  {
    if data != [] {
      AbsorbInjectiveInState(HashStep(h, data[0]), HashStep(k, data[0]), data[1..]);
      StepBijective(h, data[0]);
      StepBijective(k, data[0]);
    }
  }

  // ---- the printed form ----

  const DIGITS := "0123456789abcdef"

  function Digit(n: int): char
    requires 0 <= n < 16
  {
    DIGITS[n]
  }

  lemma DigitInjective(m: int, n: int)
    requires 0 <= m < 16 && 0 <= n < 16 && Digit(m) == Digit(n)
    ensures m == n
  {
    assert forall i, j :: 0 <= i < j < 16 ==> DIGITS[i] != DIGITS[j];
  }

  /** fmt.Sprintf("%08x", h): `n` hexadecimal digits of `h`, most significant first. */
  function Hex(h: nat, n: nat): (s: string)
    ensures |s| == n
  {
    if n == 0 then "" else Hex(h / 16, n - 1) + [Digit(h % 16)]
  }

  function Pow16(n: nat): nat {
    if n == 0 then 1 else 16 * Pow16(n - 1)
  }

  /** The printed form loses nothing of a number that fits its width. */
  lemma {:induction false} HexInjective(h: nat, k: nat, n: nat)
    requires h < Pow16(n) && k < Pow16(n)
    requires Hex(h, n) == Hex(k, n)
    ensures h == k
    decreases n
  {
    if n != 0 {
      var s, t := Hex(h, n), Hex(k, n);
      assert s[..n - 1] == Hex(h / 16, n - 1) && t[..n - 1] == Hex(k / 16, n - 1);
      assert s[n - 1] == Digit(h % 16) && t[n - 1] == Digit(k % 16);
      DigitInjective(h % 16, k % 16);
      HexInjective(h / 16, k / 16, n - 1);
    }
  }

  /** The printed form is hexadecimal, lower case, most significant digit first. */
  lemma {:induction false} HexDigits(h: nat, n: nat, i: nat)
    requires i < n
    ensures Pow16(n - 1 - i) > 0 && Hex(h, n)[i] == "0123456789abcdef"[h / Pow16(n - 1 - i) % 16]
    decreases n
  {
    Pow16Positive(n - 1 - i);
    if i < n - 1 {
      HexDigits(h / 16, n - 1, i);
      DivTwice(h, Pow16(n - 2 - i));
    }
  }

  lemma {:induction false} Pow16Positive(n: nat)
    ensures Pow16(n) > 0
  {
    if n != 0 {
      Pow16Positive(n - 1);
    }
  }

  lemma DivTwice(h: nat, d: nat)
    requires d > 0
    ensures h / 16 / d == h / (16 * d)
  {
    var q, r := h / (16 * d), h % (16 * d);
    assert h == 16 * (d * q) + r;
    assert h / 16 == d * q + r / 16;
    assert r / 16 < d;
    QuotientOf(h / 16, d, q, r / 16);
  }

  lemma QuotientOf(x: nat, d: nat, q: nat, r: nat)
    requires d > 0 && x == d * q + r && r < d
    ensures x / d == q
  {
    var k, m := x / d, x % d;
    assert d * (k - q) == d * k - d * q == r - m && d * (q - k) == m - r;
    if k > q {
      AtLeast(d, k - q);
    } else if k < q {
      AtLeast(d, q - k);
    }
  }

  lemma AtLeast(d: nat, t: nat)
    requires t > 0
    ensures d * t >= d
  {
  }

  lemma Pow16Of8()
    ensures Pow16(8) == MODULUS
  {
    assert Pow16(4) == 65536;
  }

  function HashText(data: seq<byte>): (s: string)
    ensures |s| == 8
  {
    Hex(Absorb(OFFSET_BASIS, data), 8)
  }

  function ComputeTemplateHash(cfg: Config, template: Template): (s: string)
    ensures |s| == 8
  {
    HashText(cfg.marshal(template.spec))
  }

  /** computeTemplateHash as the controller runs it. */
  method HashTemplate(cfg: Config, template: Template) returns (text: string)
    ensures text == ComputeTemplateHash(cfg, template)
  {
    var sum := Sum32a(cfg.marshal(template.spec));
    text := Hex(sum, 8);
  }

  lemma {:induction false} XorZero(a: nat)
    ensures Xor(a, 0) == a
  {
    if a != 0 {
      XorZero(a / 2);
    }
  }

  lemma BasisXorA()
    ensures Xor(2166136261, 97) == 2166136228
  {
    hide Xor;
    XorZero(16922939);
    XorUnfolds(33845879, 1);
    XorUnfolds(67691758, 3);
    XorUnfolds(135383516, 6);
    XorUnfolds(270767032, 12);
    XorUnfolds(541534065, 24);
    XorUnfolds(1083068130, 48);
    XorUnfolds(2166136261, 97);
  }

  lemma BasisXorF()
    ensures Xor(2166136261, 102) == 2166136227
  {
    hide Xor;
    XorZero(16922939);
    XorUnfolds(33845879, 1);
    XorUnfolds(67691758, 3);
    XorUnfolds(135383516, 6);
    XorUnfolds(270767032, 12);
    XorUnfolds(541534065, 25);
    XorUnfolds(1083068130, 51);
    XorUnfolds(2166136261, 102);
  }

  lemma NextXorO()
    ensures Xor(3809224601, 111) == 3809224694
  {
    hide Xor;
    XorZero(29759567);
    XorUnfolds(59519134, 1);
    XorUnfolds(119038268, 3);
    XorUnfolds(238076537, 6);
    XorUnfolds(476153075, 13);
    XorUnfolds(952306150, 27);
    XorUnfolds(1904612300, 55);
    XorUnfolds(3809224601, 111);
  }

  /** The published values of the hash for no byte, for the single byte 'a' and for the bytes of "fo". */
  lemma KnownHashes()
    ensures Absorb(OFFSET_BASIS, []) == 0x811c9dc5 && Absorb(OFFSET_BASIS, [97]) == 0xe40c292c
    ensures Absorb(OFFSET_BASIS, [102, 111]) == 0x6222e842
  {
    hide Xor;
    BasisXorF();
    NextXorO();
    assert XorByte(OFFSET_BASIS, 102) == 2166136227 && HashStep(OFFSET_BASIS, 102) == 3809224601;
    assert XorByte(3809224601, 111) == 3809224694 && HashStep(3809224601, 111) == 1646454850;
    assert [102, 111][1..] == [111] && [111][1..] == [];
    BasisXorA();
    assert XorByte(OFFSET_BASIS, 97) == 2166136228;
    assert HashStep(OFFSET_BASIS, 97) == 3826002220;
    assert [97][1..] == [];
  }

  /** Two serialisations of one length that differ in exactly one byte never share a hash text. */
  lemma OneByteChangeDetected(s: seq<byte>, t: seq<byte>, i: nat)
    requires |s| == |t| && i < |s| && s[i] != t[i]
    requires forall j :: 0 <= j < |s| && j != i ==> s[j] == t[j]
    ensures HashText(s) != HashText(t)
  {
    var pre, post := s[..i], s[i + 1..];
    assert s == pre + ([s[i]] + post) && t == pre + ([t[i]] + post);
    var h := Absorb(OFFSET_BASIS, pre);
    AbsorbConcat(OFFSET_BASIS, pre, [s[i]] + post);
    AbsorbConcat(OFFSET_BASIS, pre, [t[i]] + post);
    assert ([s[i]] + post)[1..] == post && ([t[i]] + post)[1..] == post;
    if HashText(s) == HashText(t) {
      Pow16Of8();
      HexInjective(Absorb(OFFSET_BASIS, s), Absorb(OFFSET_BASIS, t), 8);
      AbsorbInjectiveInState(HashStep(h, s[i]), HashStep(h, t[i]), post);
      StepInjectiveInByte(h, s[i], t[i]);
    }
  }
}
