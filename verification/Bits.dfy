/**
 * 32-bit shifts and masks on unbounded numbers, bit by bit: every division here is by a constant.
 */
module Bits {
  const WORD: nat := 0x1_0000_0000

  /** What a 32-bit bitwise operation leaves of a number: its low 32 bits, read with a sign. */
  function ToInt32(x: int): int {
    var low := x % WORD;
    if low >= 0x8000_0000 then low - WORD else low
  }

  /** The arithmetic right shift. */
  function Shr(x: int, n: nat): int
    decreases n
  {
    if n == 0 then x else Shr(x / 2, n - 1)
  }

  function Shl(x: int, n: nat): int
    decreases n
  {
    if n == 0 then x else Shl(2 * x, n - 1)
  }

  /** x and y agree on their low n bits. */
  predicate Agree(x: int, y: int, n: nat)
    decreases n
  {
    n > 0 ==> x % 2 == y % 2 && Agree(x / 2, y / 2, n - 1)
  }

  lemma {:induction false} AgreeTransitive(x: int, y: int, z: int, n: nat)
    requires Agree(x, y, n) && Agree(y, z, n)
    ensures Agree(x, z, n)
    decreases n
  {
    if n > 0 {
      AgreeTransitive(x / 2, y / 2, z / 2, n - 1);
    }
  }

  lemma {:induction false} AgreeSelf(x: int, n: nat)
    ensures Agree(x, x, n)
    decreases n
  {
    if n > 0 {
      AgreeSelf(x / 2, n - 1);
    }
  }

  lemma {:induction false} AgreeOnFewer(x: int, y: int, n: nat, m: nat)
    requires Agree(x, y, n) && m <= n
    ensures Agree(x, y, m)
    decreases m
  {
    if m > 0 {
      AgreeOnFewer(x / 2, y / 2, n - 1, m - 1);
    }
  }

  lemma {:induction false} AgreeShifted(x: int, y: int, n: nat, k: nat)
    requires Agree(x, y, n) && k <= n
    ensures Agree(Shr(x, k), Shr(y, k), n - k)
    decreases k
  {
    if k > 0 {
      AgreeShifted(x / 2, y / 2, n - 1, k - 1);
    }
  }

  /** The number the low n bits spell. */
  function Low(x: int, n: nat): int
    decreases n
  {
    if n == 0 then 0 else x % 2 + 2 * Low(x / 2, n - 1)
  }

  lemma {:induction false} AgreeLow(x: int, y: int, n: nat)
    requires Agree(x, y, n)
    ensures Low(x, n) == Low(y, n)
    decreases n
  {
    if n > 0 {
      AgreeLow(x / 2, y / 2, n - 1);
    }
  }

  lemma {:induction false} LowIs(x: int, n: nat)
    ensures x == Shl(Shr(x, n), n) + Low(x, n)
    ensures 0 <= Low(x, n) < Shl(1, n)
    decreases n
  {
    if n > 0 {
      LowIs(x / 2, n - 1);
      ShlAdds(Shr(x, n), n - 1, 1);
      ShlAdds(1, n - 1, 1);
    }
  }

  lemma Remainder32(x: int, q: int, r: int)
    requires x == 32 * q + r && 0 <= r < 32
    ensures x % 32 == r && x / 32 == q
  {
  }

  lemma Remainder256(x: int, q: int, r: int)
    requires x == 256 * q + r && 0 <= r < 256
    ensures x % 256 == r && x / 256 == q
  {
  }

  lemma QuintetIs(x: int)
    ensures x % 32 == Low(x, 5) && x / 32 == Shr(x, 5)
  {
    hide Low, Shl, Shr;
    LowIs(x, 5);
    ShlQuintet(Shr(x, 5));
    ShlQuintet(1);
    Remainder32(x, Shr(x, 5), Low(x, 5));
  }

  lemma ByteIs(x: int)
    ensures x % 256 == Low(x, 8) && x / 256 == Shr(x, 8)
  {
    hide Low, Shl, Shr;
    LowIs(x, 8);
    ShlByte(Shr(x, 8));
    ShlByte(1);
    Remainder256(x, Shr(x, 8), Low(x, 8));
  }

  lemma AgreeQuintet(x: int, y: int)
    requires Agree(x, y, 5)
    ensures x % 32 == y % 32
  {
    hide Low, Agree;
    QuintetIs(x);
    QuintetIs(y);
    AgreeLow(x, y, 5);
  }

  lemma AgreeByte(x: int, y: int)
    requires Agree(x, y, 8)
    ensures x % 256 == y % 256
  {
    hide Low, Agree;
    ByteIs(x);
    ByteIs(y);
    AgreeLow(x, y, 8);
  }

  lemma {:induction false} ShrAdds(x: int, a: nat, b: nat)
    ensures Shr(x, a + b) == Shr(Shr(x, a), b)
    decreases a
  {
    if a > 0 {
      ShrAdds(x / 2, a - 1, b);
    }
  }

  lemma {:induction false} ShlThenShr(x: int, n: nat)
    ensures Shr(Shl(x, n), n) == x
    decreases n
  {
    if n > 0 {
      ShlThenShr(2 * x, n - 1);
      ShrAdds(Shl(x, n), n - 1, 1);
    }
  }

  // ---------------------------------------------------------------------------
  // Words
  // ---------------------------------------------------------------------------

  lemma {:induction false} ShlAdds(x: int, a: nat, b: nat)
    ensures Shl(x, a + b) == Shl(Shl(x, a), b)
    decreases a
  {
    if a > 0 {
      ShlAdds(2 * x, a - 1, b);
    }
  }

  lemma ShlWord(t: int)
    ensures Shl(t, 32) == t * WORD
  {
    ShlByte(t);
    ShlByte(256 * t);
    ShlByte(65536 * t);
    ShlByte(16777216 * t);
    ShlAdds(t, 8, 24);
    ShlAdds(256 * t, 8, 16);
    ShlAdds(65536 * t, 8, 8);
  }

  lemma ShlByte(t: int)
    ensures Shl(t, 8) == 256 * t
  {
    assert Shl(t, 8) == Shl(16 * t, 4) by {
      assert Shl(t, 8) == Shl(2 * t, 7) == Shl(4 * t, 6) == Shl(8 * t, 5);
    }
    assert Shl(16 * t, 4) == Shl(32 * t, 3) == Shl(64 * t, 2) == Shl(128 * t, 1);
  }

  lemma ShlQuintet(t: int)
    ensures Shl(t, 5) == 32 * t
  {
    assert Shl(t, 5) == Shl(2 * t, 4) == Shl(4 * t, 3) == Shl(8 * t, 2) == Shl(16 * t, 1);
  }

  lemma HalfOfSum(x: int, t: int)
    ensures (x + 2 * t) / 2 == x / 2 + t && (x + 2 * t) % 2 == x % 2
  {
  }

  /** Adding a multiple of a power of two does not change the bits below it. */
  lemma {:induction false} AgreeMultiple(x: int, t: int, n: nat)
    ensures Agree(x + Shl(t, n), x, n)
    decreases n
  {
    if n > 0 {
      ShlAdds(t, n - 1, 1);
      HalfOfSum(x, Shl(t, n - 1));
      AgreeMultiple(x / 2, t, n - 1);
    }
  }

  lemma {:induction false} AgreeAfterShl(x: int, y: int, n: nat, k: nat)
    requires Agree(x, y, n)
    ensures Agree(Shl(x, k), Shl(y, k), n + k)
    decreases k
  {
    if k > 0 {
      HalfOfSum(0, x);
      HalfOfSum(0, y);
      AgreeAfterShl(2 * x, 2 * y, n + 1, k - 1);
    }
  }

  /** Adding the same small number on top of clear bits. */
  lemma {:induction false} AgreeAfterAdding(x: int, y: int, v: nat, n: nat)
    requires Agree(x, y, n)
    ensures Agree(x + v, y + v, n)
    decreases n
  {
    if n > 0 {
      var carry := (x % 2 + v) / 2;
      assert (x + v) / 2 == x / 2 + carry && (y + v) / 2 == y / 2 + carry;
      AgreeAfterAdding(x / 2, y / 2, carry, n - 1);
    }
  }

  lemma ToInt32Agrees(x: int)
    ensures Agree(ToInt32(x), x, 32)
  {
    hide ToInt32, Shl, Agree;
    var j := Overflow(x);
    ShlWord(j);
    ToInt32Is(x);
    AgreeMultiple(x, j, 32);
  }

  /**
   * The accumulator after shifting in k more bits v: the shifted word has its low k bits clear, so
   * or-ing v in is adding it.
   */
  function ShiftIn(buffer: int, k: nat, v: nat): int {
    ToInt32(Shl(buffer, k)) + v
  }

  /** A 32-bit accumulator that is never masked still agrees with the true number on its low 32 bits. */
  lemma ShiftInAgrees(buffer: int, x: int, k: nat, v: nat)
    requires Agree(buffer, x, 32) && k <= 32
    ensures Agree(ShiftIn(buffer, k, v), Shl(x, k) + v, 32)
  {
    hide ToInt32, Shl, Agree;
    AgreeOnFewer(buffer, x, 32, 32 - k);
    AgreeAfterShl(buffer, x, 32 - k, k);
    ToInt32Agrees(Shl(buffer, k));
    AgreeTransitive(ToInt32(Shl(buffer, k)), Shl(buffer, k), Shl(x, k), 32);
    AgreeAfterAdding(ToInt32(Shl(buffer, k)), Shl(x, k), v, 32);
  }

  /** What wrapping to 32 bits adds, in multiples of the word. */
  function Overflow(x: int): int {
    if x % WORD >= 0x8000_0000 then -(x / WORD) - 1 else -(x / WORD)
  }

  lemma ToInt32Is(x: int)
    ensures ToInt32(x) == x + Overflow(x) * WORD
  {
  }

  /** The low bits of a shifted word are clear. */
  lemma ShiftedIsClear(buffer: int)
    ensures ToInt32(Shl(buffer, 5)) % 32 == 0 && ToInt32(Shl(buffer, 8)) % 256 == 0
  {
    hide ToInt32, Shl, Overflow;
    ShlQuintet(buffer);
    ShlByte(buffer);
    ToInt32Is(32 * buffer);
    ToInt32Is(256 * buffer);
    Remainder32(ToInt32(32 * buffer), buffer + Overflow(32 * buffer) * 0x800_0000, 0);
    Remainder256(ToInt32(256 * buffer), buffer + Overflow(256 * buffer) * 0x100_0000, 0);
  }
}
