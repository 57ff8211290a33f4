/**
 * Machine words: the `u32` range, Rust's truncating `as u32` cast, and the
 * OR-only flag setters shared by every `*FlagsBuilder` of the wrapper.
 */
module Bits {

  const U32_LIMIT: int := 0x1_0000_0000

  /** A Rust `u32` used as a number (counts, indices). */
  type u32 = x: int | 0 <= x < U32_LIMIT

  /** Rust's `n as u32` on a `usize`: keeps the low 32 bits. */
  function TruncU32(n: nat): (r: u32)
    ensures n < U32_LIMIT ==> r == n
    ensures r <= n && (n - r) % U32_LIMIT == 0
  {
    n % U32_LIMIT
  }

  /** `word & bit != 0`: the test every `contains`/`supports_*` performs. */
  predicate Has(word: bv32, bit: bv32) {
    word & bit != 0
  }

  /**
   * One builder setter, `if value { self.0 |= bit }`: with `true` the bit is
   * set afterwards; with `false` the word is unchanged; no other bit moves and
   * no bit is ever cleared.
   */
  function Include(word: bv32, bit: bv32, on: bool): (r: bv32)
    ensures on ==> r & bit == bit
    ensures !on ==> r == word
    ensures r & !bit == word & !bit
  {
    if on then OrSetsOnly(word, bit); word | bit else word
  }

  lemma OrSetsOnly(word: bv32, bit: bv32)
    ensures (word | bit) & bit == bit
    ensures (word | bit) & !bit == word & !bit
  {
    assert (word | bit) & bit == bit;
  }

  /** A setter never clears a bit that was set. */
  lemma IncludeNeverClears(word: bv32, bit: bv32, on: bool)
    ensures Include(word, bit, on) & word == word
  {
  }

  /** Two setters applied in either order give the same word. */
  lemma IncludeCommutes(word: bv32, a: bv32, p: bool, b: bv32, q: bool)
    ensures Include(Include(word, a, p), b, q) == Include(Include(word, b, q), a, p)
  {
  }

  /** Repeating a setter changes nothing. */
  lemma IncludeIdempotent(word: bv32, bit: bv32, on: bool)
    ensures Include(Include(word, bit, on), bit, on) == Include(word, bit, on)
  {
  }

  /**
   * A set-or-clear setter, `if value { self.0 |= bit } else { self.0 &= !bit }`.
   */
  function Assign(word: bv32, bit: bv32, on: bool): bv32 {
    if on then SetBit(word, bit) else ClearBit(word, bit)
  }

  /** `self.0 |= bit`: the bit is set afterwards and no other bit moves. */
  function SetBit(word: bv32, bit: bv32): (r: bv32)
    ensures r & bit == bit
    ensures r & !bit == word & !bit
  {
    word | bit
  }

  /** `self.0 &= !bit`: the bit is clear afterwards and no other bit moves. */
  function ClearBit(word: bv32, bit: bv32): (r: bv32)
    ensures r & bit == 0
    ensures r & !bit == word & !bit
  {
    word & !bit
  }

  /**
   * After a set-or-clear setter of a non-zero bit, the bit is set exactly when
   * `on` holds, and no other bit has moved.
   */
  lemma AssignDecides(word: bv32, bit: bv32, on: bool)
    requires bit != 0
    ensures Has(Assign(word, bit, on), bit) == on
    ensures Assign(word, bit, on) & !bit == word & !bit
  {
    AssignDecidesBit(word, bit, on);
    AssignKeepsOthers(word, bit, on);
  }

  /** The setter's own bit ends up set exactly when `on` holds. */
  lemma AssignDecidesBit(word: bv32, bit: bv32, on: bool)
    requires bit != 0
    ensures Has(Assign(word, bit, on), bit) == on
  {
    if on {
      var r := SetBit(word, bit);
      assert Assign(word, bit, on) == r;
      FullHas(r, bit);
    } else {
      var r := ClearBit(word, bit);
      assert Assign(word, bit, on) == r;
      EmptyLacks(r, bit);
    }
  }

  /** No bit other than the setter's own moves. */
  lemma AssignKeepsOthers(word: bv32, bit: bv32, on: bool)
    ensures Assign(word, bit, on) & !bit == word & !bit
  {
    if on {
      var r := SetBit(word, bit);
      assert Assign(word, bit, on) == r;
    } else {
      var r := ClearBit(word, bit);
      assert Assign(word, bit, on) == r;
    }
  }

  lemma FullHas(r: bv32, bit: bv32)
    requires r & bit == bit && bit != 0
    ensures Has(r, bit)
  {
  }

  lemma EmptyLacks(r: bv32, bit: bv32)
    requires r & bit == 0
    ensures !Has(r, bit)
  {
  }

  /**
   * Of two calls of the same set-or-clear setter the last one decides; in
   * particular repeating a call changes nothing.
   */
  lemma AssignLastWins(word: bv32, bit: bv32, p: bool, q: bool)
    ensures Assign(Assign(word, bit, p), bit, q) == Assign(word, bit, q)
  {
    if p && q {
      SetThenSet(word, bit);
    } else if p {
      SetThenClear(word, bit);
    } else if q {
      ClearThenSet(word, bit);
    } else {
      ClearThenClear(word, bit);
    }
  }

  lemma SetThenSet(w: bv32, b: bv32)
    ensures Assign(Assign(w, b, true), b, true) == Assign(w, b, true)
  {
    assert (w | b) | b == w | b;
    assert Assign(w, b, true) == w | b;
    assert Assign(w | b, b, true) == (w | b) | b;
  }

  lemma SetThenClear(w: bv32, b: bv32)
    ensures Assign(Assign(w, b, true), b, false) == Assign(w, b, false)
  {
    OrThenAndNot(w, b);
    assert Assign(w, b, true) == w | b;
    assert Assign(w | b, b, false) == (w | b) & !b;
    assert Assign(w, b, false) == w & !b;
  }

  lemma ClearThenSet(w: bv32, b: bv32)
    ensures Assign(Assign(w, b, false), b, true) == Assign(w, b, true)
  {
    AndNotThenOr(w, b);
    assert Assign(w, b, false) == w & !b;
    assert Assign(w & !b, b, true) == (w & !b) | b;
    assert Assign(w, b, true) == w | b;
  }

  lemma ClearThenClear(w: bv32, b: bv32)
    ensures Assign(Assign(w, b, false), b, false) == Assign(w, b, false)
  {
    assert (w & !b) & !b == w & !b;
    assert Assign(w, b, false) == w & !b;
    assert Assign(w & !b, b, false) == (w & !b) & !b;
  }

  lemma OrThenAndNot(w: bv32, b: bv32)
    ensures (w | b) & !b == w & !b
  {
  }

  lemma AndNotThenOr(w: bv32, b: bv32)
    ensures (w & !b) | b == w | b
  {
  }
}
