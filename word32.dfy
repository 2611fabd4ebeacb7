/**
 Arithmetic on the 32-bit words the program stores and computes with.
 */
module Word32 {

  const WORD_MODULUS: int := 0x1_0000_0000

  /** A 4-byte map value, as the `u32` bit pattern the map stores. The program
      reads and writes values as C `int`; addition and subtraction on 32-bit
      two's-complement `int` and on `u32` give the same bits, namely the exact
      result reduced modulo 2^32 (see Add and Sub). */
  type Word = w: int | 0 <= w < WORD_MODULUS

  /** `a + b` on 32-bit words, wrapping around. */
  function Add(a: Word, b: Word): Word
  {
    (a + b) % WORD_MODULUS
  }

  /** `a - b` on 32-bit words, wrapping around. */
  function Sub(a: Word, b: Word): Word
  {
    (a - b) % WORD_MODULUS
  }

  /** The C `int` a word stands for. */
  function Signed(w: Word): int
  {
    if w < 0x8000_0000 then w else w - WORD_MODULUS
  }

  /** Wrapping addition is associative, so totals can be summed in any grouping. */
  lemma AddAssociative(a: Word, b: Word, c: Word)
    ensures Add(Add(a, b), c) == Add(a, Add(b, c))
  {
  }
}
