/** 8- and 16-bit machine words of the CP-1610, with the wrap-safe comparison
    every tick test of the netcode is built on. */
module Words {

  type byte = x: int | 0 <= x < 0x100
  type word = x: int | 0 <= x < 0x1_0000

  datatype Option<T> = None | Some(value: T)

  function Wrap(x: int): word {
    x % 0x1_0000
  }

  function Lo(w: word): byte {
    w % 0x100
  }

  function Hi(w: word): byte {
    w / 0x100
  }

  function Join(lo: byte, hi: byte): word {
    hi * 0x100 + lo
  }

  /** The sign flag of a 16-bit result: what BMI and BLT-after-SUBR test. */
  predicate Negative(w: word) {
    w >= 0x8000
  }

  /** Subtracting two wrapped counters and testing the sign orders the
      unbounded counters, provided they are less than 2^15 apart. */
  lemma DeltaOrders(a: int, b: int)
    requires -0x8000 <= a - b < 0x8000
    ensures Negative(Wrap(Wrap(a) - Wrap(b))) <==> a < b
    ensures Wrap(Wrap(a) - Wrap(b)) == 0 <==> a == b
  {
    assert Wrap(Wrap(a) - Wrap(b)) == Wrap(a - b);
    if a < b {
      assert Wrap(a - b) == a - b + 0x1_0000;
    } else {
      assert Wrap(a - b) == a - b;
    }
  }

  /** Two counters less than 2^16 apart have equal 16-bit images only when
      they are equal. */
  lemma WrapInjective(a: int, b: int)
    requires -0x1_0000 < a - b < 0x1_0000
    ensures Wrap(a) == Wrap(b) <==> a == b
  {
    if Wrap(a) == Wrap(b) {
      assert Wrap(a - b) == 0;
    }
  }

  lemma WrapAdd(a: int, b: int)
    ensures Wrap(Wrap(a) + b) == Wrap(a + b)
  {
  }

  lemma JoinSplit(w: word)
    ensures Join(Lo(w), Hi(w)) == w
  {
  }
}
