/** Small types and facts that every part of the model uses. */
module Wrappers {
  datatype Option<+T> = None | Some(value: T)
}

module Seqs {
  function Remove<T>(s: seq<T>, i: nat): seq<T>
    requires i < |s|
  {
    s[..i] + s[i + 1..]
  }

  lemma ConcatAssociates<T>(a: seq<T>, b: seq<T>, c: seq<T>)
    ensures a + b + c == a + (b + c)
  {
  }

  lemma ConcatUnfolds<T>(a: seq<T>, b: seq<T>)
    requires |a| > 0
    ensures a + b == [a[0]] + (a[1..] + b)
  {
  }
}

/** Unsigned 64-bit integers: size_t, and the unsigned long long of the counters. */
module Words {
  const WORD_RANGE := 0x1_0000_0000_0000_0000

  function Wrap(n: int): nat {
    n % WORD_RANGE
  }

  /** Wrapping keeps a number modulo 2^64, in the range of 64 bits. */
  lemma WrapIsModular(n: int)
    ensures 0 <= Wrap(n) < 18446744073709551616 && (n - Wrap(n)) % 18446744073709551616 == 0
  {
    assert n == WORD_RANGE * (n / WORD_RANGE) + n % WORD_RANGE;
    WholeMultiple(n / WORD_RANGE);
  }

  lemma WholeMultiple(k: int)
    ensures (WORD_RANGE * k) % WORD_RANGE == 0
  {
  }

  lemma WrapAgain(a: int, b: int)
    ensures Wrap(Wrap(a) + b) == Wrap(a + b)
  {
    assert a == WORD_RANGE * (a / WORD_RANGE) + Wrap(a);
    assert a + b == WORD_RANGE * (a / WORD_RANGE) + (Wrap(a) + b);
    WrapShift(Wrap(a) + b, a / WORD_RANGE);
  }

  lemma {:induction false} WrapShift(a: int, k: int)
    ensures Wrap(a + WORD_RANGE * k) == Wrap(a)
    decreases if k < 0 then -k else k
  {
    if k > 0 {
      WrapShift(a, k - 1);
      assert Wrap(a + WORD_RANGE * (k - 1) + WORD_RANGE) == Wrap(a + WORD_RANGE * (k - 1));
    } else if k < 0 {
      WrapShift(a, k + 1);
      assert Wrap(a + WORD_RANGE * (k + 1) - WORD_RANGE) == Wrap(a + WORD_RANGE * (k + 1));
    }
  }
}
