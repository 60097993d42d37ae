/** The price arithmetic shared by the order screens and the sales dashboard:
    the percentage discount of one line, and left-to-right sums over a sequence,
    the shape of every `forEach` accumulator and every
    `reduce((acc, x) => acc + ..., 0)`.  Amounts are exact reals. */
module Totals {

  /** `amount * (1 - disc / 100)`: an amount after a percentage discount. */
  function Discounted(amount: real, disc: real): (r: real)
    ensures disc == 0.0 ==> r == amount
    ensures disc == 100.0 || amount == 0.0 ==> r == 0.0
    ensures 0.0 <= amount && 0.0 <= disc <= 100.0 ==> 0.0 <= r <= amount
  {
    var off := disc / 100.0;
    var keep := 1.0 - off;
    assert amount * keep == amount - amount * off;
    assert 0.0 <= amount && 0.0 <= disc <= 100.0 ==> 0.0 <= amount * keep <= amount by {
      if 0.0 <= amount && 0.0 <= disc <= 100.0 {
        assert 0.0 <= off <= 1.0 && 0.0 <= keep;
        assert 0.0 <= amount * off;
        assert 0.0 <= amount * keep;
      }
    }
    amount * keep
  }

  /** `s.reduce((acc, x) => acc + f(x), 0)`: accumulated from the first element on. */
  function Sum<T>(s: seq<T>, f: T -> real): real
  {
    if |s| == 0 then 0.0 else Sum(s[..|s| - 1], f) + f(s[|s| - 1])
  }

  /** A one-element sequence sums to its single term. */
  lemma SumSingleton<T>(x: T, f: T -> real)
    ensures Sum([x], f) == f(x)
  {
    assert [x][..0] == [];
  }

  /** Summing a concatenation is summing the parts. */
  lemma {:induction false} SumAppend<T>(s: seq<T>, t: seq<T>, f: T -> real)
    ensures Sum(s + t, f) == Sum(s, f) + Sum(t, f)
  {
    if |t| == 0 {
      assert s + t == s;
    } else {
      assert (s + t)[..|s + t| - 1] == s + t[..|t| - 1];
      SumAppend(s, t[..|t| - 1], f);
    }
  }

  /** The contribution of one position, with the rest split around it. */
  lemma SumSplitAt<T>(s: seq<T>, i: nat, f: T -> real)
    requires i < |s|
    ensures Sum(s, f) == Sum(s[..i], f) + f(s[i]) + Sum(s[i + 1..], f)
  {
    assert s == s[..i] + [s[i]] + s[i + 1..];
    SumAppend(s[..i] + [s[i]], s[i + 1..], f);
    SumAppend(s[..i], [s[i]], f);
  }

  /** Replacing one element changes the sum by exactly the difference of the two terms. */
  lemma SumUpdate<T>(s: seq<T>, i: nat, x: T, f: T -> real)
    requires i < |s|
    ensures Sum(s[i := x], f) == Sum(s, f) - f(s[i]) + f(x)
  {
    SumSplitAt(s, i, f);
    SumSplitAt(s[i := x], i, f);
    assert s[i := x][..i] == s[..i];
    assert s[i := x][i + 1..] == s[i + 1..];
  }

  /** Removing the element at `i` takes exactly its term off the sum. */
  lemma SumRemoveAt<T>(s: seq<T>, i: nat, f: T -> real)
    requires i < |s|
    ensures Sum(s[..i] + s[i + 1..], f) == Sum(s, f) - f(s[i])
  {
    SumSplitAt(s, i, f);
    SumAppend(s[..i], s[i + 1..], f);
  }

  /** The sum does not depend on the order of the elements. */
  lemma {:induction false} SumPermutation<T>(s: seq<T>, t: seq<T>, f: T -> real)
    requires multiset(s) == multiset(t)
    ensures Sum(s, f) == Sum(t, f)
  {
    if |s| == 0 {
      assert |t| == |multiset(t)| == 0;
    } else {
      var x := s[|s| - 1];
      assert s == s[..|s| - 1] + [x];
      assert x in multiset(t);
      var k :| 0 <= k < |t| && t[k] == x;
      assert t == t[..k] + [x] + t[k + 1..];
      assert multiset(s[..|s| - 1]) == multiset(t[..k] + t[k + 1..]) by {
        calc {
          multiset(s[..|s| - 1]);
          multiset(s) - multiset{x};
          multiset(t) - multiset{x};
          multiset(t[..k] + t[k + 1..]);
        }
      }
      SumPermutation(s[..|s| - 1], t[..k] + t[k + 1..], f);
      SumRemoveAt(t, k, f);
    }
  }

  /** Termwise domination carries over to the sums. */
  lemma {:induction false} SumMonotone<T>(s: seq<T>, f: T -> real, g: T -> real)
    requires forall k :: 0 <= k < |s| ==> f(s[k]) <= g(s[k])
    ensures Sum(s, f) <= Sum(s, g)
  {
    if |s| > 0 {
      SumMonotone(s[..|s| - 1], f, g);
    }
  }

  /** A sum of non-negative terms is non-negative. */
  lemma {:induction false} SumNonNegative<T>(s: seq<T>, f: T -> real)
    requires forall k :: 0 <= k < |s| ==> 0.0 <= f(s[k])
    ensures 0.0 <= Sum(s, f)
  {
    if |s| > 0 {
      SumNonNegative(s[..|s| - 1], f);
    }
  }

  /** Two summands that agree on every element give the same sum. */
  lemma {:induction false} SumCongruent<T>(s: seq<T>, f: T -> real, g: T -> real)
    requires forall k :: 0 <= k < |s| ==> f(s[k]) == g(s[k])
    ensures Sum(s, f) == Sum(s, g)
  {
    if |s| > 0 {
      SumCongruent(s[..|s| - 1], f, g);
    }
  }
}
