/** Small shared vocabulary: an Option type, sums of real sequences and the
    facts about them that the other modules use. */
module Common {

  datatype Option<T> = None | Some(value: T)

  /** Sum of a sequence of reals, peeled from the back so that a loop that
      accumulates left to right matches it step by step. */
  function Sum(s: seq<real>): real
  {
    if |s| == 0 then 0.0 else Sum(s[..|s| - 1]) + s[|s| - 1]
  }

  /** Sum of a sequence of integers, peeled from the back. */
  function SumInt(s: seq<int>): int
  {
    if |s| == 0 then 0 else SumInt(s[..|s| - 1]) + s[|s| - 1]
  }

  lemma {:induction false} SumAppend(a: seq<real>, b: seq<real>)
    ensures Sum(a + b) == Sum(a) + Sum(b)
  {
    if |b| == 0 {
      assert a + b == a;
    } else {
      assert (a + b)[..|a + b| - 1] == a + b[..|b| - 1];
      SumAppend(a, b[..|b| - 1]);
    }
  }

  lemma SumPrefixStep(s: seq<real>, i: nat)
    requires i < |s|
    ensures Sum(s[..i + 1]) == Sum(s[..i]) + s[i]
  {
    assert s[..i + 1][..i] == s[..i];
  }

  lemma {:induction false} SumFront(s: seq<real>)
    requires |s| > 0
    ensures Sum(s) == s[0] + Sum(s[1..])
  {
    assert s == [s[0]] + s[1..];
    SumAppend([s[0]], s[1..]);
    assert [s[0]][..0] == [];
  }

  lemma {:induction false} SumNonNegative(s: seq<real>)
    requires forall k :: 0 <= k < |s| ==> s[k] >= 0.0
    ensures Sum(s) >= 0.0
  {
    if |s| > 0 {
      SumNonNegative(s[..|s| - 1]);
    }
  }

  /** Every term of a sum of non-negative terms is at most the sum. */
  lemma {:induction false} SumBoundsTerm(s: seq<real>, k: nat)
    requires k < |s|
    requires forall j :: 0 <= j < |s| ==> s[j] >= 0.0
    ensures s[k] <= Sum(s)
  {
    SumNonNegative(s[..|s| - 1]);
    if k < |s| - 1 {
      SumBoundsTerm(s[..|s| - 1], k);
    }
  }

  /** Changing one term changes the sum by the difference. */
  lemma {:induction false} SumUpdate(s: seq<real>, k: nat, v: real)
    requires k < |s|
    ensures Sum(s[k := v]) == Sum(s) - s[k] + v
  {
    var t := s[k := v];
    if k == |s| - 1 {
      assert t[..|t| - 1] == s[..|s| - 1];
    } else {
      assert t[..|t| - 1] == s[..|s| - 1][k := v];
      SumUpdate(s[..|s| - 1], k, v);
    }
  }

  /** A sequence of n zeros, the starting value of a histogram. */
  function Zeros(n: nat): (z: seq<real>)
    ensures |z| == n && Sum(z) == 0.0
    ensures forall k :: 0 <= k < n ==> z[k] == 0.0
  {
    if n == 0 then [] else
      var z := Zeros(n - 1) + [0.0];
      assert z[..n - 1] == Zeros(n - 1);
      z
  }

  /** Element-wise product of a constant with a sequence. */
  function Scale(c: real, s: seq<real>): (r: seq<real>)
    ensures |r| == |s|
  {
    seq(|s|, k requires 0 <= k < |s| => c * s[k])
  }

  lemma {:induction false} SumScale(c: real, s: seq<real>)
    ensures Sum(Scale(c, s)) == c * Sum(s)
  {
    if |s| > 0 {
      var front, scaledFront := Scale(c, s)[..|s| - 1], Scale(c, s[..|s| - 1]);
      assert forall k :: 0 <= k < |front| ==> front[k] == scaledFront[k];
      assert front == scaledFront;
      SumScale(c, s[..|s| - 1]);
    }
  }

  /** Dividing every term by t divides the sum by t. */
  lemma {:induction false} SumDivide(s: seq<real>, d: seq<real>, t: real)
    requires |d| == |s| && t != 0.0
    requires forall k :: 0 <= k < |s| ==> d[k] == s[k] / t
    ensures Sum(d) == Sum(s) / t
  {
    if |s| > 0 {
      var n := |s| - 1;
      SumDivide(s[..n], d[..n], t);
      assert Sum(s[..n]) / t + s[n] / t == (Sum(s[..n]) + s[n]) / t;
    }
  }

  /** A sum is monotone in its terms. */
  lemma {:induction false} SumMonotone(a: seq<real>, b: seq<real>)
    requires |a| == |b|
    requires forall k :: 0 <= k < |a| ==> a[k] <= b[k]
    ensures Sum(a) <= Sum(b)
  {
    if |a| > 0 {
      SumMonotone(a[..|a| - 1], b[..|b| - 1]);
    }
  }

  /** Two sequences that agree pointwise have the same sum. */
  lemma {:induction false} SumPointwise(a: seq<real>, b: seq<real>)
    requires |a| == |b|
    requires forall k :: 0 <= k < |a| ==> a[k] == b[k]
    ensures Sum(a) == Sum(b)
  {
    assert a == b;
  }

  /** Python's reading of an index into a sequence of length n: negative
      indices count from the end. */
  predicate PyIndexValid(i: int, n: nat)
  {
    -(n as int) <= i < n
  }

  function PyIndex(i: int, n: nat): (k: nat)
    requires PyIndexValid(i, n)
    ensures k < n
    ensures i >= 0 ==> k == i
    ensures i < 0 ==> k + (-i) == n
  {
    if i >= 0 then i else n + i
  }

  /** Steps of real arithmetic that the solver finds unreliably when they
      appear inside larger goals. */
  lemma MulSub(a: real, b: real, c: real)
    ensures (a - b) * c == a * c - b * c
  {
  }

  lemma MulSign(a: real, c: real)
    requires c > 0.0
    ensures a >= 0.0 <==> a * c >= 0.0
    ensures a > 0.0 <==> a * c > 0.0
  {
  }

  lemma DivMul(a: real, c: real)
    requires c != 0.0
    ensures (a / c) * c == a
  {
  }

  /** Division by a positive number keeps order. */
  lemma DivMonotone(a: real, b: real, d: real)
    requires a <= b && d > 0.0
    ensures a / d <= b / d
    ensures a < b ==> a / d < b / d
  {
    DivMul(a, d);
    DivMul(b, d);
    MulSub(b / d, a / d, d);
    MulSign(b / d - a / d, d);
  }

  /** 0 <= a <= b and b != 0 give 0 <= a / b <= 1. */
  lemma UnitFraction(a: real, b: real)
    requires 0.0 <= a <= b && b != 0.0
    ensures 0.0 <= a / b <= 1.0
  {
    DivMul(a, b);
    MulSign(a / b, b);
    MulSub(1.0, a / b, b);
    MulSign(1.0 - a / b, b);
  }

  /** Of two non-negative numbers, the one with the smaller square is the
      smaller. */
  lemma SquareLe(a: real, b: real)
    requires a >= 0.0 && b >= 0.0 && a * a <= b * b
    ensures a <= b
  {
    assert (a - b) * (a + b) == a * a - b * b;
    if a + b > 0.0 {
      MulSign(b - a, a + b);
      assert (b - a) * (a + b) == b * b - a * a;
    }
  }
}
