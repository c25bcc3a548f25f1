/** Sums and arithmetic means of real-valued samples: the reduction that
    pandas' `groupby(...).mean()` applies to each group. */
module Stats {
  import opened Outcomes

  function Sum(s: seq<real>): real
  {
    if |s| == 0 then 0.0 else s[0] + Sum(s[1..])
  }

  /** The arithmetic mean of a non-empty sample. */
  function Mean(s: seq<real>): real
    requires |s| > 0
  {
    Sum(s) / (|s| as real)
  }

  /** The mean of a sample, or None for an empty one: an empty group never
      produces a row. */
  function MeanOpt(s: seq<real>): (r: Option<real>)
  {
    if |s| == 0 then None else Some(Mean(s))
  }

  lemma {:induction false} SumAppend(a: seq<real>, b: seq<real>)
    ensures Sum(a + b) == Sum(a) + Sum(b)
  {
    if |a| > 0 {
      assert (a + b)[1..] == a[1..] + b;
      SumAppend(a[1..], b);
    } else {
      assert a + b == b;
    }
  }

  /** m copies of s, one after another. */
  function Repeat(s: seq<real>, m: nat): (r: seq<real>)
    ensures |r| == m * |s|
  {
    if m == 0 then [] else s + Repeat(s, m - 1)
  }

  lemma {:induction false} SumRepeat(s: seq<real>, m: nat)
    ensures Sum(Repeat(s, m)) == (m as real) * Sum(s)
  {
    if m > 0 {
      var rest := Repeat(s, m - 1);
      assert Repeat(s, m) == s + rest;
      SumAppend(s, rest);
      SumRepeat(s, m - 1);
      assert ((m - 1) as real) * Sum(s) + Sum(s) == (m as real) * Sum(s);
    }
  }

  /** Repeating every sample the same number of times leaves the mean
      unchanged. */
  lemma MeanRepeat(s: seq<real>, m: nat)
    requires |s| > 0 && m > 0
    ensures |Repeat(s, m)| > 0
    ensures Mean(Repeat(s, m)) == Mean(s)
  {
    SumRepeat(s, m);
    CastProduct(m, |s|);
    DivCancel(Sum(s), |s| as real, m as real);
  }

  lemma CastProduct(a: nat, b: nat)
    ensures ((a * b) as real) == (a as real) * (b as real)
  {
  }

  lemma DivCancel(x: real, n: real, k: real)
    requires n != 0.0 && k != 0.0
    ensures (k * x) / (k * n) == x / n
  {
  }
}
