/** Discrete weighted distributions over the item and monster kinds: the
    cumulative table built from a base weight vector plus a scaled bonus
    vector, and the draw that maps one random number to a kind slot. */
module Distribution {

  const ITEMS_COUNT: int := 11
  /** Entity type of each item slot (shells, bullets, ..., quad damage). */
  const ITEMS_INDEXES: seq<int> := [8, 9, 10, 11, 12, 13, 14, 15, 16, 17, 18]
  const ITEMS_PROBABILITY: seq<int> := [35, 25, 10, 10, 10, 5, 10, 5, 5, 5, 2]
  const ITEMS_PROBABILITY_NOOB: seq<int> := [10, 0, 10, 0, 0, 0, 20, 15, 10, 8, 8]

  const MONSTERS_COUNT: int := 9
  const MONSTERS_PROBABILITY: seq<int> := [25, 20, 15, 4, 0, 12, 4, 12, 2]
  const MONSTERS_PROBABILITY_PROGRESSION: seq<int> := [2, 2, 5, 10, 6, 8, 10, 5, 10]

  /** An exact multiplier num/den standing for the source's float `mult`. */
  datatype Ratio = Ratio(num: int, den: int)

  /** Integer division truncating toward zero, as C's `/` does. */
  function TruncDiv(a: int, b: int): (q: int)
    requires b > 0
    ensures a >= 0 ==> 0 <= q && q * b <= a < (q + 1) * b
    ensures a < 0 ==> q <= 0 && (q - 1) * b < a <= q * b
  {
    DivBounds(if a >= 0 then a else -a, b);
    if a >= 0 then a / b else -((-a) / b)
  }

  lemma DivBounds(a: nat, b: int)
    requires b > 0
    ensures 0 <= a / b && (a / b) * b <= a < (a / b + 1) * b
  {
    var q, r := a / b, a % b;
    assert a == b * q + r && 0 <= r < b;
    assert (q + 1) * b == q * b + b;
  }

  /** `(int)(mult * w)`: the product truncated toward zero. */
  function Scaled(m: Ratio, w: int): int
    requires m.den > 0
  {
    TruncDiv(m.num * w, m.den)
  }

  lemma ScaledNonNegative(m: Ratio, w: int)
    requires m.den > 0 && m.num >= 0 && w >= 0
    ensures Scaled(m, w) >= 0
  {
    assert m.num * w >= 0;
  }

  function Sum(s: seq<int>): int
    decreases |s|
  {
    if |s| == 0 then 0 else Sum(s[..|s| - 1]) + s[|s| - 1]
  }

  predicate NonDecreasing(s: seq<int>) {
    forall i, j :: 0 <= i <= j < |s| ==> s[i] <= s[j]
  }

  /** A table the draw can use: non-empty with a positive total. */
  predicate Sampleable(distr: seq<int>) {
    |distr| > 0 && distr[|distr| - 1] >= 1
  }

  /** Per-slot increments `prob[i] + (int)(mult * prob2[i])`. */
  function Increments(prob: seq<int>, m: Ratio, prob2: seq<int>): (incs: seq<int>)
    requires |prob| == |prob2| && m.den > 0
    ensures |incs| == |prob|
    ensures forall i :: 0 <= i < |incs| ==> incs[i] == prob[i] + Scaled(m, prob2[i])
  {
    seq(|prob|, i requires 0 <= i < |prob| => prob[i] + Scaled(m, prob2[i]))
  }

  /** Running totals of `incs`. */
  function Cumulative(incs: seq<int>): (c: seq<int>)
    ensures |c| == |incs|
    ensures |c| > 0 ==> c[0] == incs[0]
    ensures forall i :: 0 < i < |c| ==> c[i] == c[i - 1] + incs[i]
    decreases |incs|
  {
    if |incs| == 0 then []
    else
      var p := Cumulative(incs[..|incs| - 1]);
      p + [(if |p| == 0 then 0 else p[|p| - 1]) + incs[|incs| - 1]]
  }

  /** Entry i of the running totals is the sum of the first i + 1 increments. */
  lemma {:induction false} CumulativeIsPrefixSum(incs: seq<int>, i: int)
    requires 0 <= i < |incs|
    ensures Cumulative(incs)[i] == Sum(incs[..i + 1])
    decreases i
  {
    assert incs[..i + 1][..i] == incs[..i];
    if i > 0 {
      CumulativeIsPrefixSum(incs, i - 1);
    }
  }

  /** The table `setupDistribution` builds: entry i is the prefix sum of the
      increments up to and including slot i. */
  function SetupDistribution(prob: seq<int>, m: Ratio, prob2: seq<int>): (distr: seq<int>)
    requires |prob| == |prob2| && m.den > 0
    ensures |distr| == |prob|
    ensures |distr| > 0 ==> distr[0] == prob[0] + Scaled(m, prob2[0])
    ensures forall i :: 0 < i < |distr| ==> distr[i] == distr[i - 1] + prob[i] + Scaled(m, prob2[i])
  {
    Cumulative(Increments(prob, m, prob2))
  }

  /** With non-negative increments the cumulative table never decreases. */
  lemma CumulativeNonDecreasing(incs: seq<int>)
    requires forall i :: 0 <= i < |incs| ==> incs[i] >= 0
    ensures NonDecreasing(Cumulative(incs))
  {
    var c := Cumulative(incs);
    forall i, j | 0 <= i <= j < |c| ensures c[i] <= c[j] {
      StepsUp(c, incs, i, j);
    }
  }

  lemma {:induction false} StepsUp(c: seq<int>, incs: seq<int>, i: int, j: int)
    requires |c| == |incs|
    requires forall k :: 0 < k < |c| ==> c[k] == c[k - 1] + incs[k]
    requires forall k :: 0 <= k < |incs| ==> incs[k] >= 0
    requires 0 <= i <= j < |c|
    ensures c[i] <= c[j]
    decreases j - i
  {
    if i < j {
      StepsUp(c, incs, i, j - 1);
    }
  }

  lemma {:induction false} SumAtLeast(a: seq<int>, b: seq<int>)
    requires |a| == |b|
    requires forall i :: 0 <= i < |a| ==> a[i] >= b[i]
    ensures Sum(a) >= Sum(b)
    decreases |a|
  {
    if |a| > 0 {
      SumAtLeast(a[..|a| - 1], b[..|b| - 1]);
    }
  }

  /** Any table built from non-negative base and bonus weights with a
      non-negative multiplier is non-decreasing and ends at least at the sum of
      the base weights. */
  lemma SetupBounds(prob: seq<int>, m: Ratio, prob2: seq<int>)
    requires |prob| == |prob2| && |prob| > 0 && m.den > 0 && m.num >= 0
    requires forall i :: 0 <= i < |prob| ==> prob[i] >= 0 && prob2[i] >= 0
    ensures NonDecreasing(SetupDistribution(prob, m, prob2))
    ensures SetupDistribution(prob, m, prob2)[|prob| - 1] >= Sum(prob)
  {
    var incs := Increments(prob, m, prob2);
    forall i | 0 <= i < |incs| ensures incs[i] >= prob[i] {
      ScaledNonNegative(m, prob2[i]);
    }
    CumulativeNonDecreasing(incs);
    SumAtLeast(incs, prob);
    CumulativeIsPrefixSum(incs, |incs| - 1);
    assert incs[..|incs|] == incs;
  }

  lemma SumPrefixStep(s: seq<int>, k: int)
    requires 0 < k <= |s|
    ensures Sum(s[..k]) == Sum(s[..k - 1]) + s[k - 1]
  {
    assert s[..k][..k - 1] == s[..k - 1];
  }

  lemma BaseSums()
    ensures Sum(ITEMS_PROBABILITY) == 122
    ensures Sum(MONSTERS_PROBABILITY) == 94
  {
    var it := ITEMS_PROBABILITY;
    assert Sum(it[..0]) == 0;
    SumPrefixStep(it, 1); SumPrefixStep(it, 2); SumPrefixStep(it, 3);
    SumPrefixStep(it, 4); SumPrefixStep(it, 5); SumPrefixStep(it, 6);
    SumPrefixStep(it, 7); SumPrefixStep(it, 8); SumPrefixStep(it, 9);
    SumPrefixStep(it, 10); SumPrefixStep(it, 11);
    assert it[..11] == it;
    var mo := MONSTERS_PROBABILITY;
    assert Sum(mo[..0]) == 0;
    SumPrefixStep(mo, 1); SumPrefixStep(mo, 2); SumPrefixStep(mo, 3);
    SumPrefixStep(mo, 4); SumPrefixStep(mo, 5); SumPrefixStep(mo, 6);
    SumPrefixStep(mo, 7); SumPrefixStep(mo, 8); SumPrefixStep(mo, 9);
    assert mo[..9] == mo;
  }

  /** The item table for a noobness multiplier and the monster table for a
      progress multiplier are both usable by the draw: non-decreasing, with a
      total of at least 122 and 94 respectively. */
  lemma GameTablesSampleable(m: Ratio)
    requires m.den > 0 && m.num >= 0
    ensures NonDecreasing(SetupDistribution(ITEMS_PROBABILITY, m, ITEMS_PROBABILITY_NOOB))
    ensures SetupDistribution(ITEMS_PROBABILITY, m, ITEMS_PROBABILITY_NOOB)[ITEMS_COUNT - 1] >= 122
    ensures NonDecreasing(SetupDistribution(MONSTERS_PROBABILITY, m, MONSTERS_PROBABILITY_PROGRESSION))
    ensures SetupDistribution(MONSTERS_PROBABILITY, m, MONSTERS_PROBABILITY_PROGRESSION)[MONSTERS_COUNT - 1] >= 94
  {
    BaseSums();
    SetupBounds(ITEMS_PROBABILITY, m, ITEMS_PROBABILITY_NOOB);
    SetupBounds(MONSTERS_PROBABILITY, m, MONSTERS_PROBABILITY_PROGRESSION);
  }

  /** Smallest slot at or after i whose cumulative weight reaches s. */
  function FirstAtLeast(distr: seq<int>, s: int, i: nat): (k: nat)
    requires i < |distr| && distr[|distr| - 1] >= s
    ensures i <= k < |distr|
    ensures distr[k] >= s
    ensures forall j :: i <= j < k ==> distr[j] < s
    decreases |distr| - i
  {
    if distr[i] >= s then i else FirstAtLeast(distr, s, i + 1)
  }

  /** One draw from the table: the draw is folded into [1, total] and the
      first slot whose running total reaches it is returned. */
  function SampleDistribution(distr: seq<int>, draw: nat): (k: nat)
    requires Sampleable(distr)
    ensures k < |distr|
    ensures distr[k] >= draw % distr[|distr| - 1] + 1
    ensures forall j :: 0 <= j < k ==> distr[j] < draw % distr[|distr| - 1] + 1
  {
    var s := draw % distr[|distr| - 1] + 1;
    FirstAtLeast(distr, s, 0)
  }

  /** Lower end of slot k's interval of folded draws. */
  function Lower(distr: seq<int>, k: nat): int
    requires k < |distr|
  {
    if k == 0 then 0 else distr[k - 1]
  }

  /** On a non-decreasing table a draw lands in slot k exactly when its folded
      value lies in (Lower(k), distr[k]], so slot k receives distr[k] - Lower(k)
      of the total's folded values: its weight. */
  lemma SampleInterval(distr: seq<int>, draw: nat, k: nat)
    requires Sampleable(distr) && NonDecreasing(distr) && k < |distr|
    ensures SampleDistribution(distr, draw) == k <==>
              Lower(distr, k) < draw % distr[|distr| - 1] + 1 <= distr[k]
  {
    var s := draw % distr[|distr| - 1] + 1;
    var r := SampleDistribution(distr, draw);
    assert r < k ==> distr[r] <= Lower(distr, k);
    assert r > k ==> distr[k] < s;
  }

  /** Scenario: a two-slot table with all weight on slot 0 always yields slot 0. */
  lemma SingleWeightAlwaysFirst(draw: nat)
    ensures SetupDistribution([10, 0], Ratio(0, 1), [0, 0]) == [10, 10]
    ensures SampleDistribution([10, 10], draw) == 0
  {
  }
}
