/** The allocation problem both engines hand to a linear-programme solver:
    choose x with 0 <= x[i] <= caps[i] and sum(x) == amount, maximising
    sum(rates[i] * x[i]).  The solver itself is replaced by `Solve`, a
    fill-the-best-rate-first procedure that is proved to return a feasible
    and optimal point whenever the problem is feasible. */
module LinearProgram {
  import opened Common

  /** Every entry lies between zero and its capacity. */
  predicate WithinBounds(caps: seq<real>, x: seq<real>) {
    && |x| == |caps|
    && forall i :: 0 <= i < |x| ==> 0.0 <= x[i] <= caps[i]
  }

  /** The constraint set of the programme. */
  predicate Feasible(caps: seq<real>, amount: real, x: seq<real>) {
    WithinBounds(caps, x) && Sum(x) == amount
  }

  /** x attains the largest objective value among all feasible points. */
  ghost predicate Optimal(caps: seq<real>, rates: seq<real>, amount: real, x: seq<real>)
    requires |rates| == |caps|
  {
    && Feasible(caps, amount, x)
    && forall y :: Feasible(caps, amount, y) ==> Dot(rates, y) <= Dot(rates, x)
  }

  /** Entries whose rate is above the level are full, entries below it are empty. */
  predicate ThresholdShaped(caps: seq<real>, rates: seq<real>, x: seq<real>, level: real)
    requires |caps| == |rates| == |x|
  {
    forall i :: 0 <= i < |x| ==>
      && (rates[i] > level ==> x[i] == caps[i])
      && (rates[i] < level ==> x[i] == 0.0)
  }

  predicate NonNegative(caps: seq<real>) {
    forall i :: 0 <= i < |caps| ==> caps[i] >= 0.0
  }

  lemma {:induction false} SumWithinBounds(caps: seq<real>, x: seq<real>)
    requires WithinBounds(caps, x)
    ensures 0.0 <= Sum(x) <= Sum(caps)
  {
    if |x| > 0 {
      SumWithinBounds(caps[1..], x[1..]);
    }
  }

  /** One coordinate of the exchange argument, for the rate `d` measured
      against the level: a full entry when d is positive and an empty one
      when d is negative beat any other entry within the bound. */
  lemma TermGap(d: real, a: real, b: real, cap: real)
    requires 0.0 <= a <= cap && 0.0 <= b <= cap
    requires d > 0.0 ==> a == cap
    requires d < 0.0 ==> a == 0.0
    ensures d * a >= d * b
  {
    if d > 0.0 {
      ProductSign(d, a - b);
    } else if d < 0.0 {
      ProductSign(-d, b);
    }
  }

  lemma ProductSign(p: real, q: real)
    requires p >= 0.0 && q >= 0.0
    ensures p * q >= 0.0
  {
  }

  /** The rates measured relative to a level. */
  function Shift(rates: seq<real>, level: real): (s: seq<real>)
    ensures |s| == |rates|
    ensures forall i :: 0 <= i < |rates| ==> s[i] == rates[i] - level
  {
    if |rates| == 0 then [] else [rates[0] - level] + Shift(rates[1..], level)
  }

  lemma ShiftStep(r: real, sr: real, level: real, a: real, rest: real, total: real, d: real, ds: real)
    requires sr == r - level && total == a + rest
    requires d == ds + level * rest
    ensures r * a + d == sr * a + ds + level * total
  {
  }

  /** Shifting every rate by the level moves the objective by the level
      times the total allocated. */
  lemma {:induction false} DotShift(rates: seq<real>, x: seq<real>, level: real, total: real)
    requires |rates| == |x| && total == Sum(x)
    ensures Dot(rates, x) == Dot(Shift(rates, level), x) + level * total
  {
    if |x| > 0 {
      var s, tail := Shift(rates, level), Shift(rates[1..], level);
      assert s[1..] == tail;
      DotShift(rates[1..], x[1..], level, Sum(x[1..]));
      ShiftStep(rates[0], s[0], level, x[0], Sum(x[1..]), total, Dot(rates[1..], x[1..]), Dot(tail, x[1..]));
    }
  }

  lemma ThresholdShapedTail(caps: seq<real>, rates: seq<real>, x: seq<real>, level: real)
    requires |caps| == |rates| == |x| > 0
    requires ThresholdShaped(caps, rates, x, level)
    ensures ThresholdShaped(caps[1..], rates[1..], x[1..], level)
  {
    forall i | 0 <= i < |x| - 1
      ensures (rates[1..][i] > level ==> x[1..][i] == caps[1..][i])
      ensures (rates[1..][i] < level ==> x[1..][i] == 0.0)
    {
      assert rates[1..][i] == rates[i + 1] && x[1..][i] == x[i + 1];
    }
  }

  /** Exchange argument: measured against the level, a threshold-shaped point
      is at least as good as every point within the bounds. */
  lemma {:induction false} ThresholdGap(caps: seq<real>, rates: seq<real>, x: seq<real>, y: seq<real>, level: real)
    requires |rates| == |caps|
    requires WithinBounds(caps, x) && WithinBounds(caps, y)
    requires ThresholdShaped(caps, rates, x, level)
    ensures Dot(Shift(rates, level), x) >= Dot(Shift(rates, level), y)
  {
    if |x| > 0 {
      var s, tail := Shift(rates, level), Shift(rates[1..], level);
      assert s[1..] == tail;
      TermGap(s[0], x[0], y[0], caps[0]);
      ThresholdShapedTail(caps, rates, x, level);
      ThresholdGap(caps[1..], rates[1..], x[1..], y[1..], level);
    }
  }

  /** A feasible threshold-shaped point is optimal: every feasible point has
      the same total, so both objectives move by the same amount when the
      rates are measured against the level. */
  lemma ThresholdIsOptimal(caps: seq<real>, rates: seq<real>, amount: real, x: seq<real>, level: real)
    requires |rates| == |caps|
    requires Feasible(caps, amount, x)
    requires ThresholdShaped(caps, rates, x, level)
    ensures Optimal(caps, rates, amount, x)
  {
    forall y | Feasible(caps, amount, y)
      ensures Dot(rates, y) <= Dot(rates, x)
    {
      ThresholdGap(caps, rates, x, y, level);
      DotShift(rates, x, level, amount);
      DotShift(rates, y, level, amount);
    }
  }

  /** Index of the highest rate among the indices in `todo` at or after `i`,
      the first such index on ties; -1 when there is none. */
  function HighestIn(rates: seq<real>, todo: set<int>, i: nat): (k: int)
    requires i <= |rates|
    ensures k == -1 || (i <= k < |rates| && k in todo)
    ensures k == -1 ==> forall j :: i <= j < |rates| ==> j !in todo
    ensures k != -1 ==> forall j :: i <= j < |rates| && j in todo ==> rates[j] <= rates[k]
    decreases |rates| - i
  {
    if i == |rates| then -1
    else
      var k := HighestIn(rates, todo, i + 1);
      if i in todo && (k == -1 || rates[i] >= rates[k]) then i else k
  }

  /** The index set {0, ..., n - 1}. */
  function Indices(n: nat): (r: set<int>)
    ensures forall j :: j in r <==> 0 <= j < n
  {
    if n == 0 then {} else Indices(n - 1) + {n - 1}
  }

  function MaxRate(rates: seq<real>): (m: real)
    ensures forall i :: 0 <= i < |rates| ==> rates[i] <= m
  {
    if |rates| == 0 then 0.0 else Max(rates[0], MaxRate(rates[1..]))
  }

  /** A filled allocation and the rate level that separates full from empty entries. */
  datatype Fill = Fill(x: seq<real>, level: real)

  /** Visits the open indices from the highest rate down, giving each as much
      of the remaining amount as its capacity allows. */
  function FillByRate(caps: seq<real>, rates: seq<real>, x: seq<real>, remaining: real,
                      todo: set<int>, level: real): (r: Fill)
    requires |rates| == |caps| == |x|
    requires NonNegative(caps) && WithinBounds(caps, x)
    requires forall j :: j in todo ==> 0 <= j < |x|
    requires forall j :: j in todo ==> x[j] == 0.0 && rates[j] <= level
    requires forall i :: 0 <= i < |x| && i !in todo ==> rates[i] >= level
    requires forall i :: 0 <= i < |x| && i !in todo ==> x[i] == caps[i] || remaining == 0.0
    requires forall i :: 0 <= i < |x| && i !in todo && rates[i] > level ==> x[i] == caps[i]
    requires 0.0 <= remaining && Sum(x) + remaining <= Sum(caps)
    ensures WithinBounds(caps, r.x)
    ensures Sum(r.x) == Sum(x) + remaining
    ensures ThresholdShaped(caps, rates, r.x, r.level)
    decreases todo
  {
    if todo == {} then
      assert remaining == 0.0 by {
        if x != caps {
          var i :| 0 <= i < |x| && x[i] != caps[i];
        }
      }
      Fill(x, level)
    else if remaining == 0.0 then
      Fill(x, level)
    else
      var k := HighestIn(rates, todo, 0);
      var v := Min(caps[k], remaining);
      SumUpdate(x, k, v);
      FillByRate(caps, rates, x[k := v], remaining - v, todo - {k}, rates[k])
  }

  /** The solver: an optimal point of a feasible allocation programme. */
  function Solve(caps: seq<real>, rates: seq<real>, amount: real): (x: seq<real>)
    requires |rates| == |caps| && NonNegative(caps)
    requires 0.0 <= amount <= Sum(caps)
    ensures Optimal(caps, rates, amount, x)
  {
    var f := FillByRate(caps, rates, Zeros(|caps|), amount, Indices(|caps|), MaxRate(rates));
    ThresholdIsOptimal(caps, rates, amount, f.x, f.level);
    f.x
  }

  /** The programme has a solution exactly when the amount lies between zero
      and the total capacity. */
  lemma FeasibleIffCovered(caps: seq<real>, amount: real)
    requires NonNegative(caps)
    ensures (exists x :: Feasible(caps, amount, x)) <==> 0.0 <= amount <= Sum(caps)
  {
    if 0.0 <= amount <= Sum(caps) {
      var x := Solve(caps, caps, amount);
      assert Feasible(caps, amount, x);
    }
    forall x | Feasible(caps, amount, x)
      ensures 0.0 <= amount <= Sum(caps)
    {
      SumWithinBounds(caps, x);
    }
  }
}
