/** The vectorised numeric columns of rands.py (lines 16-43) over exact
    reals. The random draws and the values of `np.sin` are parameters: a
    sequence `weeklySine` stands for `np.sin(2 * np.pi * t / 7)` and
    `yearlySine` for `np.sin(2 * np.pi * t / 365)`. */
module Signals {
  import opened Rounding

  const BaseSales: real := 500.0
  const InitialSpend: real := 1000.0

  /** `0.5 * np.arange(n)` (rands.py:16-19). */
  function Trend(n: nat): (r: seq<real>)
    ensures |r| == n
  {
    seq(n, i requires 0 <= i < n => 0.5 * i as real)
  }

  /** `10 * np.sin(2 * np.pi * t / 7)` (rands.py:23), given the sines. */
  function Seasonality(weeklySine: seq<real>): (r: seq<real>)
    ensures |r| == |weeklySine|
  {
    seq(|weeklySine|, i requires 0 <= i < |weeklySine| => 10.0 * weeklySine[i])
  }

  /** The sum of a sequence, the reference for every prefix sum below. */
  function Sum(w: seq<real>): real {
    if |w| == 0 then 0.0 else Sum(w[..|w| - 1]) + w[|w| - 1]
  }

  /** `Sum` may equally be taken from the front. */
  lemma {:induction false} SumFront(w: seq<real>)
    requires |w| > 0
    ensures Sum(w) == w[0] + Sum(w[1..])
    decreases |w|
  {
    if |w| > 1 {
      var init := w[..|w| - 1];
      SumFront(init);
      assert init[1..] == w[1..][..|w[1..]| - 1];
    }
  }

  /** `np.cumsum` as it runs: an accumulator starting at `acc`, emitting
      the running total after each element. */
  function CumSumFrom(acc: real, w: seq<real>): (r: seq<real>)
    ensures |r| == |w|
    ensures forall i :: 0 <= i < |w| ==> r[i] == acc + Sum(w[..i + 1])
    decreases |w|
  {
    if |w| == 0 then []
    else
      var rest := CumSumFrom(acc + w[0], w[1..]);
      assert forall i :: 0 <= i < |w| - 1 ==> rest[i] == acc + Sum(w[..i + 2]) by {
        forall i | 0 <= i < |w| - 1
          ensures rest[i] == acc + Sum(w[..i + 2])
        {
          SumFront(w[..i + 2]);
          assert w[..i + 2][1..] == w[1..][..i + 1];
        }
      }
      [acc + w[0]] + rest
  }

  /** `1000 + np.cumsum(increments)` (rands.py:29): a random walk. */
  function MarketingSpend(increments: seq<real>): (r: seq<real>)
    ensures |r| == |increments|
    ensures forall i :: 0 <= i < |r| ==> r[i] == InitialSpend + Sum(increments[..i + 1])
  {
    var cs := CumSumFrom(0.0, increments);
    seq(|increments|, i requires 0 <= i < |increments| => InitialSpend + cs[i])
  }

  /** The spend starts at 1000 plus the first increment and each later day
      differs from the day before by exactly that day's increment. */
  lemma SpendIsRandomWalk(increments: seq<real>)
    ensures var spend := MarketingSpend(increments);
      (|increments| > 0 ==> spend[0] == InitialSpend + increments[0]) &&
      forall i :: 0 <= i < |increments| - 1 ==> spend[i + 1] - spend[i] == increments[i + 1]
  {
    var spend := MarketingSpend(increments);
    if |increments| > 0 {
      assert increments[..1] == [increments[0]];
      assert Sum([increments[0]]) == Sum([]) + increments[0];
    }
    forall i | 0 <= i < |increments| - 1
      ensures spend[i + 1] - spend[i] == increments[i + 1]
    {
      assert increments[..i + 2][..i + 1] == increments[..i + 1];
    }
  }

  /** `marketing_spend * 2.5 + noise` (rands.py:32), before rounding. */
  function WebTraffic(spend: seq<real>, noise: seq<real>): (r: seq<real>)
    requires |noise| == |spend|
    ensures |r| == |spend|
  {
    seq(|spend|, i requires 0 <= i < |spend| => spend[i] * 2.5 + noise[i])
  }

  /** `np.round(web_traffic).astype(int)` (rands.py:66). */
  function Visitors(traffic: seq<real>): (r: seq<int>)
    ensures |r| == |traffic|
    ensures forall i :: 0 <= i < |r| ==> -0.5 <= r[i] as real - traffic[i] <= 0.5
    ensures forall i :: 0 <= i < |r| ==>
      (r[i] as real - traffic[i] == 0.5 || traffic[i] - r[i] as real == 0.5) ==> r[i] % 2 == 0
  {
    seq(|traffic|, i requires 0 <= i < |traffic| => RoundHalfEven(traffic[i]))
  }

  /** `20 + 10 * np.sin(2 * np.pi * t / 365) + noise` (rands.py:35),
      before rounding. */
  function Temperature(yearlySine: seq<real>, noise: seq<real>): (r: seq<real>)
    requires |noise| == |yearlySine|
    ensures |r| == |yearlySine|
  {
    seq(|yearlySine|, i requires 0 <= i < |yearlySine| => 20.0 + 10.0 * yearlySine[i] + noise[i])
  }

  /** `base_sales + trend + seasonality + 0.1 * marketing_spend + noise`
      (rands.py:39-43), element by element. */
  function Sales(trend: seq<real>, seasonality: seq<real>, spend: seq<real>, noise: seq<real>): (r: seq<real>)
    requires |seasonality| == |trend| && |spend| == |trend| && |noise| == |trend|
    ensures |r| == |trend|
  {
    seq(|trend|, i requires 0 <= i < |trend| =>
      BaseSales + trend[i] + seasonality[i] + 0.1 * spend[i] + noise[i])
  }

  /** Sales as a function of the row index and the inputs alone: row `i`
      is 600 + 0.5*i plus the seasonality, a tenth of the walk so far and
      that row's noise. */
  lemma SalesComposition(weeklySine: seq<real>, increments: seq<real>, noise: seq<real>)
    requires |increments| == |weeklySine| && |noise| == |weeklySine|
    ensures var n := |weeklySine|;
      var sales := Sales(Trend(n), Seasonality(weeklySine), MarketingSpend(increments), noise);
      |sales| == n &&
      forall i :: 0 <= i < n ==>
        sales[i] == 600.0 + 0.5 * i as real + 10.0 * weeklySine[i]
                    + 0.1 * Sum(increments[..i + 1]) + noise[i]
  {
  }

  /** From one day to the next, sales rise by the 0.5 trend step, the
      change in seasonality and noise, and a tenth of that day's walk
      increment. */
  lemma SalesStep(weeklySine: seq<real>, increments: seq<real>, noise: seq<real>)
    requires |increments| == |weeklySine| && |noise| == |weeklySine|
    ensures var n := |weeklySine|;
      var sales := Sales(Trend(n), Seasonality(weeklySine), MarketingSpend(increments), noise);
      forall i :: 0 <= i < n - 1 ==>
        sales[i + 1] - sales[i] == 0.5 + 10.0 * (weeklySine[i + 1] - weeklySine[i])
                                   + 0.1 * increments[i + 1] + (noise[i + 1] - noise[i])
  {
    SpendIsRandomWalk(increments);
  }
}
