/**
  The parameter search of the backtest page (panel_modules/pages/backtest_page.py): the grid of
  parameter combinations `itertools.product` enumerates, and the two ways the page picks one
  result per coin, the first one in the profit-sorted list (saved to disk) and the most profitable
  one (displayed).
*/
module BacktestOptimization {
  import opened Wrappers
  import opened BacktestSimulation
  import opened Selection

  /** `[x] + t` for every tail `t`, in order. */
  function PrependEach(x: real, tails: seq<seq<real>>): (r: seq<seq<real>>)
    ensures |r| == |tails|
  {
    seq(|tails|, i requires 0 <= i < |tails| => [x] + tails[i])
  }

  /** Every element of `xs` in front of every tail, the first element varying slowest. */
  function Prepend(xs: seq<real>, tails: seq<seq<real>>): seq<seq<real>>
    decreases |xs|
  {
    if xs == [] then [] else PrependEach(xs[0], tails) + Prepend(xs[1..], tails)
  }

  /** `list(itertools.product(*lists))`: the rightmost list varies fastest. */
  function Combinations(lists: seq<seq<real>>): seq<seq<real>>
    decreases |lists|
  {
    if lists == [] then [[]] else Prepend(lists[0], Combinations(lists[1..]))
  }

  /** The product of the list lengths, as the page computes its "Total: n combinations" label. */
  function LengthProduct(lists: seq<seq<real>>): nat
    decreases |lists|
  {
    if lists == [] then 1 else |lists[0]| * LengthProduct(lists[1..])
  }

  lemma {:induction false} PrependLength(xs: seq<real>, tails: seq<seq<real>>)
    ensures |Prepend(xs, tails)| == |xs| * |tails|
    decreases |xs|
  {
    if xs != [] {
      PrependLength(xs[1..], tails);
    }
  }

  /** The grid has exactly as many points as the label announces. */
  lemma {:induction false} CombinationCount(lists: seq<seq<real>>)
    ensures |Combinations(lists)| == LengthProduct(lists)
    decreases |lists|
  {
    if lists != [] {
      CombinationCount(lists[1..]);
      PrependLength(lists[0], Combinations(lists[1..]));
    }
  }

  lemma {:induction false} PrependMembership(xs: seq<real>, tails: seq<seq<real>>, c: seq<real>)
    ensures c in Prepend(xs, tails) <==> |c| > 0 && c[0] in xs && c[1..] in tails
    decreases |xs|
  {
    if xs != [] {
      PrependMembership(xs[1..], tails, c);
      var each := PrependEach(xs[0], tails);
      assert Prepend(xs, tails) == each + Prepend(xs[1..], tails);
      if c in each {
        var i :| 0 <= i < |each| && each[i] == c;
        assert c[1..] == tails[i];
      }
      if |c| > 0 && c[0] == xs[0] && c[1..] in tails {
        var i :| 0 <= i < |tails| && tails[i] == c[1..];
        assert each[i] == c;
      }
    }
  }

  /** A combination picks, position by position, one value of each list; every such pick occurs. */
  lemma {:induction false} CombinationMembership(lists: seq<seq<real>>, c: seq<real>)
    ensures c in Combinations(lists) <==> |c| == |lists| && forall i :: 0 <= i < |c| ==> c[i] in lists[i]
    decreases |lists|
  {
    if lists != [] {
      PrependMembership(lists[0], Combinations(lists[1..]), c);
      if |c| > 0 {
        CombinationMembership(lists[1..], c[1..]);
        if |c| == |lists| && forall i :: 0 <= i < |c| ==> c[i] in lists[i] {
          forall i | 0 <= i < |c[1..]| ensures c[1..][i] in lists[1..][i] {
            assert c[i + 1] in lists[i + 1];
          }
        }
        if c[0] in lists[0] && c[1..] in Combinations(lists[1..]) {
          forall i | 0 <= i < |c| ensures c[i] in lists[i] {
            if i > 0 {
              assert c[1..][i - 1] == c[i];
            }
          }
        }
      }
    }
  }

  /** The shipped search ranges (config/backtest_settings.py), integers written as reals. */
  const RsiRanges: seq<seq<real>> :=
    [[10.0, 12.0, 14.0, 16.0, 18.0, 20.0], [25.0, 28.0, 30.0, 32.0, 35.0], [65.0, 68.0, 70.0, 72.0, 75.0]]
  const SmaRanges: seq<seq<real>> := [[5.0, 8.0, 10.0, 12.0, 15.0], [20.0, 25.0, 30.0, 35.0, 40.0]]
  const RangeRanges: seq<seq<real>> := [[-2.0, -1.5, -1.0, -0.5, 0.0], [1.0, 1.5, 2.0, 2.5, 3.0]]
  const ScalpingRanges: seq<seq<real>> :=
    [[3.0, 5.0, 8.0], [10.0, 13.0, 15.0, 20.0], [5.0, 7.0, 9.0], [25.0, 30.0, 35.0], [65.0, 70.0, 75.0], [1.3, 1.5, 1.8, 2.0]]
  const MacdRanges: seq<seq<real>> := [[8.0, 10.0, 12.0, 14.0, 16.0], [20.0, 23.0, 26.0, 29.0, 32.0], [7.0, 8.0, 9.0, 10.0, 11.0]]

  /** Grid sizes of the shipped ranges: RSI 150, SMA 25, range 25, scalping 1296, MACD 125. */
  lemma ShippedCombinationCounts()
    ensures |Combinations(RsiRanges)| == 150
    ensures |Combinations(SmaRanges)| == 25
    ensures |Combinations(RangeRanges)| == 25
    ensures |Combinations(ScalpingRanges)| == 1296
    ensures |Combinations(MacdRanges)| == 125
  {
    CombinationCount(RsiRanges);
    CombinationCount(SmaRanges);
    CombinationCount(RangeRanges);
    CombinationCount(ScalpingRanges);
    CombinationCount(MacdRanges);
  }

  function CoinOf(r: BacktestResult): string { r.coin }

  /** The display's comparison: strictly more total profit. */
  predicate MoreProfitable(a: BacktestResult, b: BacktestResult) {
    a.totalProfitUsd > b.totalProfitUsd
  }

  /** `_save_best_results`: the first result seen for each coin. */
  function FirstPerCoin(results: seq<BacktestResult>): map<string, BacktestResult> {
    FirstByKey(results, CoinOf)
  }

  /** `_display_optimization_results`: a later result replaces the kept one only when strictly more profitable. */
  function MaxPerCoin(results: seq<BacktestResult>): map<string, BacktestResult> {
    BestByKey(results, CoinOf, MoreProfitable)
  }

  method SaveBestSelection(results: seq<BacktestResult>) returns (best: map<string, BacktestResult>)
    ensures best == FirstPerCoin(results)
  {
    best := map[];
    for i := 0 to |results|
      invariant best == FirstByKey(results[..i], CoinOf)
    {
      assert results[..i + 1][..i] == results[..i];
      var r := results[i];
      if r.coin !in best {
        best := best[r.coin := r];
      }
    }
    assert results[..|results|] == results;
  }

  method DisplayBestSelection(results: seq<BacktestResult>) returns (best: map<string, BacktestResult>)
    ensures best == MaxPerCoin(results)
  {
    best := map[];
    for i := 0 to |results|
      invariant best == BestByKey(results[..i], CoinOf, MoreProfitable)
    {
      assert results[..i + 1][..i] == results[..i];
      var r := results[i];
      if r.coin !in best || r.totalProfitUsd > best[r.coin].totalProfitUsd {
        best := best[r.coin := r];
      }
    }
    assert results[..|results|] == results;
  }

  /**
    The saved selection has an entry for every coin that occurs, and each entry is that coin's first
    result: no earlier result belongs to the same coin.
  */
  lemma FirstPerCoinIsFirst(results: seq<BacktestResult>)
    ensures forall i :: 0 <= i < |results| ==> results[i].coin in FirstPerCoin(results)
    ensures forall c :: c in FirstPerCoin(results) ==>
      exists i :: 0 <= i < |results| && results[i] == FirstPerCoin(results)[c] && results[i].coin == c &&
                  forall j :: 0 <= j < i ==> results[j].coin != c
  {
    FirstByKeyIsFirst(results, CoinOf);
  }

  /**
    The displayed selection has an entry for every coin that occurs, each a result of that coin, and
    no result of the coin earns more.
  */
  lemma MaxPerCoinIsMax(results: seq<BacktestResult>)
    ensures forall i :: 0 <= i < |results| ==> results[i].coin in MaxPerCoin(results)
    ensures forall c :: c in MaxPerCoin(results) ==> MaxPerCoin(results)[c] in results && MaxPerCoin(results)[c].coin == c
    ensures forall c, i :: c in MaxPerCoin(results) && 0 <= i < |results| && results[i].coin == c ==>
      results[i].totalProfitUsd <= MaxPerCoin(results)[c].totalProfitUsd
  {
    BestByKeyKeys(results, CoinOf, MoreProfitable);
    BestByKeyIsBest(results, CoinOf, MoreProfitable);
  }

  /** Profits in non-increasing order, as the page sorts `all_results` before saving. */
  ghost predicate SortedByProfitDescending(results: seq<BacktestResult>) {
    forall i, j :: 0 <= i < j < |results| ==> results[i].totalProfitUsd >= results[j].totalProfitUsd
  }

  /** On the profit-sorted list the saved and the displayed selections coincide, ties included. */
  lemma SortedSelectionsAgree(results: seq<BacktestResult>)
    requires SortedByProfitDescending(results)
    ensures FirstPerCoin(results) == MaxPerCoin(results)
  {
    FirstIsBestWhenSorted(results, CoinOf, MoreProfitable);
  }
}
