/**
 * The parameter search and signal collection of
 * strategy/advanced_strategy_tester.py: the cartesian product of the
 * parameter value lists, and the loop of `backtest_strategy` that slides a
 * window over the candles and flattens each analysis into signal records.
 * Fetching candles, the strategies' `analyze` and the metrics are outside
 * the model: the candles and `analyze` are given.
 */
module AdvancedStrategyTester {
  import opened Common

  // ---------------------------------------------------------------------
  // Parameter combinations

  /** `x` put in front of every tail. */
  function Prepend<V>(x: V, tails: seq<seq<V>>): (r: seq<seq<V>>)
    ensures |r| == |tails|
    ensures forall i :: 0 <= i < |tails| ==> r[i] == [x] + tails[i]
  {
    seq(|tails|, i requires 0 <= i < |tails| => [x] + tails[i])
  }

  /** Every head in front of every tail, the heads in order and the tails varying fastest. */
  function PrependEach<V>(heads: seq<V>, tails: seq<seq<V>>): (r: seq<seq<V>>)
    ensures |r| == |heads| * |tails|
  {
    if |heads| == 0 then [] else Prepend(heads[0], tails) + PrependEach(heads[1..], tails)
  }

  /** `itertools.product(*lists)`. */
  function Product<V>(lists: seq<seq<V>>): seq<seq<V>>
  {
    if |lists| == 0 then [[]] else PrependEach(lists[0], Product(lists[1..]))
  }

  /** The product of the lists' lengths. */
  function LengthProduct<V>(lists: seq<seq<V>>): nat
  {
    if |lists| == 0 then 1 else |lists[0]| * LengthProduct(lists[1..])
  }

  /** There are as many combinations as the product of the list lengths. */
  lemma {:induction false} ProductCount<V>(lists: seq<seq<V>>)
    ensures |Product(lists)| == LengthProduct(lists)
  {
    if |lists| > 0 {
      ProductCount(lists[1..]);
    }
  }

  /** The product of the lengths is zero exactly when some list is empty. */
  lemma {:induction false} LengthProductZero<V>(lists: seq<seq<V>>)
    ensures LengthProduct(lists) == 0 <==> exists j :: 0 <= j < |lists| && |lists[j]| == 0
  {
    if |lists| > 0 {
      LengthProductZero(lists[1..]);
      if exists j :: 0 <= j < |lists| - 1 && |lists[1..][j]| == 0 {
        var j :| 0 <= j < |lists| - 1 && |lists[1..][j]| == 0;
        assert |lists[j + 1]| == 0;
      }
      if exists j :: 0 <= j < |lists| && |lists[j]| == 0 {
        var j :| 0 <= j < |lists| && |lists[j]| == 0;
        if j > 0 {
          assert |lists[1..][j - 1]| == 0;
        }
      }
    }
  }

  /** Entry a·|tails| + b is head a in front of tail b. */
  lemma {:induction false} PrependEachIndex<V>(heads: seq<V>, tails: seq<seq<V>>, a: nat, b: nat)
    requires a < |heads| && b < |tails|
    ensures a * |tails| + b < |heads| * |tails|
    ensures PrependEach(heads, tails)[a * |tails| + b] == [heads[a]] + tails[b]
  {
    var n := |tails|;
    if a > 0 {
      var rest := PrependEach(heads[1..], tails);
      PrependEachIndex(heads[1..], tails, a - 1, b);
      var idx := (a - 1) * n + b;
      assert a * n == (a - 1) * n + n;
      assert |heads| * n == (|heads| - 1) * n + n;
      assert PrependEach(heads, tails) == Prepend(heads[0], tails) + rest;
      assert PrependEach(heads, tails)[n + idx] == rest[idx];
    }
  }

  /** A sequence is among the prefixed tails exactly when its head is one of the heads and its rest one of the tails. */
  lemma {:induction false} PrependEachMember<V>(heads: seq<V>, tails: seq<seq<V>>, c: seq<V>)
    ensures c in PrependEach(heads, tails) <==> |c| >= 1 && c[0] in heads && c[1..] in tails
  {
    if |heads| > 0 {
      PrependEachMember(heads[1..], tails, c);
      var front := Prepend(heads[0], tails);
      assert PrependEach(heads, tails) == front + PrependEach(heads[1..], tails);
      if c in front {
        var i :| 0 <= i < |front| && front[i] == c;
        assert c[1..] == tails[i];
      }
      if |c| >= 1 && c[0] == heads[0] && c[1..] in tails {
        var i :| 0 <= i < |tails| && tails[i] == c[1..];
        assert front[i] == c;
      }
      if |c| >= 1 && c[0] in heads && c[0] != heads[0] {
        var k :| 0 <= k < |heads| && heads[k] == c[0];
        assert heads[1..][k - 1] == c[0];
      }
    }
  }

  /**
   * The combinations are exactly the sequences with one value from each list
   * in list order: nothing else, and nothing is missing.
   */
  lemma {:induction false} ProductMembers<V>(lists: seq<seq<V>>, c: seq<V>)
    ensures c in Product(lists) <==> |c| == |lists| && forall j :: 0 <= j < |lists| ==> c[j] in lists[j]
  {
    if |lists| > 0 {
      PrependEachMember(lists[0], Product(lists[1..]), c);
      if |c| >= 1 {
        ProductMembers(lists[1..], c[1..]);
        if |c| == |lists| && forall j :: 0 <= j < |lists| ==> c[j] in lists[j] {
          assert forall j :: 0 <= j < |lists| - 1 ==> c[1..][j] == c[j + 1] && lists[1..][j] == lists[j + 1];
        }
        if c[0] in lists[0] && c[1..] in Product(lists[1..]) {
          forall j | 0 <= j < |lists|
            ensures c[j] in lists[j]
          {
            if j > 0 {
              assert c[1..][j - 1] == c[j] && lists[1..][j - 1] == lists[j];
            }
          }
        }
      }
    }
  }

  /**
   * The order is lexicographic with the last list varying fastest:
   * combination a·n + b, where n is the number of combinations of the
   * remaining lists, is value a of the first list followed by combination b
   * of the rest.
   */
  lemma ProductIndex<V>(lists: seq<seq<V>>, a: nat, b: nat)
    requires |lists| >= 1 && a < |lists[0]| && b < |Product(lists[1..])|
    ensures var n := |Product(lists[1..])|;
            a * n + b < |Product(lists)| && Product(lists)[a * n + b] == [lists[0][a]] + Product(lists[1..])[b]
  {
    PrependEachIndex(lists[0], Product(lists[1..]), a, b);
  }

  /** A parameter set: the items of a dict from parameter names to values. */
  type Params = seq<(string, real)>

  /** The keys of the parameter grid. */
  function Keys(grid: seq<(string, seq<real>)>): (r: seq<string>)
    ensures |r| == |grid| && forall j :: 0 <= j < |grid| ==> r[j] == grid[j].0
  {
    seq(|grid|, j requires 0 <= j < |grid| => grid[j].0)
  }

  /** The value lists of the parameter grid. */
  function ValueLists(grid: seq<(string, seq<real>)>): (r: seq<seq<real>>)
    ensures |r| == |grid| && forall j :: 0 <= j < |grid| ==> r[j] == grid[j].1
  {
    seq(|grid|, j requires 0 <= j < |grid| => grid[j].1)
  }

  /** `zip(keys, values)`, which stops at the shorter sequence. */
  function Zip(keys: seq<string>, values: seq<real>): (r: Params)
    ensures |r| == if |keys| <= |values| then |keys| else |values|
    ensures forall j :: 0 <= j < |r| ==> r[j] == (keys[j], values[j])
  {
    var n := if |keys| <= |values| then |keys| else |values|;
    seq(n, j requires 0 <= j < n => (keys[j], values[j]))
  }

  /**
   * `_generate_param_combinations(params_dict)`: one dict per element of the
   * product, keyed in grid order. There are as many combinations as the
   * product of the value-list lengths (one empty combination for an empty
   * grid, none when a list is empty). Each has exactly the grid's keys in
   * order, each value taken from its key's list, and every such assignment
   * occurs.
   */
  function ParamCombinations(grid: seq<(string, seq<real>)>): (r: seq<Params>)
    ensures |r| == LengthProduct(ValueLists(grid))
    ensures |grid| == 0 ==> r == [[]]
    ensures (exists j :: 0 <= j < |grid| && |grid[j].1| == 0) ==> r == []
    ensures forall i :: 0 <= i < |r| ==>
              |r[i]| == |grid| && forall j :: 0 <= j < |grid| ==> r[i][j].0 == grid[j].0 && r[i][j].1 in grid[j].1
    ensures forall p: Params :: |p| == |grid| && (forall j :: 0 <= j < |grid| ==> p[j].0 == grid[j].0 && p[j].1 in grid[j].1) ==>
              p in r
  {
    var combos := Product(ValueLists(grid));
    var r := seq(|combos|, i requires 0 <= i < |combos| => Zip(Keys(grid), combos[i]));
    CombinationsCover(grid, r);
    r
  }

  /** The zipped product has the counting and covering properties of `ParamCombinations`. */
  lemma CombinationsCover(grid: seq<(string, seq<real>)>, r: seq<Params>)
    requires |r| == |Product(ValueLists(grid))|
    requires forall i :: 0 <= i < |r| ==> r[i] == Zip(Keys(grid), Product(ValueLists(grid))[i])
    ensures |r| == LengthProduct(ValueLists(grid))
    ensures |grid| == 0 ==> r == [[]]
    ensures (exists j :: 0 <= j < |grid| && |grid[j].1| == 0) ==> r == []
    ensures forall i :: 0 <= i < |r| ==>
              |r[i]| == |grid| && forall j :: 0 <= j < |grid| ==> r[i][j].0 == grid[j].0 && r[i][j].1 in grid[j].1
    ensures forall p: Params :: |p| == |grid| && (forall j :: 0 <= j < |grid| ==> p[j].0 == grid[j].0 && p[j].1 in grid[j].1) ==>
              p in r
  {
    var lists := ValueLists(grid);
    var combos := Product(lists);
    ProductCount(lists);
    LengthProductZero(lists);
    if exists j :: 0 <= j < |grid| && |grid[j].1| == 0 {
      var j :| 0 <= j < |grid| && |grid[j].1| == 0;
      assert |lists[j]| == 0;
    }
    forall i | 0 <= i < |r|
      ensures |r[i]| == |grid| && forall j :: 0 <= j < |grid| ==> r[i][j].0 == grid[j].0 && r[i][j].1 in grid[j].1
    {
      ProductMembers(lists, combos[i]);
    }
    forall p: Params | |p| == |grid| && (forall j :: 0 <= j < |grid| ==> p[j].0 == grid[j].0 && p[j].1 in grid[j].1)
      ensures p in r
    {
      var values := seq(|p|, j requires 0 <= j < |p| => p[j].1);
      ProductMembers(lists, values);
      var i :| 0 <= i < |combos| && combos[i] == values;
      assert r[i] == p;
    }
  }

  // ---------------------------------------------------------------------
  // Signal collection

  /** The number of candles before the first analysed one. */
  const WindowSize: nat := 50

  /** A value an analysis can report. */
  datatype PyValue = PyNone | PyBool(b: bool) | PyStr(s: string)

  /** Python truthiness. */
  predicate Truthy(v: PyValue)
  {
    match v
    case PyNone => false
    case PyBool(b) => b
    case PyStr(s) => |s| > 0
  }

  /** What `analyze` returns: a single value or a dict of pattern values. */
  datatype AnalysisResult = Scalar(value: PyValue) | Dict(items: seq<(string, PyValue)>)

  /** Truthiness of the result: a dict is truthy when it is not empty. */
  predicate ResultTruthy(r: AnalysisResult)
  {
    match r
    case Scalar(v) => Truthy(v)
    case Dict(items) => |items| > 0
  }

  /** A signal record; `pattern` is absent for a single-value result. */
  datatype Signal = Signal(timestamp: int, pattern: Option<string>, signal: PyValue, price: real, params: Params)

  /** One record per truthy dict value, in dict order. */
  function DictSignals(items: seq<(string, PyValue)>, c: Candle, params: Params): seq<Signal>
  {
    if |items| == 0 then []
    else
      var (pattern, value) := items[|items| - 1];
      DictSignals(items[..|items| - 1], c, params) +
      (if Truthy(value) then [Signal(c.timestamp, Some(pattern), value, c.close, params)] else [])
  }

  /** The records for the analysis of the window ending at candle c. */
  function ResultSignals(r: AnalysisResult, c: Candle, params: Params): seq<Signal>
  {
    if !ResultTruthy(r) then []
    else match r
      case Dict(items) => DictSignals(items, c, params)
      case Scalar(v) => [Signal(c.timestamp, None, v, c.close, params)]
  }

  /** The records of the windows ending before candle n: window i holds candles i-50 to i. */
  function WindowSignals(candles: seq<Candle>, params: Params, analyze: seq<Candle> -> AnalysisResult, n: nat): seq<Signal>
    requires n <= |candles|
  {
    if n <= WindowSize then []
    else
      WindowSignals(candles, params, analyze, n - 1) +
      ResultSignals(analyze(candles[n - 1 - WindowSize..n]), candles[n - 1], params)
  }

  /** The windows ending before candle i+1 are those ending before candle i and the window ending at candle i. */
  lemma WindowStep(candles: seq<Candle>, params: Params, analyze: seq<Candle> -> AnalysisResult, i: nat)
    requires WindowSize <= i < |candles|
    ensures WindowSignals(candles, params, analyze, i + 1) ==
            WindowSignals(candles, params, analyze, i) + ResultSignals(analyze(candles[i - WindowSize..i + 1]), candles[i], params)
  {
  }

  /** A record comes from a dict exactly for a truthy value, carrying its pattern name, the candle's time and close. */
  lemma {:induction false} DictSignalsMembers(items: seq<(string, PyValue)>, c: Candle, params: Params, s: Signal)
    ensures s in DictSignals(items, c, params) <==>
              exists k :: 0 <= k < |items| && Truthy(items[k].1) &&
                          s == Signal(c.timestamp, Some(items[k].0), items[k].1, c.close, params)
  {
    if |items| > 0 {
      var init := items[..|items| - 1];
      DictSignalsMembers(init, c, params, s);
      if exists k :: 0 <= k < |items| && Truthy(items[k].1) &&
                     s == Signal(c.timestamp, Some(items[k].0), items[k].1, c.close, params) {
        var k :| 0 <= k < |items| && Truthy(items[k].1) &&
                 s == Signal(c.timestamp, Some(items[k].0), items[k].1, c.close, params);
        if k < |items| - 1 {
          assert init[k] == items[k];
        }
      }
      if exists k :: 0 <= k < |init| && Truthy(init[k].1) &&
                     s == Signal(c.timestamp, Some(init[k].0), init[k].1, c.close, params) {
        var k :| 0 <= k < |init| && Truthy(init[k].1) &&
                 s == Signal(c.timestamp, Some(init[k].0), init[k].1, c.close, params);
        assert items[k] == init[k];
      }
    }
  }

  /**
   * Every record carries a truthy value, the given parameters, and the time
   * and close of a candle from index 50 on; nothing is recorded on 50
   * candles or fewer.
   */
  lemma {:induction false} WindowSignalsSound(candles: seq<Candle>, params: Params, analyze: seq<Candle> -> AnalysisResult, n: nat)
    requires n <= |candles|
    ensures n <= WindowSize ==> WindowSignals(candles, params, analyze, n) == []
    ensures forall s :: s in WindowSignals(candles, params, analyze, n) ==>
              Truthy(s.signal) && s.params == params &&
              exists i :: WindowSize <= i < n && s.timestamp == candles[i].timestamp && s.price == candles[i].close
  {
    if n > WindowSize {
      WindowSignalsSound(candles, params, analyze, n - 1);
      var prev: seq<Signal> := WindowSignals(candles, params, analyze, n - 1);
      var r := analyze(candles[n - 1 - WindowSize..n]);
      var added: seq<Signal> := ResultSignals(r, candles[n - 1], params);
      assert WindowSignals(candles, params, analyze, n) == prev + added;
      forall s: Signal | s in prev + added
        ensures Truthy(s.signal) && s.params == params &&
                exists i :: WindowSize <= i < n && s.timestamp == candles[i].timestamp && s.price == candles[i].close
      {
        if s !in prev {
          assert s in added;
          if r.Dict? {
            DictSignalsMembers(r.items, candles[n - 1], params, s);
          }
          assert s.timestamp == candles[n - 1].timestamp && s.price == candles[n - 1].close;
        }
      }
    }
  }

  /** The dict records of one window, appended one item at a time. */
  method AppendDictSignals(signals: seq<Signal>, items: seq<(string, PyValue)>, c: Candle, params: Params)
    returns (out: seq<Signal>)
    ensures out == signals + DictSignals(items, c, params)
  {
    out := signals;
    var k := 0;
    while k < |items|
      invariant 0 <= k <= |items|
      invariant out == signals + DictSignals(items[..k], c, params)
    {
      assert items[..k + 1][..k] == items[..k];
      var (pattern, value) := items[k];
      if Truthy(value) {
        out := out + [Signal(c.timestamp, Some(pattern), value, c.close, params)];
      }
      k := k + 1;
    }
    assert items[..k] == items;
  }

  /** The records of one analysis: nothing for a falsy result, one per truthy dict value, or the single value. */
  method AppendResultSignals(signals: seq<Signal>, result: AnalysisResult, c: Candle, params: Params)
    returns (out: seq<Signal>)
    ensures out == signals + ResultSignals(result, c, params)
  {
    out := signals;
    if ResultTruthy(result) {
      match result {
        case Dict(items) =>
          out := AppendDictSignals(out, items, c, params);
        case Scalar(v) =>
          out := out + [Signal(c.timestamp, None, v, c.close, params)];
      }
    }
  }

  /**
   * The signal loop of `backtest_strategy(...)` on the fetched candles:
   * None when there are none, otherwise the records of every window.
   */
  method BacktestSignals(candles: seq<Candle>, params: Params, analyze: seq<Candle> -> AnalysisResult)
    returns (r: Option<seq<Signal>>)
    ensures r.None? <==> |candles| == 0
    ensures r.Some? ==> r.value == WindowSignals(candles, params, analyze, |candles|)
  {
    if |candles| == 0 {
      return None;
    }
    var signals: seq<Signal> := [];
    var i := WindowSize;
    while i < |candles|
      invariant WindowSize <= i
      invariant i <= |candles| ==> signals == WindowSignals(candles, params, analyze, i)
      invariant i > |candles| ==> i == WindowSize && signals == []
    {
      var window := candles[i - WindowSize..i + 1];
      var result := analyze(window);
      signals := AppendResultSignals(signals, result, candles[i], params);
      WindowStep(candles, params, analyze, i);
      i := i + 1;
    }
    return Some(signals);
  }
}
