/**
 * `find_best_parameters` of strategy/strategy_analyzer.py: the signals of
 * each timeframe are grouped by their parameter set, in order of first
 * appearance, counting signals and collecting distinct pattern names, and
 * the parameter set with the most distinct patterns is chosen, the earliest
 * one on a tie. Loading files and the pandas metrics are outside the model.
 */
module StrategyAnalyzer {
  import opened Common

  /** A parameter set: `tuple(signal['params'].items())`, empty when absent. */
  type Params = seq<(string, real)>

  /** A pattern value: the tester stores None when no pattern name applies. */
  type PatternValue = Option<string>

  /**
   * The parts of a signal record the grouping reads; `pattern` is None when
   * the record has no 'pattern' key at all.
   */
  datatype SignalRecord = SignalRecord(params: Params, pattern: Option<PatternValue>)

  /** The performance entry of a parameter set; the accuracy is always 0. */
  datatype Performance = Performance(count: nat, patterns: set<PatternValue>, accuracy: int)

  /** The entry for a timeframe. */
  datatype Best = Best(parameters: Params, metrics: Performance)

  /** The number of signals with parameter set p. */
  function Count(signals: seq<SignalRecord>, p: Params): (r: nat)
    ensures r <= |signals|
  {
    if |signals| == 0 then 0
    else Count(signals[..|signals| - 1], p) + (if signals[|signals| - 1].params == p then 1 else 0)
  }

  /** The distinct pattern values of the signals with parameter set p that carry one. */
  function PatternsOf(signals: seq<SignalRecord>, p: Params): set<PatternValue>
  {
    if |signals| == 0 then {}
    else
      var s := signals[|signals| - 1];
      PatternsOf(signals[..|signals| - 1], p) + (if s.params == p && s.pattern.Some? then {s.pattern.value} else {})
  }

  /** The non-empty parameter sets in order of first appearance: the key order of `param_performance`. */
  function FirstSeen(signals: seq<SignalRecord>): seq<Params>
  {
    if |signals| == 0 then []
    else
      var p := signals[|signals| - 1].params;
      var seen := FirstSeen(signals[..|signals| - 1]);
      seen + (if p != [] && p !in seen then [p] else [])
  }

  /** Some signal has parameter set p. */
  predicate Occurs(signals: seq<SignalRecord>, p: Params)
  {
    exists k :: 0 <= k < |signals| && signals[k].params == p
  }

  /** The count is positive exactly when the parameter set occurs. */
  lemma {:induction false} CountOccurs(signals: seq<SignalRecord>, p: Params)
    ensures Count(signals, p) > 0 <==> Occurs(signals, p)
  {
    if |signals| > 0 {
      var init := signals[..|signals| - 1];
      CountOccurs(init, p);
      if Occurs(init, p) {
        var k :| 0 <= k < |init| && init[k].params == p;
        assert signals[k].params == p;
      }
      if Occurs(signals, p) && signals[|signals| - 1].params != p {
        var k :| 0 <= k < |signals| && signals[k].params == p;
        assert init[k].params == p;
      }
    }
  }

  /** A pattern value is collected exactly when a signal with that parameter set carries it. */
  lemma {:induction false} PatternsOfMembers(signals: seq<SignalRecord>, p: Params, name: PatternValue)
    ensures name in PatternsOf(signals, p) <==>
              exists k :: 0 <= k < |signals| && signals[k].params == p && signals[k].pattern == Some(name)
  {
    if |signals| > 0 {
      var init := signals[..|signals| - 1];
      PatternsOfMembers(init, p, name);
      if exists k :: 0 <= k < |init| && init[k].params == p && init[k].pattern == Some(name) {
        var k :| 0 <= k < |init| && init[k].params == p && init[k].pattern == Some(name);
        assert signals[k] == init[k];
      }
      if exists k :: 0 <= k < |signals| - 1 && signals[k].params == p && signals[k].pattern == Some(name) {
        var k :| 0 <= k < |signals| - 1 && signals[k].params == p && signals[k].pattern == Some(name);
        assert init[k] == signals[k];
      }
    }
  }

  /** The keys are exactly the non-empty parameter sets that occur. */
  lemma {:induction false} FirstSeenMember(signals: seq<SignalRecord>, p: Params)
    ensures p in FirstSeen(signals) <==> p != [] && Occurs(signals, p)
  {
    if |signals| > 0 {
      var init := signals[..|signals| - 1];
      FirstSeenMember(init, p);
      if Occurs(init, p) {
        var k :| 0 <= k < |init| && init[k].params == p;
        assert signals[k].params == p;
      }
      if Occurs(signals, p) && signals[|signals| - 1].params != p {
        var k :| 0 <= k < |signals| && signals[k].params == p;
        assert init[k].params == p;
      }
    }
  }

  /** No parameter set is a key twice. */
  lemma {:induction false} FirstSeenDistinct(signals: seq<SignalRecord>)
    ensures forall a, b :: 0 <= a < b < |FirstSeen(signals)| ==> FirstSeen(signals)[a] != FirstSeen(signals)[b]
  {
    if |signals| > 0 {
      FirstSeenDistinct(signals[..|signals| - 1]);
    }
  }

  /** The keys are in order of first appearance: every signal of a later key is preceded by a signal of an earlier one. */
  lemma {:induction false} FirstSeenOrder(signals: seq<SignalRecord>, a: nat, b: nat, k: nat)
    requires a < b < |FirstSeen(signals)| && k < |signals| && signals[k].params == FirstSeen(signals)[b]
    ensures exists j :: 0 <= j < k && signals[j].params == FirstSeen(signals)[a]
  {
    var init := signals[..|signals| - 1];
    var last := |signals| - 1;
    var seen := FirstSeen(init);
    var order := FirstSeen(signals);
    assert order[a] == seen[a];
    if b < |seen| {
      if k < last {
        assert init[k] == signals[k];
        FirstSeenOrder(init, a, b, k);
        var j :| 0 <= j < k && init[j].params == seen[a];
        assert signals[j] == init[j];
      } else {
        FirstSeenMember(init, seen[b]);
        var k' :| 0 <= k' < |init| && init[k'].params == seen[b];
        FirstSeenOrder(init, a, b, k');
        var j :| 0 <= j < k' && init[j].params == seen[a];
        assert signals[j] == init[j];
      }
    } else {
      var p := order[b];
      assert p == signals[last].params && p != [] && p !in seen;
      FirstSeenMember(init, p);
      if k < last {
        assert false;
      }
      FirstSeenMember(init, seen[a]);
      var j :| 0 <= j < |init| && init[j].params == seen[a];
      assert signals[j] == init[j];
    }
  }

  /** `max(..., key=...)`: the first index with the greatest score. */
  function FirstMax(scores: seq<nat>): (i: nat)
    requires |scores| > 0
    ensures i < |scores|
    ensures forall j :: 0 <= j < |scores| ==> scores[j] <= scores[i]
    ensures forall j :: 0 <= j < i ==> scores[j] < scores[i]
  {
    if |scores| == 1 then 0
    else
      var i := FirstMax(scores[..|scores| - 1]);
      if scores[|scores| - 1] > scores[i] then |scores| - 1 else i
  }

  /** The number of distinct patterns of each key, in key order. */
  function PatternScores(signals: seq<SignalRecord>, order: seq<Params>): (r: seq<nat>)
    ensures |r| == |order| && forall k :: 0 <= k < |order| ==> r[k] == |PatternsOf(signals, order[k])|
  {
    seq(|order|, k requires 0 <= k < |order| => |PatternsOf(signals, order[k])|)
  }

  /** Some parameter set is grouped exactly when some signal carries a non-empty one. */
  lemma FirstSeenNonEmpty(signals: seq<SignalRecord>)
    ensures |FirstSeen(signals)| > 0 <==> exists k :: 0 <= k < |signals| && signals[k].params != []
  {
    if exists k :: 0 <= k < |signals| && signals[k].params != [] {
      var k :| 0 <= k < |signals| && signals[k].params != [];
      FirstSeenMember(signals, signals[k].params);
    }
    if |FirstSeen(signals)| > 0 {
      FirstSeenMember(signals, FirstSeen(signals)[0]);
    }
  }

  /**
   * The entry chosen for one timeframe's signals: there is one exactly when
   * some signal carries a non-empty parameter set; the chosen set occurs and
   * carries its count, its pattern set and accuracy 0.
   */
  function BestFor(signals: seq<SignalRecord>): (r: Option<Best>)
    ensures r.Some? <==> exists k :: 0 <= k < |signals| && signals[k].params != []
    ensures r.Some? ==> r.value.parameters != [] && Occurs(signals, r.value.parameters) &&
                        r.value.metrics == Performance(Count(signals, r.value.parameters),
                                                       PatternsOf(signals, r.value.parameters), 0)
  {
    var order := FirstSeen(signals);
    FirstSeenNonEmpty(signals);
    if |order| == 0 then None
    else
      var p := order[FirstMax(PatternScores(signals, order))];
      FirstSeenMember(signals, p);
      Some(Best(p, Performance(Count(signals, p), PatternsOf(signals, p), 0)))
  }

  /** No parameter set that occurs has more distinct patterns than the chosen one. */
  lemma BestForMaximal(signals: seq<SignalRecord>, p: Params)
    requires BestFor(signals).Some? && p != [] && Occurs(signals, p)
    ensures |PatternsOf(signals, p)| <= |BestFor(signals).value.metrics.patterns|
  {
    var order := FirstSeen(signals);
    FirstSeenMember(signals, p);
    var a :| 0 <= a < |order| && order[a] == p;
    assert PatternScores(signals, order)[a] == |PatternsOf(signals, p)|;
  }

  /** A parameter set with as many distinct patterns as the chosen one is seen only after the chosen one has been. */
  lemma BestForEarliest(signals: seq<SignalRecord>, k: nat)
    requires BestFor(signals).Some? && k < |signals| && signals[k].params != []
    requires signals[k].params != BestFor(signals).value.parameters
    requires |PatternsOf(signals, signals[k].params)| == |BestFor(signals).value.metrics.patterns|
    ensures exists j :: 0 <= j < k && signals[j].params == BestFor(signals).value.parameters
  {
    var order := FirstSeen(signals);
    var scores := PatternScores(signals, order);
    var i := FirstMax(scores);
    var p := signals[k].params;
    FirstSeenMember(signals, p);
    var a :| 0 <= a < |order| && order[a] == p;
    assert scores[a] == scores[i];
    assert a != i;
    FirstSeenOrder(signals, i, a, k);
  }

  /** Each timeframe's name with the entry chosen from its signals, in order. */
  function Entries(timeframes: seq<(string, seq<SignalRecord>)>): (r: seq<(string, Option<Best>)>)
    ensures |r| == |timeframes| && forall t :: 0 <= t < |r| ==> r[t] == (timeframes[t].0, BestFor(timeframes[t].1))
  {
    seq(|timeframes|, t requires 0 <= t < |timeframes| => (timeframes[t].0, BestFor(timeframes[t].1)))
  }

  /** `best_params[timeframe] = ...` for each chosen entry in order: a later entry of the same name overwrites. */
  function Collect(entries: seq<(string, Option<Best>)>): map<string, Best>
  {
    if |entries| == 0 then map[]
    else
      var (name, chosen) := entries[|entries| - 1];
      var best := Collect(entries[..|entries| - 1]);
      if chosen.Some? then best[name := chosen.value] else best
  }

  /**
   * The result of `find_best_parameters` over the timeframes in order: a
   * timeframe name has an entry exactly when some timeframe of that name has
   * a signal with a non-empty parameter set.
   */
  function BestParams(timeframes: seq<(string, seq<SignalRecord>)>): (r: map<string, Best>)
    ensures forall name :: name in r <==>
              exists t :: 0 <= t < |timeframes| && timeframes[t].0 == name &&
                          exists k :: 0 <= k < |timeframes[t].1| && timeframes[t].1[k].params != []
  {
    EntriesKeys(timeframes);
    Collect(Entries(timeframes))
  }

  /** A name is collected exactly when some entry of that name was chosen. */
  lemma {:induction false} CollectKeys(entries: seq<(string, Option<Best>)>, name: string)
    ensures name in Collect(entries) <==> exists t :: 0 <= t < |entries| && entries[t].0 == name && entries[t].1.Some?
  {
    if |entries| > 0 {
      var init := entries[..|entries| - 1];
      CollectKeys(init, name);
      if exists t :: 0 <= t < |init| && init[t].0 == name && init[t].1.Some? {
        var t :| 0 <= t < |init| && init[t].0 == name && init[t].1.Some?;
        assert entries[t] == init[t];
      }
      if exists t :: 0 <= t < |entries| - 1 && entries[t].0 == name && entries[t].1.Some? {
        var t :| 0 <= t < |entries| - 1 && entries[t].0 == name && entries[t].1.Some?;
        assert init[t] == entries[t];
      }
    }
  }

  /** With distinct names, the value collected for a chosen entry is that entry. */
  lemma {:induction false} CollectValue(entries: seq<(string, Option<Best>)>, t: nat)
    requires forall a, b :: 0 <= a < b < |entries| ==> entries[a].0 != entries[b].0
    requires t < |entries| && entries[t].1.Some?
    ensures entries[t].0 in Collect(entries) && Collect(entries)[entries[t].0] == entries[t].1.value
  {
    var init := entries[..|entries| - 1];
    if t < |init| {
      assert init[t] == entries[t];
      CollectValue(init, t);
      assert entries[|entries| - 1].0 != entries[t].0;
    }
  }

  /** The names collected from the entries are those of timeframes with a signal carrying parameters. */
  lemma EntriesKeys(timeframes: seq<(string, seq<SignalRecord>)>)
    ensures forall name :: name in Collect(Entries(timeframes)) <==>
              exists t :: 0 <= t < |timeframes| && timeframes[t].0 == name &&
                          exists k :: 0 <= k < |timeframes[t].1| && timeframes[t].1[k].params != []
  {
    var entries := Entries(timeframes);
    forall name: string
      ensures name in Collect(entries) <==>
                exists t :: 0 <= t < |timeframes| && timeframes[t].0 == name &&
                            exists k :: 0 <= k < |timeframes[t].1| && timeframes[t].1[k].params != []
    {
      CollectKeys(entries, name);
    }
  }

  /** With distinct timeframe names, each entry is the one chosen from that timeframe's signals. */
  lemma BestParamsValue(timeframes: seq<(string, seq<SignalRecord>)>, t: nat)
    requires forall a, b :: 0 <= a < b < |timeframes| ==> timeframes[a].0 != timeframes[b].0
    requires t < |timeframes| && BestFor(timeframes[t].1).Some?
    ensures timeframes[t].0 in BestParams(timeframes)
    ensures BestParams(timeframes)[timeframes[t].0] == BestFor(timeframes[t].1).value
  {
    CollectValue(Entries(timeframes), t);
  }

  /**
   * The grouping loop of `find_best_parameters` over one timeframe's
   * signals: a signal without parameters is skipped, a new parameter set is
   * added with a zero count and no patterns, then the count is incremented
   * and the pattern, if any, added.
   */
  method GroupByParams(signals: seq<SignalRecord>) returns (order: seq<Params>, performance: map<Params, Performance>)
    ensures order == FirstSeen(signals)
    ensures forall p :: p in performance <==> p in order
    ensures forall p :: p in performance ==> performance[p] == Performance(Count(signals, p), PatternsOf(signals, p), 0)
  {
    order, performance := [], map[];
    var i := 0;
    while i < |signals|
      invariant 0 <= i <= |signals|
      invariant order == FirstSeen(signals[..i])
      invariant forall p :: p in performance <==> p in order
      invariant forall p :: p in performance ==> performance[p] == Performance(Count(signals[..i], p), PatternsOf(signals[..i], p), 0)
    {
      var signal := signals[i];
      assert signals[..i + 1][..i] == signals[..i];
      var params := signal.params;
      if params != [] {
        if params !in performance {
          performance := performance[params := Performance(0, {}, 0)];
          order := order + [params];
          FirstSeenMember(signals[..i], params);
          CountOccurs(signals[..i], params);
          PatternsNone(signals[..i], params);
        }
        var entry := performance[params];
        var patterns := if signal.pattern.Some? then entry.patterns + {signal.pattern.value} else entry.patterns;
        performance := performance[params := Performance(entry.count + 1, patterns, entry.accuracy)];
      } else {
        forall p | p in performance
          ensures p != []
        {
          FirstSeenMember(signals[..i], p);
        }
      }
      i := i + 1;
    }
    assert signals[..i] == signals;
  }

  /** A parameter set that does not occur has no patterns. */
  lemma PatternsNone(signals: seq<SignalRecord>, p: Params)
    requires !Occurs(signals, p)
    ensures PatternsOf(signals, p) == {}
  {
    forall name
      ensures name !in PatternsOf(signals, p)
    {
      PatternsOfMembers(signals, p, name);
    }
  }

  /** The body of the timeframe loop: skip an empty signal list, group, and take the first maximum. */
  method BestOfTimeframe(signals: seq<SignalRecord>) returns (chosen: Option<Best>)
    ensures chosen == BestFor(signals)
  {
    if |signals| == 0 {
      return None;
    }
    var order, performance := GroupByParams(signals);
    if |order| == 0 {
      return None;
    }
    var scores := seq(|order|, k requires 0 <= k < |order| => |performance[order[k]].patterns|);
    assert scores == PatternScores(signals, order);
    var p := order[FirstMax(scores)];
    chosen := Some(Best(p, performance[p]));
  }

  /** `find_best_parameters(strategy_results)` over the timeframes' signal lists. */
  method FindBestParameters(timeframes: seq<(string, seq<SignalRecord>)>) returns (best: map<string, Best>)
    ensures best == BestParams(timeframes)
  {
    best := map[];
    ghost var entries := Entries(timeframes);
    var t := 0;
    while t < |timeframes|
      invariant 0 <= t <= |timeframes|
      invariant best == Collect(entries[..t])
    {
      assert entries[..t + 1][..t] == entries[..t];
      var (name, signals) := timeframes[t];
      var chosen := BestOfTimeframe(signals);
      if chosen.Some? {
        best := best[name := chosen.value];
      }
      t := t + 1;
    }
    assert entries[..t] == entries;
  }
}
