/**
 * The career statistics of one player: the stored per-game records are
 * folded into totals, weighted averages, the best leg and the five highest
 * finishes. Reading the records from the store is not part of this model;
 * the records arrive as a sequence.
 */
module Statistieken {
  import opened Wrappers

  /** A stored per-game record: the nullable columns the aggregation reads. */
  datatype DartStat = DartStat(
    threeDartAvg: Option<real>,
    first9Avg: Option<real>,
    finish: Option<int>,
    bestLeg: Option<int>,
    oneEighties: Option<int>,
    scores140Plus: Option<int>,
    scores100Plus: Option<int>,
    scores80Plus: Option<int>,
    totalTurns: Option<int>)

  datatype AggregatedStats = AggregatedStats(
    threeDartAvg: real,
    first9Avg: real,
    top5Finishes: seq<int>,
    bestLeg: Option<int>,
    total180s: int,
    total140Plus: int,
    total100Plus: int,
    total80Plus: int,
    totalFinishesAbove100: int)

  /** The two weighted averages. */
  datatype Average = ThreeDart | FirstNine

  /** The four summed counters. */
  datatype Counter = OneEighties | Plus140 | Plus100 | Plus80

  function Min(a: int, b: int): int {
    if a < b then a else b
  }

  // ---------------------------------------------------------------------
  // What the aggregation computes, record by record.
  // ---------------------------------------------------------------------

  /** A finish counts when it is present and within 2..170. */
  predicate IsValidFinish(d: DartStat) {
    d.finish.Some? && 2 <= d.finish.value <= 170
  }

  /** The valid finishes, in record order. */
  function ValidFinishes(data: seq<DartStat>): seq<int> {
    if data == [] then []
    else
      var d := data[|data| - 1];
      ValidFinishes(data[..|data| - 1]) + (if IsValidFinish(d) then [d.finish.value] else [])
  }

  /** The number of valid finishes above 100. */
  function FinishesAbove100(data: seq<DartStat>): nat {
    if data == [] then 0
    else
      var d := data[|data| - 1];
      FinishesAbove100(data[..|data| - 1]) + (if IsValidFinish(d) && d.finish.value > 100 then 1 else 0)
  }

  /** The best legs that are present, in record order. */
  function BestLegs(data: seq<DartStat>): seq<int> {
    if data == [] then []
    else
      var d := data[|data| - 1];
      BestLegs(data[..|data| - 1]) + (if d.bestLeg.Some? then [d.bestLeg.value] else [])
  }

  function CounterOf(d: DartStat, c: Counter): Option<int> {
    match c
    case OneEighties => d.oneEighties
    case Plus140 => d.scores140Plus
    case Plus100 => d.scores100Plus
    case Plus80 => d.scores80Plus
  }

  /** A nullable count, read as 0 when it is null. */
  function Present(o: Option<int>): int {
    if o.Some? then o.value else 0
  }

  /** The sum of a counter over the records where it is present. */
  function Total(data: seq<DartStat>, c: Counter): int {
    if data == [] then 0 else Total(data[..|data| - 1], c) + Present(CounterOf(data[|data| - 1], c))
  }

  function AverageOf(d: DartStat, a: Average): Option<real> {
    match a
    case ThreeDart => d.threeDartAvg
    case FirstNine => d.first9Avg
  }

  /** Whether a record enters a weighted average: the average is present
      and the record has a positive turn count. */
  predicate Contributes(d: DartStat, a: Average) {
    AverageOf(d, a).Some? && d.totalTurns.Some? && d.totalTurns.value > 0
  }

  /** A record's weight: its turn count for the three-dart average, at most
      3 of them for the first-nine average; 0 when it does not enter. */
  function Weight(d: DartStat, a: Average): (w: int)
    ensures w >= 0
    ensures w > 0 <==> Contributes(d, a)
    ensures a == FirstNine ==> w <= 3
    ensures a == FirstNine && Contributes(d, a) ==> w == Min(3, d.totalTurns.value)
    ensures a == ThreeDart && Contributes(d, a) ==> w == d.totalTurns.value
  {
    if !Contributes(d, a) then 0
    else if a == ThreeDart then d.totalTurns.value
    else Min(3, d.totalTurns.value)
  }

  function TotalWeight(data: seq<DartStat>, a: Average): int {
    if data == [] then 0 else TotalWeight(data[..|data| - 1], a) + Weight(data[|data| - 1], a)
  }

  /** A record's share of the weighted sum: its average times its weight. */
  function Contribution(d: DartStat, a: Average): real {
    if Contributes(d, a) then AverageOf(d, a).value * Weight(d, a) as real else 0.0
  }

  /** The sum of the contributions of the records. */
  function WeightedSum(data: seq<DartStat>, a: Average): real {
    if data == [] then 0.0 else WeightedSum(data[..|data| - 1], a) + Contribution(data[|data| - 1], a)
  }

  /** The weighted average, 0 when no record contributes. */
  function WeightedAverage(data: seq<DartStat>, a: Average): real {
    var w := TotalWeight(data, a);
    if w > 0 then WeightedSum(data, a) / w as real else 0.0
  }

  // ---------------------------------------------------------------------
  // Sorting and the smallest value: the two library calls the page uses.
  // ---------------------------------------------------------------------

  predicate SortedDescending(s: seq<int>) {
    forall i, j :: 0 <= i < j < |s| ==> s[i] >= s[j]
  }

  /** Insert `x` into a sequence, before the first element it is at least. */
  function Insert(x: int, s: seq<int>): (r: seq<int>)
    ensures multiset(r) == multiset(s) + multiset{x}
  {
    if s == [] then [x]
    else if x >= s[0] then [x] + s
    else
      assert s == [s[0]] + s[1..];
      [s[0]] + Insert(x, s[1..])
  }

  /** Inserting into a sorted sequence keeps it sorted. */
  lemma {:induction false} InsertSorted(x: int, s: seq<int>)
    requires SortedDescending(s)
    ensures SortedDescending(Insert(x, s))
    ensures Insert(x, s) != [] && Insert(x, s)[0] == (if s == [] || x >= s[0] then x else s[0])
  {
    if s == [] || x >= s[0] {
      ConsSorted(x, s);
    } else {
      var rest := Insert(x, s[1..]);
      InsertSorted(x, s[1..]);
      ConsSorted(s[0], rest);
      assert Insert(x, s) == [s[0]] + rest;
    }
  }

  /** A sorted sequence stays sorted behind a head at least its first element. */
  lemma ConsSorted(h: int, rest: seq<int>)
    requires SortedDescending(rest) && (rest != [] ==> h >= rest[0])
    ensures SortedDescending([h] + rest)
  {
    var r := [h] + rest;
    forall i, j | 0 <= i < j < |r| ensures r[i] >= r[j] {
      if i == 0 {
        assert r[j] == rest[j - 1] <= rest[0];
      } else {
        assert r[i] == rest[i - 1] && r[j] == rest[j - 1];
      }
    }
  }

  /** A sort from highest to lowest. */
  function SortDescending(s: seq<int>): (r: seq<int>)
    ensures multiset(r) == multiset(s)
    ensures SortedDescending(r)
  {
    if s == [] then []
    else
      assert s == [s[0]] + s[1..];
      InsertSorted(s[0], SortDescending(s[1..]));
      Insert(s[0], SortDescending(s[1..]))
  }

  /** The smallest element. */
  function Minimum(s: seq<int>): (m: int)
    requires |s| > 0
    ensures m in s
    ensures forall k :: 0 <= k < |s| ==> m <= s[k]
  {
    if |s| == 1 then s[0]
    else
      var rest := Minimum(s[1..]);
      assert rest in s;
      if s[0] <= rest then s[0] else rest
  }

  /** The first k elements of a sorted sequence are at least every element
      left out. */
  lemma PrefixOfSortedIsLargest(s: seq<int>, k: int)
    requires SortedDescending(s) && 0 <= k <= |s|
    ensures multiset(s) - multiset(s[..k]) == multiset(s[k..])
    ensures forall x, j :: x in multiset(s[k..]) && 0 <= j < k ==> x <= s[j]
  {
    assert s == s[..k] + s[k..];
    forall x, j | x in multiset(s[k..]) && 0 <= j < k ensures x <= s[j] {
      var m :| 0 <= m < |s[k..]| && s[k..][m] == x;
      assert s[k + m] == x;
    }
  }

  // ---------------------------------------------------------------------
  // The aggregation as the page runs it.
  // ---------------------------------------------------------------------

  /** Fold the records into career statistics; no records give no statistics. */
  method Aggregate(data: seq<DartStat>) returns (stats: Option<AggregatedStats>)
    ensures stats.None? <==> data == []
    ensures stats.Some? ==>
      var a := stats.value;
      var finishes := ValidFinishes(data);
      && a.threeDartAvg == WeightedAverage(data, ThreeDart)
      && a.first9Avg == WeightedAverage(data, FirstNine)
      && a.total180s == Total(data, OneEighties)
      && a.total140Plus == Total(data, Plus140)
      && a.total100Plus == Total(data, Plus100)
      && a.total80Plus == Total(data, Plus80)
      && a.totalFinishesAbove100 == FinishesAbove100(data)
      && (a.bestLeg.None? <==> BestLegs(data) == [])
      && (a.bestLeg.Some? ==>
            && a.bestLeg.value in BestLegs(data)
            && (forall k :: 0 <= k < |BestLegs(data)| ==> a.bestLeg.value <= BestLegs(data)[k]))
      && |a.top5Finishes| == Min(5, |finishes|)
      && SortedDescending(a.top5Finishes)
      && multiset(a.top5Finishes) <= multiset(finishes)
      && (forall x, j :: x in multiset(finishes) - multiset(a.top5Finishes) && 0 <= j < |a.top5Finishes|
            ==> x <= a.top5Finishes[j])
  {
    if |data| == 0 {
      return None;
    }

    var aggregated, finishCounts, totalThreeDartSum, totalThreeDartCount, totalFirst9Sum, totalFirst9Count, allBestLegs
      := ReadRecords(data);

    if totalThreeDartCount > 0 {
      aggregated := aggregated.(threeDartAvg := totalThreeDartSum / totalThreeDartCount as real);
    }
    if totalFirst9Count > 0 {
      aggregated := aggregated.(first9Avg := totalFirst9Sum / totalFirst9Count as real);
    }

    TallyTabulates(ValidFinishes(data));
    var top5 := TopFinishes(finishCounts, ValidFinishes(data));
    aggregated := aggregated.(top5Finishes := top5);

    if |allBestLegs| > 0 {
      aggregated := aggregated.(bestLeg := Some(Minimum(allBestLegs)));
    }

    stats := Some(aggregated);
  }

  /** One pass over the records: the weighted sums and their weights, the
      finish table, the best legs and the summed counters. */
  method ReadRecords(data: seq<DartStat>)
    returns (aggregated: AggregatedStats, finishCounts: FinishTable,
             totalThreeDartSum: real, totalThreeDartCount: int,
             totalFirst9Sum: real, totalFirst9Count: int, allBestLegs: seq<int>)
    ensures aggregated == Counted(data)
    ensures finishCounts == Tally(ValidFinishes(data))
    ensures totalThreeDartSum == WeightedSum(data, ThreeDart) && totalThreeDartCount == TotalWeight(data, ThreeDart)
    ensures totalFirst9Sum == WeightedSum(data, FirstNine) && totalFirst9Count == TotalWeight(data, FirstNine)
    ensures allBestLegs == BestLegs(data)
  {
    aggregated := AggregatedStats(0.0, 0.0, [], None, 0, 0, 0, 0, 0);
    finishCounts := FinishTable(map[], []);
    totalThreeDartSum, totalThreeDartCount := 0.0, 0;
    totalFirst9Sum, totalFirst9Count := 0.0, 0;
    allBestLegs := [];
    ghost var finishes: seq<int> := [];

    for i := 0 to |data|
      invariant totalThreeDartSum == WeightedSum(data[..i], ThreeDart)
      invariant totalThreeDartCount == TotalWeight(data[..i], ThreeDart)
      invariant totalFirst9Sum == WeightedSum(data[..i], FirstNine)
      invariant totalFirst9Count == TotalWeight(data[..i], FirstNine)
      invariant finishes == ValidFinishes(data[..i])
      invariant finishCounts == Tally(finishes)
      invariant allBestLegs == BestLegs(data[..i])
      invariant aggregated == Counted(data[..i])
    {
      var stat := data[i];
      ExtendByOne(data, i);

      totalThreeDartSum, totalThreeDartCount := AddThreeDart(totalThreeDartSum, totalThreeDartCount, stat);
      totalFirst9Sum, totalFirst9Count := AddFirstNine(totalFirst9Sum, totalFirst9Count, stat);

      finishCounts, aggregated := RecordFinish(finishCounts, aggregated, stat, finishes);
      finishes := finishes + (if IsValidFinish(stat) then [stat.finish.value] else []);

      if stat.bestLeg.Some? {
        allBestLegs := allBestLegs + [stat.bestLeg.value];
      }

      aggregated := AddCounters(aggregated, stat);
      CountedStep(data, i);
    }
    assert data[..|data|] == data;

  }

  /** The record while the records are being read: the counters summed,
      the averages, the best leg and the top finishes not yet set. */
  function Counted(data: seq<DartStat>): AggregatedStats {
    AggregatedStats(0.0, 0.0, [], None, Total(data, OneEighties), Total(data, Plus140),
                    Total(data, Plus100), Total(data, Plus80), FinishesAbove100(data))
  }

  /** The counted record of one more record: its finish above 100 and its
      counters are added, in the order the pass adds them. */
  lemma CountedStep(data: seq<DartStat>, i: int)
    requires 0 <= i < |data|
    ensures var d, c := data[i], Counted(data[..i]);
      var f := c.(totalFinishesAbove100 := c.totalFinishesAbove100
                    + (if IsValidFinish(d) && d.finish.value > 100 then 1 else 0));
      Counted(data[..i + 1])
        == f.(total180s := f.total180s + Present(d.oneEighties),
              total140Plus := f.total140Plus + Present(d.scores140Plus),
              total100Plus := f.total100Plus + Present(d.scores100Plus),
              total80Plus := f.total80Plus + Present(d.scores80Plus))
  {
    ExtendByOne(data, i);
  }

  /** How each quantity moves when the prefix grows by one record. */
  lemma ExtendByOne(data: seq<DartStat>, i: int)
    requires 0 <= i < |data|
    ensures var d, p, q := data[i], data[..i], data[..i + 1];
      && WeightedSum(q, ThreeDart) == WeightedSum(p, ThreeDart) + Contribution(d, ThreeDart)
      && TotalWeight(q, ThreeDart) == TotalWeight(p, ThreeDart) + Weight(d, ThreeDart)
      && WeightedSum(q, FirstNine) == WeightedSum(p, FirstNine) + Contribution(d, FirstNine)
      && TotalWeight(q, FirstNine) == TotalWeight(p, FirstNine) + Weight(d, FirstNine)
      && ValidFinishes(q) == ValidFinishes(p) + (if IsValidFinish(d) then [d.finish.value] else [])
      && FinishesAbove100(q) == FinishesAbove100(p) + (if IsValidFinish(d) && d.finish.value > 100 then 1 else 0)
      && BestLegs(q) == BestLegs(p) + (if d.bestLeg.Some? then [d.bestLeg.value] else [])
      && Total(q, OneEighties) == Total(p, OneEighties) + Present(d.oneEighties)
      && Total(q, Plus140) == Total(p, Plus140) + Present(d.scores140Plus)
      && Total(q, Plus100) == Total(p, Plus100) + Present(d.scores100Plus)
      && Total(q, Plus80) == Total(p, Plus80) + Present(d.scores80Plus)
  {
    assert data[..i + 1][..i] == data[..i];
  }

  /** Add a record to the three-dart sums: its average weighted by its
      turns, when both are present and the turns are positive. */
  method AddThreeDart(sum: real, count: int, stat: DartStat) returns (sum': real, count': int)
    ensures sum' == sum + Contribution(stat, ThreeDart)
    ensures count' == count + Weight(stat, ThreeDart)
  {
    sum', count' := sum, count;
    if stat.threeDartAvg.Some? && stat.totalTurns.Some? && stat.totalTurns.value > 0 {
      sum' := sum + stat.threeDartAvg.value * stat.totalTurns.value as real;
      count' := count + stat.totalTurns.value;
    }
  }

  /** Add a record to the first-nine sums: its first-nine average weighted
      by at most three of its turns. */
  method AddFirstNine(sum: real, count: int, stat: DartStat) returns (sum': real, count': int)
    ensures sum' == sum + Contribution(stat, FirstNine)
    ensures count' == count + Weight(stat, FirstNine)
  {
    sum', count' := sum, count;
    if stat.first9Avg.Some? && stat.totalTurns.Some? && stat.totalTurns.value > 0 {
      var first9Turns := Min(3, stat.totalTurns.value);
      sum' := sum + stat.first9Avg.value * first9Turns as real;
      count' := count + first9Turns;
    }
  }

  /** Add a record's present counters to the running totals. */
  method AddCounters(aggregated: AggregatedStats, stat: DartStat) returns (r: AggregatedStats)
    ensures r == aggregated.(total180s := aggregated.total180s + Present(stat.oneEighties),
                             total140Plus := aggregated.total140Plus + Present(stat.scores140Plus),
                             total100Plus := aggregated.total100Plus + Present(stat.scores100Plus),
                             total80Plus := aggregated.total80Plus + Present(stat.scores80Plus))
  {
    r := aggregated;
    if stat.oneEighties.Some? {
      r := r.(total180s := r.total180s + stat.oneEighties.value);
    }
    if stat.scores140Plus.Some? {
      r := r.(total140Plus := r.total140Plus + stat.scores140Plus.value);
    }
    if stat.scores100Plus.Some? {
      r := r.(total100Plus := r.total100Plus + stat.scores100Plus.value);
    }
    if stat.scores80Plus.Some? {
      r := r.(total80Plus := r.total80Plus + stat.scores80Plus.value);
    }
  }

  /** A JavaScript Map from finish to count: the counts, and the keys in
      the order they were first inserted, which is the order the Map
      iterates them in. */
  datatype FinishTable = FinishTable(counts: map<int, int>, order: seq<int>)

  /** The table counts exactly the finishes in `finishes`. */
  ghost predicate Tabulates(t: FinishTable, finishes: seq<int>) {
    && Distinct(t.order)
    && (forall f :: f in t.counts <==> f in t.order)
    && (forall f :: f in t.counts <==> f in multiset(finishes))
    && (forall f :: f in t.counts ==> t.counts[f] == multiset(finishes)[f])
  }

  /** Count a record's finish when it lies in 2..170, and count it above
      100 too when it is. */
  method RecordFinish(t: FinishTable, aggregated: AggregatedStats, stat: DartStat, ghost finishes: seq<int>)
    returns (t': FinishTable, aggregated': AggregatedStats)
    requires t == Tally(finishes)
    ensures t' == Tally(finishes + (if IsValidFinish(stat) then [stat.finish.value] else []))
    ensures aggregated' == aggregated.(totalFinishesAbove100 := aggregated.totalFinishesAbove100
              + (if IsValidFinish(stat) && stat.finish.value > 100 then 1 else 0))
  {
    t', aggregated' := t, aggregated;
    if stat.finish.Some? && stat.finish.value >= 2 && stat.finish.value <= 170 {
      var finish := stat.finish.value;
      t' := CountFinish(t, finish, finishes);
      if finish > 100 {
        aggregated' := aggregated.(totalFinishesAbove100 := aggregated.totalFinishesAbove100 + 1);
      }
    } else {
      assert finishes + [] == finishes;
    }
  }

  /** The table after one more occurrence of a finish: its count goes up
      by one, and a finish not seen before is appended to the key order. */
  function CountedOnce(t: FinishTable, finish: int): FinishTable {
    var currentCount := if finish in t.counts then t.counts[finish] else 0;
    FinishTable(t.counts[finish := currentCount + 1],
                if finish in t.counts then t.order else t.order + [finish])
  }

  /** The table built from the finishes in order. */
  function Tally(finishes: seq<int>): FinishTable {
    if finishes == [] then FinishTable(map[], [])
    else CountedOnce(Tally(finishes[..|finishes| - 1]), finishes[|finishes| - 1])
  }

  /** The table built from a list of finishes counts exactly that list:
      every finish once in the key order, with its number of occurrences. */
  lemma {:induction false} TallyTabulates(finishes: seq<int>)
    ensures Tabulates(Tally(finishes), finishes)
  {
    if finishes != [] {
      var init := finishes[..|finishes| - 1];
      var last := finishes[|finishes| - 1];
      TallyTabulates(init);
      assert finishes == init + [last];
      assert multiset(finishes) == multiset(init) + multiset{last};
    }
  }

  /** Count one more occurrence of a finish, inserting it if it is new. */
  method CountFinish(t: FinishTable, finish: int, ghost finishes: seq<int>) returns (r: FinishTable)
    requires t == Tally(finishes)
    ensures r == Tally(finishes + [finish])
  {
    var currentCount := if finish in t.counts then t.counts[finish] else 0;
    var order := if finish in t.counts then t.order else t.order + [finish];
    r := FinishTable(t.counts[finish := currentCount + 1], order);
    assert (finishes + [finish])[..|finishes|] == finishes;
  }

  /** The five highest finishes, repeats kept: the counts are expanded to a
      list, sorted from highest to lowest and cut to at most five. */
  method TopFinishes(t: FinishTable, ghost finishes: seq<int>) returns (top5: seq<int>)
    requires Tabulates(t, finishes)
    ensures |top5| == Min(5, |finishes|)
    ensures SortedDescending(top5)
    ensures multiset(top5) <= multiset(finishes)
    ensures forall x, j :: x in multiset(finishes) - multiset(top5) && 0 <= j < |top5| ==> x <= top5[j]
  {
    var allFinishes := ExpandCounts(t.counts, t.order);
    ExpandedTable(t, finishes, allFinishes);
    var sorted := SortDescending(allFinishes);
    top5 := sorted[..Min(5, |sorted|)];
    TopOfSorted(sorted, finishes);
  }

  lemma ExpandedTable(t: FinishTable, finishes: seq<int>, allFinishes: seq<int>)
    requires Tabulates(t, finishes)
    requires forall x :: multiset(allFinishes)[x] == if x in t.counts then t.counts[x] else 0
    ensures multiset(allFinishes) == multiset(finishes)
  {
    forall x ensures multiset(allFinishes)[x] == multiset(finishes)[x] {
      if x !in t.counts {
        assert x !in multiset(finishes);
      }
    }
  }

  /** At most five from the front of a sorted arrangement of the finishes
      are the largest of them. */
  lemma TopOfSorted(sorted: seq<int>, finishes: seq<int>)
    requires SortedDescending(sorted) && multiset(sorted) == multiset(finishes)
    ensures var top5 := sorted[..Min(5, |sorted|)];
      && |top5| == Min(5, |finishes|)
      && SortedDescending(top5)
      && multiset(top5) <= multiset(finishes)
      && forall x, j :: x in multiset(finishes) - multiset(top5) && 0 <= j < |top5| ==> x <= top5[j]
  {
    var k := Min(5, |sorted|);
    assert |sorted| == |finishes| by {
      assert |multiset(sorted)| == |multiset(finishes)|;
    }
    var top5 := sorted[..k];
    assert SortedDescending(top5);
    assert multiset(top5) <= multiset(finishes) by {
      assert sorted == top5 + sorted[k..];
    }
    assert forall x, j :: x in multiset(finishes) - multiset(top5) && 0 <= j < |top5| ==> x <= top5[j] by {
      PrefixOfSortedIsLargest(sorted, k);
    }
  }

  /** `n` copies of `x`. */
  function Copies(x: int, n: nat): (m: multiset<int>)
    ensures m[x] == n && forall y :: y != x ==> m[y] == 0
  {
    if n == 0 then multiset{} else Copies(x, n - 1) + multiset{x}
  }

  /** No value occurs twice. */
  predicate Distinct(s: seq<int>) {
    forall i, j :: 0 <= i < j < |s| ==> s[i] != s[j]
  }

  /** Turn a table of counts into a list that holds each value as often as
      its count says, visiting the values in the order they were first
      inserted. */
  method ExpandCounts(finishCounts: map<int, int>, insertionOrder: seq<int>) returns (allFinishes: seq<int>)
    requires Distinct(insertionOrder)
    requires forall f :: f in finishCounts <==> f in insertionOrder
    requires forall f :: f in finishCounts ==> finishCounts[f] >= 0
    ensures forall x :: multiset(allFinishes)[x] == if x in finishCounts then finishCounts[x] else 0
  {
    allFinishes := [];
    for i := 0 to |insertionOrder|
      invariant forall x :: multiset(allFinishes)[x] ==
                  if x in finishCounts && x in insertionOrder[..i] then finishCounts[x] else 0
    {
      var finish := insertionOrder[i];
      assert finish !in insertionOrder[..i];
      assert insertionOrder[..i + 1] == insertionOrder[..i] + [finish];
      var count := finishCounts[finish];
      ghost var before := allFinishes;
      for c := 0 to count
        invariant multiset(allFinishes) == multiset(before) + Copies(finish, c)
      {
        allFinishes := allFinishes + [finish];
      }
    }
    assert insertionOrder[..|insertionOrder|] == insertionOrder;
  }

  // ---------------------------------------------------------------------
  // Properties of the aggregation.
  // ---------------------------------------------------------------------

  /** No turn scores more than 180, so no average exceeds it. */
  const MaxTurnScore: real := 180.0

  lemma ScaleBounds(v: real, w: real, c: real)
    requires 0.0 <= v <= MaxTurnScore && w >= 0.0 && c == v * w
    ensures 0.0 <= c <= MaxTurnScore * w
  {
  }

  lemma QuotientBounds(s: real, w: real)
    requires w > 0.0 && 0.0 <= s <= MaxTurnScore * w
    ensures 0.0 <= s / w <= MaxTurnScore
  {
    assert s / w * w == s;
  }

  /** Every contributing average of the records lies in 0..180. */
  predicate AveragesInRange(data: seq<DartStat>, a: Average) {
    forall k :: 0 <= k < |data| && Contributes(data[k], a) ==> 0.0 <= AverageOf(data[k], a).value <= MaxTurnScore
  }

  /** One record's contribution lies between 0 and 180 times its weight. */
  lemma ContributionInRange(d: DartStat, a: Average)
    requires Contributes(d, a) ==> 0.0 <= AverageOf(d, a).value <= MaxTurnScore
    ensures 0.0 <= Contribution(d, a) <= MaxTurnScore * Weight(d, a) as real
  {
    var w := Weight(d, a) as real;
    var c := Contribution(d, a);
    if Contributes(d, a) {
      var v := AverageOf(d, a).value;
      assert c == v * w;
      ScaleBounds(v, w, c);
    } else {
      assert w == 0.0 && c == 0.0;
    }
  }

  lemma SumsStep(data: seq<DartStat>, a: Average)
    requires data != []
    ensures var init, d := data[..|data| - 1], data[|data| - 1];
      && WeightedSum(data, a) == WeightedSum(init, a) + Contribution(d, a)
      && TotalWeight(data, a) == TotalWeight(init, a) + Weight(d, a)
  {
  }

  /** The weighted sum lies between 0 and 180 times the total weight. */
  lemma {:induction false} WeightedSumInRange(data: seq<DartStat>, a: Average)
    requires AveragesInRange(data, a)
    ensures 0.0 <= WeightedSum(data, a) <= MaxTurnScore * TotalWeight(data, a) as real
  {
    if data != [] {
      var init := data[..|data| - 1];
      assert AveragesInRange(init, a) by {
        forall k | 0 <= k < |init| && Contributes(init[k], a)
          ensures 0.0 <= AverageOf(init[k], a).value <= MaxTurnScore
        {
          assert init[k] == data[k];
        }
      }
      WeightedSumInRange(init, a);
      ContributionInRange(data[|data| - 1], a);
      SumsStep(data, a);
    }
  }

  /** A career average is a weighted average of the per-game averages: when
      those lie in 0..180, so does the career average. */
  lemma AverageInRange(data: seq<DartStat>, a: Average)
    requires AveragesInRange(data, a)
    ensures 0.0 <= WeightedAverage(data, a) <= MaxTurnScore
  {
    WeightedSumInRange(data, a);
    if TotalWeight(data, a) > 0 {
      QuotientBounds(WeightedSum(data, a), TotalWeight(data, a) as real);
    }
  }

  /** A value is collected as a finish exactly when some record holds it
      as a finish within 2..170. */
  lemma {:induction false} ValidFinishesMembers(data: seq<DartStat>, x: int)
    ensures x in ValidFinishes(data) <==> exists k :: 0 <= k < |data| && IsValidFinish(data[k]) && data[k].finish.value == x
  {
    if data != [] {
      var init := data[..|data| - 1];
      ValidFinishesMembers(init, x);
      if exists k :: 0 <= k < |data| && IsValidFinish(data[k]) && data[k].finish.value == x {
        var k :| 0 <= k < |data| && IsValidFinish(data[k]) && data[k].finish.value == x;
        if k < |init| {
          assert init[k] == data[k];
        }
      }
      if exists k :: 0 <= k < |init| && IsValidFinish(init[k]) && init[k].finish.value == x {
        var k :| 0 <= k < |init| && IsValidFinish(init[k]) && init[k].finish.value == x;
        assert data[k] == init[k];
      }
    }
  }

  /** Only valid finishes are collected, and those above 100 are counted. */
  lemma {:induction false} ValidFinishesInRange(data: seq<DartStat>)
    ensures forall k :: 0 <= k < |ValidFinishes(data)| ==> 2 <= ValidFinishes(data)[k] <= 170
    ensures FinishesAbove100(data) <= |ValidFinishes(data)|
  {
    if data != [] {
      ValidFinishesInRange(data[..|data| - 1]);
    }
  }
}
