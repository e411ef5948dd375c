/**
 * The checkout analyser of the 501 scorer: for a remaining score, which
 * numbers of "darts on a double" a finish in one, two or three darts could
 * have used. A dart counts as "on a double" when its value is even and at
 * most 40; the last dart must leave exactly such a value.
 */
module Checkout {

  datatype CheckoutInfo = CheckoutInfo(
    isPossible: bool,
    possibleDartsOnDouble: seq<int>,
    minDartsOnDouble: int,
    maxDartsOnDouble: int)

  /** The score of one dart: a single 1..20, a double 2..40, a triple 3..60,
      the outer bull 25 or the bullseye 50. */
  predicate IsDartValue(v: int) {
    || 1 <= v <= 20
    || (2 <= v <= 40 && v % 2 == 0)
    || (3 <= v <= 60 && v % 3 == 0)
    || v == 25
    || v == 50
  }

  /** What the last dart may take out: a positive even value of at most 40. */
  predicate IsDoubleOut(remaining: int) {
    0 < remaining <= 40 && remaining % 2 == 0
  }

  /** 1 when a dart thrown before the last one counts as a dart on a double. */
  function OnDouble(v: int): (d: int)
    ensures d == 0 || d == 1
  {
    if v % 2 == 0 && v <= 40 then 1 else 0
  }

  /** The dart values in the order the analyser lists them: i, 2i, 3i for
      i = 1..n. */
  function DartValuesUpTo(n: nat): seq<int> {
    if n == 0 then [] else DartValuesUpTo(n - 1) + [n, n * 2, n * 3]
  }

  /** The full list of dart values: every single, double and triple, then
      the outer bull and the bullseye. */
  function DartValues(): seq<int> {
    DartValuesUpTo(20) + [25, 50]
  }

  /** A first dart `f` that the last dart can follow to finish `score`. */
  predicate TwoDartFinish(score: int, f: int) {
    f <= score && IsDoubleOut(score - f)
  }

  /** Two darts `f`, `s` that the last dart can follow to finish `score`. */
  predicate ThreeDartFinish(score: int, f: int, s: int) {
    f <= score && f + s <= score && IsDoubleOut(score - f - s)
  }

  /** The counts of the two-dart finishes whose first dart is in `firsts`. */
  function TwoDartOptions(score: int, firsts: seq<int>): set<int> {
    set f | f in firsts && TwoDartFinish(score, f) :: 1 + OnDouble(f)
  }

  /** The counts of the three-dart finishes whose first two darts are drawn
      from `firsts` and `seconds`. */
  function ThreeDartOptions(score: int, firsts: seq<int>, seconds: seq<int>): set<int> {
    set f, s | f in firsts && s in seconds && ThreeDartFinish(score, f, s) :: 1 + OnDouble(f) + OnDouble(s)
  }

  /** The counts of the two-dart finishes over every dart value. */
  function TwoDartCounts(score: int): set<int> {
    set f | 1 <= f <= 60 && IsDartValue(f) && TwoDartFinish(score, f) :: 1 + OnDouble(f)
  }

  /** The counts of the three-dart finishes over every pair of dart values. */
  function ThreeDartCounts(score: int): set<int> {
    set f, s | 1 <= f <= 60 && 1 <= s <= 60 && IsDartValue(f) && IsDartValue(s) && ThreeDartFinish(score, f, s)
      :: 1 + OnDouble(f) + OnDouble(s)
  }

  /** The set of "darts on a double" counts of every finish of `score`,
      stated over dart values: the even scores 2..170 only, one dart up to
      40, two darts up to 100, three darts up to 170. */
  function Options(score: int): (o: set<int>)
    ensures o != {} ==> 2 <= score <= 170 && score % 2 == 0
    ensures 2 <= score <= 40 && score % 2 == 0 ==> 1 in o
  {
    if score < 2 || score > 170 || score % 2 == 1 then {}
    else
      (if score <= 40 && score % 2 == 0 then {1} else {})
      + (if score <= 100 then TwoDartCounts(score) else {})
      + ThreeDartCounts(score)
  }

  /** The elements of a subset of {1, 2, 3} in ascending order. */
  function Ascending(opts: set<int>): (r: seq<int>)
    requires opts <= {1, 2, 3}
    ensures forall k :: k in r <==> k in opts
    ensures forall i, j :: 0 <= i < j < |r| ==> r[i] < r[j]
  {
    (if 1 in opts then [1] else []) + (if 2 in opts then [2] else []) + (if 3 in opts then [3] else [])
  }

  /** In a strictly ascending sequence the first element is the smallest
      and the last the largest. */
  lemma AscendingBounds(r: seq<int>)
    requires forall i, j :: 0 <= i < j < |r| ==> r[i] < r[j]
    ensures forall k :: k in r ==> r[0] <= k <= r[|r| - 1]
  {
    forall k | k in r ensures r[0] <= k <= r[|r| - 1] {
      var i :| 0 <= i < |r| && r[i] == k;
      if i > 0 {
        assert r[0] < r[i];
      }
      if i < |r| - 1 {
        assert r[i] < r[|r| - 1];
      }
    }
  }

  /** The checkout information of `score`, as a value. */
  function CheckoutInfoOf(score: int): (info: CheckoutInfo)
    ensures info.isPossible <==> Options(score) != {}
    ensures forall k :: k in info.possibleDartsOnDouble <==> k in Options(score)
    ensures forall i, j :: 0 <= i < j < |info.possibleDartsOnDouble| ==>
              info.possibleDartsOnDouble[i] < info.possibleDartsOnDouble[j]
    ensures info.isPossible ==>
              && info.minDartsOnDouble in Options(score)
              && info.maxDartsOnDouble in Options(score)
              && forall k :: k in Options(score) ==> info.minDartsOnDouble <= k <= info.maxDartsOnDouble
    ensures !info.isPossible ==>
              info.possibleDartsOnDouble == [] && info.minDartsOnDouble == 0 && info.maxDartsOnDouble == 0
  {
    OptionsWithinOneToThree(score);
    Report(Options(score))
  }

  /** The report on a set of counts: possible when it is non-empty, the
      counts in ascending order, the first and last of them. */
  function Report(opts: set<int>): (info: CheckoutInfo)
    requires opts <= {1, 2, 3}
    ensures info.isPossible <==> opts != {}
    ensures forall k :: k in info.possibleDartsOnDouble <==> k in opts
    ensures forall i, j :: 0 <= i < j < |info.possibleDartsOnDouble| ==>
              info.possibleDartsOnDouble[i] < info.possibleDartsOnDouble[j]
    ensures info.isPossible ==>
              && info.minDartsOnDouble in opts
              && info.maxDartsOnDouble in opts
              && forall k :: k in opts ==> info.minDartsOnDouble <= k <= info.maxDartsOnDouble
    ensures !info.isPossible ==>
              info.possibleDartsOnDouble == [] && info.minDartsOnDouble == 0 && info.maxDartsOnDouble == 0
  {
    var arr := Ascending(opts);
    assert |arr| > 0 ==> arr[0] in arr && arr[|arr| - 1] in arr;
    assert opts != {} ==> |arr| > 0 by {
      if opts != {} {
        var k :| k in opts;
        assert k in arr;
      }
    }
    assert |arr| > 0 ==> forall k :: k in opts ==> arr[0] <= k <= arr[|arr| - 1] by {
      AscendingBounds(arr);
    }
    CheckoutInfo(
      |arr| > 0,
      arr,
      if |arr| > 0 then arr[0] else 0,
      if |arr| > 0 then arr[|arr| - 1] else 0)
  }

  // ---------------------------------------------------------------------
  // The analyser as the source runs it: build the list of dart values,
  // then fill a set in a single loop and a nested loop.
  // ---------------------------------------------------------------------

  /** The analyser: reject out-of-range and odd scores, list the dart
      values, then collect the counts of one-, two- and three-dart finishes
      in a set and report it in ascending order with its minimum and
      maximum. */
  method CalculateCheckoutInfo(score: int) returns (info: CheckoutInfo)
    ensures info == CheckoutInfoOf(score)
  {
    if score < 2 || score > 170 {
      ImpossibleOutsideRangeOrOdd(score);
      return CheckoutInfo(false, [], 0, 0);
    }
    if score > 1 && score % 2 == 1 {
      ImpossibleOutsideRangeOrOdd(score);
      return CheckoutInfo(false, [], 0, 0);
    }

    var possibleDartsOnDouble := CollectFinishes(score);

    OptionsWithinOneToThree(score);
    var possibleArray := Ascending(possibleDartsOnDouble);
    info := CheckoutInfo(
      |possibleArray| > 0,
      possibleArray,
      if |possibleArray| > 0 then possibleArray[0] else 0,
      if |possibleArray| > 0 then possibleArray[|possibleArray| - 1] else 0);
    assert info == Report(possibleDartsOnDouble);
  }

  /** The search of a score that passed the range and odd checks: list the
      dart values, then collect the counts of one-, two- and three-dart
      finishes in a set. */
  method CollectFinishes(score: int) returns (possibleDartsOnDouble: set<int>)
    requires 2 <= score <= 170 && score % 2 == 0
    ensures possibleDartsOnDouble == Options(score)
  {
    var possibleScores := PossibleScores();
    possibleDartsOnDouble := {};

    // one dart
    if score <= 40 && score % 2 == 0 {
      possibleDartsOnDouble := possibleDartsOnDouble + {1};
    }
    // two darts
    if score <= 100 {
      possibleDartsOnDouble := AddTwoDartFinishes(score, possibleScores, possibleDartsOnDouble);
    }
    // three darts
    if score <= 170 {
      possibleDartsOnDouble := AddThreeDartFinishes(score, possibleScores, possibleDartsOnDouble);
    }

    TwoDartCountsFromList(score, possibleScores);
    ThreeDartCountsFromList(score, possibleScores);
  }

  /** The list of dart values, built by pushing i, 2i, 3i for i = 1..20 and
      then 25 and 50; it holds exactly the dart values. */
  method PossibleScores() returns (possibleScores: seq<int>)
    ensures possibleScores == DartValues()
    ensures |possibleScores| == 62
    ensures forall v :: v in possibleScores <==> IsDartValue(v)
  {
    possibleScores := [];
    for i := 1 to 21
      invariant possibleScores == DartValuesUpTo(i - 1)
      invariant |possibleScores| == 3 * (i - 1)
    {
      possibleScores := possibleScores + [i, i * 2, i * 3];
    }
    possibleScores := possibleScores + [25, 50];
    DartValuesAreDartValues();
  }

  /** The two-dart loop: for every first dart that does not overshoot and
      leaves a double, add 2 when the first dart is itself even and at most
      40, and 1 otherwise. */
  method AddTwoDartFinishes(score: int, possibleScores: seq<int>, found: set<int>) returns (r: set<int>)
    ensures r == found + TwoDartOptions(score, possibleScores)
  {
    r := found;
    for j := 0 to |possibleScores|
      invariant r == found + TwoDartOptions(score, possibleScores[..j])
    {
      var first := possibleScores[j];
      TwoDartOptionsSnoc(score, possibleScores[..j], first);
      assert possibleScores[..j + 1] == possibleScores[..j] + [first];
      if first > score {
        continue;
      }
      var remaining := score - first;
      if remaining > 0 && remaining <= 40 && remaining % 2 == 0 {
        if first % 2 == 0 && first <= 40 {
          r := r + {2};
        } else {
          r := r + {1};
        }
      }
    }
    assert possibleScores[..|possibleScores|] == possibleScores;
  }

  /** The three-dart loop over every pair of first and second darts. */
  method AddThreeDartFinishes(score: int, possibleScores: seq<int>, found: set<int>) returns (r: set<int>)
    ensures r == found + ThreeDartOptions(score, possibleScores, possibleScores)
  {
    r := found;
    for j := 0 to |possibleScores|
      invariant r == found + ThreeDartOptions(score, possibleScores[..j], possibleScores)
    {
      var first := possibleScores[j];
      ThreeDartOptionsSnocFirst(score, possibleScores[..j], first, possibleScores);
      assert possibleScores[..j + 1] == possibleScores[..j] + [first];
      if first > score {
        ThreeDartOptionsOvershoot(score, first, possibleScores);
        continue;
      }
      r := AddSecondDarts(score, first, possibleScores, r);
    }
    assert possibleScores[..|possibleScores|] == possibleScores;
  }

  /** The inner loop of the three-dart search, for one first dart. */
  method AddSecondDarts(score: int, first: int, possibleScores: seq<int>, found: set<int>) returns (r: set<int>)
    requires first <= score
    ensures r == found + ThreeDartOptions(score, [first], possibleScores)
  {
    r := found;
    for k := 0 to |possibleScores|
      invariant r == found + SecondDartOptions(score, first, possibleScores[..k])
    {
      var second := possibleScores[k];
      SecondDartOptionsSnoc(score, first, possibleScores[..k], second);
      assert possibleScores[..k + 1] == possibleScores[..k] + [second];
      if first + second > score {
        continue;
      }
      var remaining := score - first - second;
      if remaining > 0 && remaining <= 40 && remaining % 2 == 0 {
        var dartsOnDouble := 1;
        if first % 2 == 0 && first <= 40 {
          dartsOnDouble := dartsOnDouble + 1;
        }
        if second % 2 == 0 && second <= 40 {
          dartsOnDouble := dartsOnDouble + 1;
        }
        r := r + {dartsOnDouble};
      }
    }
    assert possibleScores[..|possibleScores|] == possibleScores;
    OneFirstDart(score, first, possibleScores);
  }

  /** The counts of the three-dart finishes whose first dart is `f`. */
  function SecondDartOptions(score: int, f: int, seconds: seq<int>): set<int> {
    set s | s in seconds && ThreeDartFinish(score, f, s) :: 1 + OnDouble(f) + OnDouble(s)
  }

  lemma OneFirstDart(score: int, f: int, seconds: seq<int>)
    ensures ThreeDartOptions(score, [f], seconds) == SecondDartOptions(score, f, seconds)
  {
    forall k | k in ThreeDartOptions(score, [f], seconds) ensures k in SecondDartOptions(score, f, seconds) {
      var g, t :| g in [f] && t in seconds && ThreeDartFinish(score, g, t) && k == 1 + OnDouble(g) + OnDouble(t);
      assert g == f;
    }
    forall k | k in SecondDartOptions(score, f, seconds) ensures k in ThreeDartOptions(score, [f], seconds) {
      var t :| t in seconds && ThreeDartFinish(score, f, t) && k == 1 + OnDouble(f) + OnDouble(t);
      assert f in [f];
    }
  }

  lemma SecondDartOptionsSnoc(score: int, f: int, seconds: seq<int>, s: int)
    ensures SecondDartOptions(score, f, seconds + [s])
         == SecondDartOptions(score, f, seconds)
            + (if ThreeDartFinish(score, f, s) then {1 + OnDouble(f) + OnDouble(s)} else {})
  {
    var lhs := SecondDartOptions(score, f, seconds + [s]);
    var rhs := SecondDartOptions(score, f, seconds)
               + (if ThreeDartFinish(score, f, s) then {1 + OnDouble(f) + OnDouble(s)} else {});
    forall k | k in lhs ensures k in rhs {
      var t :| t in seconds + [s] && ThreeDartFinish(score, f, t) && k == 1 + OnDouble(f) + OnDouble(t);
      if t != s {
        assert t in seconds;
      }
    }
    forall k | k in rhs ensures k in lhs {
      if k in SecondDartOptions(score, f, seconds) {
        var t :| t in seconds && ThreeDartFinish(score, f, t) && k == 1 + OnDouble(f) + OnDouble(t);
        assert t in seconds + [s];
      } else {
        assert s in seconds + [s];
      }
    }
  }

  lemma TwoDartOptionsSnoc(score: int, firsts: seq<int>, f: int)
    ensures TwoDartOptions(score, firsts + [f])
         == TwoDartOptions(score, firsts) + (if TwoDartFinish(score, f) then {1 + OnDouble(f)} else {})
  {
    var lhs := TwoDartOptions(score, firsts + [f]);
    var rhs := TwoDartOptions(score, firsts) + (if TwoDartFinish(score, f) then {1 + OnDouble(f)} else {});
    forall k | k in lhs ensures k in rhs {
      var g :| g in firsts + [f] && TwoDartFinish(score, g) && k == 1 + OnDouble(g);
      if g != f {
        assert g in firsts;
      }
    }
    forall k | k in rhs ensures k in lhs {
      if k in TwoDartOptions(score, firsts) {
        var g :| g in firsts && TwoDartFinish(score, g) && k == 1 + OnDouble(g);
        assert g in firsts + [f];
      } else {
        assert f in firsts + [f];
      }
    }
  }

  lemma ThreeDartOptionsSnocFirst(score: int, firsts: seq<int>, f: int, seconds: seq<int>)
    ensures ThreeDartOptions(score, firsts + [f], seconds)
         == ThreeDartOptions(score, firsts, seconds) + ThreeDartOptions(score, [f], seconds)
  {
    var lhs := ThreeDartOptions(score, firsts + [f], seconds);
    var rhs := ThreeDartOptions(score, firsts, seconds) + ThreeDartOptions(score, [f], seconds);
    forall k | k in lhs ensures k in rhs {
      var g, s :| g in firsts + [f] && s in seconds && ThreeDartFinish(score, g, s)
                  && k == 1 + OnDouble(g) + OnDouble(s);
      if g == f {
        assert g in [f];
      } else {
        assert g in firsts;
      }
    }
    forall k | k in rhs ensures k in lhs {
      if k in ThreeDartOptions(score, firsts, seconds) {
        var g, s :| g in firsts && s in seconds && ThreeDartFinish(score, g, s)
                    && k == 1 + OnDouble(g) + OnDouble(s);
        assert g in firsts + [f];
      } else {
        var g, s :| g in [f] && s in seconds && ThreeDartFinish(score, g, s)
                    && k == 1 + OnDouble(g) + OnDouble(s);
        assert g in firsts + [f];
      }
    }
  }

  lemma ThreeDartOptionsOvershoot(score: int, f: int, seconds: seq<int>)
    requires f > score
    ensures ThreeDartOptions(score, [f], seconds) == {}
  {
    forall g, s | g in [f] && s in seconds ensures !ThreeDartFinish(score, g, s) {
    }
  }

  /** The list the analyser builds holds exactly the dart values. */
  lemma {:induction false} DartValuesUpToMembers(n: nat, v: int)
    requires n <= 20
    ensures v in DartValuesUpTo(n) <==>
              (1 <= v <= n) || (2 <= v <= 2 * n && v % 2 == 0) || (3 <= v <= 3 * n && v % 3 == 0)
  {
    if n > 0 {
      DartValuesUpToMembers(n - 1, v);
      assert DartValuesUpTo(n) == DartValuesUpTo(n - 1) + [n, n * 2, n * 3];
    }
  }

  lemma DartValuesAreDartValues()
    ensures forall v :: v in DartValues() <==> IsDartValue(v)
  {
    forall v ensures v in DartValues() <==> IsDartValue(v) {
      DartValuesUpToMembers(20, v);
    }
  }

  /** Over the list of dart values, the two-dart loop finds TwoDartCounts. */
  lemma TwoDartCountsFromList(score: int, ps: seq<int>)
    requires forall v :: v in ps <==> IsDartValue(v)
    ensures TwoDartOptions(score, ps) == TwoDartCounts(score)
  {
    forall k | k in TwoDartOptions(score, ps) ensures k in TwoDartCounts(score) {
      var f :| f in ps && TwoDartFinish(score, f) && k == 1 + OnDouble(f);
      assert IsDartValue(f);
    }
    forall k | k in TwoDartCounts(score) ensures k in TwoDartOptions(score, ps) {
      var f :| 1 <= f <= 60 && IsDartValue(f) && TwoDartFinish(score, f) && k == 1 + OnDouble(f);
      assert f in ps;
    }
  }

  /** Over the list of dart values, the nested loop finds ThreeDartCounts. */
  lemma ThreeDartCountsFromList(score: int, ps: seq<int>)
    requires forall v :: v in ps <==> IsDartValue(v)
    ensures ThreeDartOptions(score, ps, ps) == ThreeDartCounts(score)
  {
    forall k | k in ThreeDartOptions(score, ps, ps) ensures k in ThreeDartCounts(score) {
      var f, s :| f in ps && s in ps && ThreeDartFinish(score, f, s) && k == 1 + OnDouble(f) + OnDouble(s);
      assert IsDartValue(f) && IsDartValue(s);
    }
    forall k | k in ThreeDartCounts(score) ensures k in ThreeDartOptions(score, ps, ps) {
      var f, s :| 1 <= f <= 60 && 1 <= s <= 60 && IsDartValue(f) && IsDartValue(s)
                  && ThreeDartFinish(score, f, s) && k == 1 + OnDouble(f) + OnDouble(s);
      assert f in ps && s in ps;
    }
  }

  // ---------------------------------------------------------------------
  // Properties of the analyser.
  // ---------------------------------------------------------------------

  /** Every count is 1, 2 or 3: the last dart counts one, each earlier dart
      adds at most one. */
  lemma OptionsWithinOneToThree(score: int)
    ensures Options(score) <= {1, 2, 3}
  {
  }

  /** No two darts score more than 120, so nothing above 160 is left for
      a last dart of at most 40. */
  lemma NoThreeDartFinishAbove160(score: int)
    requires score > 160
    ensures ThreeDartCounts(score) == {}
  {
    forall f, s | IsDartValue(f) && IsDartValue(s) ensures !ThreeDartFinish(score, f, s) {
    }
  }

  /** A finish is reported exactly for the even scores from 2 to 160: the
      last dart takes out at most 40 and the two before it at most 60 each,
      so 162..170 (and 170 itself) come out impossible. */
  lemma {:induction false} PossibleIff(score: int)
    ensures Options(score) != {} <==> 2 <= score <= 160 && score % 2 == 0
  {
    if 2 <= score <= 160 && score % 2 == 0 {
      if score <= 40 {
        assert 1 in Options(score);
      } else if score <= 80 {
        var f := score - 40;
        assert IsDartValue(f) && TwoDartFinish(score, f);
        assert 1 + OnDouble(f) in TwoDartCounts(score);
      } else if score <= 120 {
        var f, s := 60, 20;
        assert IsDartValue(f) && IsDartValue(s) && ThreeDartFinish(score, f, s);
        assert 1 + OnDouble(f) + OnDouble(s) in ThreeDartCounts(score);
      } else {
        var f, s := 60, 60;
        assert IsDartValue(f) && IsDartValue(s) && ThreeDartFinish(score, f, s);
        assert 1 + OnDouble(f) + OnDouble(s) in ThreeDartCounts(score);
      }
    } else if 160 < score {
      NoThreeDartFinishAbove160(score);
    }
  }

  /** Scores outside 2..170, and odd scores, give the empty answer. */
  lemma ImpossibleOutsideRangeOrOdd(score: int)
    requires score < 2 || score > 170 || score % 2 == 1
    ensures CheckoutInfoOf(score) == CheckoutInfo(false, [], 0, 0)
  {
  }

  /** Every even score up to 40 is a one-dart finish, so 1 is among its counts. */
  lemma OneDartFinishes(score: int)
    requires 2 <= score <= 40 && score % 2 == 0
    ensures CheckoutInfoOf(score).isPossible
    ensures 1 in CheckoutInfoOf(score).possibleDartsOnDouble
    ensures CheckoutInfoOf(score).minDartsOnDouble == 1
  {
    assert 1 in Options(score);
  }

  /** 40 allows one, two or three darts on a double: double 20; 20 then
      double 10; 10, 10, double 10. */
  lemma {:induction false} FortyAllowsEveryCount()
    ensures CheckoutInfoOf(40) == CheckoutInfo(true, [1, 2, 3], 1, 3)
  {
    assert 1 in Options(40);
    assert TwoDartFinish(40, 20) && IsDartValue(20);
    assert 2 in TwoDartCounts(40);
    assert ThreeDartFinish(40, 10, 10) && IsDartValue(10);
    assert 3 in ThreeDartCounts(40);
    OptionsWithinOneToThree(40);
    assert Options(40) == {1, 2, 3};
  }

  /** 170 is reported impossible although it lies inside 2..170. */
  lemma MaximumCheckoutReportedImpossible()
    ensures CheckoutInfoOf(170) == CheckoutInfo(false, [], 0, 0)
  {
    PossibleIff(170);
  }

  /** 2 is only a one-dart finish. */
  lemma {:induction false} TwoIsOneDartOnly()
    ensures CheckoutInfoOf(2) == CheckoutInfo(true, [1], 1, 1)
  {
    assert 1 in Options(2);
    forall f | IsDartValue(f) ensures !TwoDartFinish(2, f) {
    }
    NoThreeDartFinishBelow(2);
    assert Options(2) == {1};
  }

  /** Three darts need at least 4: two darts of at least 1, then at least 2. */
  lemma NoThreeDartFinishBelow(score: int)
    requires score < 4
    ensures ThreeDartCounts(score) == {}
  {
    forall f, s | IsDartValue(f) && IsDartValue(s) ensures !ThreeDartFinish(score, f, s) {
    }
  }

  // ---------------------------------------------------------------------
  // The two helpers over the analyser.
  // ---------------------------------------------------------------------

  /** The minimum number of darts on a double, as the source decides it:
      by the range of the score, once the analyser says a finish exists. */
  function GetMinDartsOnDouble(score: int): (r: int)
    ensures 0 <= r <= 3
    ensures r == 0 <==> !CheckoutInfoOf(score).isPossible
  {
    var info := CheckoutInfoOf(score);
    if !info.isPossible then 0
    else if score <= 40 && score % 2 == 0 then 1
    else if score <= 100 then 2
    else 3
  }

  /** The maximum number of darts on a double: the analyser's maximum. */
  function GetMaxDartsOnDouble(score: int): (r: int)
    ensures 0 <= r <= 3
    ensures r == 0 <==> !CheckoutInfoOf(score).isPossible
    ensures r != 0 ==> r in CheckoutInfoOf(score).possibleDartsOnDouble
    ensures forall k :: k in CheckoutInfoOf(score).possibleDartsOnDouble ==> k <= r
  {
    OptionsWithinOneToThree(score);
    CheckoutInfoOf(score).maxDartsOnDouble
  }

  /** The range rule of GetMinDartsOnDouble, written out over the score. */
  lemma MinDartsByRange(score: int)
    ensures GetMinDartsOnDouble(score)
         == if score % 2 != 0 || score < 2 || score > 160 then 0
            else if score <= 40 then 1
            else if score <= 100 then 2
            else 3
  {
    PossibleIff(score);
  }

  /** GetMinDartsOnDouble does not agree with the analyser's own minimum:
      at 160 (treble 20, treble 20, double 20) it answers 3 while the only
      count the analyser finds is 1, so its "minimum" exceeds the maximum. */
  lemma {:induction false} MinDartsDisagreesWithAnalyser()
    ensures GetMinDartsOnDouble(160) == 3
    ensures GetMaxDartsOnDouble(160) == 1
    ensures CheckoutInfoOf(160).minDartsOnDouble == 1
  {
    assert IsDartValue(60) && ThreeDartFinish(160, 60, 60);
    assert 1 + OnDouble(60) + OnDouble(60) in ThreeDartCounts(160);
    forall k | k in ThreeDartCounts(160) ensures k == 1 {
      var f, s :| 1 <= f <= 60 && 1 <= s <= 60 && IsDartValue(f) && IsDartValue(s)
                  && ThreeDartFinish(160, f, s) && k == 1 + OnDouble(f) + OnDouble(s);
      assert f == 60 && s == 60;
    }
    assert Options(160) == {1};
  }

  /** The minimum as the analyser computes it: the corrected helper. */
  function MinDartsOnDouble(score: int): (r: int)
    ensures r == 0 <==> !CheckoutInfoOf(score).isPossible
    ensures r <= GetMaxDartsOnDouble(score)
    ensures r != 0 ==> r in CheckoutInfoOf(score).possibleDartsOnDouble
    ensures forall k :: k in CheckoutInfoOf(score).possibleDartsOnDouble ==> r <= k
  {
    OptionsWithinOneToThree(score);
    CheckoutInfoOf(score).minDartsOnDouble
  }
}
