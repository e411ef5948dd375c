/**
 * The per-player statistics accumulator of the 501 scorer. Every update
 * returns a fresh record and leaves its argument as it was, so the record
 * is a datatype and the updates are functions.
 */
module DartLogic {

  datatype DartStats = DartStats(
    totalScore: int,
    totalTurns: int,
    first9Score: int,
    first9Turns: int,
    doublesHit: int,
    doublesThrown: int,
    oneEighties: int,
    highestScore: int,
    highestFinish: int,
    scores140Plus: int,
    scores100Plus: int,
    scores80Plus: int,
    legDarts: seq<int>)

  /** What is stored for a player when the match is over. The averages are
      exact quotients: per turn, not multiplied by 3. */
  datatype FinalStats = FinalStats(
    threeDartAvg: real,
    first9Avg: real,
    finish: int,
    doublesHit: int,
    doublesThrown: int,
    oneEighties: int)

  function Max(a: int, b: int): int {
    if a < b then b else a
  }

  function Min(a: int, b: int): int {
    if a < b then a else b
  }

  /** The record a player starts a match with. */
  function CreateInitialStats(): (s: DartStats)
    ensures s.totalScore == s.totalTurns == s.first9Score == s.first9Turns == 0
    ensures s.doublesHit == s.doublesThrown == s.oneEighties == 0
    ensures s.highestScore == s.highestFinish == 0
    ensures s.scores140Plus == s.scores100Plus == s.scores80Plus == 0
    ensures s.legDarts == []
  {
    DartStats(0, 0, 0, 0, 0, 0, 0, 0, 0, 0, 0, 0, [])
  }

  /** 1 when `t` lies in lo..hi-1, else 0. */
  function InBand(t: int, lo: int, hi: int): int {
    if lo <= t < hi then 1 else 0
  }

  /** Register one turn: the running total and turn count, the first-nine
      totals while the new turn count is at most 3, the 180 count, the
      highest score and the three score bands 140..179, 100..139, 80..99. */
  function RegisterTurn(stats: DartStats, turnScore: int): (r: DartStats)
    ensures r.doublesHit == stats.doublesHit && r.doublesThrown == stats.doublesThrown
    ensures r.highestFinish == stats.highestFinish && r.legDarts == stats.legDarts
  {
    var totals := stats.(totalScore := stats.totalScore + turnScore, totalTurns := stats.totalTurns + 1);
    var first9 :=
      if totals.totalTurns <= 3
      then totals.(first9Score := totals.first9Score + turnScore, first9Turns := totals.first9Turns + 1)
      else totals;
    var u180 := if turnScore == 180 then first9.(oneEighties := first9.oneEighties + 1) else first9;
    var highest := if turnScore > u180.highestScore then u180.(highestScore := turnScore) else u180;
    var b140 := if turnScore >= 140 && turnScore < 180 then highest.(scores140Plus := highest.scores140Plus + 1) else highest;
    var b100 := if turnScore >= 100 && turnScore < 140 then b140.(scores100Plus := b140.scores100Plus + 1) else b140;
    var b80 := if turnScore >= 80 && turnScore < 100 then b100.(scores80Plus := b100.scores80Plus + 1) else b100;
    b80
  }

  /** Register the darts thrown at a double in one turn and how many hit. */
  function RegisterDoubleAttempt(stats: DartStats, dartsOnDouble: int, doublesHit: int): (r: DartStats)
    ensures r.doublesThrown == stats.doublesThrown + dartsOnDouble
    ensures r.doublesHit == stats.doublesHit + doublesHit
    ensures r.(doublesThrown := stats.doublesThrown, doublesHit := stats.doublesHit) == stats
  {
    stats.(doublesThrown := stats.doublesThrown + dartsOnDouble, doublesHit := stats.doublesHit + doublesHit)
  }

  /** The record stored at the end of a match: per-turn averages (0 when
      there are no turns) and the rest copied through. */
  function CalculateFinalStats(stats: DartStats, finishScore: int): (r: FinalStats)
    ensures stats.totalTurns > 0 ==> r.threeDartAvg * stats.totalTurns as real == stats.totalScore as real
    ensures stats.totalTurns <= 0 ==> r.threeDartAvg == 0.0
    ensures stats.first9Turns > 0 ==> r.first9Avg * stats.first9Turns as real == stats.first9Score as real
    ensures stats.first9Turns <= 0 ==> r.first9Avg == 0.0
    ensures r.finish == finishScore && r.doublesHit == stats.doublesHit
    ensures r.doublesThrown == stats.doublesThrown && r.oneEighties == stats.oneEighties
  {
    FinalStats(
      if stats.totalTurns > 0 then stats.totalScore as real / stats.totalTurns as real else 0.0,
      if stats.first9Turns > 0 then stats.first9Score as real / stats.first9Turns as real else 0.0,
      finishScore,
      stats.doublesHit,
      stats.doublesThrown,
      stats.oneEighties)
  }

  // ---------------------------------------------------------------------
  // One turn.
  // ---------------------------------------------------------------------

  /** The running totals: the score is added and exactly one turn counted. */
  lemma RegisterTurnTotals(stats: DartStats, turnScore: int)
    ensures RegisterTurn(stats, turnScore).totalScore == stats.totalScore + turnScore
    ensures RegisterTurn(stats, turnScore).totalTurns == stats.totalTurns + 1
  {
  }

  /** The first-nine totals move only while the new turn count is at most 3;
      a fourth or later turn leaves them as they were. */
  lemma RegisterTurnFirstNine(stats: DartStats, turnScore: int)
    ensures var r := RegisterTurn(stats, turnScore);
      if stats.totalTurns + 1 <= 3
      then r.first9Score == stats.first9Score + turnScore && r.first9Turns == stats.first9Turns + 1
      else r.first9Score == stats.first9Score && r.first9Turns == stats.first9Turns
  {
  }

  /** The highest score becomes the larger of the old one and this turn. */
  lemma RegisterTurnHighest(stats: DartStats, turnScore: int)
    ensures RegisterTurn(stats, turnScore).highestScore == Max(stats.highestScore, turnScore)
  {
  }

  /** The 180 counter moves exactly for 180; the three bands are disjoint,
      so at most one band counter moves, and none for 180 or below 80. */
  lemma RegisterTurnBands(stats: DartStats, turnScore: int)
    ensures var r := RegisterTurn(stats, turnScore);
      && r.oneEighties == stats.oneEighties + (if turnScore == 180 then 1 else 0)
      && r.scores140Plus == stats.scores140Plus + InBand(turnScore, 140, 180)
      && r.scores100Plus == stats.scores100Plus + InBand(turnScore, 100, 140)
      && r.scores80Plus == stats.scores80Plus + InBand(turnScore, 80, 100)
      && (r.scores140Plus - stats.scores140Plus) + (r.scores100Plus - stats.scores100Plus)
           + (r.scores80Plus - stats.scores80Plus) <= 1
      && (turnScore == 180 || turnScore < 80 ==>
            r.scores140Plus == stats.scores140Plus && r.scores100Plus == stats.scores100Plus
            && r.scores80Plus == stats.scores80Plus)
  {
  }

  /** Turns and double attempts touch disjoint fields, so they commute. */
  lemma TurnAndDoubleAttemptCommute(stats: DartStats, turnScore: int, dartsOnDouble: int, doublesHit: int)
    ensures RegisterTurn(RegisterDoubleAttempt(stats, dartsOnDouble, doublesHit), turnScore)
         == RegisterDoubleAttempt(RegisterTurn(stats, turnScore), dartsOnDouble, doublesHit)
  {
  }

  /** Two double attempts add up to one with the summed counts. */
  lemma DoubleAttemptsAdd(stats: DartStats, d1: int, h1: int, d2: int, h2: int)
    ensures RegisterDoubleAttempt(RegisterDoubleAttempt(stats, d1, h1), d2, h2)
         == RegisterDoubleAttempt(stats, d1 + d2, h1 + h2)
  {
  }

  // ---------------------------------------------------------------------
  // A whole match of turns.
  // ---------------------------------------------------------------------

  /** The record after registering the turns `ts` in order. */
  function RegisterTurns(stats: DartStats, ts: seq<int>): DartStats {
    if ts == [] then stats else RegisterTurn(RegisterTurns(stats, ts[..|ts| - 1]), ts[|ts| - 1])
  }

  function Sum(ts: seq<int>): int {
    if ts == [] then 0 else Sum(ts[..|ts| - 1]) + ts[|ts| - 1]
  }

  /** The number of turns scoring in lo..hi-1. */
  function CountInBand(ts: seq<int>, lo: int, hi: int): nat {
    if ts == [] then 0 else CountInBand(ts[..|ts| - 1], lo, hi) + InBand(ts[|ts| - 1], lo, hi)
  }

  /** The largest of 0 and the turn scores. */
  function Highest(ts: seq<int>): int {
    if ts == [] then 0 else Max(Highest(ts[..|ts| - 1]), ts[|ts| - 1])
  }

  /** From the initial record, a sequence of turns yields: the sum and the
      number of turns, the sum and number of only the first three turns of
      the match (the turn count is never reset per leg), the highest score,
      and the 180 and band counts. */
  lemma {:induction false} RegisterTurnsFromInitial(ts: seq<int>)
    ensures var r := RegisterTurns(CreateInitialStats(), ts);
      && r.totalScore == Sum(ts)
      && r.totalTurns == |ts|
      && r.first9Turns == Min(3, |ts|)
      && r.first9Score == Sum(ts[..Min(3, |ts|)])
      && r.highestScore == Highest(ts)
      && r.oneEighties == CountInBand(ts, 180, 181)
      && r.scores140Plus == CountInBand(ts, 140, 180)
      && r.scores100Plus == CountInBand(ts, 100, 140)
      && r.scores80Plus == CountInBand(ts, 80, 100)
      && r.doublesHit == 0 && r.doublesThrown == 0 && r.highestFinish == 0 && r.legDarts == []
  {
    if ts != [] {
      var init := ts[..|ts| - 1];
      var t := ts[|ts| - 1];
      RegisterTurnsFromInitial(init);
      var before := RegisterTurns(CreateInitialStats(), init);
      assert RegisterTurns(CreateInitialStats(), ts) == RegisterTurn(before, t);
      RegisterTurnTotals(before, t);
      RegisterTurnFirstNine(before, t);
      RegisterTurnHighest(before, t);
      RegisterTurnBands(before, t);
      if |ts| <= 3 {
        assert ts[..Min(3, |ts|)] == ts;
        assert init[..Min(3, |init|)] == init;
      } else {
        assert ts[..Min(3, |ts|)] == init[..Min(3, |init|)];
      }
    }
  }

  /** Consequence: the first-nine turn count never exceeds 3, and a fourth
      or later turn leaves the first-nine score unchanged. */
  lemma FirstNineCapped(ts: seq<int>, t: int)
    requires |ts| >= 3
    ensures RegisterTurns(CreateInitialStats(), ts).first9Turns == 3
    ensures RegisterTurns(CreateInitialStats(), ts + [t]).first9Score
         == RegisterTurns(CreateInitialStats(), ts).first9Score
  {
    RegisterTurnsFromInitial(ts);
    assert (ts + [t])[..|ts + [t]| - 1] == ts;
  }
}
