/**
 * The 501 match screen: per-player scores, legs and sets, the three-digit
 * input buffer, turn submission and turn undo. The rules are first stated
 * on values (`Game`, `Submit`, `UndoTurn`, ...) and proved there; the class
 * `Match` then holds the same state in fields and updates it step by step,
 * each method proved to produce exactly the state the rules describe.
 */
module Play501Game {
  import opened DartLogic

  datatype Player = Player(id: int, username: string)

  datatype PlayerGameState = PlayerGameState(
    player: Player,
    score: int,
    totalScore: int,
    totalDarts: int,
    lastScore: int,
    turns: int,
    legsWon: int,
    setsWon: int)

  datatype GameMode = FirstTo | BestOf
  datatype GameType = Sets | Legs

  /** What the match was started with; fixed for its duration. */
  datatype Config = Config(gameMode: GameMode, gameType: GameType, target: int)

  /** Everything a turn can change. */
  datatype Game = Game(
    states: seq<PlayerGameState>,
    current: int,
    input: string,
    stats: map<int, DartStats>)

  /** What a submission did: nothing (empty input or "0"), a rejected score
      outside 0..180, a bust, a scored turn, or a won leg. */
  datatype Outcome = Ignored | OutOfRange | Bust | Scored | LegWon(setWon: bool, gameWon: bool)

  const StartingScore: int := 501
  const MaxInputLength: int := 3

  // ---------------------------------------------------------------------
  // Start of a match.
  // ---------------------------------------------------------------------

  function InitialState(p: Player): PlayerGameState {
    PlayerGameState(p, StartingScore, 0, 0, 0, 0, 0, 0)
  }

  function Ids(players: seq<Player>): set<int> {
    set p | p in players :: p.id
  }

  /** Every player at 501 with all counters, legs and sets at 0; a fresh
      statistics record per player id; the first player to throw. */
  function InitialGame(players: seq<Player>): (g: Game)
    ensures |g.states| == |players| && g.current == 0 && g.input == []
    ensures forall i :: 0 <= i < |players| ==>
              g.states[i].player == players[i] && g.states[i].score == 501
              && g.states[i].totalScore == g.states[i].totalDarts == g.states[i].lastScore == 0
              && g.states[i].turns == g.states[i].legsWon == g.states[i].setsWon == 0
    ensures forall i :: 0 <= i < |players| ==> players[i].id in g.stats
    ensures forall id :: id in g.stats ==> g.stats[id] == CreateInitialStats()
  {
    Game(
      seq(|players|, i requires 0 <= i < |players| => InitialState(players[i])),
      0,
      [],
      map id | id in Ids(players) :: CreateInitialStats())
  }

  // ---------------------------------------------------------------------
  // The input buffer.
  // ---------------------------------------------------------------------

  predicate IsDigit(c: char) {
    '0' <= c <= '9'
  }

  predicate InputOk(input: string) {
    |input| <= MaxInputLength && forall i :: 0 <= i < |input| ==> IsDigit(input[i])
  }

  function DigitChar(d: int): (c: char)
    requires 0 <= d <= 9
    ensures IsDigit(c) && c as int - '0' as int == d
  {
    ('0' as int + d) as char
  }

  /** The decimal value of a string of digits; n digits stay below 10^n,
      so the three-digit buffer never exceeds 999. */
  function ParseScore(s: string): (n: nat)
    ensures n < Pow10(|s|)
  {
    if s == [] then 0
    else 10 * ParseScore(s[..|s| - 1]) + (if IsDigit(s[|s| - 1]) then s[|s| - 1] as int - '0' as int else 0)
  }

  /** A digit key appends its digit while the buffer holds fewer than 3. */
  function NumberClick(input: string, num: int): (r: string)
    requires 0 <= num <= 9
    ensures |input| < MaxInputLength ==>
              |r| == |input| + 1 && r[..|input|] == input && IsDigit(r[|input|])
    ensures |input| >= MaxInputLength ==> r == input
  {
    if |input| < MaxInputLength then input + [DigitChar(num)] else input
  }

  /** The backspace key drops the last character, if any. */
  function Backspace(input: string): (r: string)
    ensures |input| > 0 ==> r == input[..|input| - 1]
    ensures |input| == 0 ==> r == []
  {
    if input == [] then [] else input[..|input| - 1]
  }

  /** The buffer stays a string of at most three digits. */
  lemma InputStaysOk(input: string, num: int)
    requires InputOk(input) && 0 <= num <= 9
    ensures InputOk(NumberClick(input, num))
    ensures InputOk(Backspace(input))
  {
  }

  /** A digit key with room left adds that digit to the value; on a full
      buffer it does nothing; backspace takes the digit back. */
  lemma NumberClickThenBackspace(input: string, num: int)
    requires 0 <= num <= 9
    ensures |input| < MaxInputLength ==>
              ParseScore(NumberClick(input, num)) == 10 * ParseScore(input) + num
              && Backspace(NumberClick(input, num)) == input
    ensures |input| >= MaxInputLength ==> NumberClick(input, num) == input
  {
    if |input| < MaxInputLength {
      var s := input + [DigitChar(num)];
      assert s[..|s| - 1] == input;
    }
  }

  /** Leading zeros do not change the value: "00" and "000" parse to 0
      just as "0" does, although only "0" itself is ignored on submit. */
  lemma {:induction false} LeadingZeroIgnored(s: string)
    ensures ParseScore("0" + s) == ParseScore(s)
  {
    if s != [] {
      var t := "0" + s;
      assert t[..|t| - 1] == "0" + s[..|s| - 1];
      assert t[|t| - 1] == s[|s| - 1];
      LeadingZeroIgnored(s[..|s| - 1]);
    }
  }

  function Pow10(n: nat): nat {
    if n == 0 then 1 else 10 * Pow10(n - 1)
  }

  // ---------------------------------------------------------------------
  // One turn.
  // ---------------------------------------------------------------------

  /** The thrower's state after an accepted turn of `score`. */
  function AfterTurn(s: PlayerGameState, score: int): PlayerGameState {
    s.(score := s.score - score,
       totalScore := s.totalScore + score,
       totalDarts := s.totalDarts + 3,
       lastScore := score,
       turns := s.turns + 1)
  }

  /** Math.ceil(target / 2): the legs that win a set. */
  function LegsNeeded(target: int): (n: int)
    ensures target <= 2 * n <= target + 1
  {
    (target + 1) / 2
  }

  /** Every player except `i` is set back to 501. */
  function ResetOtherScores(states: seq<PlayerGameState>, i: int): (r: seq<PlayerGameState>)
    ensures |r| == |states|
    ensures forall j :: 0 <= j < |states| ==>
              r[j] == if j == i then states[j] else states[j].(score := StartingScore)
  {
    seq(|states|, j requires 0 <= j < |states| => if j == i then states[j] else states[j].(score := StartingScore))
  }

  /** Every player's legs are set back to 0. */
  function ResetLegs(states: seq<PlayerGameState>): (r: seq<PlayerGameState>)
    ensures |r| == |states|
    ensures forall j :: 0 <= j < |states| ==> r[j] == states[j].(legsWon := 0)
  {
    seq(|states|, j requires 0 <= j < |states| => states[j].(legsWon := 0))
  }

  /** The states after player `i` checks out with `score`, and whether the
      leg also won a set. */
  function CheckoutStates(gameType: GameType, target: int, states: seq<PlayerGameState>, i: int, score: int)
    : (r: (seq<PlayerGameState>, bool))
    requires 0 <= i < |states|
    ensures |r.0| == |states|
    ensures forall j :: 0 <= j < |states| ==> r.0[j].score == StartingScore && r.0[j].player == states[j].player
    ensures r.1 <==> gameType == Sets && states[i].legsWon + 1 >= LegsNeeded(target)
    ensures r.1 ==> r.0[i].setsWon == states[i].setsWon + 1 && forall j :: 0 <= j < |states| ==> r.0[j].legsWon == 0
    ensures !r.1 ==> r.0[i].legsWon == states[i].legsWon + 1 && r.0[i].setsWon == states[i].setsWon
    ensures r.0[i] == AfterTurn(states[i], score).(score := StartingScore,
                        legsWon := if r.1 then 0 else states[i].legsWon + 1,
                        setsWon := if r.1 then states[i].setsWon + 1 else states[i].setsWon)
    ensures forall j :: 0 <= j < |states| && j != i ==>
              r.0[j] == states[j].(score := StartingScore, legsWon := if r.1 then 0 else states[j].legsWon)
  {
    var won := AfterTurn(states[i], score).(score := StartingScore, legsWon := states[i].legsWon + 1);
    var reset := ResetOtherScores(states[i := won], i);
    if gameType == Sets && reset[i].legsWon >= LegsNeeded(target) then
      var withSet := reset[i := reset[i].(setsWon := reset[i].setsWon + 1, legsWon := 0)];
      (ResetLegs(withSet), true)
    else
      (reset, false)
  }

  /** The win test: legs or sets against the target; the mode plays no part. */
  predicate GameWon(cfg: Config, s: PlayerGameState) {
    if cfg.gameType == Legs then s.legsWon >= cfg.target else s.setsWon >= cfg.target
  }

  /** Submitting the input buffer. */
  function Submit(cfg: Config, g: Game): (r: (Game, Outcome))
    requires 0 <= g.current < |g.states|
    ensures |r.0.states| == |g.states|
    ensures r.1 == Ignored || r.1 == OutOfRange ==> r.0 == g
    ensures r.1 == Bust ==> r.0 == g.(input := [])
    ensures r.1.Scored? || r.1.LegWon? ==> r.0.current == (g.current + 1) % |g.states| && r.0.input == []
    ensures r.1.LegWon? <==>
              g.input != [] && g.input != "0" && ParseScore(g.input) <= 180
              && ParseScore(g.input) == g.states[g.current].score
  {
    if g.input == [] || g.input == "0" then (g, Ignored)
    else
      var score := ParseScore(g.input);
      if score < 0 || score > 180 then (g, OutOfRange)
      else
        var cur := g.states[g.current];
        var newScore := cur.score - score;
        if newScore < 0 then (g.(input := []), Bust)
        else
          var id := cur.player.id;
          var before := if id in g.stats then g.stats[id] else CreateInitialStats();
          var stats := g.stats[id := RegisterTurn(before, score)];
          var next := (g.current + 1) % |g.states|;
          if newScore == 0 then
            var legEnd := CheckoutStates(cfg.gameType, cfg.target, g.states, g.current, score);
            (Game(legEnd.0, next, [], stats), LegWon(legEnd.1, GameWon(cfg, legEnd.0[g.current])))
          else
            (Game(g.states[g.current := AfterTurn(cur, score)], next, [], stats), Scored)
  }

  /** Undo moves the turn back to the previous player and clears the input. */
  function UndoTurn(g: Game): (r: Game)
    requires |g.states| > 0
    ensures 0 <= g.current < |g.states| ==> r.current == (g.current - 1 + |g.states|) % |g.states|
    ensures r.states == g.states && r.stats == g.stats && r.input == []
  {
    g.(current := if g.current > 0 then g.current - 1 else |g.states| - 1, input := [])
  }

  // ---------------------------------------------------------------------
  // The match invariant.
  // ---------------------------------------------------------------------

  predicate StateOk(s: PlayerGameState) {
    && 1 <= s.score <= StartingScore
    && s.turns >= 0
    && s.totalDarts == 3 * s.turns
    && s.totalScore >= 0
    && 0 <= s.lastScore <= 180
    && s.legsWon >= 0
    && s.setsWon >= 0
  }

  predicate DistinctIds(states: seq<PlayerGameState>) {
    forall i, j :: 0 <= i < j < |states| ==> states[i].player.id != states[j].player.id
  }

  /** The statistics of a player agree with the match state on totals. */
  predicate StatsAgree(s: PlayerGameState, st: DartStats) {
    st.totalTurns == s.turns && st.totalScore == s.totalScore
  }

  /** Scores in 1..501, three darts per turn, a valid input buffer, a
      statistics record per player, and, when player ids are distinct,
      statistics that agree with the scoreboard. */
  predicate Inv(g: Game) {
    && |g.states| > 0
    && 0 <= g.current < |g.states|
    && InputOk(g.input)
    && (forall i :: 0 <= i < |g.states| ==> StateOk(g.states[i]))
    && (forall i :: 0 <= i < |g.states| ==> g.states[i].player.id in g.stats)
    && (DistinctIds(g.states) ==>
          forall i :: 0 <= i < |g.states| ==> StatsAgree(g.states[i], g.stats[g.states[i].player.id]))
  }

  /** A match starts in a state that meets the invariant. */
  lemma InitialGameOk(players: seq<Player>)
    requires |players| > 0
    ensures Inv(InitialGame(players))
  {
    var g := InitialGame(players);
    forall i | 0 <= i < |players| ensures StatsAgree(g.states[i], g.stats[g.states[i].player.id]) {
      assert g.states[i].player == players[i];
    }
  }

  /** Checking out keeps every state well formed, leaves players and totals
      alone, and puts every score back at 501. */
  lemma CheckoutStatesOk(gameType: GameType, target: int, states: seq<PlayerGameState>, i: int, score: int)
    requires 0 <= i < |states| && (forall j :: 0 <= j < |states| ==> StateOk(states[j]))
    requires states[i].score == score && 0 <= score <= 180
    ensures var r := CheckoutStates(gameType, target, states, i, score).0;
      && |r| == |states|
      && (forall j :: 0 <= j < |r| ==> StateOk(r[j]) && r[j].score == StartingScore)
      && (forall j :: 0 <= j < |r| ==> r[j].player == states[j].player)
      && r[i].turns == states[i].turns + 1 && r[i].totalScore == states[i].totalScore + score
      && (forall j :: 0 <= j < |r| && j != i ==>
            r[j].turns == states[j].turns && r[j].totalScore == states[j].totalScore)
  {
  }

  /** After player `i` throws `score`, the statistics still agree with
      the scoreboard, provided only the thrower's totals moved. */
  lemma AgreementKept(states: seq<PlayerGameState>, stats: map<int, DartStats>, states': seq<PlayerGameState>,
                      i: int, score: int)
    requires 0 <= i < |states| == |states'|
    requires forall j :: 0 <= j < |states| ==> states[j].player.id in stats
    requires forall j :: 0 <= j < |states| ==> states'[j].player == states[j].player
    requires DistinctIds(states) ==>
               forall j :: 0 <= j < |states| ==> StatsAgree(states[j], stats[states[j].player.id])
    requires states'[i].turns == states[i].turns + 1 && states'[i].totalScore == states[i].totalScore + score
    requires forall j :: 0 <= j < |states| && j != i ==>
               states'[j].turns == states[j].turns && states'[j].totalScore == states[j].totalScore
    ensures var id := states[i].player.id;
      var stats' := stats[id := RegisterTurn(stats[id], score)];
      DistinctIds(states') ==>
        forall j :: 0 <= j < |states'| ==> StatsAgree(states'[j], stats'[states'[j].player.id])
  {
    var id := states[i].player.id;
    var stats' := stats[id := RegisterTurn(stats[id], score)];
    if DistinctIds(states') {
      assert DistinctIds(states);
      RegisterTurnTotals(stats[id], score);
      forall j | 0 <= j < |states'| ensures StatsAgree(states'[j], stats'[states'[j].player.id]) {
        if j != i {
          assert states[j].player.id != id;
        }
      }
    }
  }

  /** An accepted turn that leaves points keeps the invariant. */
  lemma ScoredKeepsInv(cfg: Config, g: Game)
    requires Inv(g) && Submit(cfg, g).1 == Scored
    ensures Inv(Submit(cfg, g).0)
    ensures |Submit(cfg, g).0.states| == |g.states|
    ensures forall j :: 0 <= j < |g.states| ==> Submit(cfg, g).0.states[j].player == g.states[j].player
  {
    var r := Submit(cfg, g).0;
    var score := ParseScore(g.input);
    assert r.states == g.states[g.current := AfterTurn(g.states[g.current], score)];
    AgreementKept(g.states, g.stats, r.states, g.current, score);
  }

  /** A checkout keeps the invariant. */
  lemma LegWonKeepsInv(cfg: Config, g: Game)
    requires Inv(g) && Submit(cfg, g).1.LegWon?
    ensures Inv(Submit(cfg, g).0)
    ensures |Submit(cfg, g).0.states| == |g.states|
    ensures forall j :: 0 <= j < |g.states| ==> Submit(cfg, g).0.states[j].player == g.states[j].player
  {
    var r := Submit(cfg, g).0;
    var score := ParseScore(g.input);
    assert r.states == CheckoutStates(cfg.gameType, cfg.target, g.states, g.current, score).0;
    CheckoutStatesOk(cfg.gameType, cfg.target, g.states, g.current, score);
    AgreementKept(g.states, g.stats, r.states, g.current, score);
  }

  /** Every submission keeps the invariant, and keeps the players in place. */
  lemma SubmitKeepsInv(cfg: Config, g: Game)
    requires Inv(g)
    ensures Inv(Submit(cfg, g).0)
    ensures |Submit(cfg, g).0.states| == |g.states|
    ensures forall j :: 0 <= j < |g.states| ==> Submit(cfg, g).0.states[j].player == g.states[j].player
  {
    var outcome := Submit(cfg, g).1;
    if outcome == Scored {
      ScoredKeepsInv(cfg, g);
    } else if outcome.LegWon? {
      LegWonKeepsInv(cfg, g);
    }
  }

  // ---------------------------------------------------------------------
  // The rules, one outcome at a time.
  // ---------------------------------------------------------------------

  /** An empty buffer or "0" does nothing; a value above 180 is rejected
      and changes nothing, not even the buffer. */
  lemma SubmitIgnoredOrRejected(cfg: Config, g: Game)
    requires 0 <= g.current < |g.states|
    requires g.input == [] || g.input == "0" || ParseScore(g.input) > 180
    ensures Submit(cfg, g).0 == g
    ensures Submit(cfg, g).1 == Ignored || Submit(cfg, g).1 == OutOfRange
  {
  }

  /** A score above what is left is a bust: only the buffer is cleared; the
      score, the statistics and the turn stay, so the same player throws
      again. */
  lemma SubmitBust(cfg: Config, g: Game)
    requires 0 <= g.current < |g.states|
    requires g.input != [] && g.input != "0"
    requires g.states[g.current].score < ParseScore(g.input) <= 180
    ensures Submit(cfg, g) == (g.(input := []), Bust)
  {
  }

  /** An accepted turn that does not finish: the thrower's score drops by
      the turn, the totals grow by it and by 3 darts and 1 turn, the last
      score is recorded, only the thrower's statistics register the turn,
      nobody else changes, and the turn passes to the next player. */
  lemma SubmitScoredTurn(cfg: Config, g: Game)
    requires Inv(g)
    requires g.input != [] && g.input != "0"
    requires ParseScore(g.input) <= 180 && ParseScore(g.input) < g.states[g.current].score
    ensures var score := ParseScore(g.input);
      var i := g.current;
      var (r, outcome) := Submit(cfg, g);
      && outcome == Scored
      && r.states[i].score == g.states[i].score - score
      && r.states[i].totalScore == g.states[i].totalScore + score
      && r.states[i].totalDarts == g.states[i].totalDarts + 3
      && r.states[i].turns == g.states[i].turns + 1
      && r.states[i].lastScore == score
      && r.states[i].legsWon == g.states[i].legsWon && r.states[i].setsWon == g.states[i].setsWon
      && (forall j :: 0 <= j < |g.states| && j != i ==> r.states[j] == g.states[j])
      && r.stats == g.stats[g.states[i].player.id := RegisterTurn(g.stats[g.states[i].player.id], score)]
      && r.current == (i + 1) % |g.states|
      && r.input == []
  {
  }

  /** Reaching exactly 0 wins the leg: every score goes back to 501, the
      thrower's legs rise by one, and in a sets match reaching
      ceil(target / 2) legs wins a set and sets every player's legs to 0. */
  lemma SubmitCheckout(cfg: Config, g: Game)
    requires Inv(g)
    requires g.input != [] && g.input != "0"
    requires ParseScore(g.input) <= 180 && ParseScore(g.input) == g.states[g.current].score
    ensures var i := g.current;
      var (r, outcome) := Submit(cfg, g);
      var legs := g.states[i].legsWon + 1;
      var setWon := cfg.gameType == Sets && legs >= LegsNeeded(cfg.target);
      && outcome == LegWon(setWon, GameWon(cfg, r.states[i]))
      && (forall j :: 0 <= j < |g.states| ==> r.states[j].score == StartingScore)
      && (!setWon ==> r.states[i].legsWon == legs && r.states[i].setsWon == g.states[i].setsWon
                      && forall j :: 0 <= j < |g.states| && j != i ==>
                           r.states[j].legsWon == g.states[j].legsWon)
      && (setWon ==> r.states[i].setsWon == g.states[i].setsWon + 1
                     && forall j :: 0 <= j < |g.states| ==> r.states[j].legsWon == 0)
      && (forall j :: 0 <= j < |g.states| && j != i ==> r.states[j].setsWon == g.states[j].setsWon)
      && (forall j :: 0 <= j < |g.states| && j != i ==>
            r.states[j] == g.states[j].(score := StartingScore, legsWon := if setWon then 0 else g.states[j].legsWon))
      && r.states[i].lastScore == g.states[i].score
      && r.states[i].totalDarts == g.states[i].totalDarts + 3
      && r.states[i].totalScore == g.states[i].totalScore + g.states[i].score
      && r.states[i].turns == g.states[i].turns + 1
      && r.stats == g.stats[g.states[i].player.id := RegisterTurn(g.stats[g.states[i].player.id], g.states[i].score)]
      && r.current == (i + 1) % |g.states|
      && r.input == []
  {
  }

  /** The game is won exactly when the thrower's legs (legs match) or sets
      (sets match) reach the target, after the leg and set are counted. */
  lemma GameWonIff(cfg: Config, g: Game)
    requires Inv(g)
    requires g.input != [] && g.input != "0"
    requires ParseScore(g.input) <= 180 && ParseScore(g.input) == g.states[g.current].score
    ensures var r := Submit(cfg, g).0.states[g.current];
      Submit(cfg, g).1.LegWon? &&
      (Submit(cfg, g).1.gameWon <==>
        if cfg.gameType == Legs then r.legsWon >= cfg.target else r.setsWon >= cfg.target)
  {
  }

  /** First-to and best-of behave the same: the mode is never consulted. */
  lemma ModeIsIgnored(cfg: Config, g: Game)
    requires 0 <= g.current < |g.states|
    ensures Submit(cfg.(gameMode := FirstTo), g) == Submit(cfg.(gameMode := BestOf), g)
  {
  }

  /** Undo moves the turn one player back, round-robin, clears the buffer
      and leaves every score and statistic as it was. */
  lemma UndoTurnRotatesBack(g: Game)
    requires Inv(g)
    ensures UndoTurn(g).current == (g.current - 1 + |g.states|) % |g.states|
    ensures UndoTurn(g).states == g.states && UndoTurn(g).stats == g.stats && UndoTurn(g).input == []
    ensures Inv(UndoTurn(g))
  {
  }

  /** An accepted turn passes the turn to the next player. */
  lemma AcceptedTurnPassesOn(cfg: Config, g: Game)
    requires 0 <= g.current < |g.states|
    requires Submit(cfg, g).1.Scored? || Submit(cfg, g).1.LegWon?
    ensures Submit(cfg, g).0.current == (g.current + 1) % |g.states|
    ensures |Submit(cfg, g).0.states| == |g.states|
  {
  }

  /** After an accepted turn, undo gives the turn back to the player who
      threw it, without taking the turn's score back. */
  lemma UndoAfterAcceptedTurn(cfg: Config, g: Game)
    requires 0 <= g.current < |g.states|
    requires Submit(cfg, g).1.Scored? || Submit(cfg, g).1.LegWon?
    ensures |Submit(cfg, g).0.states| > 0
    ensures UndoTurn(Submit(cfg, g).0).current == g.current
    ensures UndoTurn(Submit(cfg, g).0).states == Submit(cfg, g).0.states
  {
    AcceptedTurnPassesOn(cfg, g);
    UndoReverses(Submit(cfg, g).0, g.current);
  }

  /** Undo reverses a step to the next player. */
  lemma UndoReverses(r: Game, i: int)
    requires 0 <= i < |r.states| && r.current == (i + 1) % |r.states|
    ensures UndoTurn(r).current == i
  {
    if i + 1 < |r.states| {
      assert r.current == i + 1;
    } else {
      assert r.current == 0;
    }
  }

  /** The scenario of a one-leg match: a player on 40 who throws 40 wins the
      leg and the game, and both players are back on 501. */
  lemma CheckoutScenario(a: Player, b: Player)
    requires a.id != b.id
    ensures var g0 := InitialGame([a, b]);
      var g := g0.(states := g0.states[0 := g0.states[0].(score := 40)], input := "40");
      var (r, outcome) := Submit(Config(FirstTo, Legs, 1), g);
      && outcome == LegWon(false, true)
      && r.states[0].legsWon == 1 && r.states[0].score == 501 && r.states[1].score == 501
      && r.current == 1
  {
    var g0 := InitialGame([a, b]);
    var g := g0.(states := g0.states[0 := g0.states[0].(score := 40)], input := "40");
    assert g.input[..1] == "4";
    assert ParseScore(g.input) == 40;
  }

  /** The leg-winning branch of a submission: the thrower is back on 501
      with one more leg, every other player is set back to 501, and in a
      sets match enough legs win a set and set everyone's legs to 0. */
  method WinLeg(gameType: GameType, target: int, states: seq<PlayerGameState>, i: int, score: int)
    returns (updatedStates: seq<PlayerGameState>, setWon: bool)
    requires 0 <= i < |states|
    ensures (updatedStates, setWon) == CheckoutStates(gameType, target, states, i, score)
  {
    var currentState := states[i];
    updatedStates := states[i := AfterTurn(currentState, score).(score := StartingScore, legsWon := currentState.legsWon + 1)];
    updatedStates := ResetOtherScoresInPlace(updatedStates, i);
    setWon := false;
    if gameType == Sets {
      var legsNeeded := LegsNeeded(target);
      if updatedStates[i].legsWon >= legsNeeded {
        var thrower := updatedStates[i];
        updatedStates := updatedStates[i := thrower.(setsWon := thrower.setsWon + 1, legsWon := 0)];
        updatedStates := ResetLegsInPlace(updatedStates);
        setWon := true;
      }
    }
  }

  /** The loop that sets every player but `i` back to 501. */
  method ResetOtherScoresInPlace(states: seq<PlayerGameState>, i: int) returns (r: seq<PlayerGameState>)
    ensures |r| == |states|
    ensures forall j :: 0 <= j < |states| && j != i ==> r[j].score == StartingScore
    ensures r == ResetOtherScores(states, i)
  {
    r := states;
    for idx := 0 to |r|
      invariant |r| == |states|
      invariant forall j :: 0 <= j < idx ==>
                  r[j] == if j == i then states[j] else states[j].(score := StartingScore)
      invariant forall j :: idx <= j < |states| ==> r[j] == states[j]
    {
      if idx != i {
        r := r[idx := r[idx].(score := StartingScore)];
      }
    }
  }

  /** The submit handler on the match state: validate the buffer, detect a
      bust, register the turn, then either finish the leg (and maybe the
      set) or subtract the score, and pass the turn on. */
  method SubmitTurn(cfg: Config, g: Game) returns (r: Game, outcome: Outcome)
    requires 0 <= g.current < |g.states|
    ensures (r, outcome) == Submit(cfg, g)
  {
    r := g;
    if g.input == [] || g.input == "0" {
      return r, Ignored;
    }
    var score := ParseScore(g.input);
    if score < 0 || score > 180 {
      return r, OutOfRange;
    }

    var currentState := g.states[g.current];
    var newScore := currentState.score - score;
    if newScore < 0 {
      r := r.(input := []);
      return r, Bust;
    }

    var updatedStates := g.states;
    var currentPlayerId := currentState.player.id;
    var currentPlayerStat := if currentPlayerId in g.stats then g.stats[currentPlayerId] else CreateInitialStats();
    var updatedStat := RegisterTurn(currentPlayerStat, score);
    var updatedStats := g.stats[currentPlayerId := updatedStat];

    if newScore == 0 {
      var setWon;
      updatedStates, setWon := WinLeg(cfg.gameType, cfg.target, updatedStates, g.current, score);
      var gameWon :=
        if cfg.gameType == Legs then updatedStates[g.current].legsWon >= cfg.target
        else updatedStates[g.current].setsWon >= cfg.target;
      outcome := LegWon(setWon, gameWon);
    } else {
      updatedStates := updatedStates[g.current := AfterTurn(currentState, score)];
      outcome := Scored;
    }

    r := Game(updatedStates, (g.current + 1) % |g.states|, [], updatedStats);
  }

  /** The loop that sets every player's legs back to 0. */
  method ResetLegsInPlace(states: seq<PlayerGameState>) returns (r: seq<PlayerGameState>)
    ensures |r| == |states|
    ensures forall j :: 0 <= j < |states| ==> r[j].legsWon == 0
    ensures r == ResetLegs(states)
  {
    r := states;
    for idx := 0 to |r|
      invariant |r| == |states|
      invariant forall j :: 0 <= j < idx ==> r[j] == states[j].(legsWon := 0)
      invariant forall j :: idx <= j < |states| ==> r[j] == states[j]
    {
      r := r[idx := r[idx].(legsWon := 0)];
    }
  }

  // ---------------------------------------------------------------------
  // The match screen's state, updated in place.
  // ---------------------------------------------------------------------

  class Match {
    const players: seq<Player>
    const gameMode: GameMode
    const gameType: GameType
    const target: int
    var gameStates: seq<PlayerGameState>
    var currentPlayerIndex: int
    var inputScore: string
    var playerStats: map<int, DartStats>

    function Snapshot(): Game
      reads this
    {
      Game(gameStates, currentPlayerIndex, inputScore, playerStats)
    }

    function Cfg(): Config {
      Config(gameMode, gameType, target)
    }

    ghost predicate Valid()
      reads this
    {
      && |gameStates| == |players|
      && (forall i :: 0 <= i < |players| ==> gameStates[i].player == players[i])
      && InputOk(inputScore)
      && (|players| > 0 ==> Inv(Snapshot()))
      && (|players| == 0 ==> currentPlayerIndex == 0)
    }

    /** Set up the match from the chosen players and settings. */
    constructor (players: seq<Player>, gameMode: GameMode, gameType: GameType, target: int)
      ensures Valid()
      ensures this.players == players && this.gameMode == gameMode
      ensures this.gameType == gameType && this.target == target
      ensures Snapshot() == InitialGame(players)
    {
      this.players := players;
      this.gameMode := gameMode;
      this.gameType := gameType;
      this.target := target;

      var initialStates: seq<PlayerGameState> := [];
      for i := 0 to |players|
        invariant |initialStates| == i
        invariant forall j :: 0 <= j < i ==> initialStates[j] == InitialState(players[j])
      {
        initialStates := initialStates + [InitialState(players[i])];
      }

      var initialStats: map<int, DartStats> := map[];
      for i := 0 to |players|
        invariant initialStats.Keys == Ids(players[..i])
        invariant forall id :: id in initialStats ==> initialStats[id] == CreateInitialStats()
      {
        assert players[..i + 1] == players[..i] + [players[i]];
        initialStats := initialStats[players[i].id := CreateInitialStats()];
      }
      assert players[..|players|] == players;

      gameStates := initialStates;
      currentPlayerIndex := 0;
      inputScore := [];
      playerStats := initialStats;
      new;
      assert Snapshot() == InitialGame(players);
      if |players| > 0 {
        InitialGameOk(players);
      }
    }

    method HandleNumberClick(num: int)
      requires Valid() && 0 <= num <= 9
      modifies this
      ensures Valid()
      ensures Snapshot() == old(Snapshot()).(input := NumberClick(old(inputScore), num))
    {
      if |inputScore| < MaxInputLength {
        inputScore := inputScore + [DigitChar(num)];
      }
    }

    method HandleBackspace()
      requires Valid()
      modifies this
      ensures Valid()
      ensures Snapshot() == old(Snapshot()).(input := Backspace(old(inputScore)))
    {
      if inputScore != [] {
        inputScore := inputScore[..|inputScore| - 1];
      }
    }

    /** Submit the buffer: validate, detect a bust, register the turn in
        the thrower's statistics, then either lower the thrower's score or,
        on reaching 0, win the leg (and maybe a set) and reset the scores;
        finally clear the buffer and pass the turn on. */
    method HandleSubmit() returns (outcome: Outcome)
      requires Valid() && |players| > 0
      modifies this
      ensures Valid()
      ensures (Snapshot(), outcome) == Submit(Cfg(), old(Snapshot()))
    {
      SubmitKeepsInv(Cfg(), Snapshot());
      var next;
      next, outcome := SubmitTurn(Cfg(), Snapshot());
      gameStates, currentPlayerIndex, inputScore, playerStats := next.states, next.current, next.input, next.stats;
    }

    /** Give the turn back to the previous player and clear the buffer. */
    method HandleUndoTurn()
      requires Valid() && |players| > 0
      modifies this
      ensures Valid()
      ensures Snapshot() == UndoTurn(old(Snapshot()))
    {
      if currentPlayerIndex > 0 {
        currentPlayerIndex := currentPlayerIndex - 1;
      } else {
        currentPlayerIndex := |players| - 1;
      }
      inputScore := [];
    }
  }
}
