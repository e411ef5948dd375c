# dartclub 501 core, modelled in Dafny

This project models the rules engine of the dartclub 501 scorer:

- the **checkout analyser**: for a remaining score, is a finish possible, and how many darts of it could have been thrown at a double?
- the **statistics accumulator**: the per-player record a match builds turn by turn.
- the **match screen**: scores, legs and sets, the three-digit input buffer, turn submission and turn undo.
- the **career statistics**: the page folds a player's stored per-game records into totals, weighted averages, the best leg and the five highest finishes.

Files:

- `checkout.dfy` (`Checkout`):
  - The set of possible "darts on a double" counts is defined over dart values, as `Options`.
  - The method `CalculateCheckoutInfo` keeps the source's loops and is proved to return the report of that set.
- `dartlogic.dfy` (`DartLogic`): the accumulator is a datatype with pure update functions. Lemmas state what each update does and what a whole match of turns adds up to.
- `play501game.dfy` (`Play501Game`):
  - The rules are first stated on values: `Game`, `Submit` and `UndoTurn`, plus the invariant `Inv` that they keep.
  - The class `Match` holds the same state in fields that its handlers update in place.
  - Each handler is proved to produce exactly the state the rules describe.
- `statistieken.dfy` (`Statistieken`):
  - The method `Aggregate` runs the page's single pass over the records.
  - It is proved equal to recursive definitions of each total and average.
  - The finish table is a JavaScript `Map` that iterates in insertion order, so it is modelled as a map plus the key order.
- `wrappers.dfy` (`Wrappers`): `Option`, used for the nullable columns.

Where the code departs from the usual 501 rules, the model follows the code:

- **Impossible scores and busts:** there is no list of impossible turn scores. A remaining score of 1 is not a bust. On a bust the same player throws again, because the turn index does not move.
- **First nine:** first-nine turns count per match, not per leg, because the turn count is never reset.
- **Sets:** a set needs `ceil(target / 2)` legs.
- **Winning the game:** the win test ignores first-to versus best-of.
- **Undo:** undo only moves the turn back. It does not restore scores or statistics.
- **Impossible checkouts:** the analyser reports every score above 160 as impossible, including 170. It never lets the bullseye be the last dart, so it misses 164 (treble 19, treble 19, bullseye) and 170 (treble 20, treble 20, bullseye). 162, 166 and 168 have no three-dart finish even with a bullseye finish, and the odd scores fall to the odd check.
- **Zero turns:** input such as "00" parses to 0 and is accepted as a turn of 0. Only the literal "0" is ignored.

## Model

| member | source | states |
|---|---|---|
| Checkout.OnDouble | lib/checkout.ts:80-82 | A dart before the last one adds one dart on a double exactly when it is even and at most 40; the addition is 0 or 1 |
| Checkout.Ascending | lib/checkout.ts:89 | The sorted array of a subset of {1,2,3} holds exactly the set's members in strictly ascending order |
| Checkout.Report | lib/checkout.ts:89-96 | The report is possible iff the set is non-empty; it lists exactly the set, ascending; min and max are members bounding every member; an empty set gives the empty report with 0 and 0 |
| Checkout.CheckoutInfoOf | lib/checkout.ts:6-11 | The CheckoutInfo of a score: possible iff some finish exists, listing exactly the darts-on-double counts of its finishes in ascending order, with their least and greatest |
| Checkout.Options | lib/checkout.ts:50-87 | The darts-on-double counts of every finish, defined over dart values; non-empty only for even scores in 2..170, and holding 1 for every even score up to 40 |
| Checkout.CalculateCheckoutInfo | lib/checkout.ts:17-97 | The analyser with its range check, odd check, value list, single loop and nested loop returns exactly the report of the finishes defined over dart values |
| Checkout.CollectFinishes | lib/checkout.ts:38-87 | For an even score in 2..170, the value list and the one-, two- and three-dart searches collect exactly the counts of the finishes |
| Checkout.PossibleScores | lib/checkout.ts:40-48 | The pushed list has 62 entries and holds exactly the dart values (singles, doubles, triples, 25, 50) |
| Checkout.AddTwoDartFinishes | lib/checkout.ts:56-70 | The two-dart loop adds exactly the counts of the first darts that do not overshoot and leave a double |
| Checkout.AddThreeDartFinishes | lib/checkout.ts:73-87 | The nested loop adds exactly the counts of all first/second dart pairs that leave a double |
| Checkout.AddSecondDarts | lib/checkout.ts:76-85 | The inner loop, for one first dart, adds exactly the counts of the second darts that leave a double |
| Checkout.DartValuesUpToMembers | lib/checkout.ts:42-46 | After n rounds of pushing i, 2i, 3i the list holds exactly the singles up to n, the even values up to 2n and the multiples of 3 up to 3n |
| Checkout.DartValuesAreDartValues | lib/checkout.ts:40-48 | The full list holds exactly the values one dart can score |
| Checkout.TwoDartCountsFromList | lib/checkout.ts:57-69 | Iterating over the list finds the same counts as ranging over all dart values |
| Checkout.ThreeDartCountsFromList | lib/checkout.ts:74-86 | The nested iteration over the list finds the same counts as ranging over all pairs of dart values |
| Checkout.OptionsWithinOneToThree | lib/checkout.ts:8 | Every count is 1, 2 or 3 |
| Checkout.NoThreeDartFinishAbove160 | lib/checkout.ts:73-87 | Above 160 no pair of dart values leaves a double, so the three-dart search finds nothing |
| Checkout.NoThreeDartFinishBelow | lib/checkout.ts:73-87 | Below 4 no three-dart finish exists |
| Checkout.PossibleIff | lib/checkout.ts:17-97 | A finish is reported exactly for the even scores 2..160 (both directions) |
| Checkout.ImpossibleOutsideRangeOrOdd | lib/checkout.ts:19-36 | Scores below 2, above 170 or odd give isPossible false, an empty list and 0, 0 |
| Checkout.OneDartFinishes | lib/checkout.ts:51-53 | Every even score up to 40 is possible, lists 1 and has minimum 1 |
| Checkout.FortyAllowsEveryCount | lib/checkout.ts:51-87 | 40 allows one, two or three darts on a double: the report is [1,2,3] with min 1 and max 3 |
| Checkout.TwoIsOneDartOnly | lib/checkout.ts:51-87 | 2 is only a one-dart finish: the report is [1] with min and max 1 |
| Checkout.MaximumCheckoutReportedImpossible | lib/checkout.ts:17-97 | 170 passes the range check but is reported impossible |
| Checkout.GetMinDartsOnDouble | lib/checkout.ts:103-122 | The result is 0..3, and 0 exactly when the analyser finds no finish |
| Checkout.MinDartsByRange | lib/checkout.ts:103-122 | The helper's answer, by range: 0 for odd or out-of-range scores and above 160, 1 up to 40, 2 up to 100, else 3 |
| Checkout.MinDartsDisagreesWithAnalyser | lib/checkout.ts:115-121 | At 160 the helper answers 3 while the analyser's minimum and maximum are both 1 |
| Checkout.MinDartsOnDouble | lib/checkout.ts:103-122 | The corrected minimum: 0 exactly when no finish exists; otherwise a reported count that is at most every reported count and at most the maximum |
| Checkout.GetMaxDartsOnDouble | lib/checkout.ts:127-130 | The result is 0..3, 0 exactly when no finish exists, otherwise a reported count at least every reported count |
| DartLogic.CreateInitialStats | lib/dartlogic.ts:21-39 | Every counter starts at 0 and the leg darts list is empty |
| DartLogic.RegisterTurn | lib/dartlogic.ts:43-81 | A turn leaves the double counts, the highest finish and the leg darts unchanged |
| DartLogic.RegisterTurnTotals | lib/dartlogic.ts:49-50 | A turn adds its score to the total and counts exactly one turn |
| DartLogic.RegisterTurnFirstNine | lib/dartlogic.ts:52-55 | The first-nine totals move by the score and one turn exactly while the new turn count is at most 3, otherwise they stay |
| DartLogic.RegisterTurnHighest | lib/dartlogic.ts:62-64 | The highest score becomes the larger of the old highest and the turn |
| DartLogic.RegisterTurnBands | lib/dartlogic.ts:57-79 | 180 counts only 180; the bands 140..179, 100..139, 80..99 are disjoint, at most one moves, none for 180 or below 80 |
| DartLogic.RegisterDoubleAttempt | lib/dartlogic.ts:84-93 | The darts thrown at a double grow by the darts on double and the doubles hit by the hits; nothing else changes |
| DartLogic.TurnAndDoubleAttemptCommute | lib/dartlogic.ts:43-93 | Registering a turn and a double attempt commute |
| DartLogic.DoubleAttemptsAdd | lib/dartlogic.ts:84-93 | Two double attempts equal one with the summed counts |
| DartLogic.RegisterTurnsFromInitial | lib/dartlogic.ts:43-81 | From the initial record a sequence of turns yields its sum and length, the sum and count of its first three turns, its highest score, and its 180 and band counts; double counts stay 0 |
| DartLogic.FirstNineCapped | lib/dartlogic.ts:52-55 | After three turns the first-nine count is 3 and a fourth turn leaves the first-nine score as it was |
| DartLogic.CalculateFinalStats | lib/dartlogic.ts:97-109 | The averages are the total divided by the turns (0 without turns), and finish, doubles and 180s are copied |
| Play501Game.InitialGame | app/play501game/page.tsx:59-78 | Every player starts at 501 with all counters 0, the first player throws, the buffer is empty, and every player id has a fresh statistics record |
| Play501Game.Match.constructor | app/play501game/page.tsx:59-78 | The loops build exactly the initial game, which meets the match invariant |
| Play501Game.InitialGameOk | app/play501game/page.tsx:59-78 | The initial game meets the match invariant |
| Play501Game.Backspace | app/play501game/page.tsx:97-99 | Backspace drops the last character, and leaves an empty buffer empty |
| Play501Game.InputStaysOk | app/play501game/page.tsx:91-99 | The buffer stays at most three digits under digit keys and backspace |
| Play501Game.NumberClickThenBackspace | app/play501game/page.tsx:91-99 | With room left a digit key appends that digit to the value and backspace undoes it; on a full buffer the key does nothing |
| Play501Game.ParseScore | app/play501game/page.tsx:104 | The decimal value of the buffer; n digits parse to less than 10^n, so three digits give at most 999 |
| Play501Game.LeadingZeroIgnored | app/play501game/page.tsx:102-104 | A leading zero does not change the value, so "00" parses to 0 although only "0" is ignored |
| Play501Game.NumberClick | app/play501game/page.tsx:91-95 | With fewer than three characters a digit key appends one digit and keeps the rest; on a full buffer it changes nothing |
| Play501Game.Match.HandleNumberClick | app/play501game/page.tsx:91-95 | Only the buffer changes, as the digit key rule says, and the invariant holds |
| Play501Game.Match.HandleBackspace | app/play501game/page.tsx:97-99 | Only the buffer changes, as the backspace rule says, and the invariant holds |
| Play501Game.LegsNeeded | app/play501game/page.tsx:150 | The legs per set are ceil(target / 2) |
| Play501Game.ResetOtherScores | app/play501game/page.tsx:142-146 | Every player except the thrower is set back to 501, and nothing else changes |
| Play501Game.ResetOtherScoresInPlace | app/play501game/page.tsx:142-146 | The loop sets every other player back to 501 and equals the reset rule |
| Play501Game.ResetLegs | app/play501game/page.tsx:155-157 | Every player's legs are set to 0, and nothing else changes |
| Play501Game.ResetLegsInPlace | app/play501game/page.tsx:155-157 | The loop sets every player's legs to 0 and equals the reset rule |
| Play501Game.CheckoutStates | app/play501game/page.tsx:129-159 | A checkout puts every score at 501 with the players in place; a set is won iff the match is in sets and the thrower's legs reach ceil(target / 2), and then the thrower gains a set and every player's legs are 0; otherwise the thrower gains a leg. The thrower's state is exactly the accepted turn with these leg and set changes. Every other player keeps every field except the score, and except the legs on a set win |
| Play501Game.WinLeg | app/play501game/page.tsx:129-159 | The leg-winning branch produces exactly the checkout states and whether a set was won |
| Play501Game.CheckoutStatesOk | app/play501game/page.tsx:129-159 | A checkout keeps every state well formed and every player in place, puts every score at 501, and moves only the thrower's turns and total |
| Play501Game.Submit | app/play501game/page.tsx:101-184 | The submission rule: ignored or rejected input changes nothing; a bust only clears the buffer; an accepted turn clears the buffer and passes the turn on; a leg is won exactly when the parsed score is in range and equals what is left |
| Play501Game.SubmitTurn | app/play501game/page.tsx:101-184 | The submit handler on values computes exactly the submission rule: the new game and the outcome |
| Play501Game.Match.HandleSubmit | app/play501game/page.tsx:101-184 | The fields become exactly the submission rule's new game, the outcome is returned, and the invariant holds |
| Play501Game.SubmitIgnoredOrRejected | app/play501game/page.tsx:102-108 | Empty input, "0", or a value above 180 changes nothing, not even the buffer |
| Play501Game.SubmitBust | app/play501game/page.tsx:110-117 | A score above what is left only clears the buffer; the same player throws again |
| Play501Game.SubmitScoredTurn | app/play501game/page.tsx:119-183 | A non-finishing turn lowers the thrower's score, adds to totals, 3 darts and 1 turn, records the last score, registers the turn in only the thrower's statistics, changes no one else, clears the buffer and passes the turn on |
| Play501Game.SubmitCheckout | app/play501game/page.tsx:119-183 | Reaching 0 puts every score at 501 and adds a leg; in a sets match enough legs win a set and reset everyone's legs; the thrower's last score, darts, turns and total are updated; every other player keeps every field except the score, and except the legs on a set win; only the thrower's statistics register the turn; the buffer is cleared and the turn passes on; the outcome says whether the set and the game were won |
| Play501Game.GameWonIff | app/play501game/page.tsx:162-164 | After a checkout the game is won exactly when the thrower's legs (legs match) or sets (sets match) reach the target |
| Play501Game.ModeIsIgnored | app/play501game/page.tsx:101-184 | First-to and best-of give the same submission result |
| Play501Game.SubmitKeepsInv | app/play501game/page.tsx:101-184 | Every submission keeps the invariant: scores in 1..501, three darts per turn, a valid buffer, a statistics record for every player, and, when player ids are distinct, statistics that agree with the scoreboard |
| Play501Game.ScoredKeepsInv | app/play501game/page.tsx:119-183 | A scored turn keeps the invariant and the players in place |
| Play501Game.LegWonKeepsInv | app/play501game/page.tsx:119-168 | A checkout keeps the invariant and the players in place |
| Play501Game.AgreementKept | app/play501game/page.tsx:121-127 | Registering the thrower's turn keeps statistics and scoreboard in agreement |
| Play501Game.AcceptedTurnPassesOn | app/play501game/page.tsx:183 | An accepted turn passes the turn to the next player, round-robin |
| Play501Game.UndoTurn | app/play501game/page.tsx:212-220 | Undo moves the turn one player back, round-robin, clears the buffer and keeps scores and statistics |
| Play501Game.UndoTurnRotatesBack | app/play501game/page.tsx:212-220 | Undo moves the turn one player back, round-robin, clears the buffer, keeps scores and statistics, and keeps the invariant |
| Play501Game.UndoReverses | app/play501game/page.tsx:212-220 | Undo reverses a step to the next player |
| Play501Game.UndoAfterAcceptedTurn | app/play501game/page.tsx:212-220 | After an accepted turn, undo gives the turn back to the thrower without taking the score back |
| Play501Game.Match.HandleUndoTurn | app/play501game/page.tsx:212-220 | The fields become exactly the undo rule's game, and the invariant holds |
| Play501Game.CheckoutScenario | app/play501game/page.tsx:101-184 | In a first-to-1-leg match a player on 40 who enters 40 wins the leg and the game, both players are back at 501, and the other player throws next |
| Statistieken.Aggregate | app/statistieken/page.tsx:104-206 | No records give no statistics; otherwise the weighted averages, the counter totals and the finishes above 100 are as defined; the best leg is the least present best leg (null iff none); the top finishes are min(5, n) of the valid finishes, descending, and at least every finish left out |
| Statistieken.ReadRecords | app/statistieken/page.tsx:112-178 | The single pass yields the weighted sums and weights, the finish table of the valid finishes, the best legs and the summed counters |
| Statistieken.AddThreeDart | app/statistieken/page.tsx:134-137 | A record adds its average times its turns to the three-dart sums exactly when both are present and the turns are positive |
| Statistieken.AddFirstNine | app/statistieken/page.tsx:140-145 | A record adds its first-nine average times min(3, turns) exactly when both are present and the turns are positive |
| Statistieken.Weight | app/statistieken/page.tsx:134-145 | A record's weight is positive iff it contributes; it is its turns for the three-dart average and min(3, turns) for the first nine |
| Statistieken.RecordFinish | app/statistieken/page.tsx:148-156 | A finish in 2..170 is counted once more in the table, and once above 100 when it is; anything else changes nothing |
| Statistieken.CountFinish | app/statistieken/page.tsx:150-151 | The table becomes the table of the finishes seen so far plus this one |
| Statistieken.TallyTabulates | app/statistieken/page.tsx:148-156 | The table of a list of finishes has each finish once in its key order, with its number of occurrences, and nothing else |
| Statistieken.AddCounters | app/statistieken/page.tsx:163-177 | The present counters are added to the totals; null ones add nothing |
| Statistieken.ExpandCounts | app/statistieken/page.tsx:190-196 | The expanded list holds each finish exactly as often as the table counts it |
| Statistieken.TopFinishes | app/statistieken/page.tsx:188-201 | The top finishes are min(5, n) of the finishes, descending, and at least every finish left out |
| Statistieken.TopOfSorted | app/statistieken/page.tsx:199-201 | The first min(5, n) of a descending arrangement are sorted, drawn from the finishes, and the largest of them |
| Statistieken.Insert | app/statistieken/page.tsx:200 | Insertion adds exactly the one element |
| Statistieken.InsertSorted | app/statistieken/page.tsx:200 | Insertion into a descending sequence keeps it descending |
| Statistieken.SortDescending | app/statistieken/page.tsx:200 | The sort is a permutation and descending |
| Statistieken.PrefixOfSortedIsLargest | app/statistieken/page.tsx:199-201 | A prefix of a descending sequence is at least every element left out |
| Statistieken.Minimum | app/statistieken/page.tsx:204-206 | The minimum is an element and at most every element |
| Statistieken.ValidFinishesMembers | app/statistieken/page.tsx:148-151 | A value is collected as a finish exactly when some record holds it as a finish in 2..170 |
| Statistieken.ValidFinishesInRange | app/statistieken/page.tsx:148-156 | Every collected finish lies in 2..170, and the count above 100 is at most their number |
| Statistieken.ContributionInRange | app/statistieken/page.tsx:134-145 | A record's contribution lies between 0 and 180 times its weight |
| Statistieken.WeightedSumInRange | app/statistieken/page.tsx:132-145 | The weighted sum lies between 0 and 180 times the total weight |
| Statistieken.AverageInRange | app/statistieken/page.tsx:180-186 | When every contributing per-game average lies in 0..180, so does the career average |

## Left out

- Storing and loading records in the database are not modelled: storing a finished game (`finishGame`, app/play501game/page.tsx:186-210), and the query and its error path before the aggregation. The records arrive as a sequence, and the game's outcome says when the game is won.
- Floating point is modelled as exact reals (`real`). The model does not capture rounding in the weighted sums or quotients, nor `Math.round` and `toFixed` in the display.
- Reading the players and settings from the URL is not modelled, nor JSON parsing, the random game id, navigation and rendering. The constructor receives the players and settings directly.
- React state updates are modelled as field assignments that take effect immediately. The handlers read only the state they were rendered with, so this matches one render per event. The shallow copy `[...gameStates]` shares player objects with the old state, and the forEach loops write through that sharing. The model builds new values instead, so it does not capture that aliasing.
- `parseInt` is modelled only on strings of digits, which is all the buffer can hold.
- Only the columns the aggregation reads are kept in a stored record (`DartStat`).
- The filtered `finishRecords` list (app/statistieken/page.tsx:109) is computed but never used, so it is not modelled.
- The profile list, the profile modal and other page state around the aggregation are not modelled.
- Statistieken.AverageInRange: the bound is stated for per-game averages in 0..180, the range a turn can score. The more general bound (between the smallest and largest per-game average) needs nonlinear real arithmetic that the solver does not settle reliably.
- `registerDoubleAttempt` is modelled, but the match screen never calls it: it never asks how many darts were thrown at a double. `calculateFinalStats` is called only when a finished game is stored, which is not modelled.
- `Array.from(set).sort()` sorts as strings. For the values 1, 2 and 3 this is numeric order, which is what `Ascending` produces.

## Findings

| source | as written | input that shows it | evidently intended | confidence | as-written member | corrected member |
|---|---|---|---|---|---|---|
| lib/checkout.ts:115-121 | the minimum darts on a double is decided by range: 2 for 42..100, 3 above 100 | 160: the only finish is treble 20, treble 20, double 20 (one dart on a double), but the helper answers 3, above the analyser's maximum of 1 | the least of the counts the analyser reports | medium, not executed | Checkout.MinDartsDisagreesWithAnalyser | Checkout.MinDartsOnDouble |
