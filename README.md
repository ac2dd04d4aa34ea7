# Roulette betting engine

This project models the betting engine of the roulette simulator, `simular_ruleta`.
The simulator runs a number of runs (`n_corridas`) of a single-zero wheel, each run
being a given number of spins (`n_tiradas`). One number (0 to 36) may be chosen for
the whole simulation, and a straight bet on it is placed each round. The stake follows one of
four progressions:

- Martingale (`'m'`): double after a loss, back to the base stake of 10 after a win.
- D'Alembert (`'d'`): 10 more after a loss, 10 less after a win, never below 10.
- Fibonacci (`'f'`): the base times an entry of `[1, 1, 2, 3, 5, 8, 13, 21, 34]`,
  moving one entry on after a loss and two back after a win.
- Paroli (`'o'`): double after a win while fewer than three wins in a row have
  been counted, back to the base otherwise.

Each round of a run goes as follows:

1. In finite-capital mode the run stops (ruin) when a round starts with capital at
   or below zero.
2. The stake is clamped to the capital.
3. A win pays 35 times the stake and a loss costs the stake.
4. The progression moves to the next stake.
5. The round's capital, the cumulative frequency of the chosen number, its hit
   count and the win/loss ratio are recorded.

A run that stops early has its four series padded to `n_tiradas` entries by
repeating their last entry. The simulation returns every run's series and the
number of runs that ended in ruin.

The model has four modules:

- `Wrappers` (`wrappers.dfy`): `Option`. `None` stands for the simulator's NaN
  ("undefined") entries.
- `Strategies` (`strategies.dfy`): the constants, and `NextStake`, the pure update
  of the stake after a round.
- `Roulette` (`roulette.dfy`): the state of a run and its specification functions:
  - `Step`: one round;
  - `ReplayUpTo`: the rounds with the early exit on ruin;
  - `Recorded` and `Padded`: the series;
  - `Run`: one run;
  - `Collected`: all runs.

  The imperative engine is proved equal to these functions:
  - `SettleRound` and `RecordRound`: the two halves of a round;
  - `PlayRounds`: the rounds loop with its `break`;
  - `PadRun`: the padding loop;
  - `SimulateRun`: one run;
  - `Simulate`: the outer loop over the runs, with the bankruptcy tally.
- `RouletteProperties` (`properties.dfy`): what holds for every run, such as
  progression bounds, capital never negative, ruin being final, the shape of the
  padded series, the consistency of the statistics and the bankruptcy count.
  `RouletteScenarios` (`scenarios.dfy`) works small runs out exactly.

Other modelling choices:

- Capital is `Unlimited` (the simulator's `float('inf')`, which never clamps or
  ruins, and which absorbs every stake the model lets it meet) or `Funds(amount)`.
  The overflow of a very large stake against it is not modelled (see "Left out").
- Frequencies and ratios are kept as the exact pair of counts the simulator
  divides (`Fraction`).
- The spins are inputs: one `seq<int>` per run.

Behaviour of the simulator worth noting, which the model keeps:

- Only straight-number bets exist.
- The Paroli streak is reset only by a loss, not when the stake resets after the third win.
- A run whose capital first reaches 0 on its last spin is not counted as bankrupt.
- The simulator records no net-profit series.
- The clamped stake is the one the progression continues from.

## Model

| member | source | states |
|---|---|---|
| Strategies.ParoliCap | TP_1.2/simulacion1.2.py:80-84 | The largest stake Paroli can hold with a given streak lies between the base and four times the base, doubling with each win below the limit of three (a stake clamped below the base stays below this cap) |
| Strategies.NextStake | TP_1.2/simulacion1.2.py:69-84 | The stake update keeps the Fibonacci index inside the nine-entry table for every strategy and outcome |
| Strategies.MartingaleRule | TP_1.2/simulacion1.2.py:70-71 | Martingale: after a loss the next stake is exactly double, after a win exactly the base 10 |
| Strategies.DAlembertRule | TP_1.2/simulacion1.2.py:72-73 | D'Alembert: a loss adds 10, a win removes 10, and the next stake is never below the base |
| Strategies.FibonacciRule | TP_1.2/simulacion1.2.py:74-79 | Fibonacci: a win moves the index two back (not below 0), a loss one on (not past 8); the stake is 10 times the entry, between 10 and 340 |
| Strategies.ParoliRule | TP_1.2/simulacion1.2.py:80-84 | Paroli: a win leaving fewer than three consecutive wins doubles the stake; a third win or any loss resets it to the base |
| Strategies.FibBounded | TP_1.2/simulacion1.2.py:46 | Every entry of the Fibonacci table lies between 1 and 34 |
| Roulette.Capital.Add | TP_1.2/simulacion1.2.py:60-67 | Adding to infinite capital leaves it infinite; adding to a finite amount adds exactly the delta |
| Roulette.Init | TP_1.2/simulacion1.2.py:26-47 | A run starts with no win, loss or hit counted, at the base stake with the Fibonacci index 0 (so the base is the first entry times the base), with the initial amount as capital in finite mode and infinite capital exactly in infinite mode |
| Roulette.Won | TP_1.2/simulacion1.2.py:57 | A round is won exactly when a number was chosen and the spin shows it; StepCounts counts each such round once |
| Roulette.Exhausted | TP_1.2/simulacion1.2.py:50 | Only a finite capital at or below zero ends a run, and infinite capital never does; StopsOnlyOnRuin shows this is the only way a run stops early |
| Roulette.Settled | TP_1.2/simulacion1.2.py:54-55 | The stake settled never exceeds the stake requested nor, in finite mode, the capital; it is one of the two; infinite mode never clamps |
| Roulette.Step | TP_1.2/simulacion1.2.py:54-91 | One round counts exactly one more win or loss, counts a hit exactly when the round is won, keeps the Fibonacci index in range and keeps infinite capital infinite |
| Roulette.ReplayUpTo | TP_1.2/simulacion1.2.py:49-52 | After k spins at most k rounds have been played, and the progression index is in range |
| Roulette.FreqAt | TP_1.2/simulacion1.2.py:89-99 | With a chosen number the frequency after round i is the hits over i, whose value is hits / i; without one it is undefined. StatisticsConsistent ties it to the spins (the chosen number's occurrences over i) and StatisticsWithoutChoice gives the undefined case |
| Roulette.RatioAt | TP_1.2/simulacion1.2.py:95-101 | The ratio is undefined exactly when no number was chosen or no round was lost yet; otherwise it is wins over a positive count of losses, whose value is wins / losses. StatisticsConsistent ties it to the spins (undefined exactly when every round so far was won, otherwise wins over the j + 1 - wins losses) and StatisticsWithoutChoice gives the undefined case |
| Roulette.Recorded | TP_1.2/simulacion1.2.py:86-101 | The rounds played append one entry to each of the four series, so all four have one entry per round |
| Roulette.Pad | TP_1.2/simulacion1.2.py:103-113 | A padded series is n entries long, or keeps its length when already longer; PadShape states that it begins with the series itself and then repeats its last entry |
| Roulette.Padded | TP_1.2/simulacion1.2.py:103-113 | Each of the four series no longer than n comes out exactly n entries long |
| Roulette.Run | TP_1.2/simulacion1.2.py:24-120 | Each of the four series of a run has exactly one entry per spin; RunShape states what each entry is |
| Roulette.Collected | TP_1.2/simulacion1.2.py:115-120 | The result holds one series of each kind per run, and the bankruptcy count never exceeds the number of runs |
| Roulette.PadExtend | TP_1.2/simulacion1.2.py:104-113 | One more pass of the padding loop appends a copy of the last entry, or the undefined value when there is none |
| Roulette.BrokeIsFinal | TP_1.2/simulacion1.2.py:50-52 | Once a run has stopped on ruin, further spins change nothing |
| Roulette.SettleRound | TP_1.2/simulacion1.2.py:54-84 | The clamp, settlement, counters and progression update of a round compute exactly the round specification Step |
| Roulette.RecordRound | TP_1.2/simulacion1.2.py:86-101 | Counting a hit of the chosen number and appending the round's capital, frequency, hit count and ratio (undefined, 0, undefined without a chosen number) |
| Roulette.ReplayAdvance | TP_1.2/simulacion1.2.py:49-86 | A round that starts with capital left is played: its state is appended to the rounds played and becomes the current one |
| Roulette.ReplayStops | TP_1.2/simulacion1.2.py:50-52 | A round that starts without capital ends the run: the whole run keeps the rounds played so far and is bankrupt |
| Roulette.RecordOne | TP_1.2/simulacion1.2.py:86-101 | Recording one more round extends each series by that round's entry |
| Roulette.PlayRounds | TP_1.2/simulacion1.2.py:49-101 | The rounds loop, with its break on ruin, yields exactly the series of the rounds the specification plays and reports ruin exactly when the specification stops |
| Roulette.PadRun | TP_1.2/simulacion1.2.py:103-113 | The padding loop yields each series padded to n entries by repeating its last entry |
| Roulette.SimulateRun | TP_1.2/simulacion1.2.py:24-120 | One run yields exactly the specified padded series and ruin flag |
| Roulette.Simulate | TP_1.2/simulacion1.2.py:7-122 | The whole simulation, for a chosen number in 0..36, yields every run's series in order and one bankruptcy per ruined run |
| RouletteProperties.SettlementRule | TP_1.2/simulacion1.2.py:54-67 | The settled stake is positive and at most the stake requested; finite mode stakes the smaller of stake and capital, a win adds 35 times it and a loss takes it; infinite mode stays infinite |
| RouletteProperties.StepKeepsHealthy | TP_1.2/simulacion1.2.py:50-84 | A round started with capital keeps every progression bound and leaves finite capital at zero or more |
| RouletteProperties.ReplayHealthy | TP_1.2/simulacion1.2.py:49-86 | Every state a run passes through keeps the progression bounds, and in finite mode every recorded capital is at least zero, whatever the starting capital |
| RouletteProperties.ProgressionBounds | TP_1.2/simulacion1.2.py:69-84 | Over any history the stake stays positive, the Fibonacci index within 0..8 and the stake 10 times its entry (at most 340), Paroli at most 40, D'Alembert at least 10 |
| RouletteProperties.CurrentIsLast | TP_1.2/simulacion1.2.py:49-86 | The current state of a run is the state left by its last round played |
| RouletteProperties.StopsOnlyOnRuin | TP_1.2/simulacion1.2.py:49-52 | A run plays fewer rounds than spins exactly when it has stopped on ruin, and it stops only with capital at or below zero |
| RouletteProperties.PlayedRoundsStartFunded | TP_1.2/simulacion1.2.py:50-52 | Every round played started with capital above zero in finite mode |
| RouletteProperties.RuinLeavesNothing | TP_1.2/simulacion1.2.py:50-67 | With positive starting capital a ruined run ends with its last recorded capital exactly 0; with none it stops before the first spin |
| RouletteProperties.InfiniteNeverBroke | TP_1.2/simulacion1.2.py:26-52 | Infinite capital never goes bankrupt: every spin is played and every capital recorded is infinite |
| RouletteProperties.PadShape | TP_1.2/simulacion1.2.py:103-113 | A padded series has n entries, keeps its own entries and repeats its last one (or the undefined value) after them |
| RouletteProperties.PaddedShape | TP_1.2/simulacion1.2.py:103-113 | Padding the recorded series gives n entries of each kind, the recorded entries first and copies of the last one after |
| RouletteProperties.RunShape | TP_1.2/simulacion1.2.py:86-113 | Each series of a run has exactly one entry per spin: the round's own entry while the run plays, the last entry repeated after ruin |
| RouletteProperties.CapitalSeriesNonNegative | TP_1.2/simulacion1.2.py:54-105 | In finite mode every capital recorded for a run, padding included, is a whole amount of zero or more |
| RouletteProperties.RuinIsFlat | TP_1.2/simulacion1.2.py:104-105 | After ruin with positive starting capital, the capital series stays at 0 from the last round played to the end |
| RouletteProperties.StepCounts | TP_1.2/simulacion1.2.py:57-67 | A round adds one to wins or losses, and one to the hit count exactly when the spin shows the chosen number |
| RouletteProperties.CurrentCounts | TP_1.2/simulacion1.2.py:57-91 | After the rounds played, wins plus losses equals their number and the hit count equals the occurrences of the chosen number among those spins |
| RouletteProperties.CountsStep | TP_1.2/simulacion1.2.py:57-91 | A round played on spin k, from counters that agree with the first k - 1 spins, leaves wins plus losses equal to k and the hits equal to the chosen number's occurrences in the first k spins |
| RouletteProperties.ReplayHalts | TP_1.2/simulacion1.2.py:50-52 | A spin that finds the run stopped or without capital plays nothing and leaves the run bankrupt |
| RouletteProperties.PlayedPrefix | TP_1.2/simulacion1.2.py:49-86 | The state left by round j + 1 is the current state after replaying the first j + 1 spins |
| RouletteProperties.PlayedGrows | TP_1.2/simulacion1.2.py:49-86 | Later spins only add rounds: the rounds played over the first m spins begin the rounds played over any longer prefix |
| RouletteProperties.OneMoreSpin | TP_1.2/simulacion1.2.py:49-86 | One more spin either stops the run and plays nothing, or plays exactly one more round whose state becomes the current one |
| RouletteProperties.RoundCounts | TP_1.2/simulacion1.2.py:57-101 | After round i, wins plus losses equals i, and the hit count equals the occurrences of the chosen number in the first i spins |
| RouletteProperties.StatisticsConsistent | TP_1.2/simulacion1.2.py:89-97 | At round i the hit count is the chosen number's occurrences (at most i), the frequency is that count over i, and the ratio is undefined exactly while there is no loss and wins over losses otherwise |
| RouletteProperties.CumulativeWinsMonotone | TP_1.2/simulacion1.2.py:90-94 | The cumulative hit series, padding included, never decreases and grows by at most one per spin |
| RouletteProperties.ShapedMonotone | TP_1.2/simulacion1.2.py:90-113 | Over padded series whose rounds count occurrences, the hit entries never decrease and grow by at most one per position |
| RouletteProperties.OccurrencesMonotone | TP_1.2/simulacion1.2.py:90-91 | Counting over a longer prefix of the spins never counts fewer, and at most one more per spin |
| RouletteProperties.StatisticsWithoutChoice | TP_1.2/simulacion1.2.py:98-101 | Without a chosen number every round is a loss and the series hold only undefined values and 0 |
| RouletteProperties.PositionsAppend | TP_1.2/simulacion1.2.py:119-120 | One more run adds its index to the ruined runs exactly when it is ruined |
| RouletteProperties.CollectedSeries | TP_1.2/simulacion1.2.py:115-118 | The k-th series of each kind in the result is the k-th run's series |
| RouletteProperties.RuinedAppend | TP_1.2/simulacion1.2.py:119-120 | The ruin flags of one more run are the previous flags followed by its own |
| RouletteProperties.CollectedTally | TP_1.2/simulacion1.2.py:119-120 | The bankruptcy count equals the number of runs that ended in ruin, each counted once |
| RouletteProperties.InfiniteNoBankruptcies | TP_1.2/simulacion1.2.py:26-52 | With infinite capital no run is counted as bankrupt |
| RouletteProperties.SimulationShape | TP_1.2/simulacion1.2.py:103-118 | When every run has n spins, every series of every run in the result has n entries |
| RouletteScenarios.MartingaleRounds | TP_1.2/simulacion1.2.py:70-71 | Martingale on 17 with infinite capital over 17, 5, 5, 5, 17 leaves the stakes 10, 20, 40, 80, 10 and the counters after each round exactly |
| RouletteScenarios.MartingaleDoublesUntilHit | TP_1.2/simulacion1.2.py:86-97 | The same run records hits 1, 1, 1, 1, 2, frequencies 1/1 to 2/5, a ratio undefined before the first loss and wins over losses after, and infinite capital throughout |
| RouletteScenarios.LastSpinRuinNotCounted | TP_1.2/simulacion1.2.py:50-71 | A stake of 20 is clamped to the 5 left, the next Martingale stake doubles the 5 staked to 10, and capital that first reaches 0 on the last spin is recorded as 0 without the run counting as bankrupt |
| RouletteScenarios.RuinBeforeThirdSpin | TP_1.2/simulacion1.2.py:50-52 | Capital at 0 before the third spin stops the run, which is counted as bankrupt and padded with 0 |
| RouletteScenarios.ParoliStreakOnlyResetByLoss | TP_1.2/simulacion1.2.py:63-84 | Paroli's streak keeps counting after the third win resets the stake, so a fourth win stakes the base again |

## Left out

- Drawing the spins with `random.choice` (line 31): the spins are an input, one sequence per run, with values in 0..36.
- The debug `print` of the spins (line 32): output only.
- `graficar_resultados` (lines 125-250): plotting and the floating-point means, deviations and histograms computed for it.
- Argument parsing in `main` (lines 253-268, 282-283): command-line I/O. Only the check that the chosen number is in 0..36 (lines 271-272) is kept, as a precondition of `Simulate`.
- `prob_teorica` (line 13): computed and never used. `numeros_ruleta` (line 12) survives only as the 0..36 range of the spins.
- Roulette.Capital.Add: does not model the `OverflowError` Python raises at lines 61 and 65 once an infinite-mode stake reaches 2^1024 and cannot be converted to a float. Martingale reaches it after 1021 losses in a row, so every run without a chosen number raises once `n_tiradas` is 1022 or more; the model plays such runs to the end instead.
- Floating point: `float('inf')` is the `Unlimited` capital and `np.nan` is `None`. The divisions at lines 92 and 96 are kept as the exact pair of counts (`Fraction`) rather than a rounded float.
- Roulette.Simulate: takes one sequence of spins per run instead of `n_corridas`, and `n_tiradas` as a `nat`. A negative count of spins (an empty range in the source) is not modelled.
- Roulette.Step: the simulator's strategy argument is a free string. A tag other than `'m'`, `'d'`, `'f'`, `'o'` updates no stake, and it is modelled as the `Flat` strategy.
- The function is split into methods (`SettleRound`, `RecordRound`, `PlayRounds`, `PadRun`, `SimulateRun`, `Simulate`) that hand their locals to one another. The per-run lists are sequences that the methods extend, not lists mutated through aliases.
