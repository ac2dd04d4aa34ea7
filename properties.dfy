/** What the betting engine guarantees about every run: the progressions
    stay within their bounds, finite capital never goes negative, ruin ends
    a run at the first round that starts without capital, the padded series
    all have one entry per spin, and the statistics agree with the spins. */
module RouletteProperties {
  import opened Wrappers
  import opened Strategies
  import opened Roulette

  /** Base times a power of two: every stake Martingale can ask for when
      nothing clamps it. */
  predicate BaseDoubled(x: int)
    decreases if x > 0 then x else 0
  {
    x == Base || (x > Base && x % 2 == 0 && BaseDoubled(x / 2))
  }

  /** What each progression guarantees about the stake a round starts with.
      Clamping to the capital only lowers a stake, so the upper bounds hold
      in both modes; the exact shapes hold when nothing clamps. */
  predicate StakeBound(cfg: Config, s: State)
    requires s.fibIndex < |Fib|
  {
    match cfg.strategy
    case Martingale => cfg.mode.Infinite? ==> BaseDoubled(s.stake)
    case DAlembert => s.stake >= Base && (cfg.mode.Infinite? ==> s.stake % Unit == 0)
    case Fibonacci => s.stake == Base * Fib[s.fibIndex]
    case Paroli => s.stake <= ParoliCap(s.streak) && (cfg.mode.Infinite? ==> s.stake == ParoliCap(s.streak))
    case Flat => s.stake <= Base && (cfg.mode.Infinite? ==> s.stake == Base)
  }

  /** The invariant of the variables a run carries between rounds. */
  predicate Healthy(cfg: Config, s: State) {
    (cfg.mode.Finite? <==> s.capital.Funds?) &&
    s.stake > 0 &&
    s.fibIndex < |Fib| &&
    StakeBound(cfg, s) &&
    (cfg.chosen.Some? ==> s.hits == s.wins) &&
    (cfg.chosen.None? ==> s.hits == 0 && s.wins == 0)
  }

  /** The stake settled in a round: the requested stake, or all the capital
      when the stake asks for more in finite mode. A win adds the payout,
      a loss takes the stake. */
  lemma SettlementRule(cfg: Config, s: State, outcome: int)
    requires Healthy(cfg, s) && !Exhausted(cfg, s)
    ensures var stake, t := Settled(cfg, s), Step(cfg, s, outcome);
      0 < stake <= s.stake &&
      (cfg.mode.Infinite? ==> stake == s.stake && t.capital == Unlimited) &&
      (cfg.mode.Finite? ==>
        stake == (if s.stake <= s.capital.amount then s.stake else s.capital.amount) &&
        t.capital.amount == if Won(cfg.chosen, outcome) then s.capital.amount + Payout * stake
                            else s.capital.amount - stake)
  {
  }

  /** A round started with capital left keeps the invariant, and leaves
      finite capital at zero or more. */
  lemma StepKeepsHealthy(cfg: Config, s: State, outcome: int)
    requires Healthy(cfg, s) && !Exhausted(cfg, s)
    ensures Healthy(cfg, Step(cfg, s, outcome))
    ensures cfg.mode.Finite? ==> Step(cfg, s, outcome).capital.amount >= 0
  {
    var stake := Settled(cfg, s);
    var won := Won(cfg.chosen, outcome);
    var streak := if won then s.streak + 1 else 0;
    match cfg.strategy
    case Martingale =>
      MartingaleRule(stake, s.fibIndex, streak, won);
      if cfg.mode.Infinite? && !won {
        assert (2 * stake) / 2 == stake;
      }
    case DAlembert =>
      DAlembertRule(stake, s.fibIndex, streak, won);
    case Fibonacci =>
      FibonacciRule(stake, s.fibIndex, streak, won);
    case Paroli =>
      ParoliRule(stake, s.fibIndex, streak, won);
    case Flat =>
  }

  /** The state before round j + 1 of a run that has played the given
      rounds. */
  function Before(cfg: Config, played: seq<State>, j: nat): State
    requires j <= |played|
  {
    if j == 0 then Init(cfg) else played[j - 1]
  }

  /** Every state of a replay keeps the invariant, and in finite mode no
      recorded capital is negative. */
  lemma {:induction false} ReplayHealthy(cfg: Config, outcomes: seq<int>, k: nat)
    requires k <= |outcomes|
    ensures AllHealthy(cfg, ReplayUpTo(cfg, outcomes, k))
  {
    if k > 0 {
      ReplayHealthy(cfg, outcomes, k - 1);
      var r := ReplayUpTo(cfg, outcomes, k - 1);
      if !r.broke && !Exhausted(cfg, r.current) {
        var t := Step(cfg, r.current, outcomes[k - 1]);
        StepKeepsHealthy(cfg, r.current, outcomes[k - 1]);
        assert ReplayUpTo(cfg, outcomes, k) == Replay(r.played + [t], t, false);
      } else {
        assert ReplayUpTo(cfg, outcomes, k) == Replay(r.played, r.current, r.broke || Exhausted(cfg, r.current));
      }
    }
  }

  predicate AllHealthy(cfg: Config, r: Replay) {
    Healthy(cfg, r.current) &&
    forall j :: 0 <= j < |r.played| ==>
      Healthy(cfg, r.played[j]) && (cfg.mode.Finite? ==> r.played[j].capital.amount >= 0)
  }

  /** Whatever the spins, the stake each round leaves for the next stays
      within its progression: the Fibonacci index inside the table and the
      stake at most 340, the Paroli stake at most four times the base, the
      D'Alembert stake never below the base, and every stake positive. */
  lemma ProgressionBounds(cfg: Config, outcomes: seq<int>)
    ensures var p := Replayed(cfg, outcomes).played;
      forall j :: 0 <= j < |p| ==>
        p[j].stake > 0 && p[j].fibIndex < |Fib| &&
        (cfg.strategy == Fibonacci ==> p[j].stake == Base * Fib[p[j].fibIndex] <= 34 * Base) &&
        (cfg.strategy == Paroli ==> p[j].stake <= 4 * Base) &&
        (cfg.strategy == DAlembert ==> p[j].stake >= Base)
  {
    var p := Replayed(cfg, outcomes).played;
    ReplayHealthy(cfg, outcomes, |outcomes|);
    forall j | 0 <= j < |p|
      ensures p[j].fibIndex < |Fib| && (cfg.strategy == Fibonacci ==> p[j].stake <= 34 * Base)
    {
      assert Healthy(cfg, p[j]);
      FibBounded(p[j].fibIndex);
    }
  }

  /** The current state of a replay is the one the last round played left,
      or the initial state when no round was played. */
  lemma {:induction false} CurrentIsLast(cfg: Config, outcomes: seq<int>, k: nat)
    requires k <= |outcomes|
    ensures var r := ReplayUpTo(cfg, outcomes, k);
      r.current == Before(cfg, r.played, |r.played|)
  {
    if k > 0 {
      CurrentIsLast(cfg, outcomes, k - 1);
    }
  }

  /** A run stops early exactly when it goes bankrupt, and it goes bankrupt
      only on a round that starts with capital at zero or below. */
  lemma {:induction false} StopsOnlyOnRuin(cfg: Config, outcomes: seq<int>, k: nat)
    requires k <= |outcomes|
    ensures var r := ReplayUpTo(cfg, outcomes, k);
      (r.broke <==> |r.played| < k) && (r.broke ==> Exhausted(cfg, r.current))
  {
    if k > 0 {
      StopsOnlyOnRuin(cfg, outcomes, k - 1);
    }
  }

  /** Every round that was played started with capital left. */
  lemma {:induction false} PlayedRoundsStartFunded(cfg: Config, outcomes: seq<int>, k: nat)
    requires k <= |outcomes|
    ensures var r := ReplayUpTo(cfg, outcomes, k);
      forall j :: 0 <= j < |r.played| ==> !Exhausted(cfg, Before(cfg, r.played, j))
  {
    if k > 0 {
      PlayedRoundsStartFunded(cfg, outcomes, k - 1);
      CurrentIsLast(cfg, outcomes, k - 1);
      var r := ReplayUpTo(cfg, outcomes, k - 1);
      if !r.broke && !Exhausted(cfg, r.current) {
        var played := r.played + [Step(cfg, r.current, outcomes[k - 1])];
        forall j | 0 <= j < |played|
          ensures !Exhausted(cfg, Before(cfg, played, j))
        {
          assert Before(cfg, played, j) == Before(cfg, r.played, j);
        }
      }
    }
  }

  /** In finite mode with a positive initial capital, a bankrupt run has
      played at least one round and its last recorded capital is exactly
      zero; with no initial capital, a run with spins to play goes bankrupt
      before its first round. */
  lemma RuinLeavesNothing(cfg: Config, outcomes: seq<int>)
    requires cfg.mode.Finite?
    ensures var r := Replayed(cfg, outcomes);
      (cfg.mode.initial > 0 && r.broke ==> r.played != [] && r.played[|r.played| - 1].capital == Funds(0)) &&
      (cfg.mode.initial <= 0 && outcomes != [] ==> r.broke && r.played == [])
  {
    var n := |outcomes|;
    ReplayHealthy(cfg, outcomes, n);
    StopsOnlyOnRuin(cfg, outcomes, n);
    CurrentIsLast(cfg, outcomes, n);
    PlayedRoundsStartFunded(cfg, outcomes, n);
    var r := Replayed(cfg, outcomes);
    assert Before(cfg, r.played, 0).capital == Funds(cfg.mode.initial);
  }

  /** Infinite capital never goes bankrupt: every spin is played and every
      capital recorded is infinite. */
  lemma InfiniteNeverBroke(cfg: Config, outcomes: seq<int>)
    requires cfg.mode.Infinite?
    ensures var r := Replayed(cfg, outcomes);
      !r.broke && |r.played| == |outcomes| &&
      forall j :: 0 <= j < |r.played| ==> r.played[j].capital == Unlimited
  {
    ReplayHealthy(cfg, outcomes, |outcomes|);
    StopsOnlyOnRuin(cfg, outcomes, |outcomes|);
  }

  /** A padded series has exactly n entries: the original ones, then copies
      of the last one (or the undefined value when there was none). */
  lemma PadShape<T>(xs: seq<T>, n: nat, undefined: T)
    requires |xs| <= n
    ensures var p := Pad(xs, n, undefined);
      |p| == n && p[..|xs|] == xs &&
      forall j :: |xs| <= j < n ==> p[j] == LastOr(xs, undefined)
  {
  }

  /** The padded series recorded from the rounds p, over n spins: entry j
      of a round that was played records the state that round left; every
      later entry repeats the last round played, or is undefined (zero
      wins) when none was played. */
  predicate Shaped(cfg: Config, p: seq<State>, n: nat, r: Series) {
    |p| <= n &&
    |r.freq| == |r.capital| == |r.hits| == |r.ratio| == n &&
    RecordsRounds(cfg, p, r) && RepeatsLast(p, n, r)
  }

  predicate RecordsRounds(cfg: Config, p: seq<State>, r: Series)
    requires |p| <= |r.freq| && |p| <= |r.capital| && |p| <= |r.hits| && |p| <= |r.ratio|
  {
    forall j :: 0 <= j < |p| ==>
      r.freq[j] == FreqAt(cfg, j + 1, p[j]) && r.capital[j] == Some(p[j].capital) &&
      r.hits[j] == HitsAt(cfg, p[j]) && r.ratio[j] == RatioAt(cfg, p[j])
  }

  predicate RepeatsLast(p: seq<State>, n: nat, r: Series)
    requires |p| <= n == |r.freq| == |r.capital| == |r.hits| == |r.ratio|
  {
    forall j :: |p| <= j < n ==>
      if p == [] then
        r.freq[j] == None && r.capital[j] == None && r.hits[j] == 0 && r.ratio[j] == None
      else
        r.freq[j] == r.freq[|p| - 1] && r.capital[j] == r.capital[|p| - 1] &&
        r.hits[j] == r.hits[|p| - 1] && r.ratio[j] == r.ratio[|p| - 1]
  }

  lemma PaddedShape(cfg: Config, p: seq<State>, n: nat)
    requires |p| <= n
    ensures Shaped(cfg, p, n, Padded(Recorded(cfg, p), n))
  {
    PaddedRecords(cfg, p, n);
    PaddedRepeats(cfg, p, n);
  }

  lemma PaddedRecords(cfg: Config, p: seq<State>, n: nat)
    requires |p| <= n
    ensures var r := Padded(Recorded(cfg, p), n);
      |p| <= |r.freq| && |p| <= |r.capital| && |p| <= |r.hits| && |p| <= |r.ratio| &&
      RecordsRounds(cfg, p, r)
  {
    var rec := Recorded(cfg, p);
    PadShape(rec.freq, n, None);
    PadShape(rec.capital, n, None);
    PadShape(rec.hits, n, 0);
    PadShape(rec.ratio, n, None);
  }

  lemma PaddedRepeats(cfg: Config, p: seq<State>, n: nat)
    requires |p| <= n
    ensures var r := Padded(Recorded(cfg, p), n);
      n == |r.freq| == |r.capital| == |r.hits| == |r.ratio| && RepeatsLast(p, n, r)
  {
    var rec := Recorded(cfg, p);
    PadShape(rec.freq, n, None);
    PadShape(rec.capital, n, None);
    PadShape(rec.hits, n, 0);
    PadShape(rec.ratio, n, None);
  }

  /** Every series of a run has one entry per spin, shaped as above from
      the rounds the run played. */
  lemma RunShape(cfg: Config, outcomes: seq<int>)
    ensures Shaped(cfg, Replayed(cfg, outcomes).played, |outcomes|, Run(cfg, outcomes).series)
  {
    PaddedShape(cfg, Replayed(cfg, outcomes).played, |outcomes|);
  }

  /** In finite mode every capital the simulator records for a run, the
      padding included, is a whole amount of zero or more. */
  lemma CapitalSeriesNonNegative(cfg: Config, outcomes: seq<int>)
    requires cfg.mode.Finite?
    ensures var c := Run(cfg, outcomes).series.capital;
      forall j :: 0 <= j < |c| && c[j].Some? ==> c[j].value.Funds? && c[j].value.amount >= 0
  {
    RunShape(cfg, outcomes);
    ReplayHealthy(cfg, outcomes, |outcomes|);
  }

  /** Once a run stops on ruin, its capital series stays at the value of
      the round where the capital ran out, up to the last spin. */
  lemma RuinIsFlat(cfg: Config, outcomes: seq<int>)
    requires cfg.mode.Finite? && cfg.mode.initial > 0
    requires Run(cfg, outcomes).broke
    ensures var p, r := Replayed(cfg, outcomes).played, Run(cfg, outcomes).series;
      0 < |p| < |outcomes| &&
      forall j :: |p| - 1 <= j < |outcomes| ==> r.capital[j] == Some(Funds(0))
  {
    RuinLeavesNothing(cfg, outcomes);
    StopsOnlyOnRuin(cfg, outcomes, |outcomes|);
    RunShape(cfg, outcomes);
  }

  /** How many of the first n spins show the number v. */
  function Occurrences(spins: seq<int>, n: nat, v: int): (c: nat)
    requires n <= |spins|
    ensures c <= n
  {
    if n == 0 then 0
    else Occurrences(spins, n - 1, v) + (if spins[n - 1] == v then 1 else 0)
  }

  /** A round counts one win or one loss, and a hit exactly when it wins. */
  lemma StepCounts(cfg: Config, s: State, outcome: int)
    requires s.fibIndex < |Fib|
    ensures var t, won := Step(cfg, s, outcome), Won(cfg.chosen, outcome);
      t.hits == s.hits + (if won then 1 else 0) &&
      t.wins + t.losses == s.wins + s.losses + 1
  {
  }

  /** After the rounds played so far, the counters have counted each of
      them once, and the hit counter is the number of times the chosen
      number came up in the spins played. */
  lemma {:induction false} CurrentCounts(cfg: Config, outcomes: seq<int>, k: nat)
    requires k <= |outcomes|
    ensures CountsAgree(cfg, outcomes, ReplayUpTo(cfg, outcomes, k))
  {
    if k > 0 {
      CurrentCounts(cfg, outcomes, k - 1);
      var r := ReplayUpTo(cfg, outcomes, k - 1);
      if !r.broke && !Exhausted(cfg, r.current) {
        StopsOnlyOnRuin(cfg, outcomes, k - 1);
        CountsStep(cfg, outcomes, k, r.current);
        ReplayAdvance(cfg, outcomes, k, r.played, r.current);
      } else {
        ReplayHalts(cfg, outcomes, k);
      }
    }
  }

  /** A round played on spin k, from counters that agree with the first
      k - 1 spins, leaves counters that agree with the first k. */
  lemma CountsStep(cfg: Config, outcomes: seq<int>, k: nat, s: State)
    requires 0 < k <= |outcomes| && s.fibIndex < |Fib|
    requires s.wins + s.losses == k - 1
    requires cfg.chosen.Some? ==> s.hits == Occurrences(outcomes, k - 1, cfg.chosen.value)
    ensures var t := Step(cfg, s, outcomes[k - 1]);
      t.wins + t.losses == k &&
      (cfg.chosen.Some? ==> t.hits == Occurrences(outcomes, k, cfg.chosen.value))
  {
  }

  /** A spin that finds the run stopped, or without capital, plays
      nothing and leaves the run bankrupt. */
  lemma ReplayHalts(cfg: Config, outcomes: seq<int>, k: nat)
    requires 0 < k <= |outcomes|
    requires var r := ReplayUpTo(cfg, outcomes, k - 1); r.broke || Exhausted(cfg, r.current)
    ensures var r := ReplayUpTo(cfg, outcomes, k - 1);
      ReplayUpTo(cfg, outcomes, k) == Replay(r.played, r.current, true)
  {
  }

  /** The counters of a replay's current state agree with the rounds it
      played. */
  predicate CountsAgree(cfg: Config, outcomes: seq<int>, r: Replay)
    requires |r.played| <= |outcomes|
  {
    r.current.wins + r.current.losses == |r.played| &&
    (cfg.chosen.Some? ==> r.current.hits == Occurrences(outcomes, |r.played|, cfg.chosen.value))
  }

  /** Round j + 1 of a run is the state the replay of its first j + 1 spins
      ends in, and that replay played every one of them. */
  lemma PlayedPrefix(cfg: Config, outcomes: seq<int>, k: nat, j: nat)
    requires k <= |outcomes|
    requires j < |ReplayUpTo(cfg, outcomes, k).played|
    ensures j + 1 <= k
    ensures ReplayUpTo(cfg, outcomes, k).played[j] == ReplayUpTo(cfg, outcomes, j + 1).current
    ensures |ReplayUpTo(cfg, outcomes, j + 1).played| == j + 1
  {
    var m := j + 1;
    var r, rm := ReplayUpTo(cfg, outcomes, k), ReplayUpTo(cfg, outcomes, m);
    StopsOnlyOnRuin(cfg, outcomes, m);
    if rm.broke {
      BrokeIsFinal(cfg, outcomes, m, k);
      assert false;
    }
    PlayedGrows(cfg, outcomes, m, k);
    CurrentIsLast(cfg, outcomes, m);
    assert r.played[j] == rm.played[j];
  }

  /** Later spins only add rounds: the rounds played over the first m spins
      begin the rounds played over the first k. */
  lemma {:induction false} PlayedGrows(cfg: Config, outcomes: seq<int>, m: nat, k: nat)
    requires m <= k <= |outcomes|
    ensures ReplayUpTo(cfg, outcomes, m).played <= ReplayUpTo(cfg, outcomes, k).played
    decreases k - m
  {
    if m < k {
      PlayedGrows(cfg, outcomes, m, k - 1);
      OneMoreSpin(cfg, outcomes, k);
    }
  }

  /** One more spin either leaves the rounds played as they were, or plays
      one more round, whose state becomes the current one. */
  lemma OneMoreSpin(cfg: Config, outcomes: seq<int>, k: nat)
    requires 0 < k <= |outcomes|
    ensures var r, r' := ReplayUpTo(cfg, outcomes, k - 1), ReplayUpTo(cfg, outcomes, k);
      if r.broke || Exhausted(cfg, r.current) then r'.played == r.played && r'.broke
      else r'.played == r.played + [r'.current] && !r'.broke
  {
  }

  /** Every round of a run leaves as many rounds counted as it is far into
      the run, and with a chosen number its hit counter is the number of
      times that number has come up so far. */
  lemma RoundCounts(cfg: Config, outcomes: seq<int>)
    ensures var p := Replayed(cfg, outcomes).played;
      forall j :: 0 <= j < |p| ==>
        p[j].wins + p[j].losses == j + 1 &&
        (cfg.chosen.Some? ==> p[j].hits == Occurrences(outcomes, j + 1, cfg.chosen.value))
  {
    var p := Replayed(cfg, outcomes).played;
    forall j | 0 <= j < |p|
      ensures p[j].wins + p[j].losses == j + 1
      ensures cfg.chosen.Some? ==> p[j].hits == Occurrences(outcomes, j + 1, cfg.chosen.value)
    {
      PlayedPrefix(cfg, outcomes, |outcomes|, j);
      CurrentCounts(cfg, outcomes, j + 1);
    }
  }

  /** With a chosen number, the statistics of round j + 1 agree with each
      other and with the spins: the cumulative wins count the chosen
      number's appearances, the frequency is that count over j + 1, and the
      win/loss ratio is undefined while every round was won and otherwise
      compares the wins with the j + 1 - wins losses. */
  lemma StatisticsConsistent(cfg: Config, outcomes: seq<int>, j: nat)
    requires cfg.chosen.Some?
    requires j < |Replayed(cfg, outcomes).played|
    ensures var r := Run(cfg, outcomes).series;
      var wins := r.hits[j];
      wins == Occurrences(outcomes, j + 1, cfg.chosen.value) <= j + 1 &&
      r.freq[j] == Some(Fraction(wins, j + 1)) &&
      (r.ratio[j] == None <==> wins == j + 1) &&
      (wins < j + 1 ==> r.ratio[j] == Some(Fraction(wins, j + 1 - wins)))
  {
    var n := |outcomes|;
    RunShape(cfg, outcomes);
    ReplayHealthy(cfg, outcomes, n);
    RoundCounts(cfg, outcomes);
  }

  /** The cumulative wins never decrease along the padded series, and grow
      by at most one per round. */
  lemma CumulativeWinsMonotone(cfg: Config, outcomes: seq<int>, i: nat, j: nat)
    requires i <= j < |outcomes|
    ensures var h := Run(cfg, outcomes).series.hits;
      i < |h| && j < |h| && h[i] <= h[j] <= h[i] + (j - i)
  {
    RunShape(cfg, outcomes);
    RoundCounts(cfg, outcomes);
    ShapedMonotone(cfg, Replayed(cfg, outcomes).played, outcomes, Run(cfg, outcomes).series, i, j);
  }

  lemma ShapedMonotone(cfg: Config, p: seq<State>, outcomes: seq<int>, r: Series, i: nat, j: nat)
    requires Shaped(cfg, p, |outcomes|, r) && i <= j < |outcomes|
    requires cfg.chosen.Some? ==>
      forall k :: 0 <= k < |p| ==> p[k].hits == Occurrences(outcomes, k + 1, cfg.chosen.value)
    ensures r.hits[i] <= r.hits[j] <= r.hits[i] + (j - i)
  {
    if cfg.chosen.Some? && p != [] {
      var v := cfg.chosen.value;
      var a := if i < |p| then i else |p| - 1;
      var b := if j < |p| then j else |p| - 1;
      OccurrencesMonotone(outcomes, v, a + 1, b + 1);
      assert r.hits[i] == r.hits[a] == p[a].hits;
      assert r.hits[j] == r.hits[b] == p[b].hits;
    } else if p != [] {
      assert r.hits[|p| - 1] == 0;
      assert r.hits[i] == 0 && r.hits[j] == 0;
    }
  }

  /** Counting over a longer prefix finds at least as many, and at most one
      more per extra spin. */
  lemma {:induction false} OccurrencesMonotone(spins: seq<int>, v: int, a: nat, b: nat)
    requires a <= b <= |spins|
    ensures Occurrences(spins, a, v) <= Occurrences(spins, b, v) <= Occurrences(spins, a, v) + (b - a)
    decreases b - a
  {
    if a < b {
      OccurrencesMonotone(spins, v, a, b - 1);
    }
  }

  /** With no chosen number, every round is a loss and the statistics are
      undefined (zero cumulative wins) at every entry. */
  lemma StatisticsWithoutChoice(cfg: Config, outcomes: seq<int>)
    requires cfg.chosen.None?
    ensures var r := Run(cfg, outcomes).series;
      forall j :: 0 <= j < |outcomes| ==> r.freq[j] == None && r.hits[j] == 0 && r.ratio[j] == None
    ensures var p := Replayed(cfg, outcomes).played;
      forall j :: 0 <= j < |p| ==> p[j].wins == 0 && p[j].losses == j + 1
  {
    RunShape(cfg, outcomes);
    ReplayHealthy(cfg, outcomes, |outcomes|);
    RoundCounts(cfg, outcomes);
  }

  /** The positions of the true flags. */
  function Positions(flags: seq<bool>): set<int> {
    set k | 0 <= k < |flags| && flags[k]
  }

  lemma PositionsAppend(flags: seq<bool>, b: bool)
    ensures |Positions(flags + [b])| == |Positions(flags)| + (if b then 1 else 0)
  {
    var last: set<int> := if b then {|flags|} else {};
    assert Positions(flags + [b]) == Positions(flags) + last;
    assert |flags| !in Positions(flags);
  }

  /** For each run, whether it ended in ruin. */
  function Ruined(cfg: Config, runs: seq<seq<int>>): (flags: seq<bool>)
    ensures |flags| == |runs|
    ensures forall k :: 0 <= k < |runs| ==> flags[k] == Run(cfg, runs[k]).broke
  {
    seq(|runs|, k requires 0 <= k < |runs| => Run(cfg, runs[k]).broke)
  }

  /** The simulation hands back each run's series at that run's
      position. */
  lemma {:induction false} CollectedSeries(cfg: Config, runs: seq<seq<int>>)
    ensures var res := Collected(cfg, runs);
      forall k :: 0 <= k < |runs| ==>
        Series(res.frequencies[k], res.capital[k], res.cumulativeWins[k], res.winLossRatio[k]) == Run(cfg, runs[k]).series
  {
    if runs != [] {
      CollectedSeries(cfg, runs[..|runs| - 1]);
    }
  }

  lemma RuinedAppend(cfg: Config, runs: seq<seq<int>>)
    requires runs != []
    ensures Ruined(cfg, runs) == Ruined(cfg, runs[..|runs| - 1]) + [Run(cfg, runs[|runs| - 1]).broke]
  {
    var n := |runs|;
    var front, flags := runs[..n - 1], Ruined(cfg, runs[..n - 1]) + [Run(cfg, runs[n - 1]).broke];
    forall k | 0 <= k < n
      ensures Ruined(cfg, runs)[k] == flags[k]
    {
      if k < n - 1 {
        assert front[k] == runs[k];
      }
    }
  }

  /** The tally is the number of runs that ended in ruin. */
  lemma {:induction false} CollectedTally(cfg: Config, runs: seq<seq<int>>)
    ensures Collected(cfg, runs).bankruptcies == |Positions(Ruined(cfg, runs))|
  {
    if runs != [] {
      var front := runs[..|runs| - 1];
      CollectedTally(cfg, front);
      RuinedAppend(cfg, runs);
      PositionsAppend(Ruined(cfg, front), Run(cfg, runs[|runs| - 1]).broke);
    }
  }

  /** With infinite capital the tally stays at zero. */
  lemma {:induction false} InfiniteNoBankruptcies(cfg: Config, runs: seq<seq<int>>)
    requires cfg.mode.Infinite?
    ensures Collected(cfg, runs).bankruptcies == 0
  {
    if runs != [] {
      InfiniteNoBankruptcies(cfg, runs[..|runs| - 1]);
      InfiniteNeverBroke(cfg, runs[|runs| - 1]);
    }
  }

  /** With every run n spins long, every series the simulation hands back
      has n entries. */
  lemma SimulationShape(cfg: Config, runs: seq<seq<int>>, n: nat)
    requires forall k :: 0 <= k < |runs| ==> |runs[k]| == n
    ensures var res := Collected(cfg, runs);
      forall k :: 0 <= k < |runs| ==>
        |res.frequencies[k]| == |res.capital[k]| == |res.cumulativeWins[k]| == |res.winLossRatio[k]| == n
  {
    CollectedSeries(cfg, runs);
    forall k | 0 <= k < |runs|
      ensures |Run(cfg, runs[k]).series.freq| == |Run(cfg, runs[k]).series.capital| == n
      ensures |Run(cfg, runs[k]).series.hits| == |Run(cfg, runs[k]).series.ratio| == n
    {
      RunShape(cfg, runs[k]);
    }
  }
}
