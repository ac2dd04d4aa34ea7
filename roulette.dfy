/** The round-by-round betting engine: one run replays a sequence of spins
    for a bet on a single number of the single-zero wheel, moves the stake
    along the chosen progression, settles against the capital, stops on
    ruin and records cumulative statistics; a simulation repeats this over
    many runs and counts the bankrupt ones. */
module Roulette {
  import opened Wrappers
  import opened Strategies

  /** A straight-number win pays 35 times the stake. */
  const Payout: int := 35

  /** The highest number on the wheel (the numbers are 0 to 36). */
  const MaxNumber: int := 36

  /** Capital as the simulator holds it: a whole amount in finite mode, or
      positive infinity in infinite mode, which no stake changes. */
  datatype Capital = Unlimited | Funds(amount: int) {

    function Add(delta: int): (c: Capital)
      ensures c.Unlimited? == Unlimited?
      ensures Funds? ==> c.amount == amount + delta
    {
      if Unlimited? then Unlimited else Funds(amount + delta)
    }

    /** `stake > capital`: never true of infinity. */
    predicate Below(stake: int) {
      Funds? && stake > amount
    }

    /** `capital <= 0`: never true of infinity. */
    predicate AtMostZero() {
      Funds? && amount <= 0
    }
  }

  /** Capital type 'f' (finite, with its initial amount) or 'i' (infinite). */
  datatype CapitalMode = Infinite | Finite(initial: int)

  /** The parameters of a simulation other than the spins themselves. */
  datatype Config = Config(chosen: Option<int>, strategy: Strategy, mode: CapitalMode)

  /** The chosen number, when there is one, is a number of the wheel. */
  predicate ValidChoice(chosen: Option<int>) {
    chosen.Some? ==> 0 <= chosen.value <= MaxNumber
  }

  /** The variables one run carries from round to round. */
  datatype State = State(
    capital: Capital,
    stake: int,      // the stake requested for the next round
    fibIndex: nat,   // position in the Fibonacci table
    streak: nat,     // consecutive wins, reset only by a loss
    wins: nat,
    losses: nat,
    hits: nat)       // spins that showed the chosen number

  /** The state a run starts from. */
  function Init(cfg: Config): (s: State)
    ensures s.stake == Base && s.fibIndex == 0 && Base * Fib[s.fibIndex] == s.stake
    ensures cfg.mode.Finite? ==> s.capital == Funds(cfg.mode.initial)
    ensures s.streak == s.wins == s.losses == s.hits == 0
    ensures s.capital.Unlimited? <==> cfg.mode.Infinite?
  {
    State(if cfg.mode.Finite? then Funds(cfg.mode.initial) else Unlimited, Base, 0, 0, 0, 0, 0)
  }

  /** The bet wins when a number was chosen and the spin shows it. */
  predicate Won(chosen: Option<int>, outcome: int)
    ensures Won(chosen, outcome) <==> chosen == Some(outcome)
  {
    chosen.Some? && outcome == chosen.value
  }

  /** A finite-mode run with no capital left plays no further round. */
  predicate Exhausted(cfg: Config, s: State)
    ensures Exhausted(cfg, s) ==> s.capital.Funds? && s.capital.amount <= 0
    ensures cfg.mode.Infinite? ==> !Exhausted(cfg, s)
  {
    cfg.mode.Finite? && s.capital.AtMostZero()
  }

  /** The stake actually settled in a round: in finite mode never more
      than the capital; in infinite mode the requested stake. */
  function Settled(cfg: Config, s: State): (stake: int)
    ensures stake <= s.stake
    ensures cfg.mode.Finite? && s.capital.Funds? ==> stake <= s.capital.amount
    ensures stake == s.stake || (s.capital.Funds? && stake == s.capital.amount)
    ensures cfg.mode.Infinite? ==> stake == s.stake
  {
    if cfg.mode.Finite? && s.capital.Below(s.stake) then s.capital.amount else s.stake
  }

  /** One round that is played: clamp, settle, update the progression and
      the counters. */
  function Step(cfg: Config, s: State, outcome: int): (t: State)
    requires s.fibIndex < |Fib|
    ensures t.fibIndex < |Fib|
    ensures t.wins + t.losses == s.wins + s.losses + 1
    ensures t.hits == if Won(cfg.chosen, outcome) then s.hits + 1 else s.hits
    ensures t.capital.Unlimited? == s.capital.Unlimited?
  {
    var stake := Settled(cfg, s);
    var won := Won(cfg.chosen, outcome);
    var streak := if won then s.streak + 1 else 0;
    var next := NextStake(cfg.strategy, stake, s.fibIndex, streak, won);
    State(
      if won then s.capital.Add(stake * Payout) else s.capital.Add(-stake),
      next.stake,
      next.fibIndex,
      streak,
      if won then s.wins + 1 else s.wins,
      if won then s.losses else s.losses + 1,
      if cfg.chosen.Some? && outcome == cfg.chosen.value then s.hits + 1 else s.hits)
  }

  /** A run replayed over its first k spins: the states left by the rounds
      played, the current state, and whether a round started without
      capital, which ends the run. */
  datatype Replay = Replay(played: seq<State>, current: State, broke: bool)

  function ReplayUpTo(cfg: Config, outcomes: seq<int>, k: nat): (r: Replay)
    requires k <= |outcomes|
    ensures r.current.fibIndex < |Fib|
    ensures |r.played| <= k
  {
    if k == 0 then Replay([], Init(cfg), false)
    else
      var r := ReplayUpTo(cfg, outcomes, k - 1);
      if r.broke then r
      else if Exhausted(cfg, r.current) then Replay(r.played, r.current, true)
      else
        var t := Step(cfg, r.current, outcomes[k - 1]);
        Replay(r.played + [t], t, false)
  }

  /** The whole run replayed. */
  function Replayed(cfg: Config, outcomes: seq<int>): Replay {
    ReplayUpTo(cfg, outcomes, |outcomes|)
  }

  /** A quotient kept as the two counts the simulator divides (it divides in
      floating point; here the exact value is num / den). */
  datatype Fraction = Fraction(num: nat, den: nat) {
    function Value(): real
      requires den > 0
    {
      num as real / den as real
    }
  }

  /** The four per-run series: cumulative frequency of the chosen number,
      capital, cumulative wins and the win/loss ratio. */
  datatype Series = Series(
    freq: seq<Option<Fraction>>,
    capital: seq<Option<Capital>>,
    hits: seq<nat>,
    ratio: seq<Option<Fraction>>)

  /** The cumulative frequency of the chosen number after round i. */
  function FreqAt(cfg: Config, i: nat, t: State): (f: Option<Fraction>)
    requires i > 0
    ensures f.Some? <==> cfg.chosen.Some?
    ensures f.Some? ==>
      f.value.den == i && f.value.num == t.hits && f.value.Value() == t.hits as real / i as real
  {
    if cfg.chosen.Some? then Some(Fraction(t.hits, i)) else None
  }

  /** The cumulative wins recorded after a round: zero without a chosen number. */
  function HitsAt(cfg: Config, t: State): nat {
    if cfg.chosen.Some? then t.hits else 0
  }

  /** The win/loss ratio after a round: undefined while there is no loss or
      no chosen number. */
  function RatioAt(cfg: Config, t: State): (r: Option<Fraction>)
    ensures r.None? <==> cfg.chosen.None? || t.losses == 0
    ensures r.Some? ==>
      r.value.num == t.wins && r.value.den == t.losses > 0 && r.value.Value() == t.wins as real / t.losses as real
  {
    if cfg.chosen.Some? && t.losses > 0 then Some(Fraction(t.wins, t.losses)) else None
  }

  /** What the rounds played append to the series, round k + 1 leaving the
      state states[k]. */
  function Recorded(cfg: Config, states: seq<State>): (r: Series)
    ensures |r.freq| == |r.capital| == |r.hits| == |r.ratio| == |states|
  {
    Series(
      seq(|states|, k requires 0 <= k < |states| => FreqAt(cfg, k + 1, states[k])),
      seq(|states|, k requires 0 <= k < |states| => Some(states[k].capital)),
      seq(|states|, k requires 0 <= k < |states| => HitsAt(cfg, states[k])),
      seq(|states|, k requires 0 <= k < |states| => RatioAt(cfg, states[k])))
  }

  function LastOr<T>(xs: seq<T>, undefined: T): T {
    if xs == [] then undefined else xs[|xs| - 1]
  }

  /** A series lengthened to n entries by repeating its last entry, or the
      undefined value when it is empty. */
  function Pad<T>(xs: seq<T>, n: nat, undefined: T): (r: seq<T>)
    ensures |r| == if n <= |xs| then |xs| else n
  {
    if n <= |xs| then xs else xs + seq(n - |xs|, _ => LastOr(xs, undefined))
  }

  function Padded(s: Series, n: nat): (r: Series)
    ensures |s.freq| <= n ==> |r.freq| == n
    ensures |s.capital| <= n ==> |r.capital| == n
    ensures |s.hits| <= n ==> |r.hits| == n
    ensures |s.ratio| <= n ==> |r.ratio| == n
  {
    Series(Pad(s.freq, n, None), Pad(s.capital, n, None), Pad(s.hits, n, 0), Pad(s.ratio, n, None))
  }

  /** What one run hands back: its padded series and whether it went bankrupt. */
  datatype RunResult = RunResult(series: Series, broke: bool)

  /** The specification of one run over the given spins. */
  function Run(cfg: Config, outcomes: seq<int>): (r: RunResult)
    ensures |r.series.freq| == |r.series.capital| == |r.series.hits| == |r.series.ratio| == |outcomes|
  {
    var r := Replayed(cfg, outcomes);
    RunResult(Padded(Recorded(cfg, r.played), |outcomes|), r.broke)
  }

  /** The simulator's result: one series of each kind per run, and the
      number of bankrupt runs. */
  datatype Results = Results(
    frequencies: seq<seq<Option<Fraction>>>,
    capital: seq<seq<Option<Capital>>>,
    cumulativeWins: seq<seq<nat>>,
    winLossRatio: seq<seq<Option<Fraction>>>,
    bankruptcies: nat)

  /** The simulator's result after the given runs: their series in order,
      and one bankruptcy for each run that ended in ruin. */
  function Collected(cfg: Config, runs: seq<seq<int>>): (res: Results)
    ensures |res.frequencies| == |res.capital| == |res.cumulativeWins| == |res.winLossRatio| == |runs|
    ensures res.bankruptcies <= |runs|
  {
    if runs == [] then Results([], [], [], [], 0)
    else
      var acc, run := Collected(cfg, runs[..|runs| - 1]), Run(cfg, runs[|runs| - 1]);
      Results(acc.frequencies + [run.series.freq], acc.capital + [run.series.capital],
        acc.cumulativeWins + [run.series.hits], acc.winLossRatio + [run.series.ratio],
        acc.bankruptcies + if run.broke then 1 else 0)
  }

  lemma PadExtend<T>(xs: seq<T>, m: nat, undefined: T)
    requires |xs| <= m
    ensures Pad(xs, m + 1, undefined) == Pad(xs, m, undefined) + [LastOr(Pad(xs, m, undefined), undefined)]
  {
    var v := LastOr(xs, undefined);
    if m > |xs| {
      assert LastOr(Pad(xs, m, undefined), undefined) == v;
      assert seq(m + 1 - |xs|, _ => v) == seq(m - |xs|, _ => v) + [v];
    } else {
      assert seq(1, _ => v) == [v];
    }
  }

  /** Once a run has stopped on ruin, later spins change nothing. */
  lemma {:induction false} BrokeIsFinal(cfg: Config, outcomes: seq<int>, k: nat, n: nat)
    requires k <= n <= |outcomes|
    requires ReplayUpTo(cfg, outcomes, k).broke
    ensures ReplayUpTo(cfg, outcomes, n) == ReplayUpTo(cfg, outcomes, k)
    decreases n - k
  {
    if k < n {
      BrokeIsFinal(cfg, outcomes, k, n - 1);
    }
  }

  /** The money part of one round that is played: clamp the stake to the
      capital in finite mode, settle it, count the win or loss and move the
      progression. The hit counter is left to the statistics. */
  method SettleRound(cfg: Config, s: State, outcome: int) returns (t: State)
    requires s.fibIndex < |Fib|
    requires cfg.mode.Finite? <==> s.capital.Funds?
    ensures t == Step(cfg, s, outcome).(hits := s.hits)
  {
    var capital, stake, fibIndex, streak, wins, losses := s.capital, s.stake, s.fibIndex, s.streak, s.wins, s.losses;
    if cfg.mode.Finite? && stake > capital.amount {
      stake := capital.amount;
    }
    var won := cfg.chosen.Some? && outcome == cfg.chosen.value;
    if won {
      capital := capital.Add(stake * Payout);
      wins := wins + 1;
      streak := streak + 1;
    } else {
      capital := capital.Add(-stake);
      losses := losses + 1;
      streak := 0;
    }
    var next := NextStake(cfg.strategy, stake, fibIndex, streak, won);
    t := State(capital, next.stake, next.fibIndex, streak, wins, losses, s.hits);
  }

  /** The statistics part of one round: count a hit of the chosen number
      and append the round's entry to each series. */
  method RecordRound(cfg: Config, i: nat, outcome: int, t: State, series: Series) returns (counted: State, next: Series)
    requires i > 0
    ensures counted == t.(hits := if Won(cfg.chosen, outcome) then t.hits + 1 else t.hits)
    ensures next == Series(series.freq + [FreqAt(cfg, i, counted)], series.capital + [Some(t.capital)],
                           series.hits + [HitsAt(cfg, counted)], series.ratio + [RatioAt(cfg, counted)])
  {
    counted := t;
    var freqLog, capitalLog, winsLog, ratioLog := series.freq, series.capital + [Some(t.capital)], series.hits, series.ratio;
    if cfg.chosen.Some? {
      if outcome == cfg.chosen.value {
        counted := counted.(hits := counted.hits + 1);
      }
      freqLog := freqLog + [Some(Fraction(counted.hits, i))];
      winsLog := winsLog + [counted.hits];
      ratioLog := ratioLog + [if counted.losses > 0 then Some(Fraction(counted.wins, counted.losses)) else None];
    } else {
      freqLog := freqLog + [None];
      winsLog := winsLog + [0];
      ratioLog := ratioLog + [None];
    }
    next := Series(freqLog, capitalLog, winsLog, ratioLog);
  }

  /** The rounds loop of one run, with its early exit on ruin: returns the
      series as recorded and whether a round started without capital. */
  method PlayRounds(cfg: Config, outcomes: seq<int>) returns (recorded: Series, bankrupt: bool)
    ensures recorded == Recorded(cfg, Replayed(cfg, outcomes).played)
    ensures bankrupt == Replayed(cfg, outcomes).broke
  {
    var n := |outcomes|;
    var s := Init(cfg);
    recorded := Series([], [], [], []);
    bankrupt := false;
    ghost var played: seq<State> := [];
    var i := 1;
    while i <= n
      invariant 1 <= i <= n + 1
      invariant |played| == i - 1
      invariant ReplayUpTo(cfg, outcomes, i - 1) == Replay(played, s, false)
      invariant cfg.mode.Finite? <==> s.capital.Funds?
      invariant recorded == Recorded(cfg, played)
      decreases n + 1 - i
    {
      if cfg.mode.Finite? && s.capital.amount <= 0 {
        bankrupt := true;
        ReplayStops(cfg, outcomes, i, played, s);
        break;
      }
      ghost var before := s;
      ReplayAdvance(cfg, outcomes, i, played, s);
      s := SettleRound(cfg, s, outcomes[i - 1]);
      s, recorded := RecordRound(cfg, i, outcomes[i - 1], s, recorded);
      assert s == Step(cfg, before, outcomes[i - 1]);
      RecordOne(cfg, played, s);
      played := played + [s];
      i := i + 1;
    }
  }

  /** A round that starts with capital left is played: its state is
      appended to the rounds played and becomes the current one. */
  lemma ReplayAdvance(cfg: Config, outcomes: seq<int>, k: nat, played: seq<State>, s: State)
    requires 0 < k <= |outcomes|
    requires ReplayUpTo(cfg, outcomes, k - 1) == Replay(played, s, false)
    requires !Exhausted(cfg, s)
    ensures var t := Step(cfg, s, outcomes[k - 1]);
      ReplayUpTo(cfg, outcomes, k) == Replay(played + [t], t, false)
  {
  }

  /** A round that starts without capital ends the run: the whole replay
      keeps the rounds played so far and is bankrupt. */
  lemma ReplayStops(cfg: Config, outcomes: seq<int>, k: nat, played: seq<State>, s: State)
    requires 0 < k <= |outcomes|
    requires ReplayUpTo(cfg, outcomes, k - 1) == Replay(played, s, false)
    requires Exhausted(cfg, s)
    ensures Replayed(cfg, outcomes) == Replay(played, s, true)
  {
    BrokeIsFinal(cfg, outcomes, k, |outcomes|);
  }

  /** Recording one more round appends one entry to each series. */
  lemma RecordOne(cfg: Config, played: seq<State>, t: State)
    ensures Recorded(cfg, played + [t]) == var r := Recorded(cfg, played);
      Series(r.freq + [FreqAt(cfg, |played| + 1, t)], r.capital + [Some(t.capital)],
             r.hits + [HitsAt(cfg, t)], r.ratio + [RatioAt(cfg, t)])
  {
    var r, r' := Recorded(cfg, played), Recorded(cfg, played + [t]);
    assert r'.freq == r.freq + [FreqAt(cfg, |played| + 1, t)];
    assert r'.capital == r.capital + [Some(t.capital)];
    assert r'.hits == r.hits + [HitsAt(cfg, t)];
    assert r'.ratio == r.ratio + [RatioAt(cfg, t)];
  }

  /** The padding loop: every series is lengthened to n entries, repeating
      its last entry; with no chosen number the statistics are padded with
      the undefined value and zero. */
  method PadRun(chosen: Option<int>, recorded: Series, n: nat) returns (padded: Series)
    requires |recorded.freq| == |recorded.capital| == |recorded.hits| == |recorded.ratio| <= n
    requires chosen.None? && recorded.freq != [] ==>
      LastOr(recorded.freq, None) == None && LastOr(recorded.hits, 0) == 0 && LastOr(recorded.ratio, None) == None
    ensures padded == Padded(recorded, n)
  {
    var freqLog, capitalLog, winsLog, ratioLog := recorded.freq, recorded.capital, recorded.hits, recorded.ratio;
    while |capitalLog| < n
      invariant |recorded.capital| <= |capitalLog| <= n
      invariant freqLog == Pad(recorded.freq, |capitalLog|, None)
      invariant capitalLog == Pad(recorded.capital, |capitalLog|, None)
      invariant winsLog == Pad(recorded.hits, |capitalLog|, 0)
      invariant ratioLog == Pad(recorded.ratio, |capitalLog|, None)
    {
      PadExtend(recorded.freq, |capitalLog|, None);
      PadExtend(recorded.capital, |capitalLog|, None);
      PadExtend(recorded.hits, |capitalLog|, 0);
      PadExtend(recorded.ratio, |capitalLog|, None);
      capitalLog := capitalLog + [if capitalLog != [] then capitalLog[|capitalLog| - 1] else None];
      if chosen.Some? {
        freqLog := freqLog + [if freqLog != [] then freqLog[|freqLog| - 1] else None];
        winsLog := winsLog + [if winsLog != [] then winsLog[|winsLog| - 1] else 0];
        ratioLog := ratioLog + [if ratioLog != [] then ratioLog[|ratioLog| - 1] else None];
      } else {
        freqLog := freqLog + [None];
        winsLog := winsLog + [0];
        ratioLog := ratioLog + [None];
      }
    }
    padded := Series(freqLog, capitalLog, winsLog, ratioLog);
  }

  /** One run: the rounds loop, then the padding loop. */
  method SimulateRun(cfg: Config, outcomes: seq<int>) returns (r: RunResult)
    ensures r == Run(cfg, outcomes)
  {
    var recorded, bankrupt := PlayRounds(cfg, outcomes);
    var padded := PadRun(cfg.chosen, recorded, |outcomes|);
    r := RunResult(padded, bankrupt);
  }

  /** The whole simulation: one run per sequence of spins, each handing back
      its padded series, and the tally of the runs that went bankrupt. */
  method Simulate(nRounds: nat, runs: seq<seq<int>>, cfg: Config) returns (res: Results)
    requires ValidChoice(cfg.chosen)
    requires forall k :: 0 <= k < |runs| ==> |runs[k]| == nRounds
    requires forall k, j :: 0 <= k < |runs| && 0 <= j < |runs[k]| ==> 0 <= runs[k][j] <= MaxNumber
    ensures res == Collected(cfg, runs)
  {
    var freqs, capitals, wins, ratios := [], [], [], [];
    var broke: nat := 0;
    for k := 0 to |runs|
      invariant Results(freqs, capitals, wins, ratios, broke) == Collected(cfg, runs[..k])
    {
      var run := SimulateRun(cfg, runs[k]);
      freqs := freqs + [run.series.freq];
      capitals := capitals + [run.series.capital];
      wins := wins + [run.series.hits];
      ratios := ratios + [run.series.ratio];
      if run.broke {
        broke := broke + 1;
      }
      assert runs[..k + 1][..k] == runs[..k];
    }
    assert runs[..|runs|] == runs;
    res := Results(freqs, capitals, wins, ratios, broke);
  }
}
