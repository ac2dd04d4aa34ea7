/** Worked runs that pin the engine's behaviour on small inputs, including
    the edge cases where what the code does differs from a first reading:
    the clamp that stakes the whole remaining capital, the ruin on the last
    spin that is not counted, and the Paroli streak that only a loss ends. */
module RouletteScenarios {
  import opened Wrappers
  import opened Strategies
  import opened Roulette

  /** The rounds of Martingale on 17 with infinite capital over the spins
      17, 5, 5, 5, 17: after the hit the stake is the base, each loss
      doubles it, and the second hit brings it back to the base. */
  lemma MartingaleRounds()
    ensures Replayed(Config(Some(17), Martingale, Infinite), [17, 5, 5, 5, 17]) ==
      Replay([State(Unlimited, 10, 0, 1, 1, 0, 1), State(Unlimited, 20, 0, 0, 1, 1, 1),
              State(Unlimited, 40, 0, 0, 1, 2, 1), State(Unlimited, 80, 0, 0, 1, 3, 1),
              State(Unlimited, 10, 0, 1, 2, 3, 2)],
             State(Unlimited, 10, 0, 1, 2, 3, 2), false)
  {
    var cfg, o := Config(Some(17), Martingale, Infinite), [17, 5, 5, 5, 17];
    var s1 := State(Unlimited, 10, 0, 1, 1, 0, 1);
    var s2 := State(Unlimited, 20, 0, 0, 1, 1, 1);
    var s3 := State(Unlimited, 40, 0, 0, 1, 2, 1);
    var s4 := State(Unlimited, 80, 0, 0, 1, 3, 1);
    var s5 := State(Unlimited, 10, 0, 1, 2, 3, 2);
    assert ReplayUpTo(cfg, o, 1) == Replay([s1], s1, false);
    assert ReplayUpTo(cfg, o, 2) == Replay([s1, s2], s2, false);
    assert ReplayUpTo(cfg, o, 3) == Replay([s1, s2, s3], s3, false);
    assert ReplayUpTo(cfg, o, 4) == Replay([s1, s2, s3, s4], s4, false);
  }

  /** The same run as the simulator records it: the hit count, the
      frequency and the win/loss ratio follow the hits, and the capital
      stays infinite. */
  lemma MartingaleDoublesUntilHit()
    ensures var cfg, o := Config(Some(17), Martingale, Infinite), [17, 5, 5, 5, 17];
      var s := Run(cfg, o).series;
      !Run(cfg, o).broke &&
      s.hits == [1, 1, 1, 1, 2] &&
      s.freq == [Some(Fraction(1, 1)), Some(Fraction(1, 2)), Some(Fraction(1, 3)),
                 Some(Fraction(1, 4)), Some(Fraction(2, 5))] &&
      s.ratio == [None, Some(Fraction(1, 1)), Some(Fraction(1, 2)),
                  Some(Fraction(1, 3)), Some(Fraction(2, 3))] &&
      s.capital == [Some(Unlimited), Some(Unlimited), Some(Unlimited), Some(Unlimited), Some(Unlimited)]
  {
    var cfg := Config(Some(17), Martingale, Infinite);
    MartingaleRounds();
    var r := Recorded(cfg, [State(Unlimited, 10, 0, 1, 1, 0, 1), State(Unlimited, 20, 0, 0, 1, 1, 1),
                            State(Unlimited, 40, 0, 0, 1, 2, 1), State(Unlimited, 80, 0, 0, 1, 3, 1),
                            State(Unlimited, 10, 0, 1, 2, 3, 2)]);
    assert Run(cfg, [17, 5, 5, 5, 17]).series == r;
  }

  /** Martingale on 17 from a capital of 15, two losing spins: the second
      stake of 20 is cut to the 5 left, the capital ends at 0, the next
      stake doubles the 5 actually staked, and because no round starts
      after that the run does not count as bankrupt. */
  lemma LastSpinRuinNotCounted()
    ensures var cfg, o := Config(Some(17), Martingale, Finite(15)), [5, 5];
      var s := Run(cfg, o).series;
      !Run(cfg, o).broke && Replayed(cfg, o).played[1].stake == 10 &&
      s.capital == [Some(Funds(5)), Some(Funds(0))] &&
      s.ratio == [Some(Fraction(0, 1)), Some(Fraction(0, 2))]
  {
    var cfg, o := Config(Some(17), Martingale, Finite(15)), [5, 5];
    var s1 := Step(cfg, Init(cfg), 5);
    var s2 := Step(cfg, s1, 5);
    assert s1.capital == Funds(5) && s1.stake == 20;
    assert s2.capital == Funds(0);
    assert ReplayUpTo(cfg, o, 1) == Replay([s1], s1, false);
    assert ReplayUpTo(cfg, o, 2) == Replay([s1, s2], s2, false);
  }

  /** The same run with a third losing spin: that round starts with no
      capital, so the run is bankrupt and its capital series stays at 0. */
  lemma RuinBeforeThirdSpin()
    ensures var cfg, o := Config(Some(17), Martingale, Finite(15)), [5, 5, 5];
      var s := Run(cfg, o).series;
      Run(cfg, o).broke && |Replayed(cfg, o).played| == 2 &&
      s.capital == [Some(Funds(5)), Some(Funds(0)), Some(Funds(0))] &&
      s.hits == [0, 0, 0]
  {
    var cfg, o := Config(Some(17), Martingale, Finite(15)), [5, 5, 5];
    var s1 := Step(cfg, Init(cfg), 5);
    var s2 := Step(cfg, s1, 5);
    assert s1.capital == Funds(5) && s1.stake == 20;
    assert s2.capital == Funds(0);
    assert ReplayUpTo(cfg, o, 1) == Replay([s1], s1, false);
    assert ReplayUpTo(cfg, o, 2) == Replay([s1, s2], s2, false);
    assert ReplayUpTo(cfg, o, 3) == Replay([s1, s2], s2, true);
  }

  /** Paroli on 17 with infinite capital over four winning spins: the stake
      doubles twice, returns to the base on the third win, and stays at the
      base on the fourth because the streak counter is not reset by the
      third win. */
  lemma ParoliStreakOnlyResetByLoss()
    ensures var cfg, o := Config(Some(17), Paroli, Infinite), [17, 17, 17, 17];
      var p := Replayed(cfg, o).played;
      |p| == 4 &&
      [p[0].stake, p[1].stake, p[2].stake, p[3].stake] == [20, 40, 10, 10] &&
      [p[0].streak, p[1].streak, p[2].streak, p[3].streak] == [1, 2, 3, 4]
  {
    var cfg, o := Config(Some(17), Paroli, Infinite), [17, 17, 17, 17];
    var s1 := Step(cfg, Init(cfg), 17);
    var s2 := Step(cfg, s1, 17);
    var s3 := Step(cfg, s2, 17);
    var s4 := Step(cfg, s3, 17);
    assert ReplayUpTo(cfg, o, 1) == Replay([s1], s1, false);
    assert ReplayUpTo(cfg, o, 2) == Replay([s1, s2], s2, false);
    assert ReplayUpTo(cfg, o, 3) == Replay([s1, s2, s3], s3, false);
    assert ReplayUpTo(cfg, o, 4) == Replay([s1, s2, s3, s4], s4, false);
  }
}
