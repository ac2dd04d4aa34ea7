/** The four stake progressions of the roulette simulator and the rule that
    sizes the next stake once a round is settled. */
module Strategies {

  /** The stake every run starts from. */
  const Base: int := 10

  /** The amount D'Alembert adds after a loss and removes after a win. */
  const Unit: int := 10

  /** The Fibonacci progression, in units of Base. */
  const Fib: seq<int> := [1, 1, 2, 3, 5, 8, 13, 21, 34]

  /** A win that brings the Paroli streak to this many resets the stake. */
  const ParoliLimit: nat := 3

  /** The strategy tag: 'm', 'd', 'f', 'o'; any other tag matches none of
      the branches and leaves the stake as it is (Flat). */
  datatype Strategy = Martingale | DAlembert | Fibonacci | Paroli | Flat

  /** What the progression carries into the next round. */
  datatype Wager = Wager(stake: int, fibIndex: nat)

  /** The largest stake Paroli can hold with the given streak of
      consecutive wins: one doubling per win, back to Base at the limit. */
  function ParoliCap(streak: nat): (c: int)
    ensures Base <= c <= 4 * Base
    ensures 0 < streak < ParoliLimit ==> c == 2 * ParoliCap(streak - 1)
  {
    if streak == 1 then 2 * Base
    else if streak == 2 then 4 * Base
    else Base
  }

  /** The stake for the next round, from the stake just settled (already
      clamped to the capital), the Fibonacci index, the streak of
      consecutive wins (already updated for this round) and the outcome. */
  function NextStake(strategy: Strategy, stake: int, fibIndex: nat, streak: nat, won: bool): (r: Wager)
    requires fibIndex < |Fib|
    ensures r.fibIndex < |Fib|
  {
    match strategy
    case Martingale =>
      Wager(if won then Base else stake * 2, fibIndex)
    case DAlembert =>
      Wager(Max(Base, stake + (if !won then Unit else -Unit)), fibIndex)
    case Fibonacci =>
      var i := if won then Max(0, fibIndex - 2) else Min(|Fib| - 1, fibIndex + 1);
      FibBounded(i);
      Wager(Base * Fib[i], i)
    case Paroli =>
      Wager(if won && streak < ParoliLimit then stake * 2 else Base, fibIndex)
    case Flat =>
      Wager(stake, fibIndex)
  }

  /** Martingale: back to the base after a win, double after a loss. */
  lemma MartingaleRule(stake: int, fibIndex: nat, streak: nat, won: bool)
    requires fibIndex < |Fib|
    ensures var r := NextStake(Martingale, stake, fibIndex, streak, won);
      r.stake == (if won then Base else 2 * stake) && r.fibIndex == fibIndex
  {
  }

  /** D'Alembert: one unit up after a loss, one unit down after a win, and
      never below the base. */
  lemma DAlembertRule(stake: int, fibIndex: nat, streak: nat, won: bool)
    requires fibIndex < |Fib|
    ensures var r := NextStake(DAlembert, stake, fibIndex, streak, won);
      r.stake >= Base && r.fibIndex == fibIndex &&
      (!won && stake >= 0 ==> r.stake == stake + Unit) &&
      (won && stake >= Base + Unit ==> r.stake == stake - Unit) &&
      (won && stake < Base + Unit ==> r.stake == Base)
  {
  }

  /** Fibonacci: two places back after a win, one place on after a loss,
      always inside the table, the stake being the base times the entry. */
  lemma FibonacciRule(stake: int, fibIndex: nat, streak: nat, won: bool)
    requires fibIndex < |Fib|
    ensures var r := NextStake(Fibonacci, stake, fibIndex, streak, won);
      (won ==> r.fibIndex == if fibIndex < 2 then 0 else fibIndex - 2) &&
      (!won ==> r.fibIndex == if fibIndex + 1 < |Fib| then fibIndex + 1 else |Fib| - 1) &&
      r.stake == Base * Fib[r.fibIndex] && Base <= r.stake <= 34 * Base
  {
  }

  /** Paroli: double after a win that leaves the streak below the limit,
      back to the base after any other outcome. */
  lemma ParoliRule(stake: int, fibIndex: nat, streak: nat, won: bool)
    requires fibIndex < |Fib|
    ensures var r := NextStake(Paroli, stake, fibIndex, streak, won);
      r.stake == (if won && streak < ParoliLimit then 2 * stake else Base) && r.fibIndex == fibIndex
  {
  }

  lemma FibBounded(i: int)
    requires 0 <= i < |Fib|
    ensures 1 <= Fib[i] <= 34
  {
  }

  function Max(a: int, b: int): int { if a < b then b else a }

  function Min(a: int, b: int): int { if a < b then a else b }
}
