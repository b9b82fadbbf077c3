/** The dashboard's card for one active investment and its own progress
    computation. */
module ActiveInvestmentCard {
  import Progress

  /** The card's `calculateProgress`: the end guard first, then `now < start`,
      then the floor of the elapsed share. It shows the same percentage as the
      shared definition on every input, although its second guard is strict. */
  function CardProgress(start: int, end: int, now: int): (p: int)
    ensures 0 <= p <= 100
    ensures p == Progress.Elapsed(start, end, now)
  {
    if now >= end then 100
    else if now < start then 0
    else (100 * (now - start)) / (end - start)
  }
}
