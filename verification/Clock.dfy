/** Time as the shop sees it: instants are nanoseconds, and Jakarta is seven
    hours ahead of UTC the whole year round. Dates are day numbers. */
module Clock {

  type Instant = int
  type Date = int

  const MINUTE := 60_000_000_000
  const HOUR := 60 * MINUTE
  const DAY := 24 * HOUR
  const JAKARTA := 7 * HOUR

  /** The Jakarta calendar day of an instant. */
  function DateOf(t: Instant): Date { (t + JAKARTA) / DAY }

  /** The instant some minutes after Jakarta midnight of a date. */
  function At(d: Date, minutes: int): Instant { d * DAY - JAKARTA + minutes * MINUTE }

  /** Whole minutes after Jakarta midnight. */
  function TimeOfDay(t: Instant): int { (t + JAKARTA) % DAY / MINUTE }

  /** A Jakarta day starts at 17.00 UTC of the day before, and is 86 400 seconds
      long. */
  lemma DaysStartAtSeventeen(t: Instant, d: Date)
    ensures DateOf(t) == d <==>
              d * 86_400_000_000_000 <= t + 25_200_000_000_000 < (d + 1) * 86_400_000_000_000
    ensures At(d, 0) == d * 86_400_000_000_000 - 25_200_000_000_000
    ensures 0 <= TimeOfDay(t) < 1440
    ensures TimeOfDay(t) * MINUTE <= t - At(DateOf(t), 0) < (TimeOfDay(t) + 1) * MINUTE
  {
  }
}
