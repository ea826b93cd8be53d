/** Dates as integer milliseconds since the epoch, with fixed-length days.
    These stand for the start/end-of-day and earlier/later helpers the
    booking code uses. */
module Dates {

  /** Milliseconds in one day. */
  const DAY: int := 86_400_000

  predicate IsDayStart(t: int) {
    t % DAY == 0
  }

  /** The first millisecond of the day containing `t`. */
  function BeginningOfDay(t: int): (r: int)
    ensures IsDayStart(r)
    ensures r <= t < r + DAY
  {
    t - t % DAY
  }

  /** The last millisecond of the day containing `t`. */
  function EndOfDay(t: int): (r: int)
    ensures IsDayStart(r + 1)
    ensures r - DAY < t <= r
  {
    BeginningOfDay(t) + DAY - 1
  }

  /** The later of two dates. */
  function Late(a: int, b: int): (r: int)
    ensures a <= r && b <= r
    ensures r == a || r == b
  {
    if a < b then b else a
  }

  /** The earlier of two dates. */
  function Early(a: int, b: int): (r: int)
    ensures r <= a && r <= b
    ensures r == a || r == b
  {
    if b < a then b else a
  }

  /** Distinct day starts are at least one day apart. */
  lemma DayStartsApart(a: int, b: int)
    requires IsDayStart(a) && IsDayStart(b) && a < b
    ensures a + DAY <= b
  {
  }

  /** Normalising an ordered pair of dates to whole days leaves the start of
      the first day strictly before the end of the last. */
  lemma NormalisedOrder(f: int, t: int)
    requires f <= t
    ensures BeginningOfDay(f) < EndOfDay(t)
  {
    var first := BeginningOfDay(f);
    if first == EndOfDay(t) {
      DayStartsApart(first, first + 1);
    }
  }
}
