/** Time in nanoseconds, and the two ways the server rounds it. */
module Clock {

  const SECOND: nat := 1_000_000_000

  /** RFC 3339 text and SQLite's datetime both keep whole seconds only. */
  function WholeSecond(t: int): (s: int)
    ensures s <= t < s + SECOND && s % SECOND == 0
  {
    t - t % SECOND
  }

  /** A cache's age in whole seconds, rounded toward zero; a reading before the update counts back. */
  function AgeSeconds(updatedAt: int, now: int): (age: int)
    ensures updatedAt <= now ==> age * SECOND <= now - updatedAt < (age + 1) * SECOND
    ensures now < updatedAt ==> (age - 1) * SECOND < now - updatedAt <= age * SECOND
  {
    if updatedAt <= now then (now - updatedAt) / SECOND else -((updatedAt - now) / SECOND)
  }
}
