/**
 * Quiet hours, and the runner's search for the next permitted hour
 * (packages/core/src/policy.ts, packages/sim/src/runner.ts). Local time is a fixed
 * offset from the clock.
 */
module QuietHours {

  const MINUTE := 60_000
  const HOUR := 3_600_000
  const DAY_MINUTES := 1440

  /** Minutes after local midnight. */
  type TimeOfDay = m: int | 0 <= m < DAY_MINUTES witness 0

  datatype Quiet = Quiet(start: TimeOfDay, end: TimeOfDay, offset: int)

  function LocalMinutes(at: int, offset: int): (m: int)
    ensures 0 <= m < DAY_MINUTES
  {
    (at / MINUTE + offset) % DAY_MINUTES
  }

  /** Minutes of 60000 ms and days of 86400000 ms, counted from the offset. */
  lemma LocalClock(at: int, offset: int)
    ensures LocalMinutes(0, offset) == offset % 1440
    ensures LocalMinutes(at + 60000, offset) == (LocalMinutes(at, offset) + 1) % 1440
    ensures LocalMinutes(at + 86400000, offset) == LocalMinutes(at, offset)
  {
    MinutesLater(at, 1);
    MinutesLater(at, 1440);
    var m := at / MINUTE + offset;
    assert (m + 1440) % 1440 == m % 1440;
  }

  lemma MinutesLater(at: int, k: int)
    ensures (at + 60000 * k) / MINUTE == at / MINUTE + k
  {
  }

  /** Within a minute the local time stays. */
  lemma WithinMinute(minute: int, ms: int, offset: int)
    requires 0 <= ms < 60000
    ensures LocalMinutes(60000 * minute + ms, offset) == (minute + offset) % 1440
  {
  }

  predicate QuietAt(m: int, q: Quiet) {
    if q.start > q.end then m >= q.start || m < q.end else q.start <= m < q.end
  }

  predicate InQuietHours(at: int, q: Quiet) {
    QuietAt(LocalMinutes(at, q.offset), q)
  }

  /** How long contact is permitted in a day; a window that wraps midnight counts as one. */
  function PermittedMinutes(q: Quiet): (n: int)
    ensures 0 < n <= DAY_MINUTES
  {
    if q.start > q.end then q.start - q.end else DAY_MINUTES - (q.end - q.start)
  }

  /** Minutes since contact was last permitted to begin. */
  function SinceEnd(m: int, q: Quiet): (d: int)
    ensures 0 <= d < DAY_MINUTES
  {
    (m - q.end) % DAY_MINUTES
  }

  /** The permitted minutes are one run of the clock, starting where quiet hours end. */
  lemma PermittedIsARun(m: int, q: Quiet)
    requires 0 <= m < DAY_MINUTES
    ensures !QuietAt(m, q) <==> q.start == q.end || SinceEnd(m, q) < PermittedMinutes(q)
  {
  }

  lemma HoursLater(at: int, k: int, offset: int)
    ensures LocalMinutes(at + k * HOUR, offset) == (LocalMinutes(at, offset) + 60 * k) % DAY_MINUTES
  {
  }

  predicate QuietIn(now: int, k: int, q: Quiet) {
    InQuietHours(now + k * HOUR, q)
  }

  /** One of the next 24 whole hours is permitted. */
  ghost predicate HourFound(now: int, q: Quiet) {
    exists k :: 1 <= k <= 24 && !QuietIn(now, k, q)
  }

  /** The first permitted hour, or one hour when there is none. */
  ghost predicate IsDeferral(now: int, q: Quiet, k: int) {
    && 1 <= k <= 24
    && (forall j :: 1 <= j < k ==> QuietIn(now, j, q))
    && (QuietIn(now, k, q) ==> k == 1 && !HourFound(now, q))
  }

  /** The first of the next 24 whole hours at which contact is permitted; one hour when there is none. */
  method MsUntilContactAllowed(now: int, q: Quiet) returns (ms: int, ghost k: int)
    ensures ms == k * 3600000 && IsDeferral(now, q, k)
    ensures !InQuietHours(now + ms, q) <==> HourFound(now, q)
  {
    ms, k := 0, 0;
    while ms < 24 * HOUR
      invariant 0 <= k <= 24 && ms == k * HOUR
      invariant forall j :: 1 <= j <= k ==> QuietIn(now, j, q)
      decreases 24 - k
    {
      ms, k := ms + HOUR, k + 1;
      assert QuietIn(now, k, q) <==> InQuietHours(now + ms, q);
      if !InQuietHours(now + ms, q) {
        return;
      }
    }
    ms, k := HOUR, 1;
    assert QuietIn(now, 1, q);
  }

  /** The whole hours it takes to reach, or to pass by less than an hour, an instant `d` minutes ahead. */
  function HoursTo(d: int): (k: int)
    requires 0 <= d < DAY_MINUTES
    ensures 1 <= k <= 24 && (60 * k - d) % DAY_MINUTES < 60
  {
    if d == 0 then 24 else (d + 59) / 60
  }

  lemma SinceEndAfter(m: int, k: int, q: Quiet)
    ensures SinceEnd((m + 60 * k) % DAY_MINUTES, q) == (60 * k - (q.end - m) % DAY_MINUTES) % DAY_MINUTES
  {
    var x, y := m + 60 * k, q.end - m;
    WholeDays(x % DAY_MINUTES - q.end, 60 * k - y % DAY_MINUTES, 0 - x / DAY_MINUTES - y / DAY_MINUTES);
  }

  lemma WholeDays(x: int, y: int, days: int)
    requires x == y + DAY_MINUTES * days
    ensures x % DAY_MINUTES == y % DAY_MINUTES
  {
  }

  /** With an hour or more permitted a day, the search always ends at a permitted instant. */
  lemma AnHourIsEnough(now: int, q: Quiet)
    requires PermittedMinutes(q) >= 60
    ensures HourFound(now, q)
  {
    hide SinceEnd, LocalMinutes, QuietAt;
    var m := LocalMinutes(now, q.offset);
    var k := HoursTo((q.end - m) % DAY_MINUTES);
    HoursLater(now, k, q.offset);
    SinceEndAfter(m, k, q);
    PermittedIsARun((m + 60 * k) % DAY_MINUTES, q);
    assert !QuietIn(now, k, q);
  }

  /** An instant at the minute just past the permitted run. */
  function JustPast(q: Quiet): int {
    (q.end + PermittedMinutes(q) - q.offset) * MINUTE
  }

  /** With less, the search fails from the minute that falls just past the permitted run. */
  lemma LessIsNotEnough(q: Quiet)
    requires PermittedMinutes(q) < 60
    ensures !HourFound(JustPast(q), q)
  {
  }

  /** The runner's deferral lands outside quiet hours from every instant exactly when at least an hour a day is permitted. */
  lemma DeferralWorksIff(q: Quiet)
    ensures (forall now :: HourFound(now, q)) <==> PermittedMinutes(q) >= 60
  {
    if PermittedMinutes(q) >= 60 {
      forall now ensures HourFound(now, q) {
        AnHourIsEnough(now, q);
      }
    } else {
      LessIsNotEnough(q);
    }
  }
}
