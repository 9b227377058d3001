/** The daily generation quota: a `{date, count}` record kept under one
    storage key, and the in-memory count the application gates on. "Today"
    is the UTC calendar date the browser reports; here it is an opaque value
    supplied by the caller. */
module Quota {

  const DAILY_LIMIT: int := 10

  /** A calendar day as the source writes it (`YYYY-MM-DD`); only equality matters. */
  type Day = string

  /** The value under the storage key: nothing (or the empty string), text
      that does not parse as a record, or a parsed `{date, count}` record. */
  datatype Stored = Absent | Unparseable | Record(date: Day, count: int)

  /** An in-memory count together with the stored value it leaves behind. */
  datatype QuotaState = QuotaState(count: int, store: Stored)

  /** The persisted record describes exactly the in-memory count for `today`. */
  predicate InSync(q: QuotaState, today: Day) {
    q.store == Record(today, q.count)
  }

  /** The start-up effect: a record stamped today yields its count and is
      left alone; anything else yields 0 and is overwritten with `{today, 0}`. */
  function LoadQuota(stored: Stored, today: Day): (q: QuotaState)
    ensures InSync(q, today)
    ensures q.count == (if stored.Record? && stored.date == today then stored.count else 0)
    ensures stored.Record? && stored.date == today ==> q.store == stored
  {
    match stored
    case Record(date, count) =>
      if date == today then QuotaState(count, stored) else QuotaState(0, Record(today, 0))
    case Unparseable => QuotaState(0, Record(today, 0))
    case Absent => QuotaState(0, Record(today, 0))
  }

  /** `incrementLimit`: one more generation, persisted with the date current
      at the time of the call. The count is the in-memory one, not re-read
      from storage. */
  function IncrementLimit(count: int, today: Day): (q: QuotaState)
    ensures q.count == count + 1
    ensures InSync(q, today)
  {
    QuotaState(count + 1, Record(today, count + 1))
  }

  /** Loading is idempotent: a second load finds what the first one wrote. */
  lemma LoadIdempotent(stored: Stored, today: Day)
    ensures LoadQuota(LoadQuota(stored, today).store, today) == LoadQuota(stored, today)
  {
  }

  /** What an increment persists is read back the same day, and reads as
      zero on any other day. */
  lemma IncrementPersists(count: int, today: Day, later: Day)
    ensures LoadQuota(IncrementLimit(count, today).store, today).count == count + 1
    ensures later != today ==> LoadQuota(IncrementLimit(count, today).store, later) == QuotaState(0, Record(later, 0))
  {
  }

  /** A load of an in-sync store returns the same in-memory state. */
  lemma LoadInverse(q: QuotaState, today: Day)
    requires InSync(q, today)
    ensures LoadQuota(q.store, today) == q
  {
  }
}
