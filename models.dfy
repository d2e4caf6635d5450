/** The rows the engine reads and writes (src/models.rs, src/schema.rs). */
module Models {
  import opened Wrappers

  /** A row of either shortlink table as read back. The insertable forms
      CanonicalShortlink and CustomShortlink have the same two columns. */
  datatype Shortlink = Shortlink(name: string, target: string)

  /** One row of the visits table: the name that was resolved and the
      caller's address as text, when the peer address is known. The row id
      and the timestamp are filled in by the database. */
  datatype Visit = Visit(name: string, ipAddr: Option<string>)

  /** Calendar dates and timestamps are kept abstract: a date is a day
      number and a timestamp its date plus a time of day. */
  datatype NaiveDate = NaiveDate(day: int)

  datatype NaiveDateTime = NaiveDateTime(date: NaiveDate, nanosOfDay: nat)

  /** One row returned by the stored aggregate query for a name. */
  datatype AggregateVisits = AggregateVisits(visitDate: NaiveDateTime, visitCount: int)
}
