/**
 * Calendar instants. A `Date` is its local calendar year (what
 * `getFullYear()` returns) and the time elapsed since that year began;
 * instants compare like `Date` objects compare in the source.
 */
module Time {

  datatype Date = Date(year: nat, offset: nat)

  /** `a < b` on `Date` values. */
  predicate Before(a: Date, b: Date)
  {
    a.year < b.year || (a.year == b.year && a.offset < b.offset)
  }
}
