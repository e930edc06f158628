/// What the dashboard, the history and the production screen read from a
/// production record, the guards the screens divide by, and the filter on
/// a calendar day.
module Metrics {
  import opened Seqs
  import opened Types

  function Weight(r: ProductionRecord): real { r.totalWeightKg }
  function Waste(r: ProductionRecord): real { r.wasteKg }
  function Employees(r: ProductionRecord): real { r.employeeCount }
  function Infestation(r: ProductionRecord): real { r.infestationRate }
  function Units(r: ProductionRecord): real { r.totalProduction }
  function DateOf(r: ProductionRecord): string { r.date }
  function ClientOf(r: ProductionRecord): string { r.clientName }
  function Stamp(r: ProductionRecord): int { r.timestamp }

  /** `x || 1` on a number: a zero divisor is replaced by 1. */
  function OrOne(x: real): (r: real)
    ensures r != 0.0
    ensures x != 0.0 ==> r == x
  {
    if x == 0.0 then 1.0 else x
  }

  /**
    * `divisor > 0 ? total / divisor : 0`: the quotient, undone by
    * multiplying back, or 0 when the divisor is not positive.
    */
  function GuardedRatio(total: real, divisor: real): (r: real)
    ensures divisor > 0.0 ==> r * divisor == total
    ensures divisor <= 0.0 ==> r == 0.0
  {
    if divisor > 0.0 then total / divisor else 0.0
  }

  /**
    * `total / count` for a per-record mean; every group that computes one
    * holds a record, so the 0 is never used.
    */
  function MeanOver(total: real, count: nat): real {
    if count > 0 then total / count as real else 0.0
  }

  /** `records.filter(r => r.date === day)`: exactly the records of that day, in order. */
  function RecordsOn(rs: seq<ProductionRecord>, day: string): (r: seq<ProductionRecord>)
    ensures forall x :: x in r <==> x in rs && x.date == day
  {
    SelectMember(rs, DateOf, day);
    Select(rs, DateOf, day)
  }
}
