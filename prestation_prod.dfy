/// The production-service screen (components/PrestationProdModule.tsx): the
/// month's service statistics, the entry form and the service journal. The
/// sub-tab and edit-mode state is the shared `EditFlow.EditController`.
module PrestationProd {
  import opened Options
  import opened Seqs
  import opened Sorting
  import opened Types
  import Metrics

  function WeightOut(r: PrestationProdRecord): real { r.weightOut }
  function Amount(r: PrestationProdRecord): real { r.totalAmount }
  function Waste(r: PrestationProdRecord): real { r.wasteKg }
  function Employees(r: PrestationProdRecord): real { r.employeeCount }
  function DateOf(r: PrestationProdRecord): string { r.date }

  function ServiceMonth(monthOf: string -> YearMonth): PrestationProdRecord -> YearMonth {
    (r: PrestationProdRecord) => monthOf(r.date)
  }

  /** `monthlyRecords`: the services dated in the month `now`, in input order. */
  function MonthlyRecords(records: seq<PrestationProdRecord>, now: YearMonth, monthOf: string -> YearMonth)
    : (r: seq<PrestationProdRecord>)
    ensures forall x :: x in r <==> x in records && monthOf(x.date) == now
  {
    SelectMember(records, ServiceMonth(monthOf), now);
    Select(records, ServiceMonth(monthOf), now)
  }

  datatype ProdStats = ProdStats(
    totalWeight: real,
    totalAmount: real,
    totalWaste: real,
    count: nat,
    avgEmployees: real,
    avgYield: real,
    avgDailyWeight: real)

  /**
    * `stats`: the month's output weight, turnover, waste and record count;
    * head count and weight per working day, and weight per employee, each 0
    * when its divisor is not positive. The working days (`uniqueDays`) are
    * the month's different dates. The figures cover exactly the month's
    * services, so a month without one shows only zeros.
    */
  function ServiceStats(records: seq<PrestationProdRecord>, now: YearMonth, monthOf: string -> YearMonth): (s: ProdStats)
    ensures var month := MonthlyRecords(records, now, monthOf);
      s.count == |month| && s.totalWeight == Sum(month, WeightOut) &&
      s.totalAmount == Sum(month, Amount) && s.totalWaste == Sum(month, Waste)
    ensures s.count == 0 ==> s == ProdStats(0.0, 0.0, 0.0, 0, 0.0, 0.0, 0.0)
  {
    var month := MonthlyRecords(records, now, monthOf);
    var totalWeight := Sum(month, WeightOut);
    var totalEmployees := Sum(month, Employees);
    var uniqueDays := DistinctCount(month, DateOf);
    ProdStats(totalWeight, Sum(month, Amount), Sum(month, Waste), |month|,
      Metrics.GuardedRatio(totalEmployees, uniqueDays as real),
      Metrics.GuardedRatio(totalWeight, totalEmployees),
      Metrics.GuardedRatio(totalWeight, uniqueDays as real))
  }

  /**
    * The per-day averages undo their sums: times the number of working days
    * they give back the month's head count and weight; with no record they
    * are 0.
    */
  lemma PerDayAverages(records: seq<PrestationProdRecord>, now: YearMonth, monthOf: string -> YearMonth)
    ensures var month := MonthlyRecords(records, now, monthOf);
      var s := ServiceStats(records, now, monthOf);
      s.count > 0 ==> s.avgEmployees * DistinctCount(month, DateOf) as real == Sum(month, Employees)
    ensures var month := MonthlyRecords(records, now, monthOf);
      var s := ServiceStats(records, now, monthOf);
      s.count > 0 ==> s.avgDailyWeight * DistinctCount(month, DateOf) as real == s.totalWeight
    ensures var s := ServiceStats(records, now, monthOf);
      s.count == 0 ==> s.avgEmployees == 0.0 && s.avgDailyWeight == 0.0
  {
    var month := MonthlyRecords(records, now, monthOf);
    var days := DistinctCount(month, DateOf) as real;
    var s := ServiceStats(records, now, monthOf);
    assert s.avgEmployees == Metrics.GuardedRatio(Sum(month, Employees), days);
    assert s.avgDailyWeight == Metrics.GuardedRatio(Sum(month, WeightOut), days);
  }

  /** The yield is the weight per employee, and 0 when the month counts no employee. */
  lemma YieldPerEmployee(records: seq<PrestationProdRecord>, now: YearMonth, monthOf: string -> YearMonth)
    ensures var month := MonthlyRecords(records, now, monthOf);
      var s := ServiceStats(records, now, monthOf);
      Sum(month, Employees) > 0.0 ==> s.avgYield * Sum(month, Employees) == s.totalWeight
    ensures var month := MonthlyRecords(records, now, monthOf);
      var s := ServiceStats(records, now, monthOf);
      Sum(month, Employees) <= 0.0 ==> s.avgYield == 0.0
  {
    var month := MonthlyRecords(records, now, monthOf);
    var s := ServiceStats(records, now, monthOf);
    assert s.avgYield == Metrics.GuardedRatio(Sum(month, WeightOut), Sum(month, Employees));
  }

  /** A month without services shows nothing but zeros. */
  lemma EmptyMonth(records: seq<PrestationProdRecord>, now: YearMonth, monthOf: string -> YearMonth)
    requires forall r :: r in records ==> monthOf(r.date) != now
    ensures ServiceStats(records, now, monthOf) == ProdStats(0.0, 0.0, 0.0, 0, 0.0, 0.0, 0.0)
  {
    SelectAbsent(records, ServiceMonth(monthOf), now, WeightOut);
  }

  // ----- the entry form -----

  datatype ProdDraft = ProdDraft(
    date: string,
    lotNumber: string,
    clientName: string,
    serviceType: string,
    weightIn: real,
    weightOut: real,
    wasteKg: real,
    unitPrice: real,
    totalAmount: real,
    employeeCount: real)

  /** The form for a new service on day `today`: lot "N/A", the first client, the first service type or "Triage". */
  function NewProdDraft(master: MasterData, today: string): ProdDraft {
    ProdDraft(today, "N/A", FirstOr(master.clients), FirstOrElse(master.serviceTypes, "Triage"),
              0.0, 0.0, 0.0, 0.0, 0.0, 0.0)
  }

  /** The form loaded from the service being edited: its ten fields. */
  function LoadProdDraft(r: PrestationProdRecord): ProdDraft {
    ProdDraft(r.date, r.lotNumber, r.clientName, r.serviceType, r.weightIn, r.weightOut, r.wasteKg,
              r.unitPrice, r.totalAmount, r.employeeCount)
  }

  class PrestationProdForm {
    var formData: ProdDraft
    const initialData: Option<PrestationProdRecord>

    /** The form as it stands once mounted, after the effect that loads `initialData`. */
    constructor (master: MasterData, today: string, initialData: Option<PrestationProdRecord>)
      ensures this.initialData == initialData
      ensures formData == match initialData
        case Some(r) => LoadProdDraft(r)
        case None => NewProdDraft(master, today)
    {
      this.initialData := initialData;
      formData := match initialData
        case Some(r) => LoadProdDraft(r)
        case None => NewProdDraft(master, today);
    }

    /**
      * `handleSubmit`: the form data is sent as it stands; for a new entry
      * the weights, waste, total and head count are then cleared while date,
      * lot, client, service type and unit price stay; an edit keeps the form.
      */
    method Submit() returns (sent: ProdDraft)
      modifies this
      ensures sent == old(formData)
      ensures initialData.None? ==>
        formData == old(formData).(weightIn := 0.0, weightOut := 0.0, wasteKg := 0.0, totalAmount := 0.0,
                                   employeeCount := 0.0)
      ensures initialData.Some? ==> formData == old(formData)
    {
      sent := formData;
      if initialData.None? {
        formData := formData.(weightIn := 0.0, weightOut := 0.0, wasteKg := 0.0, totalAmount := 0.0,
                              employeeCount := 0.0);
      }
    }
  }

  // ----- the journal -----

  function Stamp(r: PrestationProdRecord): int { r.timestamp }

  /**
    * `records.sort((a, b) => b.timestamp - a.timestamp)`: the journal lists
    * every service as often as it occurs, newest first.
    */
  function Journal(records: seq<PrestationProdRecord>): (j: seq<PrestationProdRecord>)
    ensures multiset(j) == multiset(records)
    ensures forall a, b :: 0 <= a < b < |j| ==> j[a].timestamp >= j[b].timestamp
  {
    SortNewestFirst(records, Stamp)
  }
}
