/// The drying-service screen (components/PrestationEtuvageModule.tsx): the
/// month's drying statistics, the entry form with its amount computation and
/// the drying journal. The sub-tab and edit-mode state is the shared
/// `EditFlow.EditController`.
module PrestationEtuvage {
  import opened Options
  import opened Seqs
  import opened Sorting
  import opened Types
  import Metrics

  function WeightIn(r: PrestationEtuvageRecord): real { r.weightIn }
  function Amount(r: PrestationEtuvageRecord): real { r.totalAmount }
  function Employees(r: PrestationEtuvageRecord): real { r.employeeCount }
  function DateOf(r: PrestationEtuvageRecord): string { r.date }

  function DryingMonth(monthOf: string -> YearMonth): PrestationEtuvageRecord -> YearMonth {
    (r: PrestationEtuvageRecord) => monthOf(r.date)
  }

  /** `monthlyRecords`: the drying jobs dated in the month `now`, in input order. */
  function MonthlyRecords(records: seq<PrestationEtuvageRecord>, now: YearMonth, monthOf: string -> YearMonth)
    : (r: seq<PrestationEtuvageRecord>)
    ensures forall x :: x in r <==> x in records && monthOf(x.date) == now
  {
    SelectMember(records, DryingMonth(monthOf), now);
    Select(records, DryingMonth(monthOf), now)
  }

  datatype EtuvageStats = EtuvageStats(
    totalAmount: real,
    totalWeight: real,
    count: nat,
    avgEmployees: real,
    avgYield: real,
    avgDailyWeight: real)

  /**
    * `stats`: the month's turnover, the weight brought in (`weightIn`, not
    * the weight handed back) and the record count; head count and weight per
    * working day, and weight per employee, each 0 when its divisor is not
    * positive. The working days (`uniqueDays`) are the month's different
    * dates. The figures cover exactly the month's drying jobs, so a month
    * without one shows only zeros.
    */
  function DryingStats(records: seq<PrestationEtuvageRecord>, now: YearMonth, monthOf: string -> YearMonth): (s: EtuvageStats)
    ensures var month := MonthlyRecords(records, now, monthOf);
      s.count == |month| && s.totalWeight == Sum(month, WeightIn) && s.totalAmount == Sum(month, Amount)
    ensures s.count == 0 ==> s == EtuvageStats(0.0, 0.0, 0, 0.0, 0.0, 0.0)
  {
    var month := MonthlyRecords(records, now, monthOf);
    var totalWeight := Sum(month, WeightIn);
    var totalEmployees := Sum(month, Employees);
    var uniqueDays := DistinctCount(month, DateOf);
    EtuvageStats(Sum(month, Amount), totalWeight, |month|,
      Metrics.GuardedRatio(totalEmployees, uniqueDays as real),
      Metrics.GuardedRatio(totalWeight, totalEmployees),
      Metrics.GuardedRatio(totalWeight, uniqueDays as real))
  }

  /**
    * The per-day averages undo their sums: times the number of working days
    * they give back the month's head count and intake weight; with no record
    * they are 0.
    */
  lemma PerDayAverages(records: seq<PrestationEtuvageRecord>, now: YearMonth, monthOf: string -> YearMonth)
    ensures var month := MonthlyRecords(records, now, monthOf);
      var s := DryingStats(records, now, monthOf);
      s.count > 0 ==> s.avgEmployees * DistinctCount(month, DateOf) as real == Sum(month, Employees)
    ensures var month := MonthlyRecords(records, now, monthOf);
      var s := DryingStats(records, now, monthOf);
      s.count > 0 ==> s.avgDailyWeight * DistinctCount(month, DateOf) as real == Sum(month, WeightIn)
    ensures var s := DryingStats(records, now, monthOf);
      s.count == 0 ==> s.avgEmployees == 0.0 && s.avgDailyWeight == 0.0
  {
    var month := MonthlyRecords(records, now, monthOf);
    var days := DistinctCount(month, DateOf) as real;
    var s := DryingStats(records, now, monthOf);
    assert s.avgEmployees == Metrics.GuardedRatio(Sum(month, Employees), days);
    assert s.avgDailyWeight == Metrics.GuardedRatio(Sum(month, WeightIn), days);
  }

  /** The yield is the intake weight per employee, and 0 when the month counts no employee. */
  lemma YieldPerEmployee(records: seq<PrestationEtuvageRecord>, now: YearMonth, monthOf: string -> YearMonth)
    ensures var month := MonthlyRecords(records, now, monthOf);
      var s := DryingStats(records, now, monthOf);
      Sum(month, Employees) > 0.0 ==> s.avgYield * Sum(month, Employees) == Sum(month, WeightIn)
    ensures var month := MonthlyRecords(records, now, monthOf);
      var s := DryingStats(records, now, monthOf);
      Sum(month, Employees) <= 0.0 ==> s.avgYield == 0.0
  {
    var month := MonthlyRecords(records, now, monthOf);
    var s := DryingStats(records, now, monthOf);
    assert s.avgYield == Metrics.GuardedRatio(Sum(month, WeightIn), Sum(month, Employees));
  }

  /** A month without drying jobs shows nothing but zeros. */
  lemma EmptyMonth(records: seq<PrestationEtuvageRecord>, now: YearMonth, monthOf: string -> YearMonth)
    requires forall r :: r in records ==> monthOf(r.date) != now
    ensures DryingStats(records, now, monthOf) == EtuvageStats(0.0, 0.0, 0, 0.0, 0.0, 0.0)
  {
    SelectAbsent(records, DryingMonth(monthOf), now, WeightIn);
  }

  // ----- the entry form -----

  datatype EtuvageDraft = EtuvageDraft(
    date: string,
    lotNumber: string,
    clientName: string,
    weightIn: real,
    weightOut: real,
    humidityLevel: real,
    durationHours: real,
    unitPrice: real,
    totalAmount: real,
    employeeCount: real)

  /** The form for a new drying job on day `today`: lot "N/A", the first client, everything else 0. */
  function NewEtuvageDraft(master: MasterData, today: string): EtuvageDraft {
    EtuvageDraft(today, "N/A", FirstOr(master.clients), 0.0, 0.0, 0.0, 0.0, 0.0, 0.0, 0.0)
  }

  /** The form loaded from the drying job being edited: its ten fields. */
  function LoadEtuvageDraft(r: PrestationEtuvageRecord): EtuvageDraft {
    EtuvageDraft(r.date, r.lotNumber, r.clientName, r.weightIn, r.weightOut, r.humidityLevel, r.durationHours,
                 r.unitPrice, r.totalAmount, r.employeeCount)
  }

  class PrestationEtuvageForm {
    var formData: EtuvageDraft
    const initialData: Option<PrestationEtuvageRecord>

    /** The form as it stands once mounted, after the effect that loads `initialData`. */
    constructor (master: MasterData, today: string, initialData: Option<PrestationEtuvageRecord>)
      ensures this.initialData == initialData
      ensures formData == match initialData
        case Some(r) => LoadEtuvageDraft(r)
        case None => NewEtuvageDraft(master, today)
    {
      this.initialData := initialData;
      formData := match initialData
        case Some(r) => LoadEtuvageDraft(r)
        case None => NewEtuvageDraft(master, today);
    }

    /** The weight handed back is the weight brought in, and the total is that weight times the price. */
    predicate AmountConsistent()
      reads this
    {
      formData.weightOut == formData.weightIn && formData.totalAmount == formData.weightIn * formData.unitPrice
    }

    /**
      * `updateAmount`: the one weight field sets both weights, and the total
      * follows the weight and the price.
      */
    method UpdateAmount(qty: real, price: real)
      modifies this
      ensures formData == old(formData).(weightIn := qty, weightOut := qty, unitPrice := price, totalAmount := qty * price)
      ensures AmountConsistent()
    {
      formData := formData.(weightIn := qty, weightOut := qty, unitPrice := price, totalAmount := qty * price);
    }

    /**
      * `handleSubmit`: the form data is sent as it stands; for a new entry
      * the weights, humidity, total and head count are then cleared while
      * date, lot, client, duration and unit price stay; an edit keeps the
      * form.
      */
    method Submit() returns (sent: EtuvageDraft)
      modifies this
      ensures sent == old(formData)
      ensures initialData.None? ==>
        formData == old(formData).(weightIn := 0.0, weightOut := 0.0, humidityLevel := 0.0, totalAmount := 0.0,
                                   employeeCount := 0.0) &&
        AmountConsistent()
      ensures initialData.Some? ==> formData == old(formData)
    {
      sent := formData;
      if initialData.None? {
        formData := formData.(weightIn := 0.0, weightOut := 0.0, humidityLevel := 0.0, totalAmount := 0.0,
                              employeeCount := 0.0);
      }
    }
  }

  // ----- the journal -----

  function Stamp(r: PrestationEtuvageRecord): int { r.timestamp }

  /**
    * `records.sort((a, b) => b.timestamp - a.timestamp)`: the journal lists
    * every drying job as often as it occurs, newest first.
    */
  function Journal(records: seq<PrestationEtuvageRecord>): (j: seq<PrestationEtuvageRecord>)
    ensures multiset(j) == multiset(records)
    ensures forall a, b :: 0 <= a < b < |j| ==> j[a].timestamp >= j[b].timestamp
  {
    SortNewestFirst(records, Stamp)
  }
}
