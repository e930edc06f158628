/// The purchase screen (components/PurchaseModule.tsx): the spending
/// statistics of the current month, the six-month spending trend, the
/// goods-receipt form and the purchase history.
module PurchaseModule {
  import opened Options
  import opened Seqs
  import opened Sorting
  import opened Strings
  import opened Types
  import opened StockJournal

  function Amount(p: PurchaseRecord): real { p.totalAmount }
  function Category(p: PurchaseRecord): string { p.category }

  function PurchaseMonth(monthOf: string -> YearMonth): PurchaseRecord -> YearMonth {
    (p: PurchaseRecord) => monthOf(p.date)
  }

  /** `currentMonthRecords`: the purchases dated in the month `now`, in input order. */
  function CurrentMonthRecords(records: seq<PurchaseRecord>, now: YearMonth, monthOf: string -> YearMonth)
    : (r: seq<PurchaseRecord>)
    ensures forall p :: p in r <==> p in records && monthOf(p.date) == now
  {
    SelectMember(records, PurchaseMonth(monthOf), now);
    Select(records, PurchaseMonth(monthOf), now)
  }

  datatype CategoryTotal = CategoryTotal(name: string, value: real)

  /** A bar of the trend chart; the chart's French month label is not modelled. */
  datatype TrendPoint = TrendPoint(key: YearMonth, total: real)

  datatype PurchaseStats = PurchaseStats(
    totalSpentMonth: real,
    totalSpentGlobal: real,
    countMonth: nat,
    byCategory: seq<CategoryTotal>,
    trendData: seq<TrendPoint>)

  function CategoryName(c: CategoryTotal): string { c.name }
  function CategoryValue(c: CategoryTotal): real { c.value }
  function PointTotal(t: TrendPoint): real { t.total }

  /** The spending of category `name` among the month's purchases. */
  function CategoryEntry(month: seq<PurchaseRecord>, name: string): CategoryTotal {
    CategoryTotal(name, SumWhere(month, Category, name, Amount))
  }

  function CategoryEntryOf(month: seq<PurchaseRecord>): string -> CategoryTotal {
    name => CategoryEntry(month, name)
  }

  /** `byCategory`: one entry per category, in the order the month's purchases first name it. */
  function ByCategorySpec(month: seq<PurchaseRecord>): seq<CategoryTotal> {
    MapSeq(FirstOccurrences(MapSeq(month, Category)), CategoryEntryOf(month))
  }

  /** The six months of the trend, oldest first: five months back up to `now`. */
  function TrendKeys(now: YearMonth): (r: seq<YearMonth>)
    ensures |r| == 6
    ensures forall i :: 0 <= i < 6 ==> r[i] == MonthsBack(now, 5 - i)
  {
    [MonthsBack(now, 5), MonthsBack(now, 4), MonthsBack(now, 3), MonthsBack(now, 2), MonthsBack(now, 1), MonthsBack(now, 0)]
  }

  function TrendEntry(records: seq<PurchaseRecord>, monthOf: string -> YearMonth, key: YearMonth): TrendPoint {
    TrendPoint(key, SumWhere(records, PurchaseMonth(monthOf), key, Amount))
  }

  function TrendEntryOf(records: seq<PurchaseRecord>, monthOf: string -> YearMonth): YearMonth -> TrendPoint {
    key => TrendEntry(records, monthOf, key)
  }

  /** `trendData`: the spending of every purchase dated in each of the six months. */
  function TrendSpec(records: seq<PurchaseRecord>, now: YearMonth, monthOf: string -> YearMonth): seq<TrendPoint> {
    MapSeq(TrendKeys(now), TrendEntryOf(records, monthOf))
  }

  /** The statistics the screen shows for the purchases `records` in month `now`. */
  function StatsSpec(records: seq<PurchaseRecord>, now: YearMonth, monthOf: string -> YearMonth): PurchaseStats {
    var month := CurrentMonthRecords(records, now, monthOf);
    PurchaseStats(Sum(month, Amount), Sum(records, Amount), |month|, ByCategorySpec(month), TrendSpec(records, now, monthOf))
  }

  // ----- the spending per category -----

  /** After the month's purchases `done`: one running total per category met, in first-seen order. */
  ghost predicate CategoriesTallied(done: seq<PurchaseRecord>, byCategory: map<string, real>, order: seq<string>) {
    order == FirstOccurrences(MapSeq(done, Category)) &&
    (forall k :: k in byCategory <==> k in order) &&
    (forall k :: k in byCategory ==> byCategory[k] == SumWhere(done, Category, k, Amount))
  }

  lemma CategoryStep(done: seq<PurchaseRecord>, p: PurchaseRecord, m1: map<string, real>, m2: map<string, real>)
    requires forall k :: k in m1 ==> m1[k] == SumWhere(done, Category, k, Amount)
    requires p.category in m1
    requires m2 == m1[p.category := m1[p.category] + p.totalAmount]
    ensures forall k :: k in m2 ==> m2[k] == SumWhere(done + [p], Category, k, Amount)
  {
    forall k | k in m2 ensures m2[k] == SumWhere(done + [p], Category, k, Amount) {
      SumWhereSnoc(done, p, Category, k, Amount);
    }
  }

  /** The `forEach` callback: `byCategory[c] = (byCategory[c] || 0) + amount`. */
  method AddToCategory(ghost done: seq<PurchaseRecord>, p: PurchaseRecord, byCategory0: map<string, real>, order0: seq<string>)
    returns (byCategory: map<string, real>, order: seq<string>)
    requires CategoriesTallied(done, byCategory0, order0)
    ensures CategoriesTallied(done + [p], byCategory, order)
  {
    byCategory, order := byCategory0, order0;
    MapSeqSnoc(done, p, Category);
    FirstOccurrencesSnoc(MapSeq(done, Category), p.category);
    if p.category !in byCategory {
      // a missing key reads as undefined, and `undefined || 0` is 0
      SumWhereAbsent(done, Category, p.category, Amount);
      byCategory := byCategory[p.category := 0.0];
      order := order + [p.category];
    }
    ghost var m1 := byCategory;
    byCategory := byCategory[p.category := byCategory[p.category] + p.totalAmount];
    CategoryStep(done, p, m1, byCategory);
  }

  method TallyCategories(month: seq<PurchaseRecord>) returns (byCategory: map<string, real>, order: seq<string>)
    ensures CategoriesTallied(month, byCategory, order)
  {
    byCategory, order := map[], [];
    assert month[..0] == [];
    for i := 0 to |month|
      invariant CategoriesTallied(month[..i], byCategory, order)
    {
      PrefixStep(month, i);
      byCategory, order := AddToCategory(month[..i], month[i], byCategory, order);
    }
    assert month[..|month|] == month;
  }

  /** `Object.entries(byCategory).map(...)`: one entry per key, in key order. */
  method ListCategories(ghost month: seq<PurchaseRecord>, byCategory: map<string, real>, order: seq<string>)
    returns (entries: seq<CategoryTotal>)
    requires forall k :: k in order ==> k in byCategory && byCategory[k] == SumWhere(month, Category, k, Amount)
    ensures entries == MapSeq(order, CategoryEntryOf(month))
  {
    entries := [];
    for k := 0 to |order|
      invariant entries == MapSeq(order[..k], CategoryEntryOf(month))
    {
      PrefixStep(order, k);
      MapSeqSnoc(order[..k], order[k], CategoryEntryOf(month));
      var e := CategoryTotal(order[k], byCategory[order[k]]);
      assert e == CategoryEntryOf(month)(order[k]);
      entries := entries + [e];
    }
    assert order[..|order|] == order;
  }

  // ----- the six-month trend -----

  /** Months counted back from the same month differ when the counts differ. */
  lemma MonthsBackDistinct(now: YearMonth, a: int, b: int)
    requires a != b
    ensures MonthsBack(now, a) != MonthsBack(now, b)
  {
    var ma, mb := MonthsBack(now, a), MonthsBack(now, b);
    assert ma.year * 12 + ma.month != mb.year * 12 + mb.month;
  }

  lemma TrendKeysDistinct(now: YearMonth)
    ensures Distinct(TrendKeys(now))
  {
    var keys := TrendKeys(now);
    forall i, j | 0 <= i < j < |keys| ensures keys[i] != keys[j] {
      MonthsBackDistinct(now, 5 - i, 5 - j);
    }
  }

  lemma NotYetOpened(now: YearMonth, n: int)
    requires 0 <= n < 6
    ensures TrendKeys(now)[n] !in TrendKeys(now)[..n]
  {
    TrendKeysDistinct(now);
    var keys := TrendKeys(now);
    forall j | 0 <= j < n ensures keys[..n][j] != keys[n] {
      assert keys[..n][j] == keys[j];
    }
  }

  /** `now` itself is the month counted 0 back. */
  lemma MonthsBackZero(now: YearMonth)
    requires ValidMonth(now)
    ensures MonthsBack(now, 0) == now
  {
  }

  /** The buckets the first loop has opened: the oldest months so far, each at 0. */
  ghost predicate BucketsOpened(now: YearMonth, buckets: map<YearMonth, real>, order: seq<YearMonth>, n: int) {
    0 <= n <= 6 &&
    order == TrendKeys(now)[..n] &&
    (forall k :: k in buckets <==> k in order) &&
    (forall k :: k in buckets ==> buckets[k] == 0.0)
  }

  /** `for (let i = 5; i >= 0; i--) monthlyData[key(i months back)] = 0`. */
  method OpenBuckets(now: YearMonth) returns (buckets: map<YearMonth, real>, order: seq<YearMonth>)
    ensures BucketsOpened(now, buckets, order, 6)
  {
    buckets, order := map[], [];
    TrendKeysDistinct(now);
    var i := 5;
    while i >= 0
      invariant -1 <= i <= 5
      invariant BucketsOpened(now, buckets, order, 5 - i)
    {
      var key := MonthsBack(now, i);
      assert key == TrendKeys(now)[5 - i];
      NotYetOpened(now, 5 - i);
      if key !in buckets {
        order := order + [key];
      }
      buckets := buckets[key := 0.0];
      assert TrendKeys(now)[..5 - i + 1] == TrendKeys(now)[..5 - i] + [key];
      i := i - 1;
    }
    assert TrendKeys(now)[..6] == TrendKeys(now);
  }

  /** After the purchases `done`: each of the six buckets holds their spending in its month. */
  ghost predicate BucketsFilled(done: seq<PurchaseRecord>, monthOf: string -> YearMonth, now: YearMonth,
                                buckets: map<YearMonth, real>, order: seq<YearMonth>) {
    order == TrendKeys(now) &&
    (forall k :: k in buckets <==> k in order) &&
    (forall k :: k in buckets ==> buckets[k] == SumWhere(done, PurchaseMonth(monthOf), k, Amount))
  }

  /** The `forEach` callback: only a purchase whose month has a bucket is added. */
  method AddToBucket(ghost done: seq<PurchaseRecord>, monthOf: string -> YearMonth, ghost now: YearMonth,
                     p: PurchaseRecord, buckets0: map<YearMonth, real>, ghost order: seq<YearMonth>)
    returns (buckets: map<YearMonth, real>)
    requires BucketsFilled(done, monthOf, now, buckets0, order)
    ensures BucketsFilled(done + [p], monthOf, now, buckets, order)
  {
    buckets := buckets0;
    var key := monthOf(p.date);
    if key in buckets {
      buckets := buckets[key := buckets[key] + p.totalAmount];
    }
    forall k | k in buckets ensures buckets[k] == SumWhere(done + [p], PurchaseMonth(monthOf), k, Amount) {
      SumWhereSnoc(done, p, PurchaseMonth(monthOf), k, Amount);
    }
  }

  method FillBuckets(records: seq<PurchaseRecord>, monthOf: string -> YearMonth, ghost now: YearMonth,
                     buckets0: map<YearMonth, real>, ghost order: seq<YearMonth>)
    returns (buckets: map<YearMonth, real>)
    requires BucketsOpened(now, buckets0, order, 6)
    ensures BucketsFilled(records, monthOf, now, buckets, order)
  {
    buckets := buckets0;
    assert records[..0] == [];
    assert TrendKeys(now)[..6] == TrendKeys(now);
    forall k | k in buckets ensures SumWhere(records[..0], PurchaseMonth(monthOf), k, Amount) == 0.0 {
      assert Select([], PurchaseMonth(monthOf), k) == [];
    }
    for i := 0 to |records|
      invariant BucketsFilled(records[..i], monthOf, now, buckets, order)
    {
      PrefixStep(records, i);
      buckets := AddToBucket(records[..i], monthOf, now, records[i], buckets, order);
    }
    assert records[..|records|] == records;
  }

  /** `Object.entries(monthlyData).map(...)`: one bar per bucket, in key order. */
  method ListBuckets(ghost records: seq<PurchaseRecord>, ghost monthOf: string -> YearMonth, ghost now: YearMonth,
                     buckets: map<YearMonth, real>, order: seq<YearMonth>)
    returns (trend: seq<TrendPoint>)
    requires BucketsFilled(records, monthOf, now, buckets, order)
    ensures trend == TrendSpec(records, now, monthOf)
  {
    trend := [];
    for k := 0 to |order|
      invariant trend == MapSeq(order[..k], TrendEntryOf(records, monthOf))
    {
      PrefixStep(order, k);
      MapSeqSnoc(order[..k], order[k], TrendEntryOf(records, monthOf));
      var t := TrendPoint(order[k], buckets[order[k]]);
      assert t == TrendEntryOf(records, monthOf)(order[k]);
      trend := trend + [t];
    }
    assert order[..|order|] == order;
  }

  /** `stats`: the month's records and totals, then the category and trend loops. */
  method Stats(records: seq<PurchaseRecord>, now: YearMonth, monthOf: string -> YearMonth) returns (stats: PurchaseStats)
    ensures stats == StatsSpec(records, now, monthOf)
  {
    var month := CurrentMonthRecords(records, now, monthOf);
    var totalSpentMonth := Sum(month, Amount);
    var byCategory, categories := TallyCategories(month);
    var totalSpentGlobal := Sum(records, Amount);
    var buckets, keys := OpenBuckets(now);
    buckets := FillBuckets(records, monthOf, now, buckets, keys);
    var categoryTotals := ListCategories(month, byCategory, categories);
    assert categoryTotals == ByCategorySpec(month);
    var trend := ListBuckets(records, monthOf, now, buckets, keys);
    stats := PurchaseStats(totalSpentMonth, totalSpentGlobal, |month|, categoryTotals, trend);
  }

  // ----- what the statistics promise -----

  /**
    * `countMonth` counts the purchases of the month `now`: each record of
    * that month as often as it occurs, and no other.
    */
  lemma CountMonth(records: seq<PurchaseRecord>, now: YearMonth, monthOf: string -> YearMonth)
    ensures var month := CurrentMonthRecords(records, now, monthOf);
      StatsSpec(records, now, monthOf).countMonth == |month| &&
      forall p :: multiset(month)[p] == if monthOf(p.date) == now then multiset(records)[p] else 0
  {
    SelectMultiset(records, PurchaseMonth(monthOf), now);
  }

  /** With no negative amount, the month never spends more than all purchases together. */
  lemma MonthWithinGlobal(records: seq<PurchaseRecord>, now: YearMonth, monthOf: string -> YearMonth)
    requires forall p :: p in records ==> p.totalAmount >= 0.0
    ensures var s := StatsSpec(records, now, monthOf);
      0.0 <= s.totalSpentMonth <= s.totalSpentGlobal
  {
    SumWhereBounded(records, PurchaseMonth(monthOf), now, Amount);
  }

  /** `byCategory` has exactly one entry per category bought this month and none for others. */
  lemma ByCategoryKeys(records: seq<PurchaseRecord>, now: YearMonth, monthOf: string -> YearMonth, name: string)
    ensures var month := CurrentMonthRecords(records, now, monthOf);
      |Select(StatsSpec(records, now, monthOf).byCategory, CategoryName, name)| ==
        if exists p :: p in month && p.category == name then 1 else 0
  {
    var month := CurrentMonthRecords(records, now, monthOf);
    SelectOfEntries(FirstOccurrences(MapSeq(month, Category)), CategoryEntryOf(month), CategoryName, name);
    MapSeqMember(month, Category);
  }

  /** The category totals add up to the month's spending. */
  lemma ByCategorySum(records: seq<PurchaseRecord>, now: YearMonth, monthOf: string -> YearMonth)
    ensures var s := StatsSpec(records, now, monthOf);
      Sum(s.byCategory, CategoryValue) == s.totalSpentMonth
  {
    var month := CurrentMonthRecords(records, now, monthOf);
    var order := FirstOccurrences(MapSeq(month, Category));
    SumOfEntries(order, CategoryEntryOf(month), CategoryValue, month, Category, Amount);
    MapSeqMember(month, Category);
    SumPartition(month, Category, order, Amount);
  }

  /**
    * The trend has six bars, for the months five back up to `now`, oldest
    * first and all different; each holds the spending of the purchases
    * dated in its month.
    */
  lemma TrendShape(records: seq<PurchaseRecord>, now: YearMonth, monthOf: string -> YearMonth)
    requires ValidMonth(now)
    ensures var t := StatsSpec(records, now, monthOf).trendData;
      |t| == 6 &&
      (forall i :: 0 <= i < 6 ==> t[i].key == MonthsBack(now, 5 - i)) &&
      (forall i :: 0 <= i < 6 ==> t[i].total == SumWhere(records, PurchaseMonth(monthOf), t[i].key, Amount)) &&
      (forall i, j :: 0 <= i < j < 6 ==> t[i].key != t[j].key) &&
      t[5].key == now
  {
    var t := TrendSpec(records, now, monthOf);
    TrendKeysDistinct(now);
    MonthsBackZero(now);
    forall i, j | 0 <= i < j < 6 ensures t[i].key != t[j].key {
      assert t[i].key == TrendKeys(now)[i] && t[j].key == TrendKeys(now)[j];
    }
  }

  /** A purchase dated outside the six months changes no bar of the trend. */
  lemma TrendIgnores(records: seq<PurchaseRecord>, now: YearMonth, monthOf: string -> YearMonth, p: PurchaseRecord)
    requires monthOf(p.date) !in TrendKeys(now)
    ensures TrendSpec(records + [p], now, monthOf) == TrendSpec(records, now, monthOf)
  {
    var a, b := TrendSpec(records + [p], now, monthOf), TrendSpec(records, now, monthOf);
    forall i | 0 <= i < 6 ensures a[i] == b[i] {
      SumWhereSnoc(records, p, PurchaseMonth(monthOf), TrendKeys(now)[i], Amount);
    }
  }

  /** The last bar of the trend is the month's spending. */
  lemma TrendEndsWithMonth(records: seq<PurchaseRecord>, now: YearMonth, monthOf: string -> YearMonth)
    requires ValidMonth(now)
    ensures var s := StatsSpec(records, now, monthOf);
      s.trendData[5].total == s.totalSpentMonth
  {
    MonthsBackZero(now);
  }

  // ----- the goods-receipt form -----

  class PurchaseForm {
    var formData: PurchaseDraft

    constructor (master: MasterData, today: string)
      ensures formData == NewPurchaseDraft(master, today)
    {
      formData := NewPurchaseDraft(master, today);
    }

    /** The total shown is the quantity times the unit price. */
    predicate AmountConsistent()
      reads this
    {
      formData.totalAmount == formData.quantity * formData.unitPrice
    }

    /** The lot field stores what is typed, upper-cased. */
    method SetLotNumber(input: string)
      modifies this
      ensures formData == old(formData).(lotNumber := Upper(input))
    {
      formData := formData.(lotNumber := Upper(input));
    }

    /** `updateAmount`: quantity, unit price and their product are set together. */
    method UpdateAmount(q: real, p: real)
      modifies this
      ensures formData == old(formData).(quantity := q, unitPrice := p, totalAmount := q * p)
      ensures AmountConsistent()
    {
      formData := formData.(quantity := q, unitPrice := p, totalAmount := q * p);
    }

    /**
      * `handleSubmit`: without a supplier, an item or a lot number nothing is
      * sent and nothing changes. Otherwise the form is sent as it stands, and
      * lot, variety, quantity, price, total and infestation are cleared while
      * date, supplier, item, category and unit stay.
      */
    method Submit() returns (sent: Option<PurchaseDraft>)
      modifies this
      ensures var f := old(formData);
        f.supplierName == "" || f.itemName == "" || f.lotNumber == "" ==>
          sent == None && formData == f
      ensures var f := old(formData);
        f.supplierName != "" && f.itemName != "" && f.lotNumber != "" ==>
          sent == Some(f) &&
          formData == f.(lotNumber := "", variety := "", quantity := 0.0, unitPrice := 0.0,
                         totalAmount := 0.0, infestationRate := 0.0) &&
          AmountConsistent()
    {
      if formData.supplierName == "" || formData.itemName == "" || formData.lotNumber == "" {
        return None;
      }
      sent := Some(formData);
      formData := formData.(lotNumber := "", variety := "", quantity := 0.0, unitPrice := 0.0,
                            totalAmount := 0.0, infestationRate := 0.0);
    }
  }

  // ----- the purchase history -----

  /**
    * `records.sort((a, b) => b.timestamp - a.timestamp)`: the history lists
    * every purchase as often as it occurs, newest first.
    */
  function PurchaseHistory(records: seq<PurchaseRecord>): (h: seq<PurchaseRecord>)
    ensures multiset(h) == multiset(records)
    ensures forall i, j :: 0 <= i < j < |h| ==> h[i].timestamp >= h[j].timestamp
  {
    SortNewestFirst(records, PurchaseStamp)
  }
}
