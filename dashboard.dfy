/// The dashboard (components/Dashboard.tsx): today's production against
/// yesterday's, the month's cumulated metrics, and the month's production
/// per client with each client's share of the weight.
module Dashboard {
  import opened Options
  import opened Seqs
  import opened Sorting
  import opened Types
  import opened Metrics

  // ----- the day -----

  datatype DayMetrics = DayMetrics(totalKg: real, totalEmp: real, totalWaste: real, yieldKg: real)

  /** `todayMetrics`: the day's sums; the yield is 0 on a day without employees. */
  function TodayMetrics(today: seq<ProductionRecord>): (m: DayMetrics)
    ensures m.totalKg == Sum(today, Weight) && m.totalEmp == Sum(today, Employees) && m.totalWaste == Sum(today, Waste)
    ensures m.totalEmp > 0.0 ==> m.yieldKg * m.totalEmp == m.totalKg
    ensures m.totalEmp <= 0.0 ==> m.yieldKg == 0.0
  {
    var totalKg := Sum(today, Weight);
    var totalEmp := Sum(today, Employees);
    var totalWaste := Sum(today, Waste);
    DayMetrics(totalKg, totalEmp, totalWaste, if totalEmp > 0.0 then totalKg / totalEmp else 0.0)
  }

  datatype Arrow = Up | Down

  /** The arrow beside today's weight: shown once something was produced, up when not below yesterday. */
  function TrendArrow(todayKg: real, yesterdayKg: real): (a: Option<Arrow>)
    ensures a == Some(Up) <==> todayKg > 0.0 && todayKg >= yesterdayKg
    ensures a == Some(Down) <==> todayKg > 0.0 && todayKg < yesterdayKg
  {
    if todayKg > 0.0 then Some(if todayKg >= yesterdayKg then Up else Down) else None
  }

  /** The dashboard's arrow for the production of `today` against that of `yesterday`. */
  function DayTrend(rs: seq<ProductionRecord>, today: string, yesterday: string): Option<Arrow> {
    TrendArrow(TodayMetrics(RecordsOn(rs, today)).totalKg, Sum(RecordsOn(rs, yesterday), Weight))
  }

  /** A record of another day changes neither today's metrics nor the arrow. */
  lemma OtherDayIgnored(rs: seq<ProductionRecord>, x: ProductionRecord, today: string, yesterday: string)
    requires x.date != today && x.date != yesterday
    ensures TodayMetrics(RecordsOn(rs + [x], today)) == TodayMetrics(RecordsOn(rs, today))
    ensures DayTrend(rs + [x], today, yesterday) == DayTrend(rs, today, yesterday)
  {
    SelectSnoc(rs, x, DateOf, today);
    SelectSnoc(rs, x, DateOf, yesterday);
    assert RecordsOn(rs + [x], today) == RecordsOn(rs, today);
    assert RecordsOn(rs + [x], yesterday) == RecordsOn(rs, yesterday);
  }

  // ----- the month -----

  function MonthOfRecord(monthOf: string -> YearMonth): ProductionRecord -> YearMonth {
    (r: ProductionRecord) => monthOf(r.date)
  }

  /** `monthlyRecords`: the records whose date falls in month `now`. */
  function MonthlyRecords(rs: seq<ProductionRecord>, monthOf: string -> YearMonth, now: YearMonth): (m: seq<ProductionRecord>)
    ensures forall x :: x in m <==> x in rs && monthOf(x.date) == now
  {
    SelectMember(rs, MonthOfRecord(monthOf), now);
    Select(rs, MonthOfRecord(monthOf), now)
  }

  datatype YieldMetrics = YieldMetrics(
    totalOutput: real,
    totalWeight: real,
    totalWaste: real,
    avgYield: real,
    avgWeightYield: real,
    avgInfestation: real,
    totalEmployees: real,
    avgEmployees: real)

  const NoMetrics := YieldMetrics(0.0, 0.0, 0.0, 0.0, 0.0, 0.0, 0.0, 0.0)

  /**
    * `metrics`: all zero for an empty month; otherwise the month's sums, the
    * yields per employee (dividing by 1 when nobody is counted) and the mean
    * infestation and head count per record.
    */
  function MonthlyMetrics(month: seq<ProductionRecord>): (m: YieldMetrics)
    ensures m.totalOutput == Sum(month, Units) && m.totalWeight == Sum(month, Weight)
    ensures m.totalWaste == Sum(month, Waste) && m.totalEmployees == Sum(month, Employees)
    ensures |month| == 0 ==> m == NoMetrics
    ensures |month| > 0 ==>
      m.avgYield * OrOne(m.totalEmployees) == m.totalOutput &&
      m.avgWeightYield * OrOne(m.totalEmployees) == m.totalWeight &&
      m.avgInfestation * |month| as real == Sum(month, Infestation) &&
      m.avgEmployees * |month| as real == m.totalEmployees
  {
    if |month| == 0 then NoMetrics
    else
      var totalOutput := Sum(month, Units);
      var totalWeight := Sum(month, Weight);
      var totalWaste := Sum(month, Waste);
      var totalEmployees := Sum(month, Employees);
      var avgInfestation := Sum(month, Infestation) / |month| as real;
      YieldMetrics(totalOutput, totalWeight, totalWaste,
        totalOutput / OrOne(totalEmployees), totalWeight / OrOne(totalEmployees),
        avgInfestation, totalEmployees, totalEmployees / |month| as real)
  }

  /**
    * The two guards differ: on records without employees, today's yield is
    * 0 while the month's weight yield is the whole weight.
    */
  lemma GuardsDiffer(rs: seq<ProductionRecord>)
    requires |rs| > 0
    requires forall r :: r in rs ==> r.employeeCount == 0.0
    ensures TodayMetrics(rs).yieldKg == 0.0
    ensures MonthlyMetrics(rs).avgWeightYield == Sum(rs, Weight)
  {
    NoEmployees(rs);
  }

  lemma {:induction false} NoEmployees(rs: seq<ProductionRecord>)
    requires forall r :: r in rs ==> r.employeeCount == 0.0
    ensures Sum(rs, Employees) == 0.0
    decreases |rs|
  {
    if |rs| > 0 {
      assert rs[|rs| - 1] in rs;
      assert forall r :: r in rs[..|rs| - 1] ==> r in rs;
      NoEmployees(rs[..|rs| - 1]);
    }
  }

  // ----- the clients of the month -----

  datatype ClientAcc = ClientAcc(count: nat, totalKg: real, totalWaste: real, totalEmp: real, totalInf: real)

  datatype ClientLine = ClientLine(name: string, yieldPerEmp: real, avgInf: real, avgWaste: real, totalKg: real)

  function LineName(c: ClientLine): string { c.name }
  function LineKg(c: ClientLine): real { c.totalKg }

  /** What the loop has added up for client `name` over the records `rs`. */
  function ClientTotals(rs: seq<ProductionRecord>, name: string): ClientAcc {
    var mine := Select(rs, ClientOf, name);
    ClientAcc(|mine|, Sum(mine, Weight), Sum(mine, Waste), Sum(mine, Employees), Sum(mine, Infestation))
  }

  /** `Object.entries(summary).map(...)` for one entry. */
  function ToLine(name: string, acc: ClientAcc): ClientLine {
    ClientLine(name, acc.totalKg / OrOne(acc.totalEmp), MeanOver(acc.totalInf, acc.count),
      MeanOver(acc.totalWaste, acc.count), acc.totalKg)
  }

  function ClientEntry(month: seq<ProductionRecord>, name: string): ClientLine {
    ToLine(name, ClientTotals(month, name))
  }

  function ClientEntryOf(month: seq<ProductionRecord>): string -> ClientLine {
    name => ClientEntry(month, name)
  }

  /** The comparator `b.totalKg - a.totalKg`: heavier clients first. */
  predicate ByKgDesc(a: ClientLine, b: ClientLine) {
    a.totalKg >= b.totalKg
  }

  /** `clientSummary`: one line per client in first-seen order, sorted by weight. */
  function ClientSummarySpec(month: seq<ProductionRecord>): seq<ClientLine> {
    SortBy(MapSeq(FirstOccurrences(MapSeq(month, ClientOf)), ClientEntryOf(month)), ByKgDesc)
  }

  ghost predicate ClientsTallied(done: seq<ProductionRecord>, summary: map<string, ClientAcc>, order: seq<string>) {
    order == FirstOccurrences(MapSeq(done, ClientOf)) &&
    (forall k :: k in summary <==> k in order) &&
    (forall k :: k in summary ==> summary[k] == ClientTotals(done, k))
  }

  /** `a` is `prev` with the record `r` added. */
  ghost predicate RecordAdded(prev: ClientAcc, a: ClientAcc, r: ProductionRecord) {
    a.count == prev.count + 1 && a.totalKg == prev.totalKg + r.totalWeightKg &&
    a.totalWaste == prev.totalWaste + r.wasteKg && a.totalEmp == prev.totalEmp + r.employeeCount &&
    a.totalInf == prev.totalInf + r.infestationRate
  }

  lemma ClientStep(done: seq<ProductionRecord>, r: ProductionRecord, s1: map<string, ClientAcc>, a: ClientAcc, s2: map<string, ClientAcc>)
    requires r.clientName in s1
    requires forall k :: k in s1 ==> s1[k] == ClientTotals(done, k)
    requires RecordAdded(s1[r.clientName], a, r)
    requires s2 == s1[r.clientName := a]
    ensures forall k :: k in s2 ==> s2[k] == ClientTotals(done + [r], k)
  {
    ClientTotalsExtend(done, r);
    forall k | k in s2 ensures s2[k] == ClientTotals(done + [r], k) {
      if k != r.clientName {
        ClientTotalsOthers(done, r, k);
      }
    }
  }

  /** One more record adds to its own client's totals. */
  lemma ClientTotalsExtend(done: seq<ProductionRecord>, r: ProductionRecord)
    ensures RecordAdded(ClientTotals(done, r.clientName), ClientTotals(done + [r], r.clientName), r)
  {
    var k := r.clientName;
    SelectSnoc(done, r, ClientOf, k);
    var mine := Select(done, ClientOf, k);
    assert Select(done + [r], ClientOf, k) == mine + [r];
    SumSnoc(mine, r, Weight);
    SumSnoc(mine, r, Waste);
    SumSnoc(mine, r, Employees);
    SumSnoc(mine, r, Infestation);
  }

  /** One more record leaves the other clients' totals alone. */
  lemma ClientTotalsOthers(done: seq<ProductionRecord>, r: ProductionRecord, k: string)
    requires k != r.clientName
    ensures ClientTotals(done + [r], k) == ClientTotals(done, k)
  {
    SelectSnoc(done, r, ClientOf, k);
    assert Select(done + [r], ClientOf, k) == Select(done, ClientOf, k);
  }

  lemma ClientOrderStep(done: seq<ProductionRecord>, r: ProductionRecord)
    ensures FirstOccurrences(MapSeq(done + [r], ClientOf)) ==
      if r.clientName in FirstOccurrences(MapSeq(done, ClientOf)) then FirstOccurrences(MapSeq(done, ClientOf))
      else FirstOccurrences(MapSeq(done, ClientOf)) + [r.clientName]
  {
    MapSeqSnoc(done, r, ClientOf);
    FirstOccurrencesSnoc(MapSeq(done, ClientOf), r.clientName);
  }

  /** Opening the entry of record `r`'s client, when it is new, keeps every entry right for `done`. */
  lemma OpenClient(done: seq<ProductionRecord>, r: ProductionRecord, summary0: map<string, ClientAcc>, order0: seq<string>,
                   summary: map<string, ClientAcc>, order: seq<string>)
    requires ClientsTallied(done, summary0, order0)
    requires r.clientName in summary0 ==> summary == summary0 && order == order0
    requires r.clientName !in summary0 ==>
      summary == summary0[r.clientName := ClientAcc(0, 0.0, 0.0, 0.0, 0.0)] && order == order0 + [r.clientName]
    ensures order == FirstOccurrences(MapSeq(done + [r], ClientOf))
    ensures forall k :: k in summary <==> k in order
    ensures forall k :: k in summary ==> summary[k] == ClientTotals(done, k)
  {
    ClientOrderStep(done, r);
    if r.clientName !in summary0 {
      SumWhereAbsent(done, ClientOf, r.clientName, Weight);
      NewClientKeepsOthers(done, r.clientName, summary0, summary);
    }
  }

  /** A zero entry opened for a client without records leaves every entry right. */
  lemma NewClientKeepsOthers(done: seq<ProductionRecord>, name: string, summary0: map<string, ClientAcc>,
                             summary: map<string, ClientAcc>)
    requires forall k :: k in summary0 ==> summary0[k] == ClientTotals(done, k)
    requires Select(done, ClientOf, name) == []
    requires summary == summary0[name := ClientAcc(0, 0.0, 0.0, 0.0, 0.0)]
    ensures forall k :: k in summary ==> summary[k] == ClientTotals(done, k)
  {
  }

  /** The `forEach` callback: open the client's entry if needed, count the record and add its values. */
  method AddToClient(ghost done: seq<ProductionRecord>, r: ProductionRecord, summary0: map<string, ClientAcc>, order0: seq<string>)
    returns (summary: map<string, ClientAcc>, order: seq<string>)
    requires ClientsTallied(done, summary0, order0)
    ensures ClientsTallied(done + [r], summary, order)
  {
    summary, order := summary0, order0;
    if r.clientName !in summary {
      summary := summary[r.clientName := ClientAcc(0, 0.0, 0.0, 0.0, 0.0)];
      order := order + [r.clientName];
    }
    OpenClient(done, r, summary0, order0, summary, order);
    ghost var s1 := summary;
    var acc := summary[r.clientName];
    acc := acc.(count := acc.count + 1);
    acc := acc.(totalKg := acc.totalKg + r.totalWeightKg);
    acc := acc.(totalWaste := acc.totalWaste + r.wasteKg);
    acc := acc.(totalEmp := acc.totalEmp + r.employeeCount);
    acc := acc.(totalInf := acc.totalInf + r.infestationRate);
    summary := summary[r.clientName := acc];
    ClientStep(done, r, s1, acc, summary);
  }

  method TallyClients(month: seq<ProductionRecord>) returns (summary: map<string, ClientAcc>, order: seq<string>)
    ensures ClientsTallied(month, summary, order)
  {
    summary, order := map[], [];
    assert month[..0] == [];
    for i := 0 to |month|
      invariant ClientsTallied(month[..i], summary, order)
    {
      PrefixStep(month, i);
      summary, order := AddToClient(month[..i], month[i], summary, order);
    }
    assert month[..|month|] == month;
  }

  method ListClients(ghost month: seq<ProductionRecord>, summary: map<string, ClientAcc>, order: seq<string>)
    returns (lines: seq<ClientLine>)
    requires ClientsTallied(month, summary, order)
    ensures lines == MapSeq(FirstOccurrences(MapSeq(month, ClientOf)), ClientEntryOf(month))
  {
    lines := [];
    for k := 0 to |order|
      invariant lines == MapSeq(order[..k], ClientEntryOf(month))
    {
      var name := order[k];
      var data := summary[name];
      PrefixStep(order, k);
      MapSeqSnoc(order[..k], name, ClientEntryOf(month));
      var line := ClientLine(name, data.totalKg / OrOne(data.totalEmp), MeanOver(data.totalInf, data.count),
        MeanOver(data.totalWaste, data.count), data.totalKg);
      assert line == ClientEntryOf(month)(name);
      lines := lines + [line];
    }
    assert order[..|order|] == order;
  }

  /** `clientSummary`: tally the month per client, list the entries, sort them by weight. */
  method ClientSummary(month: seq<ProductionRecord>) returns (lines: seq<ClientLine>)
    ensures lines == ClientSummarySpec(month)
  {
    var summary, order := TallyClients(month);
    var entries := ListClients(month, summary, order);
    lines := SortBy(entries, ByKgDesc);
  }

  /** Every client of the month has exactly one line, and nobody else has one. */
  lemma ClientSummaryClients(month: seq<ProductionRecord>, name: string)
    ensures |Select(ClientSummarySpec(month), LineName, name)| ==
      if exists r :: r in month && r.clientName == name then 1 else 0
  {
    var order := FirstOccurrences(MapSeq(month, ClientOf));
    SelectPermutation(ClientSummarySpec(month), MapSeq(order, ClientEntryOf(month)), LineName, name);
    SelectOfEntries(order, ClientEntryOf(month), LineName, name);
    MapSeqMember(month, ClientOf);
  }

  /** Every line is the entry of a client that has records in the month. */
  lemma ClientLineMember(month: seq<ProductionRecord>, c: ClientLine)
    requires c in ClientSummarySpec(month)
    ensures c == ClientEntry(month, c.name)
    ensures exists r :: r in month && r.clientName == c.name
  {
    var order := FirstOccurrences(MapSeq(month, ClientOf));
    var lines := MapSeq(order, ClientEntryOf(month));
    assert c in multiset(lines);
    var i :| 0 <= i < |lines| && lines[i] == c;
    assert c == ClientEntry(month, order[i]);
    assert order[i] in MapSeq(month, ClientOf);
    MapSeqMember(month, ClientOf);
  }

  /**
    * A client's line: its weight is the sum over its records, its yield
    * divides that weight by its head count or by 1, and its infestation and
    * waste are the means over at least one record.
    */
  lemma ClientSummaryLine(month: seq<ProductionRecord>, c: ClientLine)
    requires c in ClientSummarySpec(month)
    ensures var mine := Select(month, ClientOf, c.name);
      |mine| >= 1 &&
      c.totalKg == Sum(mine, Weight) &&
      c.yieldPerEmp == c.totalKg / OrOne(Sum(mine, Employees)) &&
      c.avgInf == Sum(mine, Infestation) / |mine| as real &&
      c.avgWaste == Sum(mine, Waste) / |mine| as real
  {
    ClientLineMember(month, c);
    var mine := Select(month, ClientOf, c.name);
    var r :| r in month && r.clientName == c.name;
    SelectMember(month, ClientOf, c.name);
    assert r in mine;
  }

  /** The heaviest client comes first. */
  lemma ClientSummarySorted(month: seq<ProductionRecord>)
    ensures var r := ClientSummarySpec(month);
      forall i, j :: 0 <= i < j < |r| ==> r[i].totalKg >= r[j].totalKg
  {
    SortBySorted(MapSeq(FirstOccurrences(MapSeq(month, ClientOf)), ClientEntryOf(month)), ByKgDesc);
  }

  /** Grouping by client loses no weight: the lines add up to the month's weight. */
  lemma ClientSummaryWeight(month: seq<ProductionRecord>)
    ensures Sum(ClientSummarySpec(month), LineKg) == Sum(month, Weight)
  {
    var order := FirstOccurrences(MapSeq(month, ClientOf));
    SumPermutation(ClientSummarySpec(month), MapSeq(order, ClientEntryOf(month)), LineKg);
    SumOfEntries(order, ClientEntryOf(month), LineKg, month, ClientOf, Weight);
    MapSeqMember(month, ClientOf);
    SumPartition(month, ClientOf, order, Weight);
  }

  /** The width of a client's share bar, in percent of the month's weight, capped at 100. */
  function ShareWidth(clientKg: real, totalWeight: real): (w: real)
    ensures w <= 100.0
    ensures w <= clientKg / OrOne(totalWeight) * 100.0
    ensures w == 100.0 || w == clientKg / OrOne(totalWeight) * 100.0
  {
    var pct := clientKg / OrOne(totalWeight) * 100.0;
    if pct < 100.0 then pct else 100.0
  }

  /**
    * With no negative weight the cap never bites: each client's bar is its
    * exact percentage of the month's weight.
    */
  lemma ClientShareExact(month: seq<ProductionRecord>, c: ClientLine)
    requires forall r :: r in month ==> r.totalWeightKg >= 0.0
    requires c in ClientSummarySpec(month)
    ensures ShareWidth(c.totalKg, MonthlyMetrics(month).totalWeight) ==
      c.totalKg / OrOne(MonthlyMetrics(month).totalWeight) * 100.0
  {
    ClientSummaryLine(month, c);
    SumWhereBounded(month, ClientOf, c.name, Weight);
    assert MonthlyMetrics(month).totalWeight == Sum(month, Weight);
    ShareUncapped(c.totalKg, Sum(month, Weight));
  }

  /** A part between zero and the whole is at most 100 percent of it. */
  lemma ShareUncapped(part: real, whole: real)
    requires 0.0 <= part <= whole
    ensures ShareWidth(part, whole) == part / OrOne(whole) * 100.0
  {
    if whole != 0.0 {
      assert part / whole <= 1.0;
    }
  }
}
