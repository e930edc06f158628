/// The production journal (components/History.tsx): a case-insensitive
/// search over client, lot and product, and the records grouped by month,
/// each month with its sums and its records newest first, the latest month
/// first.
module History {
  import opened Seqs
  import opened Sorting
  import opened Strings
  import opened Types
  import opened Metrics

  // ----- the search -----

  /** The lower-cased client, lot or product contains the lower-cased term. */
  predicate RecordMatches(r: ProductionRecord, searchTerm: string) {
    var term := Lower(searchTerm);
    Contains(Lower(r.clientName), term) || Contains(Lower(r.lotNumber), term) || Contains(Lower(r.productName), term)
  }

  function RecordMatcher(searchTerm: string): ProductionRecord -> bool {
    r => RecordMatches(r, searchTerm)
  }

  /** `filteredRecords`: every record without a term, the matching ones in order with one. */
  function FilteredRecords(rs: seq<ProductionRecord>, searchTerm: string): (r: seq<ProductionRecord>)
    ensures |r| <= |rs|
    ensures forall x :: x in r ==> x in rs
  {
    if searchTerm == "" then rs else Keep(rs, RecordMatcher(searchTerm))
  }

  /**
    * No term keeps the list as it is; a term keeps exactly the records
    * whose client, lot or product contains it, whatever the letter case.
    */
  lemma FilteredRecordsSpec(rs: seq<ProductionRecord>, searchTerm: string)
    ensures searchTerm == "" ==> FilteredRecords(rs, searchTerm) == rs
    ensures searchTerm != "" ==> forall x :: x in FilteredRecords(rs, searchTerm) <==>
      x in rs && (Contains(Lower(x.clientName), Lower(searchTerm)) ||
                  Contains(Lower(x.lotNumber), Lower(searchTerm)) ||
                  Contains(Lower(x.productName), Lower(searchTerm)))
  {
  }

  /** The search ignores the letter case of the term. */
  lemma FilterIgnoresCase(rs: seq<ProductionRecord>, searchTerm: string)
    requires searchTerm != ""
    ensures FilteredRecords(rs, Lower(searchTerm)) == FilteredRecords(rs, searchTerm)
  {
    LowerIdempotent(searchTerm);
    assert Lower(searchTerm) != "" by {
      assert |Lower(searchTerm)| == |searchTerm|;
    }
    KeepAgree(rs, RecordMatcher(Lower(searchTerm)), RecordMatcher(searchTerm));
  }

  // ----- the month groups -----

  datatype GroupSummary = GroupSummary(totalU: real, totalKg: real, totalWaste: real, avgYieldKg: real, avgInf: real)

  /** An entry `[key, group]` of `groupedRecords`; the month's display label is not modelled. */
  datatype MonthGroup = MonthGroup(key: YearMonth, records: seq<ProductionRecord>, summary: GroupSummary)

  const ZeroSummary := GroupSummary(0.0, 0.0, 0.0, 0.0, 0.0)

  function MonthKey(monthOf: string -> YearMonth): ProductionRecord -> YearMonth {
    (r: ProductionRecord) => monthOf(r.date)
  }

  function KeyOf(g: MonthGroup): YearMonth { g.key }
  function GroupCount(g: MonthGroup): real { |g.records| as real }

  /**
    * `b[0].localeCompare(a[0])` on "YYYY-MM" keys, taken as month order (the
    * two agree for four-digit years): the later month first.
    */
  predicate ByKeyDesc(a: MonthGroup, b: MonthGroup) {
    MonthNotAfter(b.key, a.key)
  }

  /** The summary the second loop writes over a group's records. */
  function Summarize(recs: seq<ProductionRecord>): GroupSummary {
    var totalKg := Sum(recs, Weight);
    var totalWaste := Sum(recs, Waste);
    var totalEmp := Sum(recs, Employees);
    var totalInf := Sum(recs, Infestation);
    GroupSummary(Sum(recs, Units), totalKg, totalWaste, totalKg / OrOne(totalEmp), MeanOver(totalInf, |recs|))
  }

  /** The finished group of month `key`. */
  function GroupEntry(rs: seq<ProductionRecord>, monthOf: string -> YearMonth, key: YearMonth): MonthGroup {
    var recs := Select(rs, MonthKey(monthOf), key);
    MonthGroup(key, SortNewestFirst(recs, Stamp), Summarize(recs))
  }

  function GroupEntryOf(rs: seq<ProductionRecord>, monthOf: string -> YearMonth): YearMonth -> MonthGroup {
    key => GroupEntry(rs, monthOf, key)
  }

  /** A group as the first loop leaves it: its records in input order, its summary still zero. */
  function Unfinished(rs: seq<ProductionRecord>, monthOf: string -> YearMonth, key: YearMonth): MonthGroup {
    MonthGroup(key, Select(rs, MonthKey(monthOf), key), ZeroSummary)
  }

  /** `groupedRecords`: one group per month met, in first-seen order, then the later months first. */
  function GroupedSpec(rs: seq<ProductionRecord>, monthOf: string -> YearMonth): seq<MonthGroup> {
    SortBy(MapSeq(FirstOccurrences(MapSeq(rs, MonthKey(monthOf))), GroupEntryOf(rs, monthOf)), ByKeyDesc)
  }

  ghost predicate GroupsFilled(done: seq<ProductionRecord>, monthOf: string -> YearMonth,
                               groups: map<YearMonth, MonthGroup>, order: seq<YearMonth>) {
    order == FirstOccurrences(MapSeq(done, MonthKey(monthOf))) &&
    (forall k :: k in groups <==> k in order) &&
    (forall k :: k in groups ==> groups[k] == Unfinished(done, monthOf, k))
  }

  lemma PushStep(done: seq<ProductionRecord>, monthOf: string -> YearMonth, r: ProductionRecord,
                 s1: map<YearMonth, MonthGroup>, g: MonthGroup, s2: map<YearMonth, MonthGroup>)
    requires monthOf(r.date) in s1
    requires forall k :: k in s1 ==> s1[k] == Unfinished(done, monthOf, k)
    requires g.key == s1[monthOf(r.date)].key && g.summary == s1[monthOf(r.date)].summary
    requires g.records == s1[monthOf(r.date)].records + [r]
    requires s2 == s1[monthOf(r.date) := g]
    ensures forall k :: k in s2 ==> s2[k] == Unfinished(done + [r], monthOf, k)
  {
    forall k | k in s2 ensures s2[k] == Unfinished(done + [r], monthOf, k) {
      SelectSnoc(done, r, MonthKey(monthOf), k);
    }
  }

  lemma MonthOrderStep(done: seq<ProductionRecord>, monthOf: string -> YearMonth, r: ProductionRecord)
    ensures var o := FirstOccurrences(MapSeq(done, MonthKey(monthOf)));
      FirstOccurrences(MapSeq(done + [r], MonthKey(monthOf))) ==
        if monthOf(r.date) in o then o else o + [monthOf(r.date)]
  {
    MapSeqSnoc(done, r, MonthKey(monthOf));
    FirstOccurrencesSnoc(MapSeq(done, MonthKey(monthOf)), monthOf(r.date));
  }

  /** Opening an empty group for record `r`'s month, when it has none, keeps every group right for `done`. */
  lemma OpenGroup(done: seq<ProductionRecord>, monthOf: string -> YearMonth, r: ProductionRecord,
                  groups0: map<YearMonth, MonthGroup>, order0: seq<YearMonth>,
                  groups: map<YearMonth, MonthGroup>, order: seq<YearMonth>)
    requires GroupsFilled(done, monthOf, groups0, order0)
    requires monthOf(r.date) in groups0 ==> groups == groups0 && order == order0
    requires monthOf(r.date) !in groups0 ==>
      groups == groups0[monthOf(r.date) := MonthGroup(monthOf(r.date), [], ZeroSummary)] &&
      order == order0 + [monthOf(r.date)]
    ensures order == FirstOccurrences(MapSeq(done + [r], MonthKey(monthOf)))
    ensures forall k :: k in groups <==> k in order
    ensures monthOf(r.date) in groups
    ensures forall k :: k in groups ==> groups[k] == Unfinished(done, monthOf, k)
  {
    MonthOrderStep(done, monthOf, r);
    if monthOf(r.date) !in groups0 {
      SumWhereAbsent(done, MonthKey(monthOf), monthOf(r.date), Weight);
      NewGroupKeepsOthers(done, monthOf, monthOf(r.date), groups0, groups);
    }
  }

  /** An empty group opened for a month without records leaves every group right. */
  lemma NewGroupKeepsOthers(done: seq<ProductionRecord>, monthOf: string -> YearMonth, key: YearMonth,
                            groups0: map<YearMonth, MonthGroup>, groups: map<YearMonth, MonthGroup>)
    requires forall k :: k in groups0 ==> groups0[k] == Unfinished(done, monthOf, k)
    requires Select(done, MonthKey(monthOf), key) == []
    requires groups == groups0[key := MonthGroup(key, [], ZeroSummary)]
    ensures forall k :: k in groups ==> groups[k] == Unfinished(done, monthOf, k)
  {
  }

  /** The first `forEach` callback: open the month's group if needed and push the record. */
  method PushRecord(ghost done: seq<ProductionRecord>, monthOf: string -> YearMonth, r: ProductionRecord,
                    groups0: map<YearMonth, MonthGroup>, order0: seq<YearMonth>)
    returns (groups: map<YearMonth, MonthGroup>, order: seq<YearMonth>)
    requires GroupsFilled(done, monthOf, groups0, order0)
    ensures GroupsFilled(done + [r], monthOf, groups, order)
  {
    groups, order := groups0, order0;
    var key := monthOf(r.date);
    if key !in groups {
      groups := groups[key := MonthGroup(key, [], ZeroSummary)];
      order := order + [key];
    }
    OpenGroup(done, monthOf, r, groups0, order0, groups, order);
    ghost var s1 := groups;
    var g := groups[key];
    g := g.(records := g.records + [r]);
    groups := groups[key := g];
    PushStep(done, monthOf, r, s1, g, groups);
  }

  method FillGroups(rs: seq<ProductionRecord>, monthOf: string -> YearMonth)
    returns (groups: map<YearMonth, MonthGroup>, order: seq<YearMonth>)
    ensures GroupsFilled(rs, monthOf, groups, order)
  {
    groups, order := map[], [];
    assert rs[..0] == [];
    for i := 0 to |rs|
      invariant GroupsFilled(rs[..i], monthOf, groups, order)
    {
      PrefixStep(rs, i);
      groups, order := PushRecord(rs[..i], monthOf, rs[i], groups, order);
    }
    assert rs[..|rs|] == rs;
  }

  /** After the first `i` groups of `order` have their summary written and their records sorted. */
  ghost predicate GroupsFinished(rs: seq<ProductionRecord>, monthOf: string -> YearMonth,
                                 groups: map<YearMonth, MonthGroup>, order: seq<YearMonth>, i: int) {
    0 <= i <= |order| &&
    order == FirstOccurrences(MapSeq(rs, MonthKey(monthOf))) &&
    (forall k :: k in groups <==> k in order) &&
    (forall j :: 0 <= j < i ==> groups[order[j]] == GroupEntry(rs, monthOf, order[j])) &&
    (forall j :: i <= j < |order| ==> groups[order[j]] == Unfinished(rs, monthOf, order[j]))
  }

  lemma FinishStep(rs: seq<ProductionRecord>, monthOf: string -> YearMonth, s1: map<YearMonth, MonthGroup>,
                   order: seq<YearMonth>, i: int, g: MonthGroup, s2: map<YearMonth, MonthGroup>)
    requires i < |order|
    requires GroupsFinished(rs, monthOf, s1, order, i)
    requires g.key == s1[order[i]].key
    requires g.summary == Summarize(s1[order[i]].records)
    requires g.records == SortNewestFirst(s1[order[i]].records, Stamp)
    requires s2 == s1[order[i] := g]
    ensures GroupsFinished(rs, monthOf, s2, order, i + 1)
  {
    var key := order[i];
    assert Distinct(order);
    FinishedIsEntry(rs, monthOf, key, s1[key], g);
    forall j | 0 <= j < i ensures s2[order[j]] == GroupEntry(rs, monthOf, order[j]) {
      DistinctAt(order, j, i);
    }
    forall j | i + 1 <= j < |order| ensures s2[order[j]] == Unfinished(rs, monthOf, order[j]) {
      DistinctAt(order, j, i);
    }
  }

  lemma FinishedIsEntry(rs: seq<ProductionRecord>, monthOf: string -> YearMonth, key: YearMonth,
                        u: MonthGroup, g: MonthGroup)
    requires u == Unfinished(rs, monthOf, key)
    requires g.key == u.key
    requires g.summary == Summarize(u.records)
    requires g.records == SortNewestFirst(u.records, Stamp)
    ensures g == GroupEntry(rs, monthOf, key)
  {
  }

  /** The second loop's callback: write the group's summary, then sort its records newest first. */
  method FinishGroup(ghost rs: seq<ProductionRecord>, ghost monthOf: string -> YearMonth,
                     groups0: map<YearMonth, MonthGroup>, order: seq<YearMonth>, i: int)
    returns (groups: map<YearMonth, MonthGroup>)
    requires i < |order|
    requires GroupsFinished(rs, monthOf, groups0, order, i)
    ensures GroupsFinished(rs, monthOf, groups, order, i + 1)
  {
    var key := order[i];
    var group := groups0[key];
    var totalKg := Sum(group.records, Weight);
    var totalWaste := Sum(group.records, Waste);
    var totalEmp := Sum(group.records, Employees);
    var totalInf := Sum(group.records, Infestation);
    group := group.(summary := GroupSummary(Sum(group.records, Units), totalKg, totalWaste,
      totalKg / OrOne(totalEmp), MeanOver(totalInf, |group.records|)));
    group := group.(records := SortNewestFirst(group.records, Stamp));
    groups := groups0[key := group];
    FinishStep(rs, monthOf, groups0, order, i, group, groups);
  }

  method FinishGroups(ghost rs: seq<ProductionRecord>, ghost monthOf: string -> YearMonth,
                      groups0: map<YearMonth, MonthGroup>, order: seq<YearMonth>)
    returns (groups: map<YearMonth, MonthGroup>)
    requires GroupsFilled(rs, monthOf, groups0, order)
    ensures GroupsFinished(rs, monthOf, groups, order, |order|)
  {
    groups := groups0;
    assert forall j :: 0 <= j < |order| ==> order[j] in groups;
    for i := 0 to |order|
      invariant GroupsFinished(rs, monthOf, groups, order, i)
    {
      groups := FinishGroup(rs, monthOf, groups, order, i);
    }
  }

  /** `Object.entries(groups)`: the groups in key order. */
  method ListGroups(ghost rs: seq<ProductionRecord>, ghost monthOf: string -> YearMonth,
                    groups: map<YearMonth, MonthGroup>, order: seq<YearMonth>)
    returns (entries: seq<MonthGroup>)
    requires GroupsFinished(rs, monthOf, groups, order, |order|)
    ensures entries == MapSeq(FirstOccurrences(MapSeq(rs, MonthKey(monthOf))), GroupEntryOf(rs, monthOf))
  {
    assert order[..|order|] == order;
    assert forall j :: 0 <= j < |order| ==> order[j] in groups;
    entries := [];
    for k := 0 to |order|
      invariant entries == MapSeq(order[..k], GroupEntryOf(rs, monthOf))
    {
      var g := groups[order[k]];
      PrefixStep(order, k);
      MapSeqSnoc(order[..k], order[k], GroupEntryOf(rs, monthOf));
      assert g == GroupEntryOf(rs, monthOf)(order[k]);
      entries := entries + [g];
    }
  }

  /** `groupedRecords` over the filtered records `rs`. */
  method GroupedRecords(rs: seq<ProductionRecord>, monthOf: string -> YearMonth) returns (result: seq<MonthGroup>)
    ensures result == GroupedSpec(rs, monthOf)
  {
    var groups0, order := FillGroups(rs, monthOf);
    var groups := FinishGroups(rs, monthOf, groups0, order);
    var entries := ListGroups(rs, monthOf, groups, order);
    result := SortBy(entries, ByKeyDesc);
  }

  // ----- what the grouping promises -----

  /** Every group is the finished group of a month that has a record. */
  lemma GroupMember(rs: seq<ProductionRecord>, monthOf: string -> YearMonth, g: MonthGroup)
    requires g in GroupedSpec(rs, monthOf)
    ensures g == GroupEntry(rs, monthOf, g.key)
    ensures exists r :: r in rs && monthOf(r.date) == g.key
  {
    GroupEntryMember(rs, monthOf, g);
    MonthMet(rs, monthOf, g.key);
  }

  /** A listed group is the entry of a month of the first-seen order. */
  lemma GroupEntryMember(rs: seq<ProductionRecord>, monthOf: string -> YearMonth, g: MonthGroup)
    requires g in GroupedSpec(rs, monthOf)
    ensures g == GroupEntry(rs, monthOf, g.key)
    ensures g.key in FirstOccurrences(MapSeq(rs, MonthKey(monthOf)))
  {
    var order := FirstOccurrences(MapSeq(rs, MonthKey(monthOf)));
    var lines := MapSeq(order, GroupEntryOf(rs, monthOf));
    assert g in multiset(lines);
    var i :| 0 <= i < |lines| && lines[i] == g;
    assert g == GroupEntry(rs, monthOf, order[i]);
  }

  /** A month in the first-seen order is the month of some record. */
  lemma MonthMet(rs: seq<ProductionRecord>, monthOf: string -> YearMonth, key: YearMonth)
    requires key in FirstOccurrences(MapSeq(rs, MonthKey(monthOf)))
    ensures exists r :: r in rs && monthOf(r.date) == key
  {
    MapSeqMember(rs, MonthKey(monthOf));
  }

  /** There is exactly one group per month that has a record, and none for other months. */
  lemma GroupedKeys(rs: seq<ProductionRecord>, monthOf: string -> YearMonth, key: YearMonth)
    ensures |Select(GroupedSpec(rs, monthOf), KeyOf, key)| ==
      if exists r :: r in rs && monthOf(r.date) == key then 1 else 0
  {
    var order := FirstOccurrences(MapSeq(rs, MonthKey(monthOf)));
    SelectPermutation(GroupedSpec(rs, monthOf), MapSeq(order, GroupEntryOf(rs, monthOf)), KeyOf, key);
    SelectOfEntries(order, GroupEntryOf(rs, monthOf), KeyOf, key);
    MapSeqMember(rs, MonthKey(monthOf));
  }

  /**
    * A group holds exactly the records of its month, as often as they
    * occur, newest first.
    */
  lemma GroupRecords(rs: seq<ProductionRecord>, monthOf: string -> YearMonth, g: MonthGroup)
    requires g in GroupedSpec(rs, monthOf)
    ensures multiset(g.records) == multiset(Select(rs, MonthKey(monthOf), g.key))
    ensures forall x :: x in g.records <==> x in rs && monthOf(x.date) == g.key
    ensures forall i, j :: 0 <= i < j < |g.records| ==> g.records[i].timestamp >= g.records[j].timestamp
  {
    GroupMember(rs, monthOf, g);
    SelectMember(rs, MonthKey(monthOf), g.key);
    NewestFirstSorted(Select(rs, MonthKey(monthOf), g.key));
  }

  /** Sorting newest first keeps the records and leaves no older one ahead of a newer one. */
  lemma NewestFirstSorted(recs: seq<ProductionRecord>)
    ensures forall x :: x in SortNewestFirst(recs, Stamp) <==> x in recs
    ensures var s := SortNewestFirst(recs, Stamp);
      forall i, j :: 0 <= i < j < |s| ==> s[i].timestamp >= s[j].timestamp
  {
    SameMembers(SortNewestFirst(recs, Stamp), recs);
  }

  /** Sorting a month's records does not change what its summary adds up. */
  lemma SummaryOfSorted(recs: seq<ProductionRecord>)
    ensures var sorted := SortNewestFirst(recs, Stamp); var s := Summarize(recs);
      s.totalU == Sum(sorted, Units) && s.totalKg == Sum(sorted, Weight) && s.totalWaste == Sum(sorted, Waste) &&
      Sum(recs, Employees) == Sum(sorted, Employees) && Sum(recs, Infestation) == Sum(sorted, Infestation)
  {
    var sorted := SortNewestFirst(recs, Stamp);
    SumPermutation(recs, sorted, Units);
    SumPermutation(recs, sorted, Weight);
    SumPermutation(recs, sorted, Waste);
    SumPermutation(recs, sorted, Employees);
    SumPermutation(recs, sorted, Infestation);
  }

  /**
    * A group's sums are over its records; its yield divides its weight by
    * its head count or by 1, and its infestation is the mean over them.
    */
  lemma GroupSummaryValues(rs: seq<ProductionRecord>, monthOf: string -> YearMonth, g: MonthGroup)
    requires g in GroupedSpec(rs, monthOf)
    ensures |g.records| >= 1
    ensures g.summary.totalU == Sum(g.records, Units)
    ensures g.summary.totalKg == Sum(g.records, Weight)
    ensures g.summary.totalWaste == Sum(g.records, Waste)
    ensures g.summary.avgYieldKg == g.summary.totalKg / OrOne(Sum(g.records, Employees))
    ensures g.summary.avgInf == Sum(g.records, Infestation) / |g.records| as real
  {
    GroupMember(rs, monthOf, g);
    var recs := Select(rs, MonthKey(monthOf), g.key);
    var r :| r in rs && monthOf(r.date) == g.key;
    SelectMember(rs, MonthKey(monthOf), g.key);
    assert r in recs;
    SummaryOfSorted(recs);
  }

  /** Grouping loses no record: the group sizes add up to the number of records. */
  lemma GroupCountsSum(rs: seq<ProductionRecord>, monthOf: string -> YearMonth)
    ensures Sum(GroupedSpec(rs, monthOf), GroupCount) == |rs| as real
  {
    var order := FirstOccurrences(MapSeq(rs, MonthKey(monthOf)));
    var entry := GroupEntryOf(rs, monthOf);
    SumPermutation(GroupedSpec(rs, monthOf), MapSeq(order, entry), GroupCount);
    forall k ensures GroupCount(entry(k)) == SumWhere(rs, MonthKey(monthOf), k, One) {
      SumOfOnes(Select(rs, MonthKey(monthOf), k));
    }
    SumOfEntries(order, entry, GroupCount, rs, MonthKey(monthOf), One);
    MapSeqMember(rs, MonthKey(monthOf));
    SumPartition(rs, MonthKey(monthOf), order, One);
    SumOfOnes(rs);
  }

  lemma ByKeyDescTotalPreorder()
    ensures TotalPreorder(ByKeyDesc)
  {
  }

  /** The later month comes first. */
  lemma GroupedSorted(rs: seq<ProductionRecord>, monthOf: string -> YearMonth)
    ensures var r := GroupedSpec(rs, monthOf);
      forall i, j :: 0 <= i < j < |r| ==> MonthNotAfter(r[j].key, r[i].key)
  {
    ByKeyDescTotalPreorder();
    SortBySorted(MapSeq(FirstOccurrences(MapSeq(rs, MonthKey(monthOf))), GroupEntryOf(rs, monthOf)), ByKeyDesc);
  }
}
