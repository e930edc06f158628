/// Lot traceability (components/LotTraceability.tsx, `lotData`): an outer
/// join of the purchases (what came in under a lot number) and the
/// production records (what came out of it), with per-lot totals, the mean
/// infestation measured in production, and the lots listed by descending
/// lot number.
module LotTraceability {
  import opened Options
  import opened Seqs
  import opened Sorting
  import opened Strings
  import opened Types

  datatype LotTotals = LotTotals(
    purchasedKg: real,
    producedKg: real,
    wasteKg: real,
    infestationPurchase: real,
    infestationProdAvg: real)

  datatype Lot = Lot(
    lotNumber: string,
    purchase: Option<PurchaseRecord>,
    production: seq<ProductionRecord>,
    totals: LotTotals)

  function PLot(p: PurchaseRecord): string { p.lotNumber }
  function PQty(p: PurchaseRecord): real { p.quantity }
  function RLot(r: ProductionRecord): string { r.lotNumber }
  function RWeight(r: ProductionRecord): real { r.totalWeightKg }
  function RWaste(r: ProductionRecord): real { r.wasteKg }
  function RInfestation(r: ProductionRecord): real { r.infestationRate }
  function LotNumberOf(l: Lot): string { l.lotNumber }

  /** The last purchase of `lot` in input order: each purchase overwrites the previous one. */
  function LastPurchase(ps: seq<PurchaseRecord>, lot: string): Option<PurchaseRecord> {
    if |ps| == 0 then None
    else if ps[|ps| - 1].lotNumber == lot then Some(ps[|ps| - 1])
    else LastPurchase(ps[..|ps| - 1], lot)
  }

  /** The infestation rate of that last purchase, 0 when the lot was never bought. */
  function PurchaseInfestation(ps: seq<PurchaseRecord>, lot: string): real {
    match LastPurchase(ps, lot)
    case Some(p) => p.infestationRate
    case None => 0.0
  }

  /** A lot as the two collecting loops leave it: every total but the production average. */
  function Collected(ps: seq<PurchaseRecord>, rs: seq<ProductionRecord>, lot: string): Lot {
    var production := Select(rs, RLot, lot);
    Lot(lot, LastPurchase(ps, lot), production,
      LotTotals(SumWhere(ps, PLot, lot, PQty), Sum(production, RWeight), Sum(production, RWaste),
        PurchaseInfestation(ps, lot), 0.0))
  }

  /** The third loop's update: a lot with production gets its mean infestation. */
  function WithAverage(l: Lot): Lot {
    if |l.production| > 0 then
      l.(totals := l.totals.(infestationProdAvg := Sum(l.production, RInfestation) / |l.production| as real))
    else l
  }

  /** The finished line of `lot`. */
  function LotEntry(ps: seq<PurchaseRecord>, rs: seq<ProductionRecord>, lot: string): Lot {
    WithAverage(Collected(ps, rs, lot))
  }

  function LotEntryOf(ps: seq<PurchaseRecord>, rs: seq<ProductionRecord>): string -> Lot {
    lot => LotEntry(ps, rs, lot)
  }

  /** Lot numbers in the order the two `forEach` loops meet them. */
  function LotNames(ps: seq<PurchaseRecord>, rs: seq<ProductionRecord>): seq<string> {
    MapSeq(ps, PLot) + MapSeq(rs, RLot)
  }

  /** `b.lotNumber.localeCompare(a.lotNumber)`: `a` may stay ahead of `b` unless `b`'s number is larger. */
  predicate ByLotDesc(a: Lot, b: Lot) {
    !LexLess(a.lotNumber, b.lotNumber)
  }

  /** `lotData`: one finished line per lot number, sorted by descending lot number. */
  function LotDataSpec(ps: seq<PurchaseRecord>, rs: seq<ProductionRecord>): seq<Lot> {
    SortBy(MapSeq(FirstOccurrences(LotNames(ps, rs)), LotEntryOf(ps, rs)), ByLotDesc)
  }

  // ----- the loops of `lotData` -----

  /** The lots after the purchases `done`: one per lot number met, in first-seen order. */
  ghost predicate PurchasesCollected(done: seq<PurchaseRecord>, lots: map<string, Lot>, order: seq<string>) {
    order == FirstOccurrences(MapSeq(done, PLot)) &&
    (forall k :: k in lots <==> k in order) &&
    (forall k :: k in lots ==> lots[k] == Collected(done, [], k))
  }

  /** The lots after the purchases `ps` and the production records `done`. */
  ghost predicate RecordsCollected(ps: seq<PurchaseRecord>, done: seq<ProductionRecord>, lots: map<string, Lot>, order: seq<string>) {
    order == FirstOccurrences(LotNames(ps, done)) &&
    (forall k :: k in lots <==> k in order) &&
    (forall k :: k in lots ==> lots[k] == Collected(ps, done, k))
  }

  lemma LastPurchaseSnoc(ps: seq<PurchaseRecord>, p: PurchaseRecord, lot: string)
    ensures LastPurchase(ps + [p], lot) == if p.lotNumber == lot then Some(p) else LastPurchase(ps, lot)
  {
    assert (ps + [p])[..|ps|] == ps;
  }

  /** The updated lot `l` differs from `prev` only in what a purchase `p` of lot `k` changes. */
  ghost predicate PurchaseApplied(prev: Lot, l: Lot, p: PurchaseRecord) {
    l.lotNumber == prev.lotNumber && l.purchase == Some(p) && l.production == prev.production &&
    l.totals.purchasedKg == prev.totals.purchasedKg + p.quantity &&
    l.totals.producedKg == prev.totals.producedKg && l.totals.wasteKg == prev.totals.wasteKg &&
    l.totals.infestationPurchase == p.infestationRate && l.totals.infestationProdAvg == prev.totals.infestationProdAvg
  }

  /** The updated lot `l` differs from `prev` only in what a production record `r` of lot `k` changes. */
  ghost predicate RecordApplied(prev: Lot, l: Lot, r: ProductionRecord) {
    l.lotNumber == prev.lotNumber && l.purchase == prev.purchase && l.production == prev.production + [r] &&
    l.totals.purchasedKg == prev.totals.purchasedKg &&
    l.totals.producedKg == prev.totals.producedKg + r.totalWeightKg && l.totals.wasteKg == prev.totals.wasteKg + r.wasteKg &&
    l.totals.infestationPurchase == prev.totals.infestationPurchase && l.totals.infestationProdAvg == prev.totals.infestationProdAvg
  }

  lemma NewLotEmpty(ps: seq<PurchaseRecord>, done: seq<ProductionRecord>, lot: string)
    requires lot !in FirstOccurrences(LotNames(ps, done))
    ensures Collected(ps, done, lot) == EmptyLot(lot)
  {
    SumWhereAbsent(ps, PLot, lot, PQty);
    SumWhereAbsent(done, RLot, lot, RWeight);
    LastPurchaseAbsent(ps, lot);
  }

  lemma {:induction false} LastPurchaseAbsent(ps: seq<PurchaseRecord>, lot: string)
    requires lot !in MapSeq(ps, PLot)
    ensures LastPurchase(ps, lot) == None
    decreases |ps|
  {
    if |ps| > 0 {
      var ps' := ps[..|ps| - 1];
      assert ps == ps' + [ps[|ps| - 1]];
      MapSeqSnoc(ps', ps[|ps| - 1], PLot);
      LastPurchaseAbsent(ps', lot);
    }
  }

  lemma LotOrderStep(ps: seq<PurchaseRecord>, done: seq<ProductionRecord>, r: ProductionRecord)
    ensures FirstOccurrences(LotNames(ps, done + [r])) ==
      if r.lotNumber in FirstOccurrences(LotNames(ps, done)) then FirstOccurrences(LotNames(ps, done))
      else FirstOccurrences(LotNames(ps, done)) + [r.lotNumber]
  {
    MapSeqSnoc(done, r, RLot);
    assert LotNames(ps, done + [r]) == LotNames(ps, done) + [r.lotNumber];
    FirstOccurrencesSnoc(LotNames(ps, done), r.lotNumber);
  }

  /** An empty lot, as a `forEach` callback opens it. */
  function EmptyLot(lot: string): Lot {
    Lot(lot, None, [], LotTotals(0.0, 0.0, 0.0, 0.0, 0.0))
  }

  /** The lots once the lot of purchase `p` is open: the keys include it, the lines still describe `done`. */
  ghost predicate PurchaseLotOpen(done: seq<PurchaseRecord>, p: PurchaseRecord, lots: map<string, Lot>, order: seq<string>) {
    order == FirstOccurrences(MapSeq(done + [p], PLot)) &&
    (forall k :: k in lots <==> k in order) &&
    (forall k :: k in lots ==> lots[k] == Collected(done, [], k))
  }

  lemma OpenPurchaseLot(done: seq<PurchaseRecord>, p: PurchaseRecord, lots0: map<string, Lot>, order0: seq<string>,
                        lots: map<string, Lot>, order: seq<string>)
    requires PurchasesCollected(done, lots0, order0)
    requires p.lotNumber in lots0 ==> lots == lots0 && order == order0
    requires p.lotNumber !in lots0 ==>
      lots == lots0[p.lotNumber := EmptyLot(p.lotNumber)] && order == order0 + [p.lotNumber]
    ensures PurchaseLotOpen(done, p, lots, order)
  {
    PurchaseOrderStep(done, p);
    if p.lotNumber !in lots0 {
      PurchaseLotEmpty(done, p.lotNumber);
      forall k | k in lots ensures lots[k] == Collected(done, [], k) {
        if k != p.lotNumber {
          assert lots[k] == lots0[k];
        }
      }
    }
  }

  lemma PurchaseOrderStep(done: seq<PurchaseRecord>, p: PurchaseRecord)
    ensures FirstOccurrences(MapSeq(done + [p], PLot)) ==
      if p.lotNumber in FirstOccurrences(MapSeq(done, PLot)) then FirstOccurrences(MapSeq(done, PLot))
      else FirstOccurrences(MapSeq(done, PLot)) + [p.lotNumber]
  {
    MapSeqSnoc(done, p, PLot);
    FirstOccurrencesSnoc(MapSeq(done, PLot), p.lotNumber);
  }

  /** A lot number no purchase of `done` carries has an empty line. */
  lemma PurchaseLotEmpty(done: seq<PurchaseRecord>, lot: string)
    requires lot !in FirstOccurrences(MapSeq(done, PLot))
    ensures Collected(done, [], lot) == EmptyLot(lot)
  {
    SumWhereAbsent(done, PLot, lot, PQty);
    LastPurchaseAbsent(done, lot);
  }

  /** Adding purchase `p` to the line of its lot gives that line after `done + [p]`. */
  lemma PurchaseExtends(done: seq<PurchaseRecord>, p: PurchaseRecord, l: Lot)
    requires PurchaseApplied(Collected(done, [], p.lotNumber), l, p)
    ensures l == Collected(done + [p], [], p.lotNumber)
  {
    LastPurchaseSnoc(done, p, p.lotNumber);
    SumWhereSnoc(done, p, PLot, p.lotNumber, PQty);
  }

  /** Purchase `p` leaves the lines of the other lots as they were. */
  lemma PurchaseLeavesOthers(done: seq<PurchaseRecord>, p: PurchaseRecord, k: string)
    requires k != p.lotNumber
    ensures Collected(done + [p], [], k) == Collected(done, [], k)
  {
    LastPurchaseSnoc(done, p, k);
    SumWhereSnoc(done, p, PLot, k, PQty);
  }

  lemma CollectPurchaseStep(done: seq<PurchaseRecord>, p: PurchaseRecord, s1: map<string, Lot>, l: Lot,
                            s2: map<string, Lot>, order: seq<string>)
    requires PurchaseLotOpen(done, p, s1, order)
    requires p.lotNumber in s1
    requires PurchaseApplied(s1[p.lotNumber], l, p)
    requires s2 == s1[p.lotNumber := l]
    ensures PurchasesCollected(done + [p], s2, order)
  {
    PurchaseLines(done, p, s1, l, s2);
  }

  /** Every line is up to date after purchase `p` once the line of its lot is. */
  lemma PurchaseLines(done: seq<PurchaseRecord>, p: PurchaseRecord, s1: map<string, Lot>, l: Lot, s2: map<string, Lot>)
    requires forall k :: k in s1 ==> s1[k] == Collected(done, [], k)
    requires p.lotNumber in s1 && PurchaseApplied(s1[p.lotNumber], l, p)
    requires s2 == s1[p.lotNumber := l]
    ensures forall k :: k in s2 ==> s2[k] == Collected(done + [p], [], k)
  {
    PurchaseExtends(done, p, l);
    forall k | k in s2 ensures s2[k] == Collected(done + [p], [], k) {
      if k != p.lotNumber {
        PurchaseLeavesOthers(done, p, k);
      }
    }
  }

  /** The lots once the lot of record `r` is open: the keys include it, the lines still describe `done`. */
  ghost predicate RecordLotOpen(ps: seq<PurchaseRecord>, done: seq<ProductionRecord>, r: ProductionRecord,
                                lots: map<string, Lot>, order: seq<string>) {
    order == FirstOccurrences(LotNames(ps, done + [r])) &&
    (forall k :: k in lots <==> k in order) &&
    (forall k :: k in lots ==> lots[k] == Collected(ps, done, k))
  }

  lemma OpenRecordLot(ps: seq<PurchaseRecord>, done: seq<ProductionRecord>, r: ProductionRecord,
                      lots0: map<string, Lot>, order0: seq<string>, lots: map<string, Lot>, order: seq<string>)
    requires RecordsCollected(ps, done, lots0, order0)
    requires r.lotNumber in lots0 ==> lots == lots0 && order == order0
    requires r.lotNumber !in lots0 ==>
      lots == lots0[r.lotNumber := EmptyLot(r.lotNumber)] && order == order0 + [r.lotNumber]
    ensures RecordLotOpen(ps, done, r, lots, order)
  {
    LotOrderStep(ps, done, r);
    if r.lotNumber !in lots0 {
      NewLotEmpty(ps, done, r.lotNumber);
      forall k | k in lots ensures lots[k] == Collected(ps, done, k) {
        if k != r.lotNumber {
          assert lots[k] == lots0[k];
        }
      }
    }
  }

  /** Adding record `r` to the line of its lot gives that line after `done + [r]`. */
  lemma RecordExtends(ps: seq<PurchaseRecord>, done: seq<ProductionRecord>, r: ProductionRecord, l: Lot)
    requires RecordApplied(Collected(ps, done, r.lotNumber), l, r)
    ensures l == Collected(ps, done + [r], r.lotNumber)
  {
    SelectSnoc(done, r, RLot, r.lotNumber);
    SumSnoc(Select(done, RLot, r.lotNumber), r, RWeight);
    SumSnoc(Select(done, RLot, r.lotNumber), r, RWaste);
  }

  /** Record `r` leaves the lines of the other lots as they were. */
  lemma RecordLeavesOthers(ps: seq<PurchaseRecord>, done: seq<ProductionRecord>, r: ProductionRecord, k: string)
    requires k != r.lotNumber
    ensures Collected(ps, done + [r], k) == Collected(ps, done, k)
  {
    SelectSnoc(done, r, RLot, k);
    assert Select(done + [r], RLot, k) == Select(done, RLot, k);
  }

  lemma CollectRecordStep(ps: seq<PurchaseRecord>, done: seq<ProductionRecord>, r: ProductionRecord,
                          s1: map<string, Lot>, l: Lot, s2: map<string, Lot>, order: seq<string>)
    requires RecordLotOpen(ps, done, r, s1, order)
    requires r.lotNumber in s1
    requires RecordApplied(s1[r.lotNumber], l, r)
    requires s2 == s1[r.lotNumber := l]
    ensures RecordsCollected(ps, done + [r], s2, order)
  {
    RecordLines(ps, done, r, s1, l, s2);
  }

  /** Every line is up to date after record `r` once the line of its lot is. */
  lemma RecordLines(ps: seq<PurchaseRecord>, done: seq<ProductionRecord>, r: ProductionRecord,
                    s1: map<string, Lot>, l: Lot, s2: map<string, Lot>)
    requires forall k :: k in s1 ==> s1[k] == Collected(ps, done, k)
    requires r.lotNumber in s1 && RecordApplied(s1[r.lotNumber], l, r)
    requires s2 == s1[r.lotNumber := l]
    ensures forall k :: k in s2 ==> s2[k] == Collected(ps, done + [r], k)
  {
    RecordExtends(ps, done, r, l);
    forall k | k in s2 ensures s2[k] == Collected(ps, done + [r], k) {
      if k != r.lotNumber {
        RecordLeavesOthers(ps, done, r, k);
      }
    }
  }

  /** The first `forEach` callback: open the lot if needed, record the purchase, add its weight. */
  method CollectPurchase(ghost done: seq<PurchaseRecord>, p: PurchaseRecord, lots0: map<string, Lot>, order0: seq<string>)
    returns (lots: map<string, Lot>, order: seq<string>)
    requires PurchasesCollected(done, lots0, order0)
    ensures PurchasesCollected(done + [p], lots, order)
  {
    lots, order := lots0, order0;
    if p.lotNumber !in lots {
      lots := lots[p.lotNumber := EmptyLot(p.lotNumber)];
      order := order + [p.lotNumber];
    }
    OpenPurchaseLot(done, p, lots0, order0, lots, order);
    ghost var s1 := lots;
    var lot := lots[p.lotNumber];
    lot := lot.(purchase := Some(p));
    lot := lot.(totals := lot.totals.(purchasedKg := lot.totals.purchasedKg + p.quantity));
    lot := lot.(totals := lot.totals.(infestationPurchase := p.infestationRate));
    lots := lots[p.lotNumber := lot];
    CollectPurchaseStep(done, p, s1, lot, lots, order);
  }

  /** The second `forEach` callback: open the lot if needed, append the record, add its weights. */
  method CollectRecord(ghost ps: seq<PurchaseRecord>, ghost done: seq<ProductionRecord>, r: ProductionRecord,
                       lots0: map<string, Lot>, order0: seq<string>)
    returns (lots: map<string, Lot>, order: seq<string>)
    requires RecordsCollected(ps, done, lots0, order0)
    ensures RecordsCollected(ps, done + [r], lots, order)
  {
    lots, order := lots0, order0;
    if r.lotNumber !in lots {
      lots := lots[r.lotNumber := EmptyLot(r.lotNumber)];
      order := order + [r.lotNumber];
    }
    OpenRecordLot(ps, done, r, lots0, order0, lots, order);
    ghost var s1 := lots;
    var lot := lots[r.lotNumber];
    lot := lot.(production := lot.production + [r]);
    lot := lot.(totals := lot.totals.(producedKg := lot.totals.producedKg + r.totalWeightKg));
    lot := lot.(totals := lot.totals.(wasteKg := lot.totals.wasteKg + r.wasteKg));
    lots := lots[r.lotNumber := lot];
    CollectRecordStep(ps, done, r, s1, lot, lots, order);
  }

  method CollectPurchases(purchases: seq<PurchaseRecord>) returns (lots: map<string, Lot>, order: seq<string>)
    ensures PurchasesCollected(purchases, lots, order)
  {
    lots, order := map[], [];
    assert purchases[..0] == [];
    for i := 0 to |purchases|
      invariant PurchasesCollected(purchases[..i], lots, order)
    {
      PrefixStep(purchases, i);
      lots, order := CollectPurchase(purchases[..i], purchases[i], lots, order);
    }
    assert purchases[..|purchases|] == purchases;
  }

  lemma NoRecordsYet(ps: seq<PurchaseRecord>, lots: map<string, Lot>, order: seq<string>)
    requires PurchasesCollected(ps, lots, order)
    ensures RecordsCollected(ps, [], lots, order)
  {
    assert LotNames(ps, []) == MapSeq(ps, PLot);
    forall k | k in lots ensures lots[k] == Collected(ps, [], k) {
      assert Select([], RLot, k) == [];
    }
  }

  method CollectRecords(ghost purchases: seq<PurchaseRecord>, records: seq<ProductionRecord>,
                        lots0: map<string, Lot>, order0: seq<string>)
    returns (lots: map<string, Lot>, order: seq<string>)
    requires PurchasesCollected(purchases, lots0, order0)
    ensures RecordsCollected(purchases, records, lots, order)
  {
    lots, order := lots0, order0;
    assert records[..0] == [];
    NoRecordsYet(purchases, lots, order);
    for j := 0 to |records|
      invariant RecordsCollected(purchases, records[..j], lots, order)
    {
      PrefixStep(records, j);
      lots, order := CollectRecord(purchases, records[..j], records[j], lots, order);
    }
    assert records[..|records|] == records;
  }

  /** After the first `i` lots of `order` have their average written. */
  ghost predicate AveragesWritten(ps: seq<PurchaseRecord>, rs: seq<ProductionRecord>, lots: map<string, Lot>,
                                  order: seq<string>, i: int)
  {
    0 <= i <= |order| &&
    order == FirstOccurrences(LotNames(ps, rs)) &&
    (forall k :: k in lots <==> k in order) &&
    (forall j :: 0 <= j < i ==> lots[order[j]] == LotEntry(ps, rs, order[j])) &&
    (forall j :: i <= j < |order| ==> lots[order[j]] == Collected(ps, rs, order[j]))
  }

  /** The third loop's callback: the mean infestation of lot `order[i]`, when it has production. */
  method WriteAverage(ghost ps: seq<PurchaseRecord>, ghost rs: seq<ProductionRecord>, lots0: map<string, Lot>,
                      order: seq<string>, i: int)
    returns (lots: map<string, Lot>)
    requires i < |order|
    requires AveragesWritten(ps, rs, lots0, order, i)
    ensures AveragesWritten(ps, rs, lots, order, i + 1)
  {
    lots := lots0;
    var num := order[i];
    var lot := lots[num];
    if |lot.production| > 0 {
      var sumInf := Sum(lot.production, RInfestation);
      lot := lot.(totals := lot.totals.(infestationProdAvg := sumInf / |lot.production| as real));
      lots := lots[num := lot];
    }
    AverageStep(ps, rs, lots0, order, i, lot, lots);
  }

  lemma AverageStep(ps: seq<PurchaseRecord>, rs: seq<ProductionRecord>, s1: map<string, Lot>,
                    order: seq<string>, i: int, l: Lot, s2: map<string, Lot>)
    requires i < |order|
    requires AveragesWritten(ps, rs, s1, order, i)
    requires l == WithAverage(s1[order[i]])
    requires s2 == s1[order[i] := l]
    ensures AveragesWritten(ps, rs, s2, order, i + 1)
  {
    var num := order[i];
    assert l == LotEntry(ps, rs, num);
    forall j | 0 <= j < i ensures s2[order[j]] == LotEntry(ps, rs, order[j]) {
      DistinctAt(order, j, i);
    }
    forall j | i + 1 <= j < |order| ensures s2[order[j]] == Collected(ps, rs, order[j]) {
      DistinctAt(order, j, i);
    }
  }

  method WriteAverages(ghost ps: seq<PurchaseRecord>, ghost rs: seq<ProductionRecord>,
                       lots0: map<string, Lot>, order: seq<string>)
    returns (lots: map<string, Lot>)
    requires RecordsCollected(ps, rs, lots0, order)
    ensures AveragesWritten(ps, rs, lots, order, |order|)
  {
    lots := lots0;
    assert forall j :: 0 <= j < |order| ==> order[j] in lots;
    for i := 0 to |order|
      invariant AveragesWritten(ps, rs, lots, order, i)
    {
      lots := WriteAverage(ps, rs, lots, order, i);
    }
  }

  /** `Object.values(lots)`: the lots in key order. */
  method ListLots(ghost ps: seq<PurchaseRecord>, ghost rs: seq<ProductionRecord>, lots: map<string, Lot>, order: seq<string>)
    returns (values: seq<Lot>)
    requires AveragesWritten(ps, rs, lots, order, |order|)
    ensures values == MapSeq(FirstOccurrences(LotNames(ps, rs)), LotEntryOf(ps, rs))
  {
    assert order[..|order|] == order;
    assert forall j :: 0 <= j < |order| ==> order[j] in lots;
    values := [];
    for k := 0 to |order|
      invariant values == MapSeq(order[..k], LotEntryOf(ps, rs))
    {
      var lot := lots[order[k]];
      PrefixStep(order, k);
      MapSeqSnoc(order[..k], order[k], LotEntryOf(ps, rs));
      assert lot == LotEntryOf(ps, rs)(order[k]);
      values := values + [lot];
    }
  }

  /** `lotData`: collect, average, list and sort. */
  method LotData(records: seq<ProductionRecord>, purchases: seq<PurchaseRecord>) returns (result: seq<Lot>)
    ensures result == LotDataSpec(purchases, records)
  {
    var lots0, order0 := CollectPurchases(purchases);
    var lots1, order := CollectRecords(purchases, records, lots0, order0);
    var lots := WriteAverages(purchases, records, lots1, order);
    var values := ListLots(purchases, records, lots, order);
    result := SortBy(values, ByLotDesc);
  }

  // ----- what `lotData` promises -----

  lemma {:induction false} LastPurchaseIsLast(ps: seq<PurchaseRecord>, lot: string)
    ensures LastPurchase(ps, lot).None? <==> forall p :: p in ps ==> p.lotNumber != lot
    ensures LastPurchase(ps, lot).Some? ==>
      exists i :: 0 <= i < |ps| && ps[i] == LastPurchase(ps, lot).value && ps[i].lotNumber == lot &&
        forall j :: i < j < |ps| ==> ps[j].lotNumber != lot
    decreases |ps|
  {
    if |ps| > 0 {
      var ps' := ps[..|ps| - 1];
      var p := ps[|ps| - 1];
      assert ps == ps' + [p];
      LastPurchaseIsLast(ps', lot);
      if p.lotNumber == lot {
        assert ps[|ps| - 1] == p;
      } else if LastPurchase(ps', lot).Some? {
        var i :| 0 <= i < |ps'| && ps'[i] == LastPurchase(ps', lot).value && ps'[i].lotNumber == lot &&
          forall j :: i < j < |ps'| ==> ps'[j].lotNumber != lot;
        assert ps[i] == ps'[i];
      }
    }
  }

  lemma LotEntryMember(ps: seq<PurchaseRecord>, rs: seq<ProductionRecord>, l: Lot)
    requires l in LotDataSpec(ps, rs)
    ensures l == LotEntry(ps, rs, l.lotNumber)
  {
    var order := FirstOccurrences(LotNames(ps, rs));
    var lines := MapSeq(order, LotEntryOf(ps, rs));
    assert l in multiset(lines);
    var i :| 0 <= i < |lines| && lines[i] == l;
    assert l == LotEntry(ps, rs, order[i]);
  }

  /** The join is outer: every lot number bought or produced has exactly one line, and no other does. */
  lemma LotDataLots(ps: seq<PurchaseRecord>, rs: seq<ProductionRecord>, lot: string)
    ensures |Select(LotDataSpec(ps, rs), LotNumberOf, lot)| ==
      if (exists p :: p in ps && p.lotNumber == lot) || (exists r :: r in rs && r.lotNumber == lot) then 1 else 0
  {
    var order := FirstOccurrences(LotNames(ps, rs));
    SelectPermutation(LotDataSpec(ps, rs), MapSeq(order, LotEntryOf(ps, rs)), LotNumberOf, lot);
    SelectOfEntries(order, LotEntryOf(ps, rs), LotNumberOf, lot);
    LotNamed(ps, rs, lot);
  }

  /** A lot number is listed exactly when some purchase or some production record carries it. */
  lemma LotNamed(ps: seq<PurchaseRecord>, rs: seq<ProductionRecord>, lot: string)
    ensures lot in FirstOccurrences(LotNames(ps, rs)) <==>
      (exists p :: p in ps && p.lotNumber == lot) || (exists r :: r in rs && r.lotNumber == lot)
  {
    MapSeqMember(ps, PLot);
    MapSeqMember(rs, RLot);
  }

  /**
    * A line's production is its lot's records in input order, its weights are
    * their sums, and its production infestation is their mean (0 without
    * production); its purchased weight is the sum over its purchases.
    */
  lemma LotDataTotals(ps: seq<PurchaseRecord>, rs: seq<ProductionRecord>, l: Lot)
    requires l in LotDataSpec(ps, rs)
    ensures l.production == Select(rs, RLot, l.lotNumber)
    ensures l.totals.producedKg == Sum(l.production, RWeight)
    ensures l.totals.wasteKg == Sum(l.production, RWaste)
    ensures l.totals.purchasedKg == Sum(Select(ps, PLot, l.lotNumber), PQty)
    ensures l.totals.infestationProdAvg ==
      if |l.production| > 0 then Sum(l.production, RInfestation) / |l.production| as real else 0.0
  {
    LotEntryMember(ps, rs, l);
  }

  /**
    * A line's purchase is the last purchase of its lot in input order and its
    * purchase infestation is that purchase's; a lot never bought has no
    * purchase, 0 kg bought and 0 purchase infestation, and is listed all the same.
    */
  lemma LotDataPurchase(ps: seq<PurchaseRecord>, rs: seq<ProductionRecord>, l: Lot)
    requires l in LotDataSpec(ps, rs)
    ensures l.purchase.None? <==> forall p :: p in ps ==> p.lotNumber != l.lotNumber
    ensures l.purchase.None? ==> l.totals.purchasedKg == 0.0 && l.totals.infestationPurchase == 0.0
    ensures l.purchase.Some? ==>
      l.totals.infestationPurchase == l.purchase.value.infestationRate &&
      exists i :: 0 <= i < |ps| && ps[i] == l.purchase.value && ps[i].lotNumber == l.lotNumber &&
        forall j :: i < j < |ps| ==> ps[j].lotNumber != l.lotNumber
  {
    LotEntryMember(ps, rs, l);
    LastPurchaseIsLast(ps, l.lotNumber);
    if l.purchase.None? {
      SelectAbsent(ps, PLot, l.lotNumber, PQty);
    }
  }

  lemma ByLotDescTotalPreorder()
    ensures TotalPreorder(ByLotDesc)
  {
    forall a: Lot, b: Lot ensures ByLotDesc(a, b) || ByLotDesc(b, a) {
      LexLessAsymmetric(a.lotNumber, b.lotNumber);
    }
    forall a: Lot, b: Lot, c: Lot | ByLotDesc(a, b) && ByLotDesc(b, c) ensures ByLotDesc(a, c) {
      LexLessTotal(a.lotNumber, b.lotNumber);
      LexLessTotal(b.lotNumber, c.lotNumber);
      if LexLess(a.lotNumber, c.lotNumber) {
        if LexLess(b.lotNumber, a.lotNumber) {
          LexLessTransitive(b.lotNumber, a.lotNumber, c.lotNumber);
        }
      }
    }
  }

  /** The lines come by descending lot number. */
  lemma LotDataSorted(ps: seq<PurchaseRecord>, rs: seq<ProductionRecord>)
    ensures var r := LotDataSpec(ps, rs);
      forall i, j :: 0 <= i < j < |r| ==>
        r[i].lotNumber == r[j].lotNumber || LexLess(r[j].lotNumber, r[i].lotNumber)
  {
    var r := LotDataSpec(ps, rs);
    ByLotDescTotalPreorder();
    SortBySorted(MapSeq(FirstOccurrences(LotNames(ps, rs)), LotEntryOf(ps, rs)), ByLotDesc);
    forall i, j | 0 <= i < j < |r| ensures r[i].lotNumber == r[j].lotNumber || LexLess(r[j].lotNumber, r[i].lotNumber) {
      LexLessTotal(r[i].lotNumber, r[j].lotNumber);
    }
  }

  // ----- what each card shows -----

  /**
    * The card's overall yield: produced weight as a percentage of the
    * purchased weight, 0 when nothing was bought.
    */
  function YieldPercent(t: LotTotals): (r: real)
    ensures t.purchasedKg > 0.0 ==> r * t.purchasedKg == t.producedKg * 100.0
    ensures t.purchasedKg <= 0.0 ==> r == 0.0
  {
    if t.purchasedKg > 0.0 then (t.producedKg / t.purchasedKg) * 100.0 else 0.0
  }

  /** Producing no more than was bought, and not less than nothing, yields between 0 and 100 %. */
  lemma YieldPercentBounded(t: LotTotals)
    requires 0.0 <= t.producedKg <= t.purchasedKg
    ensures 0.0 <= YieldPercent(t) <= 100.0
  {
    if t.purchasedKg > 0.0 {
      assert t.producedKg / t.purchasedKg <= 1.0;
    }
  }

  /** A lot that was never bought shows no yield. */
  lemma UnboughtLotNoYield(ps: seq<PurchaseRecord>, rs: seq<ProductionRecord>, l: Lot)
    requires l in LotDataSpec(ps, rs)
    requires forall p :: p in ps ==> p.lotNumber != l.lotNumber
    ensures YieldPercent(l.totals) == 0.0
  {
    LotDataPurchase(ps, rs, l);
  }

  /**
    * The infestation drift between purchase and production; the card marks
    * it with '+' in red exactly when it is positive.
    */
  function InfestationDrift(t: LotTotals): (r: real)
    ensures r > 0.0 <==> t.infestationProdAvg > t.infestationPurchase
    ensures t.infestationPurchase + r == t.infestationProdAvg
  {
    t.infestationProdAvg - t.infestationPurchase
  }
}
