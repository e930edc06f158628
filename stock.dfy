/// The stock screen's reconciliation (components/StockModule.tsx,
/// `stockSummary`): purchases and stock-outs tallied per item name into
/// quantities in, quantities out and the stock that remains.
module StockModule {
  import opened Options
  import opened Seqs
  import opened Sorting
  import opened Types

  // ----- stock reconciliation -----

  function PItem(p: PurchaseRecord): string { p.itemName }
  function PQty(p: PurchaseRecord): real { p.quantity }
  function SItem(s: StockOutRecord): string { s.itemName }
  function SQty(s: StockOutRecord): real { s.quantity }
  function StatusItem(e: StockStatus): string { e.itemName }

  /** Kilograms of `item` bought: the quantities of its purchases added up. */
  function TotalIn(ps: seq<PurchaseRecord>, item: string): real {
    SumWhere(ps, PItem, item, PQty)
  }

  /** Kilograms of `item` taken out of stock. */
  function TotalOut(so: seq<StockOutRecord>, item: string): real {
    SumWhere(so, SItem, item, SQty)
  }

  /** The line of the summary for `item`; the stock may be negative. */
  function StockEntry(ps: seq<PurchaseRecord>, so: seq<StockOutRecord>, item: string): StockStatus {
    StockStatus(item, TotalIn(ps, item), TotalOut(so, item), TotalIn(ps, item) - TotalOut(so, item))
  }

  function EntryOf(ps: seq<PurchaseRecord>, so: seq<StockOutRecord>): string -> StockStatus {
    item => StockEntry(ps, so, item)
  }

  /** Item names in the order the two `forEach` loops meet them. */
  function ItemNames(ps: seq<PurchaseRecord>, so: seq<StockOutRecord>): seq<string> {
    MapSeq(ps, PItem) + MapSeq(so, SItem)
  }

  /** The comparator `b.currentStock - a.currentStock`: larger stock first. */
  predicate ByStockDesc(a: StockStatus, b: StockStatus) {
    a.currentStock >= b.currentStock
  }

  /** One line per item, in first-seen order, then sorted by stock (stable). */
  function StockSummarySpec(ps: seq<PurchaseRecord>, so: seq<StockOutRecord>): seq<StockStatus> {
    SortBy(MapSeq(FirstOccurrences(ItemNames(ps, so)), EntryOf(ps, so)), ByStockDesc)
  }

  datatype Tally = Tally(inQty: real, outQty: real)

  /** The tallies after the purchases `done`: one per item met so far, in first-seen order. */
  ghost predicate PurchasesTallied(done: seq<PurchaseRecord>, status: map<string, Tally>, order: seq<string>) {
    order == FirstOccurrences(MapSeq(done, PItem)) &&
    (forall k :: k in status <==> k in order) &&
    (forall k :: k in status ==> status[k] == Tally(TotalIn(done, k), 0.0))
  }

  /**
    * The tallies after the purchases `done` and the stock-outs `outs`: one per
    * item met so far, in first-seen order, holding its quantities in and out.
    */
  ghost predicate Tallied(done: seq<PurchaseRecord>, outs: seq<StockOutRecord>, status: map<string, Tally>, order: seq<string>) {
    order == FirstOccurrences(ItemNames(done, outs)) &&
    (forall k :: k in status <==> k in order) &&
    (forall k :: k in status ==> status[k] == Tally(TotalIn(done, k), TotalOut(outs, k)))
  }

  lemma AddPurchaseStep(done: seq<PurchaseRecord>, p: PurchaseRecord, s1: map<string, Tally>, s2: map<string, Tally>)
    requires p.itemName in s1
    requires forall k :: k in s1 ==> s1[k] == Tally(TotalIn(done, k), 0.0)
    requires s2 == s1[p.itemName := Tally(s1[p.itemName].inQty + p.quantity, s1[p.itemName].outQty)]
    ensures forall k :: k in s2 ==> s2[k] == Tally(TotalIn(done + [p], k), 0.0)
  {
    forall k | k in s2 ensures s2[k] == Tally(TotalIn(done + [p], k), 0.0) {
      SumWhereSnoc(done, p, PItem, k, PQty);
    }
  }

  lemma AddStockOutStep(ps: seq<PurchaseRecord>, done: seq<StockOutRecord>, s: StockOutRecord, s1: map<string, Tally>, s2: map<string, Tally>)
    requires s.itemName in s1
    requires forall k :: k in s1 ==> s1[k] == Tally(TotalIn(ps, k), TotalOut(done, k))
    requires s2 == s1[s.itemName := Tally(s1[s.itemName].inQty, s1[s.itemName].outQty + s.quantity)]
    ensures forall k :: k in s2 ==> s2[k] == Tally(TotalIn(ps, k), TotalOut(done + [s], k))
  {
    forall k | k in s2 ensures s2[k] == Tally(TotalIn(ps, k), TotalOut(done + [s], k)) {
      SumWhereSnoc(done, s, SItem, k, SQty);
    }
  }

  lemma PurchaseOrderStep(done: seq<PurchaseRecord>, p: PurchaseRecord)
    ensures FirstOccurrences(MapSeq(done + [p], PItem)) ==
      if p.itemName in FirstOccurrences(MapSeq(done, PItem)) then FirstOccurrences(MapSeq(done, PItem))
      else FirstOccurrences(MapSeq(done, PItem)) + [p.itemName]
  {
    MapSeqSnoc(done, p, PItem);
    FirstOccurrencesSnoc(MapSeq(done, PItem), p.itemName);
  }

  /** Opening the tally of purchase `p`'s item, when it is new, keeps every tally right for `done`. */
  lemma OpenPurchaseTally(done: seq<PurchaseRecord>, p: PurchaseRecord, status0: map<string, Tally>, order0: seq<string>,
                          status: map<string, Tally>, order: seq<string>)
    requires PurchasesTallied(done, status0, order0)
    requires p.itemName in status0 ==> status == status0 && order == order0
    requires p.itemName !in status0 ==> status == status0[p.itemName := Tally(0.0, 0.0)] && order == order0 + [p.itemName]
    ensures order == FirstOccurrences(MapSeq(done + [p], PItem))
    ensures forall k :: k in status <==> k in order
    ensures forall k :: k in status ==> status[k] == Tally(TotalIn(done, k), 0.0)
  {
    PurchaseOrderStep(done, p);
    if p.itemName !in status0 {
      SumWhereAbsent(done, PItem, p.itemName, PQty);
      forall k | k in status ensures status[k] == Tally(TotalIn(done, k), 0.0) {
        if k != p.itemName {
          assert status[k] == status0[k];
        }
      }
    }
  }

  /** The first `forEach` callback: open the item's tally if needed, add to its `in`. */
  method AddPurchase(ghost done: seq<PurchaseRecord>, p: PurchaseRecord, status0: map<string, Tally>, order0: seq<string>)
    returns (status: map<string, Tally>, order: seq<string>)
    requires PurchasesTallied(done, status0, order0)
    ensures PurchasesTallied(done + [p], status, order)
  {
    status, order := status0, order0;
    if p.itemName !in status {
      status := status[p.itemName := Tally(0.0, 0.0)];
      order := order + [p.itemName];
    }
    OpenPurchaseTally(done, p, status0, order0, status, order);
    ghost var s1 := status;
    status := status[p.itemName := Tally(status[p.itemName].inQty + p.quantity, status[p.itemName].outQty)];
    AddPurchaseStep(done, p, s1, status);
  }

  /** The key order after one more stock-out: its item joins the end if it is new. */
  lemma StockOutOrderStep(ps: seq<PurchaseRecord>, done: seq<StockOutRecord>, s: StockOutRecord)
    ensures FirstOccurrences(ItemNames(ps, done + [s])) ==
      if s.itemName in FirstOccurrences(ItemNames(ps, done)) then FirstOccurrences(ItemNames(ps, done))
      else FirstOccurrences(ItemNames(ps, done)) + [s.itemName]
  {
    MapSeqSnoc(done, s, SItem);
    assert ItemNames(ps, done + [s]) == ItemNames(ps, done) + [s.itemName];
    FirstOccurrencesSnoc(ItemNames(ps, done), s.itemName);
  }

  /** An item not met yet has nothing bought and nothing taken out. */
  lemma NewItemEmpty(ps: seq<PurchaseRecord>, done: seq<StockOutRecord>, item: string)
    requires item !in FirstOccurrences(ItemNames(ps, done))
    ensures TotalIn(ps, item) == 0.0 && TotalOut(done, item) == 0.0
  {
    SumWhereAbsent(ps, PItem, item, PQty);
    SumWhereAbsent(done, SItem, item, SQty);
  }

  /** Opening the tally of stock-out `s`'s item, when it is new, keeps every tally right for `done`. */
  lemma OpenStockOutTally(ps: seq<PurchaseRecord>, done: seq<StockOutRecord>, s: StockOutRecord,
                          status0: map<string, Tally>, order0: seq<string>, status: map<string, Tally>, order: seq<string>)
    requires Tallied(ps, done, status0, order0)
    requires s.itemName in status0 ==> status == status0 && order == order0
    requires s.itemName !in status0 ==> status == status0[s.itemName := Tally(0.0, 0.0)] && order == order0 + [s.itemName]
    ensures order == FirstOccurrences(ItemNames(ps, done + [s]))
    ensures forall k :: k in status <==> k in order
    ensures forall k :: k in status ==> status[k] == Tally(TotalIn(ps, k), TotalOut(done, k))
  {
    StockOutOrderStep(ps, done, s);
    if s.itemName !in status0 {
      NewItemEmpty(ps, done, s.itemName);
      NewTallyKeepsOthers(ps, done, s.itemName, status0, status);
    }
  }

  /** A zero tally opened for an item with nothing in or out leaves every tally right. */
  lemma NewTallyKeepsOthers(ps: seq<PurchaseRecord>, done: seq<StockOutRecord>, item: string,
                            status0: map<string, Tally>, status: map<string, Tally>)
    requires forall k :: k in status0 ==> status0[k] == Tally(TotalIn(ps, k), TotalOut(done, k))
    requires TotalIn(ps, item) == 0.0 && TotalOut(done, item) == 0.0
    requires status == status0[item := Tally(0.0, 0.0)]
    ensures forall k :: k in status ==> status[k] == Tally(TotalIn(ps, k), TotalOut(done, k))
  {
  }

  /** The second `forEach` callback: open the item's tally if needed, add to its `out`. */
  method AddStockOut(ghost ps: seq<PurchaseRecord>, ghost done: seq<StockOutRecord>, s: StockOutRecord,
                     status0: map<string, Tally>, order0: seq<string>)
    returns (status: map<string, Tally>, order: seq<string>)
    requires Tallied(ps, done, status0, order0)
    ensures Tallied(ps, done + [s], status, order)
  {
    status, order := status0, order0;
    if s.itemName !in status {
      status := status[s.itemName := Tally(0.0, 0.0)];
      order := order + [s.itemName];
    }
    OpenStockOutTally(ps, done, s, status0, order0, status, order);
    ghost var s1 := status;
    status := status[s.itemName := Tally(status[s.itemName].inQty, status[s.itemName].outQty + s.quantity)];
    AddStockOutStep(ps, done, s, s1, status);
  }

  /** `Object.entries(status).map(...)`: one line per tally, in key order. */
  method ListTallies(ghost ps: seq<PurchaseRecord>, ghost so: seq<StockOutRecord>, status: map<string, Tally>, order: seq<string>)
    returns (entries: seq<StockStatus>)
    requires forall k :: k in order ==> k in status && status[k] == Tally(TotalIn(ps, k), TotalOut(so, k))
    ensures entries == MapSeq(order, EntryOf(ps, so))
  {
    entries := [];
    for k := 0 to |order|
      invariant entries == MapSeq(order[..k], EntryOf(ps, so))
    {
      var item := order[k];
      var t := status[item];
      PrefixStep(order, k);
      MapSeqSnoc(order[..k], item, EntryOf(ps, so));
      var e := StockStatus(item, t.inQty, t.outQty, t.inQty - t.outQty);
      assert e == EntryOf(ps, so)(item);
      entries := entries + [e];
    }
    assert order[..|order|] == order;
  }

  lemma NoStockOutsYet(ps: seq<PurchaseRecord>, status: map<string, Tally>, order: seq<string>)
    requires PurchasesTallied(ps, status, order)
    ensures Tallied(ps, [], status, order)
  {
    assert ItemNames(ps, []) == MapSeq(ps, PItem);
    forall k | k in status ensures TotalOut([], k) == 0.0 {
      assert Select([], SItem, k) == [];
    }
  }

  /** The first `forEach`: every purchase, in order. */
  method TallyPurchases(purchases: seq<PurchaseRecord>) returns (status: map<string, Tally>, order: seq<string>)
    ensures PurchasesTallied(purchases, status, order)
  {
    status, order := map[], [];
    assert purchases[..0] == [];
    for i := 0 to |purchases|
      invariant PurchasesTallied(purchases[..i], status, order)
    {
      PrefixStep(purchases, i);
      status, order := AddPurchase(purchases[..i], purchases[i], status, order);
    }
    assert purchases[..|purchases|] == purchases;
  }

  /** The second `forEach`: every stock-out, in order, on top of the purchase tallies. */
  method TallyStockOuts(ghost purchases: seq<PurchaseRecord>, stockOuts: seq<StockOutRecord>,
                        status0: map<string, Tally>, order0: seq<string>)
    returns (status: map<string, Tally>, order: seq<string>)
    requires PurchasesTallied(purchases, status0, order0)
    ensures Tallied(purchases, stockOuts, status, order)
  {
    status, order := status0, order0;
    assert stockOuts[..0] == [];
    NoStockOutsYet(purchases, status, order);
    for j := 0 to |stockOuts|
      invariant Tallied(purchases, stockOuts[..j], status, order)
    {
      PrefixStep(stockOuts, j);
      status, order := AddStockOut(purchases, stockOuts[..j], stockOuts[j], status, order);
    }
    assert stockOuts[..|stockOuts|] == stockOuts;
  }

  /** `stockSummary`: tally every item in and out, list the tallies in key order, sort them. */
  method StockSummary(purchases: seq<PurchaseRecord>, stockOuts: seq<StockOutRecord>) returns (summary: seq<StockStatus>)
    ensures summary == StockSummarySpec(purchases, stockOuts)
  {
    var status0, order0 := TallyPurchases(purchases);
    var status, order := TallyStockOuts(purchases, stockOuts, status0, order0);
    var entries := ListTallies(purchases, stockOuts, status, order);
    summary := SortBy(entries, ByStockDesc);
  }

  /**
    * Every item named by a purchase or a stock-out has exactly one line in
    * the summary, and no other item has one.
    */
  lemma StockSummaryItems(ps: seq<PurchaseRecord>, so: seq<StockOutRecord>, item: string)
    ensures |Select(StockSummarySpec(ps, so), StatusItem, item)| ==
      if (exists p :: p in ps && p.itemName == item) || (exists s :: s in so && s.itemName == item) then 1 else 0
  {
    var order := FirstOccurrences(ItemNames(ps, so));
    SelectPermutation(StockSummarySpec(ps, so), MapSeq(order, EntryOf(ps, so)), StatusItem, item);
    SelectOfEntries(order, EntryOf(ps, so), StatusItem, item);
    ItemNamed(ps, so, item);
  }

  /** An item is listed exactly when some purchase or some stock-out names it. */
  lemma ItemNamed(ps: seq<PurchaseRecord>, so: seq<StockOutRecord>, item: string)
    ensures item in FirstOccurrences(ItemNames(ps, so)) <==>
      (exists p :: p in ps && p.itemName == item) || (exists s :: s in so && s.itemName == item)
  {
    MapSeqMember(ps, PItem);
    MapSeqMember(so, SItem);
  }

  /**
    * Each line's `totalIn` and `totalOut` are the item's purchased and
    * removed quantities added up, and its stock is their difference, negative
    * or not.
    */
  lemma StockSummaryTotals(ps: seq<PurchaseRecord>, so: seq<StockOutRecord>, e: StockStatus)
    requires e in StockSummarySpec(ps, so)
    ensures e.totalIn == Sum(Select(ps, PItem, e.itemName), PQty)
    ensures e.totalOut == Sum(Select(so, SItem, e.itemName), SQty)
    ensures e.currentStock == e.totalIn - e.totalOut
  {
    var order := FirstOccurrences(ItemNames(ps, so));
    var lines := MapSeq(order, EntryOf(ps, so));
    assert e in multiset(lines);
    var i :| 0 <= i < |lines| && lines[i] == e;
    assert e == StockEntry(ps, so, order[i]);
  }

  /** The summary lists larger stocks first. */
  lemma StockSummarySorted(ps: seq<PurchaseRecord>, so: seq<StockOutRecord>)
    ensures var r := StockSummarySpec(ps, so);
      forall i, j :: 0 <= i < j < |r| ==> r[i].currentStock >= r[j].currentStock
  {
    SortBySorted(MapSeq(FirstOccurrences(ItemNames(ps, so)), EntryOf(ps, so)), ByStockDesc);
  }

  /** 200 kg of tomatoes bought and 250 kg taken out leave a stock of -50 kg. */
  lemma StockSummaryOverdrawn()
    ensures StockSummarySpec(
      [PurchaseRecord("p1", "2024-05-02", "L1", "Ferme A", "Tomate", None, "Matiere", 200.0, "Kg", 1.0, 200.0, 0.0, 1, None, None)],
      [StockOutRecord("s1", "2024-05-03", "L1", "Tomate", 250.0, "Production", 2, None, None)])
      == [StockStatus("Tomate", 200.0, 250.0, -50.0)]
  {
    var p := PurchaseRecord("p1", "2024-05-02", "L1", "Ferme A", "Tomate", None, "Matiere", 200.0, "Kg", 1.0, 200.0, 0.0, 1, None, None);
    var s := StockOutRecord("s1", "2024-05-03", "L1", "Tomate", 250.0, "Production", 2, None, None);
    var e := StockStatus("Tomate", 200.0, 250.0, -50.0);
    var noPs: seq<PurchaseRecord> := [];
    var noSo: seq<StockOutRecord> := [];
    var noItems: seq<string> := [];
    assert noPs + [p] == [p] && noSo + [s] == [s] && noItems + ["Tomate"] == ["Tomate"];
    SumWhereSnoc(noPs, p, PItem, "Tomate", PQty);
    SumWhereSnoc(noSo, s, SItem, "Tomate", SQty);
    MapSeqSnoc(noPs, p, PItem);
    MapSeqSnoc(noSo, s, SItem);
    assert ItemNames([p], [s]) == ["Tomate"] + ["Tomate"];
    FirstOccurrencesSnoc(noItems, "Tomate");
    FirstOccurrencesSnoc(["Tomate"], "Tomate");
    MapSeqSnoc(noItems, "Tomate", EntryOf([p], [s]));
    assert EntryOf([p], [s])("Tomate") == e;
    assert SortBy([e], ByStockDesc) == Insert(e, [], ByStockDesc);
  }

}
