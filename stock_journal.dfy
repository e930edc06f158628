/// The stock screen's journal (components/StockModule.tsx): purchases and
/// stock-outs listed newest first and narrowed by a case-insensitive search.
module StockJournal {
  import opened Seqs
  import opened Sorting
  import opened Strings
  import opened Types

  function PurchaseStamp(p: PurchaseRecord): int { p.timestamp }
  function StockOutStamp(s: StockOutRecord): int { s.timestamp }

  /** The lower-cased lot, item or supplier contains the lower-cased term. */
  predicate PurchaseMatches(p: PurchaseRecord, searchTerm: string) {
    var term := Lower(searchTerm);
    Contains(Lower(p.lotNumber), term) || Contains(Lower(p.itemName), term) || Contains(Lower(p.supplierName), term)
  }

  /** The lower-cased lot, item or reason contains the lower-cased term. */
  predicate StockOutMatches(s: StockOutRecord, searchTerm: string) {
    var term := Lower(searchTerm);
    Contains(Lower(s.lotNumber), term) || Contains(Lower(s.itemName), term) || Contains(Lower(s.reason), term)
  }

  function PurchaseMatcher(searchTerm: string): PurchaseRecord -> bool {
    p => PurchaseMatches(p, searchTerm)
  }

  function StockOutMatcher(searchTerm: string): StockOutRecord -> bool {
    s => StockOutMatches(s, searchTerm)
  }

  /**
    * `filteredPurchases`: newest first, then the search applied when there
    * is a term. Filtering keeps the order and drops purchases only; no term
    * drops none.
    */
  function FilteredPurchases(ps: seq<PurchaseRecord>, searchTerm: string): (r: seq<PurchaseRecord>)
    ensures forall i, j :: 0 <= i < j < |r| ==> r[i].timestamp >= r[j].timestamp
    ensures |r| <= |ps|
    ensures searchTerm == "" ==> multiset(r) == multiset(ps)
  {
    var sorted := SortNewestFirst(ps, PurchaseStamp);
    KeepSorted(sorted, PurchaseMatcher(searchTerm), NewestFirst(PurchaseStamp));
    if searchTerm == "" then sorted else Keep(sorted, PurchaseMatcher(searchTerm))
  }

  /** `filteredStockOuts`: the same over stock-outs. */
  function FilteredStockOuts(so: seq<StockOutRecord>, searchTerm: string): (r: seq<StockOutRecord>)
    ensures forall i, j :: 0 <= i < j < |r| ==> r[i].timestamp >= r[j].timestamp
    ensures |r| <= |so|
    ensures searchTerm == "" ==> multiset(r) == multiset(so)
  {
    var sorted := SortNewestFirst(so, StockOutStamp);
    KeepSorted(sorted, StockOutMatcher(searchTerm), NewestFirst(StockOutStamp));
    if searchTerm == "" then sorted else Keep(sorted, StockOutMatcher(searchTerm))
  }

  /**
    * The purchase journal holds exactly the purchases that match the term,
    * every purchase when there is none.
    */
  lemma FilteredPurchasesSpec(ps: seq<PurchaseRecord>, searchTerm: string)
    ensures forall p :: p in FilteredPurchases(ps, searchTerm) <==>
      p in ps && (searchTerm == "" || PurchaseMatches(p, searchTerm))
  {
    var sorted := SortNewestFirst(ps, PurchaseStamp);
    forall p ensures p in sorted <==> p in ps {
      assert p in sorted <==> p in multiset(sorted);
    }
  }

  /** The stock-out journal: the same over stock-outs, searching lot, item or reason. */
  lemma FilteredStockOutsSpec(so: seq<StockOutRecord>, searchTerm: string)
    ensures forall s :: s in FilteredStockOuts(so, searchTerm) <==>
      s in so && (searchTerm == "" || StockOutMatches(s, searchTerm))
  {
    var sorted := SortNewestFirst(so, StockOutStamp);
    forall s ensures s in sorted <==> s in so {
      assert s in sorted <==> s in multiset(sorted);
    }
  }

}
