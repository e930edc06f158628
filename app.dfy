/// The top-level application component (App.tsx): today's totals, the
/// production log with its add and delete actions, the quick production form
/// and the small list editor of its admin tab.
module App {
  import opened Options
  import opened Seqs
  import opened Types
  import Metrics

  // ----- today's totals -----

  /** The header figures: today's weight, today's head count and the number of today's records. */
  datatype DayTotals = DayTotals(totalKg: real, totalEmployees: real, count: nat)

  /**
    * `metrics`: sums over the records dated `today` (the date string of the
    * clock, a parameter), and how many they are.
    */
  function DayTotalsOf(records: seq<ProductionRecord>, today: string): (t: DayTotals)
    ensures t.count <= |records|
    ensures (forall r :: r in records ==> r.date != today) ==> t == DayTotals(0.0, 0.0, 0)
  {
    var todayRecs := Metrics.RecordsOn(records, today);
    DayTotals(Sum(todayRecs, Metrics.Weight), Sum(todayRecs, Metrics.Employees), |todayRecs|)
  }

  /**
    * A record added at the head of the log counts in today's totals exactly
    * when it is dated today; the other records count as before.
    */
  lemma DayTotalsOfAdded(n: ProductionRecord, records: seq<ProductionRecord>, today: string)
    ensures var before, after := DayTotalsOf(records, today), DayTotalsOf([n] + records, today);
      if n.date == today then
        after == DayTotals(before.totalKg + n.totalWeightKg, before.totalEmployees + n.employeeCount, before.count + 1)
      else after == before
  {
    var earlier := Select(records, Metrics.DateOf, today);
    SelectPrepend(n, records, Metrics.DateOf, today);
    if n.date == today {
      SumAppend([n], earlier, Metrics.Weight);
      SumAppend([n], earlier, Metrics.Employees);
      assert [n][..0] == [];
    } else {
      assert Select([n] + records, Metrics.DateOf, today) == earlier;
    }
  }

  // ----- the production log -----

  /** The bottom navigation of this component. */
  datatype AppTab = Dash | Form | HistoryTab | Admin

  /** The quick production form's data (`form`): no packaging and no unit count. */
  datatype QuickDraft = QuickDraft(
    date: string,
    lotNumber: string,
    clientName: string,
    productName: string,
    employeeCount: real,
    totalWeightKg: real,
    wasteKg: real,
    infestationRate: real)

  /** `{ ...data, id, timestamp }`: the fields the form has, plus the generated id and the clock. */
  function NewRecord(d: QuickDraft, id: string, timestamp: int): ProductionRecord {
    ProductionRecord(id, d.date, d.lotNumber, d.clientName, d.productName, d.employeeCount, d.totalWeightKg,
                     d.wasteKg, d.infestationRate, timestamp, None, 0.0)
  }

  /** `r => r.id !== id` */
  function IdIsNot(id: string): ProductionRecord -> bool {
    (r: ProductionRecord) => r.id != id
  }

  /** Deleting by the id just given to a new record gives back the log as it was, when that id was new. */
  lemma DeleteUndoesAdd(d: QuickDraft, id: string, timestamp: int, records: seq<ProductionRecord>)
    requires forall r :: r in records ==> r.id != id
    ensures Keep([NewRecord(d, id, timestamp)] + records, IdIsNot(id)) == records
  {
    KeepAppend([NewRecord(d, id, timestamp)], records, IdIsNot(id));
    KeepSnoc([], NewRecord(d, id, timestamp), IdIsNot(id));
    assert [] + [NewRecord(d, id, timestamp)] == [NewRecord(d, id, timestamp)];
    KeepAll(records, IdIsNot(id));
  }

  /** The records state of the component and the tab it shows. */
  class ProductionLog {
    var records: seq<ProductionRecord>
    var activeTab: AppTab

    /** The log as loaded, on the dashboard. */
    constructor (records: seq<ProductionRecord>)
      ensures this.records == records && activeTab == Dash
    {
      this.records := records;
      activeTab := Dash;
    }

    /**
      * `addRecord`: the new record goes first, the earlier ones follow
      * unchanged, and the dashboard is shown.
      */
    method AddRecord(d: QuickDraft, id: string, timestamp: int)
      modifies this
      ensures records == [NewRecord(d, id, timestamp)] + old(records)
      ensures records[0] == NewRecord(d, id, timestamp) && records[1..] == old(records)
      ensures activeTab == Dash
    {
      records := [NewRecord(d, id, timestamp)] + records;
      activeTab := Dash;
    }

    /**
      * `deleteRecord`: once confirmed, the records with that id go and the
      * others stay in order; without confirmation nothing changes.
      */
    method DeleteRecord(id: string, confirmed: bool)
      modifies this
      ensures confirmed ==> records == Keep(old(records), IdIsNot(id))
      ensures confirmed ==> forall r :: r in records <==> r in old(records) && r.id != id
      ensures !confirmed ==> records == old(records)
      ensures activeTab == old(activeTab)
    {
      if confirmed {
        records := Keep(records, IdIsNot(id));
      }
    }

    /**
      * The quick form's submit (`h`) followed by `addRecord`: a form without
      * a lot number is refused and nothing changes.
      */
    method SubmitQuickForm(d: QuickDraft, id: string, timestamp: int) returns (accepted: bool)
      modifies this
      ensures accepted <==> d.lotNumber != []
      ensures accepted ==> records == [NewRecord(d, id, timestamp)] + old(records) && activeTab == Dash
      ensures !accepted ==> records == old(records) && activeTab == old(activeTab)
    {
      match QuickSubmit(d)
      case None =>
        accepted := false;
      case Some(data) =>
        AddRecord(data, id, timestamp);
        accepted := true;
    }
  }

  // ----- the quick production form -----

  /** The quick form as it opens: today's date, no lot, the first client and product, zeros. */
  function NewQuickDraft(master: MasterData, today: string): QuickDraft {
    QuickDraft(today, "", FirstOr(master.clients), FirstOr(master.products), 0.0, 0.0, 0.0, 0.0)
  }

  /** `h`: the form is handed on unchanged, unless the lot number is empty. */
  function QuickSubmit(form: QuickDraft): (r: Option<QuickDraft>)
    ensures r.None? <==> form.lotNumber == []
    ensures r.Some? ==> r.value == form
  {
    if form.lotNumber == [] then None else Some(form)
  }

  /** A quick form submitted as it opens is always refused: its lot is empty. */
  lemma FreshQuickFormRefused(master: MasterData, today: string)
    ensures QuickSubmit(NewQuickDraft(master, today)) == None
  {
  }

  // ----- the admin tab -----

  /** `addP` and `addC`: a non-empty entry is appended, whatever the list already holds. */
  function AppendIfNonEmpty(list: seq<string>, v: string): (r: seq<string>)
    ensures v == [] ==> r == list
    ensures v != [] ==> r == list + [v] && r[|list|] == v && r[..|list|] == list
  {
    if v != [] then list + [v] else list
  }

  /** `addP`: the product list grows, every other list is untouched. */
  function AddProduct(master: MasterData, newP: string): (r: MasterData)
    ensures r.(products := master.products) == master
    ensures newP != [] ==> r.products == master.products + [newP]
    ensures newP == [] ==> r == master
  {
    master.(products := AppendIfNonEmpty(master.products, newP))
  }

  /** `addC`: the client list grows, every other list is untouched. */
  function AddClient(master: MasterData, newC: string): (r: MasterData)
    ensures r.(clients := master.clients) == master
    ensures newC != [] ==> r.clients == master.clients + [newC]
    ensures newC == [] ==> r == master
  {
    master.(clients := AppendIfNonEmpty(master.clients, newC))
  }

  /**
    * Unlike the administration screen, this editor does not check for
    * duplicates: adding a product or client already listed lists it twice.
    */
  lemma AdminAddsDuplicates(master: MasterData, v: string)
    requires v != []
    ensures v in master.products ==> !Distinct(AddProduct(master, v).products)
    ensures v in master.clients ==> !Distinct(AddClient(master, v).clients)
  {
    if v in master.products {
      var i :| 0 <= i < |master.products| && master.products[i] == v;
      var r := AddProduct(master, v).products;
      assert r[i] == r[|master.products|];
    }
    if v in master.clients {
      var i :| 0 <= i < |master.clients| && master.clients[i] == v;
      var r := AddClient(master, v).clients;
      assert r[i] == r[|master.clients|];
    }
  }
}
