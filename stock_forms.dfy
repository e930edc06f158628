/// The stock screen's state (components/StockModule.tsx): the stock-in form
/// and the sub-tab / edit-mode state that routes its submits.
module StockForms {
  import opened Options
  import opened Strings
  import opened Types
  import opened EditFlow

  // ----- the stock-in form -----

  /** The stock-in form loaded from the purchase being edited (`variety || ''`). */
  function LoadStockInDraft(r: PurchaseRecord): PurchaseDraft {
    PurchaseDraft(r.date, r.lotNumber, r.supplierName, r.itemName, r.variety.GetOr(""), r.category,
                  r.quantity, r.unit, r.unitPrice, r.totalAmount, r.infestationRate)
  }

  class StockInForm {
    var formData: PurchaseDraft
    const initialData: Option<PurchaseRecord>

    constructor (master: MasterData, today: string, initialData: Option<PurchaseRecord>)
      ensures this.initialData == initialData
      ensures formData == match initialData
        case Some(r) => LoadStockInDraft(r)
        case None => NewPurchaseDraft(master, today)
    {
      this.initialData := initialData;
      formData := match initialData
        case Some(r) => LoadStockInDraft(r)
        case None => NewPurchaseDraft(master, today);
    }

    /** The lot field stores what is typed, upper-cased. */
    method SetLotNumber(input: string)
      modifies this
      ensures formData == old(formData).(lotNumber := Upper(input))
    {
      formData := formData.(lotNumber := Upper(input));
    }

    /** A quantity edit recomputes the total from the current unit price. */
    method SetQuantity(q: real)
      modifies this
      ensures formData == old(formData).(quantity := q, totalAmount := formData.totalAmount)
      ensures formData.totalAmount == formData.quantity * formData.unitPrice
    {
      formData := formData.(quantity := q, totalAmount := q * formData.unitPrice);
    }

    /** A price edit recomputes the total from the current quantity. */
    method SetUnitPrice(p: real)
      modifies this
      ensures formData == old(formData).(unitPrice := p, totalAmount := formData.totalAmount)
      ensures formData.totalAmount == formData.quantity * formData.unitPrice
    {
      formData := formData.(unitPrice := p, totalAmount := p * formData.quantity);
    }

    /**
      * `handleSubmit`: without a lot number nothing is sent and nothing
      * changes. Otherwise the form data is sent as it stands and, for a new
      * entry only, lot, quantity, price and total are cleared while date,
      * supplier, item, variety, category, unit and infestation stay.
      */
    method Submit() returns (sent: Option<PurchaseDraft>)
      modifies this
      ensures old(formData).lotNumber == "" ==> sent == None && formData == old(formData)
      ensures old(formData).lotNumber != "" ==> sent == Some(old(formData))
      ensures old(formData).lotNumber != "" && initialData.None? ==>
        formData == old(formData).(lotNumber := "", quantity := 0.0, unitPrice := 0.0, totalAmount := 0.0)
      ensures initialData.Some? ==> formData == old(formData)
    {
      if formData.lotNumber == "" {
        return None;
      }
      sent := Some(formData);
      if initialData.None? {
        formData := formData.(lotNumber := "", quantity := 0.0, unitPrice := 0.0, totalAmount := 0.0);
      }
    }
  }

  // ----- sub-tabs and edit mode -----

  datatype StockTab = Realtime | In | Out | JournalTab

  class StockView {
    var subTab: StockTab
    var editingPurchase: Option<PurchaseRecord>
    var editingStockOut: Option<StockOutRecord>

    constructor ()
      ensures subTab == Realtime && editingPurchase == None && editingStockOut == None
    {
      subTab := Realtime;
      editingPurchase := None;
      editingStockOut := None;
    }

    /** A sub-tab button: each edit survives only on its own form's tab. */
    method SelectSubTab(t: StockTab)
      modifies this
      ensures subTab == t
      ensures editingPurchase == if t == In then old(editingPurchase) else None
      ensures editingStockOut == if t == Out then old(editingStockOut) else None
    {
      subTab := t;
      if t != In {
        editingPurchase := None;
      }
      if t != Out {
        editingStockOut := None;
      }
    }

    method StartEditPurchase(p: PurchaseRecord)
      modifies this
      ensures editingPurchase == Some(p) && subTab == In && editingStockOut == old(editingStockOut)
    {
      editingPurchase := Some(p);
      subTab := In;
    }

    method StartEditStockOut(s: StockOutRecord)
      modifies this
      ensures editingStockOut == Some(s) && subTab == Out && editingPurchase == old(editingPurchase)
    {
      editingStockOut := Some(s);
      subTab := Out;
    }

    /**
      * The stock-in form's `onSubmit`: an update of the edited purchase's id
      * (then edit mode ends and the journal is shown), or an addition.
      */
    method SubmitPurchase(d: PurchaseDraft) returns (s: Submission<PurchaseDraft>)
      modifies this
      ensures old(editingPurchase).Some? ==>
        s == Update(old(editingPurchase).value.id, d) && editingPurchase == None && subTab == JournalTab
      ensures old(editingPurchase).None? ==> s == Add(d) && subTab == old(subTab)
      ensures editingPurchase == None && editingStockOut == old(editingStockOut)
    {
      match editingPurchase
      case Some(p) =>
        s := Update(p.id, d);
        editingPurchase := None;
        subTab := JournalTab;
      case None =>
        s := Add(d);
    }

    /** The stock-out form's `onSubmit`, the same flow for stock-outs. */
    method SubmitStockOut<D>(d: D) returns (s: Submission<D>)
      modifies this
      ensures old(editingStockOut).Some? ==>
        s == Update(old(editingStockOut).value.id, d) && editingStockOut == None && subTab == JournalTab
      ensures old(editingStockOut).None? ==> s == Add(d) && subTab == old(subTab)
      ensures editingStockOut == None && editingPurchase == old(editingPurchase)
    {
      match editingStockOut
      case Some(r) =>
        s := Update(r.id, d);
        editingStockOut := None;
        subTab := JournalTab;
      case None =>
        s := Add(d);
    }
  }
}
