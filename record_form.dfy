/// The production entry form (components/RecordForm.tsx): its data, loaded
/// from the record being edited when there is one, the upper-cased lot field,
/// and the submit that validates, hands the data on and clears the figures.
module RecordForm {
  import opened Options
  import opened Strings
  import opened Types

  /** The form's ten fields. */
  datatype RecordDraft = RecordDraft(
    date: string,
    lotNumber: string,
    clientName: string,
    productName: string,
    packaging: Option<string>,
    employeeCount: real,
    totalProduction: real,
    totalWeightKg: real,
    wasteKg: real,
    infestationRate: real)

  /** The form for a new entry on day `today`: no lot, the first client, product and packaging, zeros. */
  function NewRecordDraft(master: MasterData, today: string): RecordDraft {
    RecordDraft(today, "", FirstOr(master.clients), FirstOr(master.products), Some(FirstOr(master.packagings)),
                0.0, 0.0, 0.0, 0.0, 0.0)
  }

  /** The effect on `initialData`: the ten fields of the record being edited. */
  function LoadRecordDraft(r: ProductionRecord): (d: RecordDraft)
    ensures d.date == r.date && d.lotNumber == r.lotNumber && d.clientName == r.clientName
    ensures d.productName == r.productName && d.packaging == r.packaging && d.employeeCount == r.employeeCount
    ensures d.totalProduction == r.totalProduction && d.totalWeightKg == r.totalWeightKg
    ensures d.wasteKg == r.wasteKg && d.infestationRate == r.infestationRate
  {
    RecordDraft(r.date, r.lotNumber, r.clientName, r.productName, r.packaging, r.employeeCount,
                r.totalProduction, r.totalWeightKg, r.wasteKg, r.infestationRate)
  }

  /** A loaded form determines the record's ten fields: two records that load alike agree on all of them. */
  lemma LoadKeepsEveryField(a: ProductionRecord, b: ProductionRecord)
    requires LoadRecordDraft(a) == LoadRecordDraft(b)
    ensures a.(id := b.id, timestamp := b.timestamp) == b
  {
  }

  /** The first two fields the submit requires. */
  predicate Complete(d: RecordDraft) {
    d.clientName != [] && d.lotNumber != []
  }

  class Form {
    var formData: RecordDraft
    const initialData: Option<ProductionRecord>

    /** The form once mounted, after the effect that loads `initialData`. */
    constructor (master: MasterData, today: string, initialData: Option<ProductionRecord>)
      ensures this.initialData == initialData
      ensures formData == match initialData
        case Some(r) => LoadRecordDraft(r)
        case None => NewRecordDraft(master, today)
    {
      this.initialData := initialData;
      formData := match initialData
        case Some(r) => LoadRecordDraft(r)
        case None => NewRecordDraft(master, today);
    }

    /** The lot field stores what is typed, upper-cased: typing it again changes nothing. */
    method SetLotNumber(input: string)
      modifies this
      ensures formData == old(formData).(lotNumber := Upper(input))
      ensures Upper(formData.lotNumber) == formData.lotNumber
    {
      UpperIdempotent(input);
      formData := formData.(lotNumber := Upper(input));
    }

    /**
      * `handleSubmit`: without a client or a lot nothing is sent and nothing
      * changes. Otherwise the form data is sent as it stands; for a new entry
      * the unit count, weight, waste and infestation rate are then cleared,
      * while date, lot, client, product, packaging and head count stay; an
      * edit keeps the form. The cleared unit count, weight and waste are
      * drawn empty and are required fields, so the next entry needs them
      * typed again before the browser lets it through to this handler.
      */
    method Submit() returns (sent: Option<RecordDraft>)
      modifies this
      ensures sent.None? <==> !Complete(old(formData))
      ensures sent.None? ==> formData == old(formData)
      ensures sent.Some? ==> sent.value == old(formData)
      ensures sent.Some? && initialData.None? ==>
        formData == old(formData).(totalProduction := 0.0, totalWeightKg := 0.0, wasteKg := 0.0, infestationRate := 0.0)
      ensures sent.Some? && initialData.Some? ==> formData == old(formData)
      ensures sent.Some? ==> Complete(formData)
    {
      if !Complete(formData) {
        return None;
      }
      sent := Some(formData);
      if initialData.None? {
        formData := formData.(totalProduction := 0.0, totalWeightKg := 0.0, wasteKg := 0.0, infestationRate := 0.0);
      }
    }
  }

  /** A new form is never accepted as it opens: its lot is empty. */
  lemma NewFormIncomplete(master: MasterData, today: string)
    ensures !Complete(NewRecordDraft(master, today))
  {
  }
}
