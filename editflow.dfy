/// The edit-versus-add flow of the two prestation modules: a sub-tab, the
/// record being edited (if any), and what a form submit turns into.
module EditFlow {
  import opened Options

  datatype SubTab = Stats | Entry | Journal

  /** What a form submit asks the application to do with the form's data. */
  datatype Submission<D> = Add(data: D) | Update(id: string, data: D)

  class EditController<R> {
    var subTab: SubTab
    var editing: Option<R>

    constructor ()
      ensures subTab == Stats && editing == None
    {
      subTab := Stats;
      editing := None;
    }

    /** A sub-tab button: leaving the entry tab abandons the edit in progress. */
    method SelectSubTab(t: SubTab)
      modifies this
      ensures subTab == t
      ensures editing == if t == Entry then old(editing) else None
    {
      subTab := t;
      if t != Entry {
        editing := None;
      }
    }

    /** The journal's edit button opens the entry form on the record. */
    method StartEdit(r: R)
      modifies this
      ensures editing == Some(r) && subTab == Entry
    {
      editing := Some(r);
      subTab := Entry;
    }

    /**
      * The entry form's submit: while a record is edited it becomes an update
      * of that record's id, the edit ends and the journal is shown; otherwise
      * it becomes an addition and nothing else changes.
      */
    method Submit<D>(d: D, idOf: R -> string) returns (s: Submission<D>)
      modifies this
      ensures old(editing).Some? ==>
        s == Update(idOf(old(editing).value), d) && editing == None && subTab == Journal
      ensures old(editing).None? ==>
        s == Add(d) && editing == None && subTab == old(subTab)
    {
      match editing
      case Some(r) =>
        s := Update(idOf(r), d);
        editing := None;
        subTab := Journal;
      case None =>
        s := Add(d);
    }
  }
}
