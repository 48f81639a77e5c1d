/**
 * The instructor tab: it loads the instructors and creates, updates and
 * deletes them through an edit dialog and a delete confirmation. The form
 * itself is the payload.
 */
module DozentenTab {
  import opened Js
  import opened Records
  import opened Entities

  /** The edit dialog's fields, sent as they are to create or update an instructor. */
  datatype DozentForm = DozentForm(
    name: string,
    email: string,
    telefon: string,
    fachgebiet: string)

  const EmptyForm: DozentForm := DozentForm("", "", "", "")

  /** The form `openEditDialog` fills in from an instructor. */
  function EditForm(item: Dozenten): DozentForm {
    DozentForm(
      OrElse(item.fields.name, ""),
      OrElse(item.fields.email, ""),
      OrElse(item.fields.telefon, ""),
      OrElse(item.fields.fachgebiet, ""))
  }

  /** The component's state variables and its event handlers. */
  class ViewState {
    var dozenten: seq<Dozenten>
    var loading: bool
    var dialogOpen: bool
    var editingItem: Option<Dozenten>
    var deleteConfirm: Option<string>
    var formData: DozentForm

    /** The initial `useState` values. */
    constructor ()
      ensures dozenten == [] && loading && !dialogOpen
      ensures editingItem == None && deleteConfirm == None && formData == EmptyForm
    {
      dozenten := [];
      loading, dialogOpen := true, false;
      editingItem, deleteConfirm := None, None;
      formData := EmptyForm;
    }

    /**
     * `loadData`: the list is replaced only on success; `loading` is cleared
     * either way. A failed fetch is not caught here: the rejection is
     * rethrown after `loading` is cleared and no caller handles it, which
     * `published == false` stands for.
     */
    method LoadData(res: Fetch<Dozenten>) returns (published: bool)
      modifies this
      ensures published <==> res.Fetched?
      ensures dozenten == if published then res.records else old(dozenten)
      ensures !loading
      ensures dialogOpen == old(dialogOpen) && editingItem == old(editingItem)
      ensures deleteConfirm == old(deleteConfirm) && formData == old(formData)
    {
      published := res.Fetched?;
      if published {
        dozenten := res.records;
      }
      loading := false;
    }

    /**
     * `handleSubmit`: sends the form as it is, to update the instructor being
     * edited or to create one. On success the dialog closes, the form is
     * reset and a reload is started; on failure nothing changes.
     */
    method HandleSubmit(outcome: Outcome) returns (call: SubmitCall<DozentForm>, reload: bool)
      modifies this
      ensures old(editingItem).Some? ==> call == Update(old(editingItem).value.record_id, old(formData))
      ensures old(editingItem).None? ==> call == Create(old(formData))
      ensures reload <==> outcome == Succeeded
      ensures outcome == Succeeded ==> !dialogOpen && editingItem == None && formData == EmptyForm
      ensures outcome == Failed ==>
                dialogOpen == old(dialogOpen) && editingItem == old(editingItem) && formData == old(formData)
      ensures dozenten == old(dozenten) && loading == old(loading) && deleteConfirm == old(deleteConfirm)
    {
      if editingItem.Some? {
        call := Update(editingItem.value.record_id, formData);
      } else {
        call := Create(formData);
      }
      reload := false;
      if outcome == Succeeded {
        dialogOpen := false;
        ResetForm();
        reload := true;
      }
    }

    /**
     * `handleDelete`: nothing happens without a pending id; otherwise that id
     * is deleted, and only on success is the pending id cleared and a reload
     * started.
     */
    method HandleDelete(outcome: Outcome) returns (call: Option<string>, reload: bool)
      modifies this
      ensures Falsy(old(deleteConfirm)) ==> call == None && !reload && deleteConfirm == old(deleteConfirm)
      ensures !Falsy(old(deleteConfirm)) ==> call == old(deleteConfirm)
      ensures !Falsy(old(deleteConfirm)) && outcome == Succeeded ==> deleteConfirm == None && reload
      ensures !Falsy(old(deleteConfirm)) && outcome == Failed ==> deleteConfirm == old(deleteConfirm) && !reload
      ensures dozenten == old(dozenten) && loading == old(loading) && dialogOpen == old(dialogOpen)
      ensures editingItem == old(editingItem) && formData == old(formData)
    {
      if Falsy(deleteConfirm) {
        return None, false;
      }
      call, reload := deleteConfirm, false;
      if outcome == Succeeded {
        deleteConfirm := None;
        reload := true;
      }
    }

    /** `openEditDialog`: edit `item` with the form filled in from it. */
    method OpenEditDialog(item: Dozenten)
      modifies this
      ensures editingItem == Some(item) && dialogOpen && formData == EditForm(item)
      ensures dozenten == old(dozenten) && loading == old(loading) && deleteConfirm == old(deleteConfirm)
    {
      editingItem := Some(item);
      formData := EditForm(item);
      dialogOpen := true;
    }

    /** `resetForm`: no instructor is being edited and every field is empty. */
    method ResetForm()
      modifies this
      ensures editingItem == None && formData == EmptyForm
      ensures dozenten == old(dozenten) && loading == old(loading)
      ensures dialogOpen == old(dialogOpen) && deleteConfirm == old(deleteConfirm)
    {
      editingItem := None;
      formData := EmptyForm;
    }

    /** The add button: reset the form, then open the dialog. */
    method OpenCreateDialog()
      modifies this
      ensures editingItem == None && formData == EmptyForm && dialogOpen
      ensures dozenten == old(dozenten) && loading == old(loading) && deleteConfirm == old(deleteConfirm)
    {
      ResetForm();
      dialogOpen := true;
    }

    /** The Cancel button, and the dialog closing itself: only the dialog closes. */
    method CloseDialog()
      modifies this
      ensures !dialogOpen
      ensures editingItem == old(editingItem) && formData == old(formData)
      ensures dozenten == old(dozenten) && loading == old(loading) && deleteConfirm == old(deleteConfirm)
    {
      dialogOpen := false;
    }

    /** A card's delete button: ask to confirm deleting that instructor. */
    method RequestDelete(id: string)
      modifies this
      ensures deleteConfirm == Some(id)
      ensures dozenten == old(dozenten) && loading == old(loading) && dialogOpen == old(dialogOpen)
      ensures editingItem == old(editingItem) && formData == old(formData)
    {
      deleteConfirm := Some(id);
    }

    /** The confirmation's `onOpenChange`: closing it drops the pending id. */
    method ConfirmOpenChange(open: bool)
      modifies this
      ensures deleteConfirm == if open then old(deleteConfirm) else None
      ensures dozenten == old(dozenten) && loading == old(loading) && dialogOpen == old(dialogOpen)
      ensures editingItem == old(editingItem) && formData == old(formData)
    {
      if !open {
        deleteConfirm := None;
      }
    }
  }

  /**
   * Opening an instructor for editing and submitting the form unchanged
   * updates that instructor, sending each field back as it was except that a
   * missing one is sent as `''`, not left out. On success nothing is edited
   * any more and the dialog is closed; on failure the dialog stays open on
   * the same record and form.
   */
  method SubmitAfterEdit(t: ViewState, item: Dozenten, outcome: Outcome)
    returns (call: SubmitCall<DozentForm>)
    modifies t
    ensures call.Update? && call.id == item.record_id
    ensures var p, d := call.payload, item.fields;
      && (Falsy(d.name) ==> p.name == "") && (!Falsy(d.name) ==> Some(p.name) == d.name)
      && (Falsy(d.email) ==> p.email == "") && (!Falsy(d.email) ==> Some(p.email) == d.email)
      && (Falsy(d.telefon) ==> p.telefon == "") && (!Falsy(d.telefon) ==> Some(p.telefon) == d.telefon)
      && (Falsy(d.fachgebiet) ==> p.fachgebiet == "") && (!Falsy(d.fachgebiet) ==> Some(p.fachgebiet) == d.fachgebiet)
    ensures outcome == Succeeded ==> t.editingItem == None && !t.dialogOpen && t.formData == EmptyForm
    ensures outcome == Failed ==> t.editingItem == Some(item) && t.dialogOpen && t.formData == EditForm(item)
    ensures t.dozenten == old(t.dozenten)
  {
    t.OpenEditDialog(item);
    var reload;
    call, reload := t.HandleSubmit(outcome);
  }
}
