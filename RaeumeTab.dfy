/**
 * The room tab: it loads the rooms and creates, updates and deletes them
 * through an edit dialog and a delete confirmation.
 */
module RaeumeTab {
  import opened Js
  import opened Records
  import opened Entities

  datatype RaumForm = RaumForm(
    raumname: string,
    gebaeude: string,
    kapazitaet: string)

  const EmptyForm: RaumForm := RaumForm("", "", "")

  /** The fields sent to create or update a room. */
  datatype RaumPayload = RaumPayload(
    raumname: string,
    gebaeude: string,
    kapazitaet: Num)

  /** The payload `handleSubmit` builds; the update and the create branch build the same one. */
  function Payload(f: RaumForm): RaumPayload {
    RaumPayload(f.raumname, f.gebaeude, Number(f.kapazitaet))
  }

  /** The form `openEditDialog` fills in from a room. */
  function EditForm(item: Raeume): RaumForm {
    RaumForm(
      OrElse(item.fields.raumname, ""),
      OrElse(item.fields.gebaeude, ""),
      if item.fields.kapazitaet.Some? then IntToString(item.fields.kapazitaet.value) else "")
  }

  /**
   * The payload built from a room's edit prefill holds its name and building
   * (a missing one as `''`) and its capacity, where a missing capacity
   * becomes 0.
   */
  lemma EditedFormRoundTrip(item: Raeume)
    ensures var p, r := Payload(EditForm(item)), item.fields;
      && (Falsy(r.raumname) ==> p.raumname == "") && (!Falsy(r.raumname) ==> Some(p.raumname) == r.raumname)
      && (Falsy(r.gebaeude) ==> p.gebaeude == "") && (!Falsy(r.gebaeude) ==> Some(p.gebaeude) == r.gebaeude)
      && p.kapazitaet == (if r.kapazitaet.Some? then Int(r.kapazitaet.value) else Int(0))
  {
    if item.fields.kapazitaet.Some? {
      NumberOfIntToString(item.fields.kapazitaet.value);
    }
  }

  /** The component's state variables and its event handlers. */
  class ViewState {
    var raeume: seq<Raeume>
    var loading: bool
    var dialogOpen: bool
    var editingItem: Option<Raeume>
    var deleteConfirm: Option<string>
    var formData: RaumForm

    /** The initial `useState` values. */
    constructor ()
      ensures raeume == [] && loading && !dialogOpen
      ensures editingItem == None && deleteConfirm == None && formData == EmptyForm
    {
      raeume := [];
      loading, dialogOpen := true, false;
      editingItem, deleteConfirm := None, None;
      formData := EmptyForm;
    }

    /**
     * `loadData`: the list is replaced only on success; `loading` is cleared
     * either way. A failed fetch is not caught here: the rejection is
     * rethrown after `loading` is cleared and no caller handles it, which
     * `published == false` stands for.
     */
    method LoadData(res: Fetch<Raeume>) returns (published: bool)
      modifies this
      ensures published <==> res.Fetched?
      ensures raeume == if published then res.records else old(raeume)
      ensures !loading
      ensures dialogOpen == old(dialogOpen) && editingItem == old(editingItem)
      ensures deleteConfirm == old(deleteConfirm) && formData == old(formData)
    {
      published := res.Fetched?;
      if published {
        raeume := res.records;
      }
      loading := false;
    }

    /**
     * `handleSubmit`: updates the room being edited, or creates one, with
     * the same payload. On success the dialog closes, the form is reset and
     * a reload is started; on failure nothing changes.
     */
    method HandleSubmit(outcome: Outcome) returns (call: SubmitCall<RaumPayload>, reload: bool)
      modifies this
      ensures call.payload == Payload(old(formData))
      ensures call.Update? <==> old(editingItem).Some?
      ensures call.Update? ==> call.id == old(editingItem).value.record_id
      ensures reload <==> outcome == Succeeded
      ensures outcome == Succeeded ==> !dialogOpen && editingItem == None && formData == EmptyForm
      ensures outcome == Failed ==>
                dialogOpen == old(dialogOpen) && editingItem == old(editingItem) && formData == old(formData)
      ensures raeume == old(raeume) && loading == old(loading) && deleteConfirm == old(deleteConfirm)
    {
      if editingItem.Some? {
        call := Update(editingItem.value.record_id, RaumPayload(formData.raumname, formData.gebaeude, Number(formData.kapazitaet)));
      } else {
        call := Create(RaumPayload(formData.raumname, formData.gebaeude, Number(formData.kapazitaet)));
      }
      reload := false;
      if outcome == Succeeded {
        dialogOpen := false;
        ResetForm();
        reload := true;
      }
    }

    /**
     * `handleDelete`: nothing happens without a pending id; otherwise that id
     * is deleted, and only on success is the pending id cleared and a reload
     * started.
     */
    method HandleDelete(outcome: Outcome) returns (call: Option<string>, reload: bool)
      modifies this
      ensures Falsy(old(deleteConfirm)) ==> call == None && !reload && deleteConfirm == old(deleteConfirm)
      ensures !Falsy(old(deleteConfirm)) ==> call == old(deleteConfirm)
      ensures !Falsy(old(deleteConfirm)) && outcome == Succeeded ==> deleteConfirm == None && reload
      ensures !Falsy(old(deleteConfirm)) && outcome == Failed ==> deleteConfirm == old(deleteConfirm) && !reload
      ensures raeume == old(raeume) && loading == old(loading) && dialogOpen == old(dialogOpen)
      ensures editingItem == old(editingItem) && formData == old(formData)
    {
      if Falsy(deleteConfirm) {
        return None, false;
      }
      call, reload := deleteConfirm, false;
      if outcome == Succeeded {
        deleteConfirm := None;
        reload := true;
      }
    }

    /** `openEditDialog`: edit `item` with the form filled in from it. */
    method OpenEditDialog(item: Raeume)
      modifies this
      ensures editingItem == Some(item) && dialogOpen && formData == EditForm(item)
      ensures raeume == old(raeume) && loading == old(loading) && deleteConfirm == old(deleteConfirm)
    {
      editingItem := Some(item);
      formData := EditForm(item);
      dialogOpen := true;
    }

    /** `resetForm`: no room is being edited and every field is empty. */
    method ResetForm()
      modifies this
      ensures editingItem == None && formData == EmptyForm
      ensures raeume == old(raeume) && loading == old(loading)
      ensures dialogOpen == old(dialogOpen) && deleteConfirm == old(deleteConfirm)
    {
      editingItem := None;
      formData := EmptyForm;
    }

    /** The add button: reset the form, then open the dialog. */
    method OpenCreateDialog()
      modifies this
      ensures editingItem == None && formData == EmptyForm && dialogOpen
      ensures raeume == old(raeume) && loading == old(loading) && deleteConfirm == old(deleteConfirm)
    {
      ResetForm();
      dialogOpen := true;
    }

    /** The Cancel button, and the dialog closing itself: only the dialog closes. */
    method CloseDialog()
      modifies this
      ensures !dialogOpen
      ensures editingItem == old(editingItem) && formData == old(formData)
      ensures raeume == old(raeume) && loading == old(loading) && deleteConfirm == old(deleteConfirm)
    {
      dialogOpen := false;
    }

    /** A card's delete button: ask to confirm deleting that room. */
    method RequestDelete(id: string)
      modifies this
      ensures deleteConfirm == Some(id)
      ensures raeume == old(raeume) && loading == old(loading) && dialogOpen == old(dialogOpen)
      ensures editingItem == old(editingItem) && formData == old(formData)
    {
      deleteConfirm := Some(id);
    }

    /** The confirmation's `onOpenChange`: closing it drops the pending id. */
    method ConfirmOpenChange(open: bool)
      modifies this
      ensures deleteConfirm == if open then old(deleteConfirm) else None
      ensures raeume == old(raeume) && loading == old(loading) && dialogOpen == old(dialogOpen)
      ensures editingItem == old(editingItem) && formData == old(formData)
    {
      if !open {
        deleteConfirm := None;
      }
    }
  }

  /**
   * Opening a room for editing and submitting it unchanged updates that room
   * with the payload `EditedFormRoundTrip` describes. On success nothing is
   * edited any more and the dialog is closed; on failure the dialog stays
   * open on the same record and form.
   */
  method SubmitAfterEdit(t: ViewState, item: Raeume, outcome: Outcome)
    returns (call: SubmitCall<RaumPayload>)
    modifies t
    ensures call.Update? && call.id == item.record_id
    ensures var p, r := call.payload, item.fields;
      && (Falsy(r.raumname) ==> p.raumname == "") && (!Falsy(r.raumname) ==> Some(p.raumname) == r.raumname)
      && (Falsy(r.gebaeude) ==> p.gebaeude == "") && (!Falsy(r.gebaeude) ==> Some(p.gebaeude) == r.gebaeude)
      && p.kapazitaet == (if r.kapazitaet.Some? then Int(r.kapazitaet.value) else Int(0))
    ensures outcome == Succeeded ==> t.editingItem == None && !t.dialogOpen && t.formData == EmptyForm
    ensures outcome == Failed ==> t.editingItem == Some(item) && t.dialogOpen && t.formData == EditForm(item)
    ensures t.raeume == old(t.raeume)
  {
    t.OpenEditDialog(item);
    var reload;
    call, reload := t.HandleSubmit(outcome);
    EditedFormRoundTrip(item);
  }
}
