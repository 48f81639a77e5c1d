/**
 * The participant tab: it loads the participants and creates, updates and
 * deletes them through an edit dialog and a delete confirmation.
 */
module TeilnehmerTab {
  import opened Js
  import opened Records
  import opened Entities

  datatype TeilnehmerForm = TeilnehmerForm(
    name: string,
    email: string,
    telefon: string,
    geburtsdatum: string)

  const EmptyForm: TeilnehmerForm := TeilnehmerForm("", "", "", "")

  /** The fields sent to create or update a participant; the optional ones may be `undefined`. */
  datatype TeilnehmerPayload = TeilnehmerPayload(
    name: string,
    email: string,
    telefon: Option<string>,
    geburtsdatum: Option<string>)

  /** The payload `handleSubmit` builds from the form. */
  function Payload(f: TeilnehmerForm): TeilnehmerPayload {
    TeilnehmerPayload(f.name, f.email, UndefinedIfEmpty(f.telefon), UndefinedIfEmpty(f.geburtsdatum))
  }

  /** The form `openEditDialog` fills in from a participant. */
  function EditForm(item: Teilnehmer): TeilnehmerForm {
    TeilnehmerForm(
      OrElse(item.fields.name, ""),
      OrElse(item.fields.email, ""),
      OrElse(item.fields.telefon, ""),
      OrElse(item.fields.geburtsdatum, ""))
  }

  /**
   * The payload built from a participant's edit prefill holds its name and
   * e-mail (a missing one as `''`) and its phone number and birth date (a
   * missing or empty one as `undefined`).
   */
  lemma EditedFormRoundTrip(item: Teilnehmer)
    ensures var p, t := Payload(EditForm(item)), item.fields;
      && (Falsy(t.name) ==> p.name == "") && (!Falsy(t.name) ==> Some(p.name) == t.name)
      && (Falsy(t.email) ==> p.email == "") && (!Falsy(t.email) ==> Some(p.email) == t.email)
      && p.telefon == (if Falsy(t.telefon) then None else t.telefon)
      && p.geburtsdatum == (if Falsy(t.geburtsdatum) then None else t.geburtsdatum)
  {
  }

  /** The component's state variables and its event handlers. */
  class ViewState {
    var teilnehmer: seq<Teilnehmer>
    var loading: bool
    var dialogOpen: bool
    var editingItem: Option<Teilnehmer>
    var deleteConfirm: Option<string>
    var formData: TeilnehmerForm

    /** The initial `useState` values. */
    constructor ()
      ensures teilnehmer == [] && loading && !dialogOpen
      ensures editingItem == None && deleteConfirm == None && formData == EmptyForm
    {
      teilnehmer := [];
      loading, dialogOpen := true, false;
      editingItem, deleteConfirm := None, None;
      formData := EmptyForm;
    }

    /**
     * `loadData`: the list is replaced only on success; `loading` is cleared
     * either way. A failed fetch is not caught here: the rejection is
     * rethrown after `loading` is cleared and no caller handles it, which
     * `published == false` stands for.
     */
    method LoadData(res: Fetch<Teilnehmer>) returns (published: bool)
      modifies this
      ensures published <==> res.Fetched?
      ensures teilnehmer == if published then res.records else old(teilnehmer)
      ensures !loading
      ensures dialogOpen == old(dialogOpen) && editingItem == old(editingItem)
      ensures deleteConfirm == old(deleteConfirm) && formData == old(formData)
    {
      published := res.Fetched?;
      if published {
        teilnehmer := res.records;
      }
      loading := false;
    }

    /**
     * `handleSubmit`: updates the participant being edited, or creates one.
     * On success the dialog closes, the form is reset and a reload is
     * started; on failure nothing changes.
     */
    method HandleSubmit(outcome: Outcome) returns (call: SubmitCall<TeilnehmerPayload>, reload: bool)
      modifies this
      ensures old(editingItem).Some? ==> call == Update(old(editingItem).value.record_id, Payload(old(formData)))
      ensures old(editingItem).None? ==> call == Create(Payload(old(formData)))
      ensures reload <==> outcome == Succeeded
      ensures outcome == Succeeded ==> !dialogOpen && editingItem == None && formData == EmptyForm
      ensures outcome == Failed ==>
                dialogOpen == old(dialogOpen) && editingItem == old(editingItem) && formData == old(formData)
      ensures teilnehmer == old(teilnehmer) && loading == old(loading) && deleteConfirm == old(deleteConfirm)
    {
      var payload := Payload(formData);
      if editingItem.Some? {
        call := Update(editingItem.value.record_id, payload);
      } else {
        call := Create(payload);
      }
      reload := false;
      if outcome == Succeeded {
        dialogOpen := false;
        ResetForm();
        reload := true;
      }
    }

    /**
     * `handleDelete`: nothing happens without a pending id; otherwise that id
     * is deleted, and only on success is the pending id cleared and a reload
     * started.
     */
    method HandleDelete(outcome: Outcome) returns (call: Option<string>, reload: bool)
      modifies this
      ensures Falsy(old(deleteConfirm)) ==> call == None && !reload && deleteConfirm == old(deleteConfirm)
      ensures !Falsy(old(deleteConfirm)) ==> call == old(deleteConfirm)
      ensures !Falsy(old(deleteConfirm)) && outcome == Succeeded ==> deleteConfirm == None && reload
      ensures !Falsy(old(deleteConfirm)) && outcome == Failed ==> deleteConfirm == old(deleteConfirm) && !reload
      ensures teilnehmer == old(teilnehmer) && loading == old(loading) && dialogOpen == old(dialogOpen)
      ensures editingItem == old(editingItem) && formData == old(formData)
    {
      if Falsy(deleteConfirm) {
        return None, false;
      }
      call, reload := deleteConfirm, false;
      if outcome == Succeeded {
        deleteConfirm := None;
        reload := true;
      }
    }

    /** `openEditDialog`: edit `item` with the form filled in from it. */
    method OpenEditDialog(item: Teilnehmer)
      modifies this
      ensures editingItem == Some(item) && dialogOpen && formData == EditForm(item)
      ensures teilnehmer == old(teilnehmer) && loading == old(loading) && deleteConfirm == old(deleteConfirm)
    {
      editingItem := Some(item);
      formData := EditForm(item);
      dialogOpen := true;
    }

    /** `resetForm`: no participant is being edited and every field is empty. */
    method ResetForm()
      modifies this
      ensures editingItem == None && formData == EmptyForm
      ensures teilnehmer == old(teilnehmer) && loading == old(loading)
      ensures dialogOpen == old(dialogOpen) && deleteConfirm == old(deleteConfirm)
    {
      editingItem := None;
      formData := EmptyForm;
    }

    /** The add button: reset the form, then open the dialog. */
    method OpenCreateDialog()
      modifies this
      ensures editingItem == None && formData == EmptyForm && dialogOpen
      ensures teilnehmer == old(teilnehmer) && loading == old(loading) && deleteConfirm == old(deleteConfirm)
    {
      ResetForm();
      dialogOpen := true;
    }

    /** The Cancel button, and the dialog closing itself: only the dialog closes. */
    method CloseDialog()
      modifies this
      ensures !dialogOpen
      ensures editingItem == old(editingItem) && formData == old(formData)
      ensures teilnehmer == old(teilnehmer) && loading == old(loading) && deleteConfirm == old(deleteConfirm)
    {
      dialogOpen := false;
    }

    /** A card's delete button: ask to confirm deleting that participant. */
    method RequestDelete(id: string)
      modifies this
      ensures deleteConfirm == Some(id)
      ensures teilnehmer == old(teilnehmer) && loading == old(loading) && dialogOpen == old(dialogOpen)
      ensures editingItem == old(editingItem) && formData == old(formData)
    {
      deleteConfirm := Some(id);
    }

    /** The confirmation's `onOpenChange`: closing it drops the pending id. */
    method ConfirmOpenChange(open: bool)
      modifies this
      ensures deleteConfirm == if open then old(deleteConfirm) else None
      ensures teilnehmer == old(teilnehmer) && loading == old(loading) && dialogOpen == old(dialogOpen)
      ensures editingItem == old(editingItem) && formData == old(formData)
    {
      if !open {
        deleteConfirm := None;
      }
    }
  }

  /**
   * Cancelling an edit keeps the edited record, but the add button resets
   * it, so the following submit creates a new participant from an empty form
   * instead of updating the one whose edit was cancelled.
   */
  method AddAfterCancelledEdit(t: ViewState, item: Teilnehmer, outcome: Outcome)
    returns (call: SubmitCall<TeilnehmerPayload>)
    modifies t
    ensures call == Create(Payload(EmptyForm))
    ensures t.teilnehmer == old(t.teilnehmer)
  {
    t.OpenEditDialog(item);
    t.CloseDialog();
    assert t.editingItem == Some(item) && t.formData == EditForm(item);
    t.OpenCreateDialog();
    var reload;
    call, reload := t.HandleSubmit(outcome);
  }

  /**
   * Opening a participant for editing and submitting it unchanged updates
   * that participant with the payload `EditedFormRoundTrip` describes. On
   * success nothing is edited any more and the dialog is closed; on failure
   * the dialog stays open on the same record and form.
   */
  method SubmitAfterEdit(t: ViewState, item: Teilnehmer, outcome: Outcome)
    returns (call: SubmitCall<TeilnehmerPayload>)
    modifies t
    ensures call.Update? && call.id == item.record_id
    ensures var p, tf := call.payload, item.fields;
      && (Falsy(tf.name) ==> p.name == "") && (!Falsy(tf.name) ==> Some(p.name) == tf.name)
      && (Falsy(tf.email) ==> p.email == "") && (!Falsy(tf.email) ==> Some(p.email) == tf.email)
      && p.telefon == (if Falsy(tf.telefon) then None else tf.telefon)
      && p.geburtsdatum == (if Falsy(tf.geburtsdatum) then None else tf.geburtsdatum)
    ensures outcome == Succeeded ==> t.editingItem == None && !t.dialogOpen && t.formData == EmptyForm
    ensures outcome == Failed ==> t.editingItem == Some(item) && t.dialogOpen && t.formData == EditForm(item)
    ensures t.teilnehmer == old(t.teilnehmer)
  {
    t.OpenEditDialog(item);
    var reload;
    call, reload := t.HandleSubmit(outcome);
    EditedFormRoundTrip(item);
  }
}
