/**
 * The enrollment tab: it loads enrollments together with the courses and
 * participants they reference, shows each reference as a title or name, and
 * creates, updates and deletes enrollments.
 */
module AnmeldungenTab {
  import opened Js
  import opened Records
  import opened Entities

  /** The edit dialog's fields; `teilnehmer` and `kurs` hold record ids, not URLs. */
  datatype AnmeldungForm = AnmeldungForm(
    teilnehmer: string,
    kurs: string,
    anmeldedatum: string,
    bezahlt: bool)

  /** The form as the component starts: no date yet. */
  const InitialForm: AnmeldungForm := AnmeldungForm("", "", "", false)

  /** The form `resetForm` leaves: dated `today` (`yyyy-mm-dd` of the clock). */
  function ResetValue(today: string): AnmeldungForm {
    AnmeldungForm("", "", today, false)
  }

  /** The fields sent to create or update an enrollment. */
  datatype AnmeldungPayload = AnmeldungPayload(
    teilnehmer: string,
    kurs: string,
    anmeldedatum: string,
    bezahlt: bool)

  /** The participant name shown for an enrollment's `teilnehmer` reference. */
  function GetTeilnehmerName(teilnehmer: seq<Teilnehmer>, url: Option<string>, codec: RefCodec): (r: string)
    ensures Falsy(url) ==> r == NotAvailable
    ensures !Falsy(url) && NoMatch(teilnehmer, codec.extractRecordId(url)) ==> r == NotAvailable
    ensures forall i | !Falsy(url) && IsFirstMatch(teilnehmer, codec.extractRecordId(url), i) ::
              r == OrElse(teilnehmer[i].fields.name, NotAvailable)
    ensures r != NotAvailable ==>
              exists i :: 0 <= i < |teilnehmer| && Some(teilnehmer[i].record_id) == codec.extractRecordId(url)
                       && teilnehmer[i].fields.name == Some(r)
  {
    if Falsy(url) then NotAvailable
    else match FindById(teilnehmer, codec.extractRecordId(url))
      case None => NotAvailable
      case Some(i) => OrElse(teilnehmer[i].fields.name, NotAvailable)
  }

  /** The course title shown for an enrollment's `kurs` reference. */
  function GetKursTitel(kurse: seq<Kurse>, url: Option<string>, codec: RefCodec): (r: string)
    ensures Falsy(url) ==> r == NotAvailable
    ensures !Falsy(url) && NoMatch(kurse, codec.extractRecordId(url)) ==> r == NotAvailable
    ensures forall i | !Falsy(url) && IsFirstMatch(kurse, codec.extractRecordId(url), i) ::
              r == OrElse(kurse[i].fields.titel, NotAvailable)
    ensures r != NotAvailable ==>
              exists i :: 0 <= i < |kurse| && Some(kurse[i].record_id) == codec.extractRecordId(url)
                       && kurse[i].fields.titel == Some(r)
  {
    if Falsy(url) then NotAvailable
    else match FindById(kurse, codec.extractRecordId(url))
      case None => NotAvailable
      case Some(i) => OrElse(kurse[i].fields.titel, NotAvailable)
  }

  /**
   * A card's participant and course resolve to the names of the records
   * whose ids the references carry, when the loaded lists have no duplicate
   * ids.
   */
  lemma CardShowsReferencedRecords(
    teilnehmer: seq<Teilnehmer>, kurse: seq<Kurse>, anm: Anmeldungen, codec: RefCodec, t: int, k: int)
    requires UniqueIds(teilnehmer) && UniqueIds(kurse)
    requires !Falsy(anm.fields.teilnehmer) && !Falsy(anm.fields.kurs)
    requires 0 <= t < |teilnehmer| && codec.extractRecordId(anm.fields.teilnehmer) == Some(teilnehmer[t].record_id)
    requires 0 <= k < |kurse| && codec.extractRecordId(anm.fields.kurs) == Some(kurse[k].record_id)
    ensures GetTeilnehmerName(teilnehmer, anm.fields.teilnehmer, codec) == OrElse(teilnehmer[t].fields.name, NotAvailable)
    ensures GetKursTitel(kurse, anm.fields.kurs, codec) == OrElse(kurse[k].fields.titel, NotAvailable)
  {
  }

  /** The payload `handleSubmit` builds from the form. */
  function Payload(f: AnmeldungForm, codec: RefCodec): AnmeldungPayload {
    AnmeldungPayload(
      codec.createRecordUrl(TEILNEHMER, f.teilnehmer),
      codec.createRecordUrl(KURSE, f.kurs),
      f.anmeldedatum,
      f.bezahlt)
  }

  /** The form `openEditDialog` fills in from an enrollment. */
  function EditForm(item: Anmeldungen, codec: RefCodec): AnmeldungForm {
    AnmeldungForm(
      OrElse(codec.extractRecordId(item.fields.teilnehmer), ""),
      OrElse(codec.extractRecordId(item.fields.kurs), ""),
      OrElse(item.fields.anmeldedatum, ""),
      OrFalse(item.fields.bezahlt))
  }

  /** The component's state variables and its event handlers. */
  class ViewState {
    var anmeldungen: seq<Anmeldungen>
    var kurse: seq<Kurse>
    var teilnehmer: seq<Teilnehmer>
    var loading: bool
    var dialogOpen: bool
    var editingItem: Option<Anmeldungen>
    var deleteConfirm: Option<string>
    var formData: AnmeldungForm

    /** The initial `useState` values. */
    constructor ()
      ensures anmeldungen == [] && kurse == [] && teilnehmer == []
      ensures loading && !dialogOpen && editingItem == None && deleteConfirm == None
      ensures formData == InitialForm
    {
      anmeldungen, kurse, teilnehmer := [], [], [];
      loading, dialogOpen := true, false;
      editingItem, deleteConfirm := None, None;
      formData := InitialForm;
    }

    /**
     * `loadData`: the three lists are published together only when all
     * three fetches succeed; `loading` is cleared either way. A failed
     * fetch is not caught here: the rejection is rethrown after `loading`
     * is cleared and no caller handles it, which `published == false` stands for.
     */
    method LoadData(anmeldungenRes: Fetch<Anmeldungen>, kurseRes: Fetch<Kurse>, teilnehmerRes: Fetch<Teilnehmer>)
      returns (published: bool)
      modifies this
      ensures published <==> anmeldungenRes.Fetched? && kurseRes.Fetched? && teilnehmerRes.Fetched?
      ensures published ==>
                anmeldungen == anmeldungenRes.records && kurse == kurseRes.records
                && teilnehmer == teilnehmerRes.records
      ensures !published ==>
                anmeldungen == old(anmeldungen) && kurse == old(kurse) && teilnehmer == old(teilnehmer)
      ensures !loading
      ensures dialogOpen == old(dialogOpen) && editingItem == old(editingItem)
      ensures deleteConfirm == old(deleteConfirm) && formData == old(formData)
    {
      published := anmeldungenRes.Fetched? && kurseRes.Fetched? && teilnehmerRes.Fetched?;
      if published {
        anmeldungen := anmeldungenRes.records;
        kurse := kurseRes.records;
        teilnehmer := teilnehmerRes.records;
      }
      loading := false;
    }

    /**
     * `handleSubmit`: updates the enrollment being edited, or creates one. On
     * success the dialog closes, the form is reset to `today` and a reload is
     * started; on failure nothing changes.
     */
    method HandleSubmit(codec: RefCodec, outcome: Outcome, today: string)
      returns (call: SubmitCall<AnmeldungPayload>, reload: bool)
      modifies this
      ensures old(editingItem).Some? ==> call == Update(old(editingItem).value.record_id, Payload(old(formData), codec))
      ensures old(editingItem).None? ==> call == Create(Payload(old(formData), codec))
      ensures reload <==> outcome == Succeeded
      ensures outcome == Succeeded ==> !dialogOpen && editingItem == None && formData == ResetValue(today)
      ensures outcome == Failed ==>
                dialogOpen == old(dialogOpen) && editingItem == old(editingItem) && formData == old(formData)
      ensures anmeldungen == old(anmeldungen) && kurse == old(kurse) && teilnehmer == old(teilnehmer)
      ensures loading == old(loading) && deleteConfirm == old(deleteConfirm)
    {
      var payload := Payload(formData, codec);
      if editingItem.Some? {
        call := Update(editingItem.value.record_id, payload);
      } else {
        call := Create(payload);
      }
      reload := false;
      if outcome == Succeeded {
        dialogOpen := false;
        ResetForm(today);
        reload := true;
      }
    }

    /**
     * `handleDelete`: nothing happens without a pending id; otherwise that id
     * is deleted, and only on success is the pending id cleared and a reload
     * started.
     */
    method HandleDelete(outcome: Outcome) returns (call: Option<string>, reload: bool)
      modifies this
      ensures Falsy(old(deleteConfirm)) ==> call == None && !reload && deleteConfirm == old(deleteConfirm)
      ensures !Falsy(old(deleteConfirm)) ==> call == old(deleteConfirm)
      ensures !Falsy(old(deleteConfirm)) && outcome == Succeeded ==> deleteConfirm == None && reload
      ensures !Falsy(old(deleteConfirm)) && outcome == Failed ==> deleteConfirm == old(deleteConfirm) && !reload
      ensures anmeldungen == old(anmeldungen) && kurse == old(kurse) && teilnehmer == old(teilnehmer)
      ensures loading == old(loading) && dialogOpen == old(dialogOpen)
      ensures editingItem == old(editingItem) && formData == old(formData)
    {
      if Falsy(deleteConfirm) {
        return None, false;
      }
      call, reload := deleteConfirm, false;
      if outcome == Succeeded {
        deleteConfirm := None;
        reload := true;
      }
    }

    /** `openEditDialog`: edit `item` with the form filled in from it. */
    method OpenEditDialog(item: Anmeldungen, codec: RefCodec)
      modifies this
      ensures editingItem == Some(item) && dialogOpen && formData == EditForm(item, codec)
      ensures anmeldungen == old(anmeldungen) && kurse == old(kurse) && teilnehmer == old(teilnehmer)
      ensures loading == old(loading) && deleteConfirm == old(deleteConfirm)
    {
      editingItem := Some(item);
      formData := EditForm(item, codec);
      dialogOpen := true;
    }

    /** `resetForm`: nothing is being edited and the form is empty, dated `today`. */
    method ResetForm(today: string)
      modifies this
      ensures editingItem == None && formData == ResetValue(today)
      ensures anmeldungen == old(anmeldungen) && kurse == old(kurse) && teilnehmer == old(teilnehmer)
      ensures loading == old(loading) && dialogOpen == old(dialogOpen) && deleteConfirm == old(deleteConfirm)
    {
      editingItem := None;
      formData := ResetValue(today);
    }

    /** The add button: reset the form, then open the dialog. */
    method OpenCreateDialog(today: string)
      modifies this
      ensures editingItem == None && formData == ResetValue(today) && dialogOpen
      ensures anmeldungen == old(anmeldungen) && kurse == old(kurse) && teilnehmer == old(teilnehmer)
      ensures loading == old(loading) && deleteConfirm == old(deleteConfirm)
    {
      ResetForm(today);
      dialogOpen := true;
    }

    /** The Cancel button, and the dialog closing itself: only the dialog closes. */
    method CloseDialog()
      modifies this
      ensures !dialogOpen
      ensures editingItem == old(editingItem) && formData == old(formData)
      ensures anmeldungen == old(anmeldungen) && kurse == old(kurse) && teilnehmer == old(teilnehmer)
      ensures loading == old(loading) && deleteConfirm == old(deleteConfirm)
    {
      dialogOpen := false;
    }

    /** A card's delete button: ask to confirm deleting that enrollment. */
    method RequestDelete(id: string)
      modifies this
      ensures deleteConfirm == Some(id)
      ensures anmeldungen == old(anmeldungen) && kurse == old(kurse) && teilnehmer == old(teilnehmer)
      ensures loading == old(loading) && dialogOpen == old(dialogOpen)
      ensures editingItem == old(editingItem) && formData == old(formData)
    {
      deleteConfirm := Some(id);
    }

    /** The confirmation's `onOpenChange`: closing it drops the pending id. */
    method ConfirmOpenChange(open: bool)
      modifies this
      ensures deleteConfirm == if open then old(deleteConfirm) else None
      ensures anmeldungen == old(anmeldungen) && kurse == old(kurse) && teilnehmer == old(teilnehmer)
      ensures loading == old(loading) && dialogOpen == old(dialogOpen)
      ensures editingItem == old(editingItem) && formData == old(formData)
    {
      if !open {
        deleteConfirm := None;
      }
    }
  }

  /**
   * Opening an enrollment for editing and submitting the form unchanged
   * updates that enrollment, with its own date (a missing one as `''`) and
   * paid flag (a missing one as false) and references rebuilt from the
   * extracted ids. On success nothing is edited any more and the dialog is
   * closed; on failure the dialog stays open on the same record and form.
   */
  method SubmitAfterEdit(t: ViewState, item: Anmeldungen, codec: RefCodec, outcome: Outcome, today: string)
    returns (call: SubmitCall<AnmeldungPayload>)
    modifies t
    ensures call.Update? && call.id == item.record_id
    ensures var p, a := call.payload, item.fields;
      && (Falsy(a.anmeldedatum) ==> p.anmeldedatum == "")
      && (!Falsy(a.anmeldedatum) ==> Some(p.anmeldedatum) == a.anmeldedatum)
      && (a.bezahlt.Some? ==> p.bezahlt == a.bezahlt.value) && (a.bezahlt.None? ==> !p.bezahlt)
      && p.teilnehmer == codec.createRecordUrl(TEILNEHMER, OrElse(codec.extractRecordId(a.teilnehmer), ""))
      && p.kurs == codec.createRecordUrl(KURSE, OrElse(codec.extractRecordId(a.kurs), ""))
    ensures outcome == Succeeded ==> t.editingItem == None && !t.dialogOpen && t.formData == ResetValue(today)
    ensures outcome == Failed ==> t.editingItem == Some(item) && t.dialogOpen && t.formData == EditForm(item, codec)
    ensures t.anmeldungen == old(t.anmeldungen) && t.kurse == old(t.kurse) && t.teilnehmer == old(t.teilnehmer)
  {
    t.OpenEditDialog(item, codec);
    var reload;
    call, reload := t.HandleSubmit(codec, outcome, today);
  }
}
