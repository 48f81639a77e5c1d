/**
 * The course tab: it loads courses together with the instructors and rooms
 * they reference, shows each reference as a name, and creates, updates and
 * deletes courses through an edit dialog and a delete confirmation.
 */
module KurseTab {
  import opened Js
  import opened Records
  import opened Entities

  /** The edit dialog's fields; `dozent` and `raum` hold record ids, not URLs. */
  datatype KursForm = KursForm(
    titel: string,
    beschreibung: string,
    startdatum: string,
    enddatum: string,
    max_teilnehmer: string,
    preis: string,
    dozent: string,
    raum: string)

  const EmptyForm: KursForm := KursForm("", "", "", "", "", "", "", "")

  /** The fields sent to create or update a course. */
  datatype KursPayload = KursPayload(
    titel: string,
    beschreibung: Option<string>,
    startdatum: string,
    enddatum: string,
    max_teilnehmer: Num,
    preis: Num,
    dozent: string,
    raum: string)

  /** The instructor name shown for a course's `dozent` reference. */
  function GetDozentName(dozenten: seq<Dozenten>, url: Option<string>, codec: RefCodec): (r: string)
    ensures Falsy(url) ==> r == NotAvailable
    ensures !Falsy(url) && NoMatch(dozenten, codec.extractRecordId(url)) ==> r == NotAvailable
    ensures forall i | !Falsy(url) && IsFirstMatch(dozenten, codec.extractRecordId(url), i) ::
              r == OrElse(dozenten[i].fields.name, NotAvailable)
    ensures r != NotAvailable ==>
              exists i :: 0 <= i < |dozenten| && Some(dozenten[i].record_id) == codec.extractRecordId(url)
                       && dozenten[i].fields.name == Some(r)
  {
    if Falsy(url) then NotAvailable
    else match FindById(dozenten, codec.extractRecordId(url))
      case None => NotAvailable
      case Some(i) => OrElse(dozenten[i].fields.name, NotAvailable)
  }

  /** The room name shown for a course's `raum` reference. */
  function GetRaumName(raeume: seq<Raeume>, url: Option<string>, codec: RefCodec): (r: string)
    ensures Falsy(url) ==> r == NotAvailable
    ensures !Falsy(url) && NoMatch(raeume, codec.extractRecordId(url)) ==> r == NotAvailable
    ensures forall i | !Falsy(url) && IsFirstMatch(raeume, codec.extractRecordId(url), i) ::
              r == OrElse(raeume[i].fields.raumname, NotAvailable)
    ensures r != NotAvailable ==>
              exists i :: 0 <= i < |raeume| && Some(raeume[i].record_id) == codec.extractRecordId(url)
                       && raeume[i].fields.raumname == Some(r)
  {
    if Falsy(url) then NotAvailable
    else match FindById(raeume, codec.extractRecordId(url))
      case None => NotAvailable
      case Some(i) => OrElse(raeume[i].fields.raumname, NotAvailable)
  }

  /**
   * A course's instructor and room references resolve to the names of the
   * records whose ids they carry, when the loaded lists have no duplicate
   * ids. (The card shows only the instructor; `getRaumName` has no caller.)
   */
  lemma ReferencesResolveToRecords(
    dozenten: seq<Dozenten>, raeume: seq<Raeume>, kurs: Kurse, codec: RefCodec, d: int, r: int)
    requires UniqueIds(dozenten) && UniqueIds(raeume)
    requires !Falsy(kurs.fields.dozent) && !Falsy(kurs.fields.raum)
    requires 0 <= d < |dozenten| && codec.extractRecordId(kurs.fields.dozent) == Some(dozenten[d].record_id)
    requires 0 <= r < |raeume| && codec.extractRecordId(kurs.fields.raum) == Some(raeume[r].record_id)
    ensures GetDozentName(dozenten, kurs.fields.dozent, codec) == OrElse(dozenten[d].fields.name, NotAvailable)
    ensures GetRaumName(raeume, kurs.fields.raum, codec) == OrElse(raeume[r].fields.raumname, NotAvailable)
  {
  }

  /** The payload `handleSubmit` builds from the form. */
  function Payload(f: KursForm, codec: RefCodec): KursPayload {
    KursPayload(
      f.titel,
      UndefinedIfEmpty(f.beschreibung),
      f.startdatum,
      f.enddatum,
      Number(f.max_teilnehmer),
      Number(f.preis),
      codec.createRecordUrl(DOZENTEN, f.dozent),
      codec.createRecordUrl(RAEUME, f.raum))
  }

  /** The form `openEditDialog` fills in from a course. */
  function EditForm(item: Kurse, codec: RefCodec): KursForm {
    var k := item.fields;
    KursForm(
      OrElse(k.titel, ""),
      OrElse(k.beschreibung, ""),
      OrElse(k.startdatum, ""),
      OrElse(k.enddatum, ""),
      if k.max_teilnehmer.Some? then IntToString(k.max_teilnehmer.value) else "",
      if k.preis.Some? then IntToString(k.preis.value) else "",
      OrElse(codec.extractRecordId(k.dozent), ""),
      OrElse(codec.extractRecordId(k.raum), ""))
  }

  /**
   * The payload built from a course's edit prefill holds its own text fields
   * (a missing one as `''`, a missing or empty description as `undefined`),
   * its own counts and prices (a missing one as 0), and references rebuilt
   * from the extracted ids.
   */
  lemma EditedFormRoundTrip(item: Kurse, codec: RefCodec)
    ensures var p, k := Payload(EditForm(item, codec), codec), item.fields;
      && (Falsy(k.titel) ==> p.titel == "") && (!Falsy(k.titel) ==> Some(p.titel) == k.titel)
      && p.beschreibung == (if Falsy(k.beschreibung) then None else k.beschreibung)
      && (Falsy(k.startdatum) ==> p.startdatum == "") && (!Falsy(k.startdatum) ==> Some(p.startdatum) == k.startdatum)
      && (Falsy(k.enddatum) ==> p.enddatum == "") && (!Falsy(k.enddatum) ==> Some(p.enddatum) == k.enddatum)
      && p.max_teilnehmer == (if k.max_teilnehmer.Some? then Int(k.max_teilnehmer.value) else Int(0))
      && p.preis == (if k.preis.Some? then Int(k.preis.value) else Int(0))
      && p.dozent == codec.createRecordUrl(DOZENTEN, OrElse(codec.extractRecordId(k.dozent), ""))
      && p.raum == codec.createRecordUrl(RAEUME, OrElse(codec.extractRecordId(k.raum), ""))
  {
    var k := item.fields;
    OptionalFieldRoundTrip(k.beschreibung);
    if k.max_teilnehmer.Some? { NumberOfIntToString(k.max_teilnehmer.value); }
    if k.preis.Some? { NumberOfIntToString(k.preis.value); }
  }

  /** The component's state variables and its event handlers. */
  class ViewState {
    var kurse: seq<Kurse>
    var dozenten: seq<Dozenten>
    var raeume: seq<Raeume>
    var loading: bool
    var dialogOpen: bool
    var editingItem: Option<Kurse>
    var deleteConfirm: Option<string>
    var formData: KursForm

    /** The initial `useState` values. */
    constructor ()
      ensures kurse == [] && dozenten == [] && raeume == []
      ensures loading && !dialogOpen && editingItem == None && deleteConfirm == None
      ensures formData == EmptyForm
    {
      kurse, dozenten, raeume := [], [], [];
      loading, dialogOpen := true, false;
      editingItem, deleteConfirm := None, None;
      formData := EmptyForm;
    }

    /**
     * `loadData`: the three lists are published together only when all
     * three fetches succeed; `loading` is cleared either way. A failed
     * fetch is not caught here: the rejection is rethrown after `loading`
     * is cleared and no caller handles it, which `published == false` stands for.
     */
    method LoadData(kurseRes: Fetch<Kurse>, dozentenRes: Fetch<Dozenten>, raeumeRes: Fetch<Raeume>)
      returns (published: bool)
      modifies this
      ensures published <==> kurseRes.Fetched? && dozentenRes.Fetched? && raeumeRes.Fetched?
      ensures published ==>
                kurse == kurseRes.records && dozenten == dozentenRes.records && raeume == raeumeRes.records
      ensures !published ==> kurse == old(kurse) && dozenten == old(dozenten) && raeume == old(raeume)
      ensures !loading
      ensures dialogOpen == old(dialogOpen) && editingItem == old(editingItem)
      ensures deleteConfirm == old(deleteConfirm) && formData == old(formData)
    {
      published := kurseRes.Fetched? && dozentenRes.Fetched? && raeumeRes.Fetched?;
      if published {
        kurse := kurseRes.records;
        dozenten := dozentenRes.records;
        raeume := raeumeRes.records;
      }
      loading := false;
    }

    /**
     * `handleSubmit`: updates the course being edited, or creates one. On
     * success the dialog closes, the form is reset and a reload is started;
     * on failure nothing changes.
     */
    method HandleSubmit(codec: RefCodec, outcome: Outcome) returns (call: SubmitCall<KursPayload>, reload: bool)
      modifies this
      ensures old(editingItem).Some? ==> call == Update(old(editingItem).value.record_id, Payload(old(formData), codec))
      ensures old(editingItem).None? ==> call == Create(Payload(old(formData), codec))
      ensures reload <==> outcome == Succeeded
      ensures outcome == Succeeded ==> !dialogOpen && editingItem == None && formData == EmptyForm
      ensures outcome == Failed ==>
                dialogOpen == old(dialogOpen) && editingItem == old(editingItem) && formData == old(formData)
      ensures kurse == old(kurse) && dozenten == old(dozenten) && raeume == old(raeume)
      ensures loading == old(loading) && deleteConfirm == old(deleteConfirm)
    {
      var payload := Payload(formData, codec);
      if editingItem.Some? {
        call := Update(editingItem.value.record_id, payload);
      } else {
        call := Create(payload);
      }
      reload := false;
      if outcome == Succeeded {
        dialogOpen := false;
        ResetForm();
        reload := true;
      }
    }

    /**
     * `handleDelete`: nothing happens without a pending id; otherwise that id
     * is deleted, and only on success is the pending id cleared and a reload
     * started.
     */
    method HandleDelete(outcome: Outcome) returns (call: Option<string>, reload: bool)
      modifies this
      ensures Falsy(old(deleteConfirm)) ==> call == None && !reload && deleteConfirm == old(deleteConfirm)
      ensures !Falsy(old(deleteConfirm)) ==> call == old(deleteConfirm)
      ensures !Falsy(old(deleteConfirm)) && outcome == Succeeded ==> deleteConfirm == None && reload
      ensures !Falsy(old(deleteConfirm)) && outcome == Failed ==> deleteConfirm == old(deleteConfirm) && !reload
      ensures kurse == old(kurse) && dozenten == old(dozenten) && raeume == old(raeume)
      ensures loading == old(loading) && dialogOpen == old(dialogOpen)
      ensures editingItem == old(editingItem) && formData == old(formData)
    {
      if Falsy(deleteConfirm) {
        return None, false;
      }
      call, reload := deleteConfirm, false;
      if outcome == Succeeded {
        deleteConfirm := None;
        reload := true;
      }
    }

    /** `openEditDialog`: edit `item` with the form filled in from it. */
    method OpenEditDialog(item: Kurse, codec: RefCodec)
      modifies this
      ensures editingItem == Some(item) && dialogOpen && formData == EditForm(item, codec)
      ensures kurse == old(kurse) && dozenten == old(dozenten) && raeume == old(raeume)
      ensures loading == old(loading) && deleteConfirm == old(deleteConfirm)
    {
      editingItem := Some(item);
      formData := EditForm(item, codec);
      dialogOpen := true;
    }

    /** `resetForm`: no course is being edited and every field is empty. */
    method ResetForm()
      modifies this
      ensures editingItem == None && formData == EmptyForm
      ensures kurse == old(kurse) && dozenten == old(dozenten) && raeume == old(raeume)
      ensures loading == old(loading) && dialogOpen == old(dialogOpen) && deleteConfirm == old(deleteConfirm)
    {
      editingItem := None;
      formData := EmptyForm;
    }

    /** The add button: reset the form, then open the dialog. */
    method OpenCreateDialog()
      modifies this
      ensures editingItem == None && formData == EmptyForm && dialogOpen
      ensures kurse == old(kurse) && dozenten == old(dozenten) && raeume == old(raeume)
      ensures loading == old(loading) && deleteConfirm == old(deleteConfirm)
    {
      ResetForm();
      dialogOpen := true;
    }

    /** The Cancel button, and the dialog closing itself: only the dialog closes. */
    method CloseDialog()
      modifies this
      ensures !dialogOpen
      ensures editingItem == old(editingItem) && formData == old(formData)
      ensures kurse == old(kurse) && dozenten == old(dozenten) && raeume == old(raeume)
      ensures loading == old(loading) && deleteConfirm == old(deleteConfirm)
    {
      dialogOpen := false;
    }

    /** A card's delete button: ask to confirm deleting that course. */
    method RequestDelete(id: string)
      modifies this
      ensures deleteConfirm == Some(id)
      ensures kurse == old(kurse) && dozenten == old(dozenten) && raeume == old(raeume)
      ensures loading == old(loading) && dialogOpen == old(dialogOpen)
      ensures editingItem == old(editingItem) && formData == old(formData)
    {
      deleteConfirm := Some(id);
    }

    /** The confirmation's `onOpenChange`: closing it drops the pending id. */
    method ConfirmOpenChange(open: bool)
      modifies this
      ensures deleteConfirm == if open then old(deleteConfirm) else None
      ensures kurse == old(kurse) && dozenten == old(dozenten) && raeume == old(raeume)
      ensures loading == old(loading) && dialogOpen == old(dialogOpen)
      ensures editingItem == old(editingItem) && formData == old(formData)
    {
      if !open {
        deleteConfirm := None;
      }
    }
  }

  /**
   * Opening a course for editing and submitting the form unchanged updates
   * that course with the payload `EditedFormRoundTrip` describes. On success
   * nothing is edited any more and the dialog is closed; on failure the
   * dialog stays open on the same record and form.
   */
  method SubmitAfterEdit(t: ViewState, item: Kurse, codec: RefCodec, outcome: Outcome)
    returns (call: SubmitCall<KursPayload>)
    modifies t
    ensures call.Update? && call.id == item.record_id
    ensures var p, k := call.payload, item.fields;
      && (Falsy(k.titel) ==> p.titel == "") && (!Falsy(k.titel) ==> Some(p.titel) == k.titel)
      && p.beschreibung == (if Falsy(k.beschreibung) then None else k.beschreibung)
      && (Falsy(k.startdatum) ==> p.startdatum == "") && (!Falsy(k.startdatum) ==> Some(p.startdatum) == k.startdatum)
      && (Falsy(k.enddatum) ==> p.enddatum == "") && (!Falsy(k.enddatum) ==> Some(p.enddatum) == k.enddatum)
      && p.max_teilnehmer == (if k.max_teilnehmer.Some? then Int(k.max_teilnehmer.value) else Int(0))
      && p.preis == (if k.preis.Some? then Int(k.preis.value) else Int(0))
      && p.dozent == codec.createRecordUrl(DOZENTEN, OrElse(codec.extractRecordId(k.dozent), ""))
      && p.raum == codec.createRecordUrl(RAEUME, OrElse(codec.extractRecordId(k.raum), ""))
    ensures outcome == Succeeded ==> t.editingItem == None && !t.dialogOpen && t.formData == EmptyForm
    ensures outcome == Failed ==> t.editingItem == Some(item) && t.dialogOpen && t.formData == EditForm(item, codec)
    ensures t.kurse == old(t.kurse) && t.dozenten == old(t.dozenten) && t.raeume == old(t.raeume)
  {
    t.OpenEditDialog(item, codec);
    var reload;
    call, reload := t.HandleSubmit(codec, outcome);
    EditedFormRoundTrip(item, codec);
  }
}
