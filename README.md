# Course administration console: reference resolution and tab controllers

A model of the five entity tabs of a course-administration console
(Kurse = courses, Dozenten = instructors, Teilnehmer = participants,
Raeume = rooms, Anmeldungen = enrollments). Each tab keeps its records in
local state loaded from a hosted record store, shows them as cards, and
creates, updates and deletes them through an edit dialog and a delete
confirmation. Two tabs hold references to other entity types and resolve
them to display names.

Layout:

- `Js.dfy`: the JavaScript behaviour the tabs rely on: `undefined`,
  truthiness fallbacks (`x || ''`, `x || undefined`, `x || false`) and
  `Number(...)` / `toString()` restricted to integers, with the round trip
  `Number(n.toString()) == n`.
- `Records.dfy`: records (`record_id` plus fields), the app identifiers,
  the storage client's `extractRecordId` and `createRecordUrl` (passed in as
  a `RefCodec` value, nothing assumed about them), outcomes of remote calls,
  and `find` by `record_id`.
- `Entities.dfy`: the fields of the five entity types as the tabs read them,
  each one possibly missing. `src/types/app.ts` is not part of this model;
  the field types follow from how the tabs use them.
- `KurseTab.dfy`, `AnmeldungenTab.dfy`, `TeilnehmerTab.dfy`,
  `DozentenTab.dfy`, `RaeumeTab.dfy`: per tab, the pure parts (reference
  resolvers, the submit payload `Payload`, the edit-dialog prefill
  `EditForm`) as functions, and the component's state variables as the
  fields of a class `ViewState` whose methods are the event handlers.

Remote calls are not executed: `loadData` takes the outcome of each list
call (`Fetched(records)` or `FetchFailed`), a submit or delete takes a
`Succeeded` / `Failed` outcome and returns the call it issues. The
`loadData()` a successful mutation starts without awaiting it is returned
as a `reload` flag; its own outcome is independent, so the caller runs
`LoadData` with whatever outcomes that reload has. Today's date, used by the
enrollment tab's `resetForm`, is a parameter.

`Number`, `Payload` and `EditForm` carry no contract of their own: what
they do is stated by the handlers that use them and by each tab's
`SubmitAfterEdit`, a method running `OpenEditDialog` then `HandleSubmit`
that says which record an edit followed by an unchanged submit updates and
what it sends. For Kurse, Teilnehmer and Raeume the payload facts are also
proved over the functions alone, by `EditedFormRoundTrip`.

## Model

| member | source | states |
|---|---|---|
| Js.IntToString | src/components/tabs/RaeumeTab.tsx:83 | the string form of a number is never empty and starts with `-` exactly for negatives, so the `''` fallback after `toString()` applies only to a missing value |
| Js.NumberOfIntToString | src/components/tabs/RaeumeTab.tsx:50 | `Number(n.toString())` gives back `n` for every integer `n` of the model (JavaScript: every safe integer, below 2^53 in magnitude) |
| Js.Number | src/components/tabs/RaeumeTab.tsx:50 | `''` gives 0, an optionally signed run of decimal digits gives its value, any other string gives `NonInteger`; with `NumberOfIntToString` it inverts `IntToString` |
| Js.OptionalFieldRoundTrip | src/components/tabs/TeilnehmerTab.tsx:52-53 | a field copied into the form with the `''` fallback and sent with the `undefined` fallback comes back unchanged, except that `''` becomes `undefined` |
| Records.FindById | src/components/tabs/KurseTab.tsx:136 | `find` by `record_id` gives the first record with that id, or nothing when no record has it; an absent id matches nothing |
| Records.FirstMatchOrNone | src/components/tabs/KurseTab.tsx:136 | an id matches nothing exactly when it has no first match, and its first match is unique |
| Records.UniqueMatchIsFirst | src/components/tabs/KurseTab.tsx:136 | in a list without duplicate ids, a record carrying the id is the one `find` returns |
| KurseTab.GetDozentName | src/components/tabs/KurseTab.tsx:133-138 | `N/A` for a missing or empty URL; otherwise the `name` of the first instructor whose `record_id` is the extracted id, `N/A` when none matches or that name is missing or empty; any other result is the name of a record carrying the id |
| KurseTab.GetRaumName | src/components/tabs/KurseTab.tsx:140-145 | the same contract over the rooms and their `raumname` |
| KurseTab.Payload | src/components/tabs/KurseTab.tsx:70-79 | the submit payload; `HandleSubmit` sends it in the one call it makes; `EditedFormRoundTrip` states what it holds after an edit (description empty as `undefined`, numbers through `Number`, references through `createRecordUrl`) |
| KurseTab.EditForm | src/components/tabs/KurseTab.tsx:106-115 | the edit prefill; `OpenEditDialog` installs it; `EditedFormRoundTrip` states that it carries each field or `''`, the numbers' string forms and the extracted ids |
| KurseTab.ReferencesResolveToRecords | src/components/tabs/KurseTab.tsx:133-145 | with duplicate-free lists, a course's references resolve to the name of the instructor and of the room whose ids they carry |
| KurseTab.EditedFormRoundTrip | src/components/tabs/KurseTab.tsx:70-115 | the payload built from a course's edit prefill holds its own title and dates (missing as `''`), its description (missing or empty as `undefined`), its count and price (missing as 0), and `dozent`/`raum` rebuilt with `createRecordUrl` from the extracted ids |
| KurseTab.SubmitAfterEdit | src/components/tabs/KurseTab.tsx:67-117 | opening a course for editing and submitting unchanged issues an update of that course's `record_id` with the payload `EditedFormRoundTrip` describes; on success nothing is edited and the dialog is closed, on failure the dialog stays open on the same record and form; the lists are unchanged |
| KurseTab.ViewState.constructor | src/components/tabs/KurseTab.tsx:30-46 | no lists loaded, `loading` true, dialog closed, nothing edited or pending deletion, every form field `''` |
| KurseTab.ViewState.LoadData | src/components/tabs/KurseTab.tsx:52-65 | the three lists are published together exactly when all three fetches succeed, and are all unchanged otherwise; `loading` is false afterwards; dialog, edit, deletion and form state unchanged |
| KurseTab.ViewState.HandleSubmit | src/components/tabs/KurseTab.tsx:67-91 | exactly one call: update of `editingItem.record_id` when editing, else create, with the payload built from the form (references via `createRecordUrl`, empty description as `undefined`); on success dialog closed, nothing edited, every field `''` and a reload started; on failure nothing changes |
| KurseTab.ViewState.HandleDelete | src/components/tabs/KurseTab.tsx:93-102 | no call and no change when no id is pending (null or `''`); otherwise the pending id is deleted, cleared with a reload on success, kept on failure; nothing else changes |
| KurseTab.ViewState.OpenEditDialog | src/components/tabs/KurseTab.tsx:104-117 | the item is being edited, the dialog is open and the form holds the item's fields (`''` for a missing one, extracted ids for `dozent`/`raum`); the lists, `loading` and the pending deletion are unchanged |
| KurseTab.ViewState.ResetForm | src/components/tabs/KurseTab.tsx:119-131 | nothing edited and every field `''`; everything else unchanged |
| KurseTab.ViewState.OpenCreateDialog | src/components/tabs/KurseTab.tsx:158-162 | the add button resets the form and opens the dialog |
| KurseTab.ViewState.CloseDialog | src/components/tabs/KurseTab.tsx:338 | Cancel closes the dialog and keeps the edited item and the form |
| KurseTab.ViewState.RequestDelete | src/components/tabs/KurseTab.tsx:218 | a card's delete button makes its `record_id` the pending id and changes nothing else |
| KurseTab.ViewState.ConfirmOpenChange | src/components/tabs/KurseTab.tsx:349 | closing the confirmation clears the pending id; opening it changes nothing |
| AnmeldungenTab.GetTeilnehmerName | src/components/tabs/AnmeldungenTab.tsx:117-122 | `N/A` for a missing or empty URL; otherwise the `name` of the first participant whose `record_id` is the extracted id, `N/A` when none matches or the name is missing or empty; any other result is the name of a record carrying the id |
| AnmeldungenTab.GetKursTitel | src/components/tabs/AnmeldungenTab.tsx:124-129 | the same contract over the courses and their `titel` |
| AnmeldungenTab.Payload | src/components/tabs/AnmeldungenTab.tsx:66-71 | the submit payload; `HandleSubmit` sends it; `SubmitAfterEdit` states that it encodes the references for the TEILNEHMER/KURSE apps and copies date and flag |
| AnmeldungenTab.EditForm | src/components/tabs/AnmeldungenTab.tsx:98-103 | the edit prefill; `OpenEditDialog` installs it; `SubmitAfterEdit` states its extracted ids, date or `''` and flag or false |
| AnmeldungenTab.CardShowsReferencedRecords | src/components/tabs/AnmeldungenTab.tsx:165-177 | with duplicate-free lists, an enrollment card shows the name and title of the participant and course whose ids its references carry |
| AnmeldungenTab.SubmitAfterEdit | src/components/tabs/AnmeldungenTab.tsx:63-105 | opening an enrollment for editing and submitting unchanged issues an update of that enrollment's `record_id`, sending its date (missing as `''`) and paid flag (missing as false) and `teilnehmer`/`kurs` rebuilt with `createRecordUrl` from the extracted ids; on success nothing is edited and the dialog is closed, on failure the dialog stays open on the same record and form |
| AnmeldungenTab.ViewState.constructor | src/components/tabs/AnmeldungenTab.tsx:30-42 | no lists loaded, `loading` true, dialog closed, nothing edited or pending, empty form with no date and not paid |
| AnmeldungenTab.ViewState.LoadData | src/components/tabs/AnmeldungenTab.tsx:48-61 | enrollments, courses and participants published together exactly when all three fetches succeed, all unchanged otherwise; `loading` false either way; the rest unchanged |
| AnmeldungenTab.ViewState.HandleSubmit | src/components/tabs/AnmeldungenTab.tsx:63-83 | update of the edited id or create, never both, with `teilnehmer`/`kurs` encoded for the TEILNEHMER/KURSE apps and date and flag copied; on success dialog closed, nothing edited, ids `''`, not paid, date today, reload started; on failure nothing changes |
| AnmeldungenTab.ViewState.HandleDelete | src/components/tabs/AnmeldungenTab.tsx:85-94 | no-op without a pending id; deletes the pending id and clears it with a reload only on success |
| AnmeldungenTab.ViewState.OpenEditDialog | src/components/tabs/AnmeldungenTab.tsx:96-105 | edits the item with extracted ids, the date or `''` and the flag or false, and opens the dialog |
| AnmeldungenTab.ViewState.ResetForm | src/components/tabs/AnmeldungenTab.tsx:107-115 | nothing edited, both ids `''`, not paid, dated today; everything else unchanged |
| AnmeldungenTab.ViewState.OpenCreateDialog | src/components/tabs/AnmeldungenTab.tsx:142-146 | the add button resets the form and opens the dialog |
| AnmeldungenTab.ViewState.CloseDialog | src/components/tabs/AnmeldungenTab.tsx:281 | Cancel closes the dialog and keeps the edited item and the form |
| AnmeldungenTab.ViewState.RequestDelete | src/components/tabs/AnmeldungenTab.tsx:199 | a card's delete button makes its `record_id` the pending id |
| AnmeldungenTab.ViewState.ConfirmOpenChange | src/components/tabs/AnmeldungenTab.tsx:292 | closing the confirmation clears the pending id; opening it changes nothing |
| TeilnehmerTab.EditedFormRoundTrip | src/components/tabs/TeilnehmerTab.tsx:49-88 | the payload built from a participant's edit prefill holds its name and e-mail (missing as `''`) and its phone and birth date (missing or empty as `undefined`) |
| TeilnehmerTab.SubmitAfterEdit | src/components/tabs/TeilnehmerTab.tsx:46-88 | opening a participant for editing and submitting unchanged issues an update of that participant's `record_id` with the payload `EditedFormRoundTrip` describes; on success nothing is edited and the dialog is closed, on failure the dialog stays open on the same record and form |
| TeilnehmerTab.Payload | src/components/tabs/TeilnehmerTab.tsx:49-54 | the submit payload; `HandleSubmit` sends it; `EditedFormRoundTrip` states name and e-mail copied and empty phone or birth date as `undefined` |
| TeilnehmerTab.EditForm | src/components/tabs/TeilnehmerTab.tsx:81-86 | the edit prefill; `OpenEditDialog` installs it; `EditedFormRoundTrip` states each field or `''` |
| TeilnehmerTab.ViewState.constructor | src/components/tabs/TeilnehmerTab.tsx:21-31 | no participants, `loading` true, dialog closed, nothing edited or pending, every field `''` |
| TeilnehmerTab.ViewState.LoadData | src/components/tabs/TeilnehmerTab.tsx:37-44 | the list is replaced on success and unchanged on failure; `loading` false either way |
| TeilnehmerTab.ViewState.HandleSubmit | src/components/tabs/TeilnehmerTab.tsx:46-66 | update of the edited id or create with name and e-mail copied and empty phone or birth date as `undefined`; success closes, resets and reloads; failure changes nothing |
| TeilnehmerTab.ViewState.HandleDelete | src/components/tabs/TeilnehmerTab.tsx:68-77 | returns at once without a pending id; clears the id with a reload on success, keeps it on failure |
| TeilnehmerTab.ViewState.OpenEditDialog | src/components/tabs/TeilnehmerTab.tsx:79-88 | edits the item, fills each field with its value or `''`, opens the dialog |
| TeilnehmerTab.ViewState.ResetForm | src/components/tabs/TeilnehmerTab.tsx:90-93 | nothing edited and every field `''` |
| TeilnehmerTab.ViewState.OpenCreateDialog | src/components/tabs/TeilnehmerTab.tsx:106-110 | the add button resets the form before opening the dialog |
| TeilnehmerTab.ViewState.CloseDialog | src/components/tabs/TeilnehmerTab.tsx:224 | Cancel only closes the dialog; the edited item and the form stay |
| TeilnehmerTab.ViewState.RequestDelete | src/components/tabs/TeilnehmerTab.tsx:161 | a card's delete button makes its `record_id` the pending id |
| TeilnehmerTab.ViewState.ConfirmOpenChange | src/components/tabs/TeilnehmerTab.tsx:235 | closing the confirmation clears the pending id |
| TeilnehmerTab.AddAfterCancelledEdit | src/components/tabs/TeilnehmerTab.tsx:106-110 | after an edit is cancelled, the add button makes the next submit a create from an empty form rather than an update of the cancelled record |
| DozentenTab.SubmitAfterEdit | src/components/tabs/DozentenTab.tsx:44-80 | opening an instructor for editing and submitting unchanged issues an update of that instructor's `record_id`, sending every field back as it was, a missing one as `''` rather than left out; on success nothing is edited and the dialog is closed, on failure the dialog stays open on the same record and form |
| DozentenTab.EditForm | src/components/tabs/DozentenTab.tsx:73-78 | the edit prefill; `OpenEditDialog` installs it and `HandleSubmit` sends it as the payload; `SubmitAfterEdit` states each field or `''` |
| DozentenTab.ViewState.constructor | src/components/tabs/DozentenTab.tsx:19-29 | no instructors, `loading` true, dialog closed, nothing edited or pending, every field `''` |
| DozentenTab.ViewState.LoadData | src/components/tabs/DozentenTab.tsx:35-42 | the list is replaced only on success; `loading` false either way |
| DozentenTab.ViewState.HandleSubmit | src/components/tabs/DozentenTab.tsx:44-58 | the form itself is the payload, sent to update the edited id or to create; success closes, resets and reloads; failure changes nothing |
| DozentenTab.ViewState.HandleDelete | src/components/tabs/DozentenTab.tsx:60-69 | no-op without a pending id; success clears it with a reload, failure keeps it |
| DozentenTab.ViewState.OpenEditDialog | src/components/tabs/DozentenTab.tsx:71-80 | edits the item, fills `name`, `email`, `telefon`, `fachgebiet` with the value or `''`, opens the dialog |
| DozentenTab.ViewState.ResetForm | src/components/tabs/DozentenTab.tsx:82-85 | nothing edited and all four fields `''` |
| DozentenTab.ViewState.OpenCreateDialog | src/components/tabs/DozentenTab.tsx:98-102 | the add button resets the form and opens the dialog |
| DozentenTab.ViewState.CloseDialog | src/components/tabs/DozentenTab.tsx:212 | Cancel only closes the dialog |
| DozentenTab.ViewState.RequestDelete | src/components/tabs/DozentenTab.tsx:150 | a card's delete button makes its `record_id` the pending id |
| DozentenTab.ViewState.ConfirmOpenChange | src/components/tabs/DozentenTab.tsx:223 | dismissing the confirmation sets the pending id back to null |
| RaeumeTab.EditedFormRoundTrip | src/components/tabs/RaeumeTab.tsx:47-86 | the payload built from a room's edit prefill holds its name and building (missing as `''`) and its capacity, a missing capacity as 0 |
| RaeumeTab.SubmitAfterEdit | src/components/tabs/RaeumeTab.tsx:43-86 | opening a room for editing and submitting unchanged issues an update of that room's `record_id` with the payload `EditedFormRoundTrip` describes; on success nothing is edited and the dialog is closed, on failure the dialog stays open on the same record and form |
| RaeumeTab.Payload | src/components/tabs/RaeumeTab.tsx:47-57 | the payload of both branches; `HandleSubmit` sends it; `EditedFormRoundTrip` states name and building copied and the capacity through `Number` |
| RaeumeTab.EditForm | src/components/tabs/RaeumeTab.tsx:80-84 | the edit prefill; `OpenEditDialog` installs it; `EditedFormRoundTrip` states name and building or `''` and the capacity's string form or `''` |
| RaeumeTab.ViewState.constructor | src/components/tabs/RaeumeTab.tsx:19-28 | no rooms, `loading` true, dialog closed, nothing edited or pending, every field `''` |
| RaeumeTab.ViewState.LoadData | src/components/tabs/RaeumeTab.tsx:34-41 | the list is replaced only on success; `loading` cleared either way |
| RaeumeTab.ViewState.HandleSubmit | src/components/tabs/RaeumeTab.tsx:43-65 | update and create carry the same payload (`raumname`, `gebaeude`, `Number(kapazitaet)`), update exactly when editing and of the edited id; success closes, resets and reloads; failure changes nothing |
| RaeumeTab.ViewState.HandleDelete | src/components/tabs/RaeumeTab.tsx:67-76 | the guard holds without a pending id; the id is cleared with a reload only on success |
| RaeumeTab.ViewState.OpenEditDialog | src/components/tabs/RaeumeTab.tsx:78-86 | edits the item, copies `raumname`/`gebaeude` or `''`, and the capacity's string form or `''` when missing |
| RaeumeTab.ViewState.ResetForm | src/components/tabs/RaeumeTab.tsx:88-91 | nothing edited and all three fields `''` |
| RaeumeTab.ViewState.OpenCreateDialog | src/components/tabs/RaeumeTab.tsx:104-108 | the add button resets the form (nothing edited) before opening the dialog |
| RaeumeTab.ViewState.CloseDialog | src/components/tabs/RaeumeTab.tsx:199 | Cancel only closes the dialog |
| RaeumeTab.ViewState.RequestDelete | src/components/tabs/RaeumeTab.tsx:144 | a card's delete button makes its `record_id` the pending id |
| RaeumeTab.ViewState.ConfirmOpenChange | src/components/tabs/RaeumeTab.tsx:210 | dismissing the confirmation clears the pending id |

## Left out

- Rendering: card grids, icons, empty-state texts, date formatting with `date-fns` and `preis?.toFixed(2)` are presentation.
- The input bindings (`setFormData({ ...formData, field: v })` on each input) are not modelled as operations; the form is whatever the state holds.
- `src/pages/Dashboard.tsx` only switches tabs and is not part of this model.
- `extractRecordId` and `createRecordUrl` belong to the storage client, which is not part of this model; they are parameters, and no round trip between them is claimed, so an edit-then-submit lemma states the rebuilt reference URL and not that it equals the stored one.
- Js.Number: parses only `''` and optionally signed plain decimal digits. Every other string is `NonInteger`, including strings JavaScript reads as integers: exponents (`"1e3"` is 1000), hex (`"0x1A"` is 26), surrounding whitespace (`" 5"` is 5) and trailing fractional zeros (`"1.0"` is 1). A `type="number"` input can hold `"1e3"`. Prices and counts with a fractional part are not modelled, nor `toString` of numbers of 1e21 and above.
- Counts, prices and capacities are unbounded integers in the model, in the record fields and in `Number`. JavaScript numbers are doubles, which round integers beyond 2^53: `Number("9007199254740993")` is 9007199254740992 there, while the model keeps the two values apart.
- Form validation (`required`, `type="email"`, `type="number"`) is done by the browser and is not in the code; the model lets every form be submitted, so a missing capacity or count reaches `Number('')` and is sent as 0.
- Concurrency: the completion order inside `Promise.all`, double submits, a reload finishing after a later one, and state updates after the component unmounts. Each handler runs as one step.
- Submit and delete errors are only logged with `console.error`; the log is not modelled.
- A failed load is not caught by the tab: `loadData` is `try … finally`, so it clears `loading` and rethrows, and neither the mount effect nor the un-awaited reload after a mutation handles the rejection. The model renders that unhandled rejection as `published == false` with the lists unchanged, and does not model the rejection itself.
- `loading` does not return to true on a later reload; the model follows the code there.
- The uniqueness of `record_id` inside a loaded list is a property of the record store; the resolver lemmas take it as a precondition.
