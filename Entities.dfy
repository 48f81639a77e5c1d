/**
 * The record fields of the five entity types, as the tabs read them: every
 * field may be missing. Counts, prices and capacities are restricted to
 * integers. Reference fields hold the URL that `createRecordUrl` builds.
 */
module Entities {
  import opened Js
  import opened Records

  datatype KursFields = KursFields(
    titel: Option<string>,
    beschreibung: Option<string>,
    startdatum: Option<string>,
    enddatum: Option<string>,
    max_teilnehmer: Option<int>,
    preis: Option<int>,
    dozent: Option<string>,
    raum: Option<string>)

  datatype DozentenFields = DozentenFields(
    name: Option<string>,
    email: Option<string>,
    telefon: Option<string>,
    fachgebiet: Option<string>)

  datatype TeilnehmerFields = TeilnehmerFields(
    name: Option<string>,
    email: Option<string>,
    telefon: Option<string>,
    geburtsdatum: Option<string>)

  datatype RaeumeFields = RaeumeFields(
    raumname: Option<string>,
    gebaeude: Option<string>,
    kapazitaet: Option<int>)

  datatype AnmeldungenFields = AnmeldungenFields(
    teilnehmer: Option<string>,
    kurs: Option<string>,
    anmeldedatum: Option<string>,
    bezahlt: Option<bool>)

  type Kurse = Record<KursFields>
  type Dozenten = Record<DozentenFields>
  type Teilnehmer = Record<TeilnehmerFields>
  type Raeume = Record<RaeumeFields>
  type Anmeldungen = Record<AnmeldungenFields>
}
