/**
 * What the tabs use of the record-storage client: records with an opaque
 * `record_id`, the app identifiers, the two foreign reference functions, the
 * outcomes of remote calls, and `Array.prototype.find` by `record_id`.
 */
module Records {
  import opened Js

  /** A stored record: its id and its field values. */
  datatype Record<F> = Record(record_id: string, fields: F)

  /** The keys of `APP_IDS`, one per entity type. */
  datatype AppId = KURSE | DOZENTEN | TEILNEHMER | RAEUME | ANMELDUNGEN

  /**
   * `extractRecordId` and `createRecordUrl` belong to the storage client and
   * are not modelled: every operation that uses them takes them as a value
   * and nothing is assumed about either.
   */
  datatype RefCodec = RefCodec(
    extractRecordId: Option<string> -> Option<string>,
    createRecordUrl: (AppId, string) -> string)

  /** The outcome of one `get...()` list call. */
  datatype Fetch<T> = Fetched(records: seq<T>) | FetchFailed

  /** The outcome of one create, update or delete call. */
  datatype Outcome = Succeeded | Failed

  /** The remote call a form submit issues. */
  datatype SubmitCall<P> = Update(id: string, payload: P) | Create(payload: P)

  /** The display value of a reference that cannot be resolved. */
  const NotAvailable: string := "N/A"

  /** `i` is the first index whose `record_id` is `id`. */
  ghost predicate IsFirstMatch<F>(rs: seq<Record<F>>, id: Option<string>, i: int) {
    && 0 <= i < |rs|
    && Some(rs[i].record_id) == id
    && forall j :: 0 <= j < i ==> Some(rs[j].record_id) != id
  }

  /** No record has the `record_id` `id` (an absent `id` matches nothing). */
  ghost predicate NoMatch<F>(rs: seq<Record<F>>, id: Option<string>) {
    forall j :: 0 <= j < |rs| ==> Some(rs[j].record_id) != id
  }

  /** No two records of a collection share a `record_id`. */
  ghost predicate UniqueIds<F>(rs: seq<Record<F>>) {
    forall i, j :: 0 <= i < |rs| && 0 <= j < |rs| && rs[i].record_id == rs[j].record_id ==> i == j
  }

  /** `rs.find((r) => r.record_id === id)`, as the index of the record found. */
  function FindById<F>(rs: seq<Record<F>>, id: Option<string>): (r: Option<nat>)
    ensures r.Some? ==> IsFirstMatch(rs, id, r.value)
    ensures r.None? ==> NoMatch(rs, id)
  {
    if rs == [] then None
    else if Some(rs[0].record_id) == id then Some(0)
    else match FindById(rs[1..], id)
      case None => None
      case Some(k) => Some(k + 1)
  }

  /** Every id either matches nothing or has exactly one first match. */
  lemma FirstMatchOrNone<F>(rs: seq<Record<F>>, id: Option<string>)
    ensures NoMatch(rs, id) <==> !exists i :: IsFirstMatch(rs, id, i)
    ensures forall i, k :: IsFirstMatch(rs, id, i) && IsFirstMatch(rs, id, k) ==> i == k
  {
    var r := FindById(rs, id);
  }

  /** In a collection without duplicate ids, any record with the id is the first match. */
  lemma UniqueMatchIsFirst<F>(rs: seq<Record<F>>, id: Option<string>, k: int)
    requires UniqueIds(rs)
    requires 0 <= k < |rs| && Some(rs[k].record_id) == id
    ensures IsFirstMatch(rs, id, k)
  {
  }
}
