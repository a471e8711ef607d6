/**
 * The JSON shapes the clients and the backend exchange, reduced to the
 * parts the code reads: objects whose values are strings, the reply of the
 * `get_logs` route, and HTTP status classes.
 */
module Wire {
  import opened Text

  /** A JSON object with string values (log metadata, request payloads). */
  type Object = map<string, string>

  /**
   * JavaScript `obj.key || fallback` on a string field: a missing or empty
   * value falls back.
   */
  function FieldOr(obj: Object, key: string, fallback: string): string {
    if key in obj && obj[key] != "" then obj[key] else fallback
  }

  /** Python `obj.get(key, fallback)`: only a missing key falls back. */
  function PyGet(obj: Object, key: string, fallback: string): string {
    if key in obj then obj[key] else fallback
  }

  /** The two fallbacks differ only on a key that is present but empty. */
  lemma FieldOrAgreesWithPyGet(obj: Object, key: string, fallback: string)
    ensures FieldOr(obj, key, fallback) != PyGet(obj, key, fallback) <==>
            key in obj && obj[key] == "" && fallback != ""
  {
  }

  /**
   * The `logs` member of a `get_logs` reply body: missing, a JSON array of
   * metadata objects, or the store's result object with parallel `ids`,
   * `metadatas` and `documents` lists.
   */
  datatype LogsField =
    | NoLogs
    | LogsArray(entries: seq<Object>)
    | LogsRecord(ids: seq<string>, metadatas: Option<seq<Object>>, documents: seq<string>)

  /** A 2xx status: what `fetch` reports as `ok` and what axios resolves on. */
  predicate IsSuccess(status: int) {
    200 <= status <= 299
  }
}
