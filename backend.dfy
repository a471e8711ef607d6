/**
 * The backend's request logic over an abstract store of expert logs:
 * `store_log` validates the six-field payload and adds one record,
 * `get_logs` lists an expert's records with an optional elevator filter,
 * and `knowledge_search` builds the store query and pairs the returned
 * rows into result objects with "N/A" defaults.
 *
 * The store is a sequence of records in insertion order. Whether a store
 * call raises is a parameter, as are the fresh id of a new record and the
 * rows a semantic query returns (their ranking is not modelled).
 */
module Backend {
  import opened Text
  import opened Wire

  /** The validated `store_log` body. */
  datatype ExpertLog = ExpertLog(elevatorId: string, problem: string, cause: string,
                                 steps: string, expertId: string, timestamp: string)

  const REQUIRED_KEYS: set<string> := {"elevator_id", "problem", "cause", "steps", "expert_id", "timestamp"}
  const N_RESULTS := 3
  const NOT_AVAILABLE := "N/A"

  /**
   * `ExpertLog(**request.get_json())`: a body that is missing, or lacks any
   * of the six keys, is rejected; extra keys are ignored.
   */
  function ParseExpertLog(body: Option<Object>): (r: Option<ExpertLog>)
    ensures r.Some? <==> body.Some? && REQUIRED_KEYS <= body.value.Keys
    ensures r.Some? ==>
              r.value.elevatorId == body.value["elevator_id"] && r.value.problem == body.value["problem"] &&
              r.value.cause == body.value["cause"] && r.value.steps == body.value["steps"] &&
              r.value.expertId == body.value["expert_id"] && r.value.timestamp == body.value["timestamp"]
  {
    if body.None? then None
    else
      var b := body.value;
      if "elevator_id" in b && "problem" in b && "cause" in b && "steps" in b && "expert_id" in b && "timestamp" in b
      then Some(ExpertLog(b["elevator_id"], b["problem"], b["cause"], b["steps"], b["expert_id"], b["timestamp"]))
      else None
  }

  /** The stored metadata: the six fields under their wire names. */
  function Metadata(log: ExpertLog): Object {
    map[
      "elevator_id" := log.elevatorId,
      "problem" := log.problem,
      "cause" := log.cause,
      "steps" := log.steps,
      "expert_id" := log.expertId,
      "timestamp" := log.timestamp
    ]
  }

  /** The metadata holds exactly the six fields, and parses back to the same log. */
  lemma MetadataRoundTrip(log: ExpertLog)
    ensures Metadata(log).Keys == REQUIRED_KEYS
    ensures ParseExpertLog(Some(Metadata(log))) == Some(log)
  {
  }

  /** One labelled field of the document: `name: value.` */
  function Labelled(name: string, value: string): string {
    name + value + "."
  }

  /** The text embedded for search: the elevator, problem, cause and steps with labels. */
  function DocumentContent(log: ExpertLog): string {
    Labelled("Elevator ID: ", log.elevatorId) + " " +
    Labelled("Problem: ", log.problem) + " " +
    Labelled("Root Cause: ", log.cause) + " " +
    Labelled("Fixing Steps: ", log.steps)
  }

  /** A middle part of a concatenation occurs in it. */
  lemma ContainsMiddle(a: string, p: string, b: string)
    ensures Contains(a + p + b, p)
  {
    OccursAtEnd(a, p);
    OccursExtend(a + p, p, |a|, b);
  }

  lemma SecondOfFour(e: string, p: string, c: string, s: string, sep: string)
    ensures Contains(e + sep + p + sep + c + sep + s, p)
  {
    assert e + sep + p + sep + c + sep + s == (e + sep) + p + (sep + c + sep + s);
    ContainsMiddle(e + sep, p, sep + c + sep + s);
  }

  lemma ThirdOfFour(e: string, p: string, c: string, s: string, sep: string)
    ensures Contains(e + sep + p + sep + c + sep + s, c)
  {
    assert e + sep + p + sep + c + sep + s == (e + sep + p + sep) + c + (sep + s);
    ContainsMiddle(e + sep + p + sep, c, sep + s);
  }

  /**
   * In four parts joined by a separator, the first opens the text, the
   * last closes it, and the two middle ones occur in it.
   */
  lemma FourParts(e: string, p: string, c: string, s: string, sep: string)
    ensures var doc := e + sep + p + sep + c + sep + s;
            OccursAt(doc, e, 0) && Contains(doc, p) && Contains(doc, c) && OccursAt(doc, s, |doc| - |s|)
  {
    assert e + sep + p + sep + c + sep + s == e + (sep + p + sep + c + sep + s);
    OccursAtStart(e, sep + p + sep + c + sep + s);
    SecondOfFour(e, p, c, s, sep);
    ThirdOfFour(e, p, c, s, sep);
    OccursAtEnd(e + sep + p + sep + c + sep, s);
  }

  /**
   * The document opens with the labelled elevator id and ends with the
   * labelled steps, and the labelled problem and cause occur in it.
   */
  lemma DocumentLayout(log: ExpertLog)
    ensures var doc := DocumentContent(log);
            OccursAt(doc, Labelled("Elevator ID: ", log.elevatorId), 0) &&
            Contains(doc, Labelled("Problem: ", log.problem)) &&
            Contains(doc, Labelled("Root Cause: ", log.cause)) &&
            OccursAt(doc, Labelled("Fixing Steps: ", log.steps), |doc| - |Labelled("Fixing Steps: ", log.steps)|)
  {
    FourParts(Labelled("Elevator ID: ", log.elevatorId), Labelled("Problem: ", log.problem),
              Labelled("Root Cause: ", log.cause), Labelled("Fixing Steps: ", log.steps), " ");
  }

  /** A record of the store. */
  datatype StoredLog = StoredLog(id: string, document: string, metadata: Object)

  function Record(id: string, log: ExpertLog): StoredLog {
    StoredLog(id, DocumentContent(log), Metadata(log))
  }

  /** The `store_log` reply: its status and, on success, the new id. */
  datatype StoreReply = StoreReply(status: int, id: Option<string>)

  /** A `where` filter: every key must be present in the metadata with that value. */
  predicate Matches(r: StoredLog, filter: Object) {
    forall k :: k in filter ==> k in r.metadata && r.metadata[k] == filter[k]
  }

  /** The records matching a filter, in store order. */
  function Matching(records: seq<StoredLog>, filter: Object): (r: seq<StoredLog>)
    ensures |r| <= |records|
    ensures forall x :: x in r ==> x in records && Matches(x, filter)
    decreases |records|
  {
    if |records| == 0 then []
    else
      var rest := Matching(records[..|records| - 1], filter);
      var last := records[|records| - 1];
      if Matches(last, filter) then rest + [last] else rest
  }

  /** Every matching record of the store is listed. */
  lemma {:induction false} MatchingComplete(records: seq<StoredLog>, filter: Object, x: StoredLog)
    requires x in records && Matches(x, filter)
    ensures x in Matching(records, filter)
    decreases |records|
  {
    var init := records[..|records| - 1];
    if x != records[|records| - 1] {
      assert x in init by {
        var i :| 0 <= i < |records| && records[i] == x;
        assert init[i] == x;
      }
      MatchingComplete(init, filter, x);
    }
  }

  /** Adding a record appends it to a listing exactly when it matches. */
  lemma MatchingAppend(records: seq<StoredLog>, filter: Object, x: StoredLog)
    ensures Matching(records + [x], filter) ==
            Matching(records, filter) + (if Matches(x, filter) then [x] else [])
  {
    assert (records + [x])[..|records|] == records;
  }

  /**
   * The `get_logs` filter: always the expert id, plus the elevator id only
   * when that query parameter is present and non-empty.
   */
  function LogsFilter(expertId: string, elevatorArg: Option<string>): (r: Object)
    ensures "expert_id" in r && r["expert_id"] == expertId
    ensures "elevator_id" in r <==> elevatorArg.Some? && elevatorArg.value != ""
    ensures "elevator_id" in r ==> r["elevator_id"] == elevatorArg.value
    ensures r.Keys <= {"expert_id", "elevator_id"}
  {
    if elevatorArg.Some? && elevatorArg.value != "" then map["expert_id" := expertId, "elevator_id" := elevatorArg.value]
    else map["expert_id" := expertId]
  }

  /** The `get_logs` reply body, as the store's result object. */
  function ListingOf(records: seq<StoredLog>): (r: LogsField)
    ensures r.LogsRecord? && r.metadatas.Some?
    ensures |r.ids| == |r.metadatas.value| == |r.documents| == |records|
    ensures forall k :: 0 <= k < |records| ==>
              r.ids[k] == records[k].id && r.metadatas.value[k] == records[k].metadata &&
              r.documents[k] == records[k].document
  {
    LogsRecord(seq(|records|, k requires 0 <= k < |records| => records[k].id),
               Some(seq(|records|, k requires 0 <= k < |records| => records[k].metadata)),
               seq(|records|, k requires 0 <= k < |records| => records[k].document))
  }

  /** The query `knowledge_search` sends to the store. */
  datatype StoreQuery = StoreQuery(text: string, nResults: nat, filter: Option<Object>)

  /**
   * `knowledge_search`'s guard and query: no query (missing or empty) is a
   * 400; otherwise three results are asked for, filtered by the elevator
   * only when that parameter is present and non-empty. A blank but
   * non-empty query is searched for as it is.
   */
  function SearchQueryFor(queryArg: Option<string>, elevatorArg: Option<string>): (r: Option<StoreQuery>)
    ensures r.None? <==> queryArg.None? || queryArg.value == ""
    ensures r.Some? ==> r.value.text == queryArg.value && r.value.nResults == N_RESULTS
    ensures r.Some? ==> (r.value.filter.Some? <==> elevatorArg.Some? && elevatorArg.value != "")
    ensures r.Some? && r.value.filter.Some? ==> r.value.filter.value == map["elevator_id" := elevatorArg.value]
  {
    if queryArg.None? || queryArg.value == "" then None
    else
      var filter := if elevatorArg.Some? && elevatorArg.value != "" then Some(map["elevator_id" := elevatorArg.value]) else None;
      Some(StoreQuery(queryArg.value, N_RESULTS, filter))
  }

  /** The first row of each list a store query returns. */
  datatype QueryRows = QueryRows(documents: seq<string>, metadatas: seq<Object>, distances: seq<real>)

  /** One search result object: metadata fields with "N/A" defaults, the distance to four places, the document. */
  function SearchHit(document: string, metadata: Object, distance: real): Object {
    map[
      "elevator_id" := PyGet(metadata, "elevator_id", NOT_AVAILABLE),
      "problem" := PyGet(metadata, "problem", NOT_AVAILABLE),
      "cause" := PyGet(metadata, "cause", NOT_AVAILABLE),
      "steps" := PyGet(metadata, "steps", NOT_AVAILABLE),
      "expert_id" := PyGet(metadata, "expert_id", NOT_AVAILABLE),
      "distance" := Fixed4(distance),
      "full_document" := document
    ]
  }

  /** The result object of a stored record carries its fields unchanged, and its document. */
  lemma HitOfStoredRecord(id: string, log: ExpertLog, distance: real)
    ensures var hit := SearchHit(DocumentContent(log), Metadata(log), distance);
            hit["problem"] == log.problem && hit["cause"] == log.cause && hit["steps"] == log.steps &&
            hit["elevator_id"] == log.elevatorId && hit["expert_id"] == log.expertId &&
            hit["full_document"] == Record(id, log).document
  {
  }

  function Min(a: nat, b: nat): nat {
    if a <= b then a else b
  }

  /**
   * `zip(documents, metadatas, distances)`: result k pairs the k-th entry
   * of each row, in the store's order, up to the shortest row.
   */
  method ExtractResults(rows: QueryRows) returns (hits: seq<Object>)
    ensures |hits| == Min(|rows.documents|, Min(|rows.metadatas|, |rows.distances|))
    ensures forall k :: 0 <= k < |hits| ==>
              hits[k] == SearchHit(rows.documents[k], rows.metadatas[k], rows.distances[k])
  {
    var n := Min(|rows.documents|, Min(|rows.metadatas|, |rows.distances|));
    hits := [];
    var i := 0;
    while i < n
      invariant 0 <= i <= n && |hits| == i
      invariant forall k :: 0 <= k < i ==>
                  hits[k] == SearchHit(rows.documents[k], rows.metadatas[k], rows.distances[k])
    {
      hits := hits + [SearchHit(rows.documents[i], rows.metadatas[i], rows.distances[i])];
      i := i + 1;
    }
  }

  /** A `knowledge_search` reply: its status and its `results` list (empty unless 200). */
  datatype SearchReply = SearchReply(status: int, results: seq<Object>)

  /** The store: the records of the expert knowledge collection, oldest first. */
  class Collection {
    var records: seq<StoredLog>

    /** The collection as opened: whatever a persistent store already holds. */
    constructor(existing: seq<StoredLog>)
      ensures records == existing
    {
      records := existing;
    }

    /**
     * `store_log`: an invalid body is a 400 and stores nothing; a valid one
     * is added under the fresh id with its document and metadata and
     * answered with 201 and that id, unless the store raises (500, nothing
     * stored).
     */
    method StoreLog(body: Option<Object>, newId: string, addRaises: bool) returns (reply: StoreReply)
      modifies this
      ensures ParseExpertLog(body).None? ==> reply == StoreReply(400, None) && records == old(records)
      ensures ParseExpertLog(body).Some? && addRaises ==> reply == StoreReply(500, None) && records == old(records)
      ensures ParseExpertLog(body).Some? && !addRaises ==>
                reply == StoreReply(201, Some(newId)) && records == old(records) + [Record(newId, ParseExpertLog(body).value)]
    {
      var parsed := ParseExpertLog(body);
      if parsed.None? {
        return StoreReply(400, None);
      }
      if addRaises {
        return StoreReply(500, None);
      }
      records := records + [Record(newId, parsed.value)];
      reply := StoreReply(201, Some(newId));
    }

    /**
     * `get_logs`: 200 with the store's result object for the expert's
     * matching records, or 500 with no `logs` when the store raises.
     */
    method GetLogs(expertId: string, elevatorArg: Option<string>, getRaises: bool) returns (status: int, logs: LogsField)
      ensures getRaises ==> status == 500 && logs == NoLogs
      ensures !getRaises ==> status == 200 && logs == ListingOf(Matching(records, LogsFilter(expertId, elevatorArg)))
    {
      if getRaises {
        return 500, NoLogs;
      }
      status, logs := 200, ListingOf(Matching(records, LogsFilter(expertId, elevatorArg)));
    }

    /**
     * `knowledge_search`: 400 without a query, 500 when the store query
     * raises (`rows` is `None`), else 200 with the extracted results; the
     * store is asked exactly `SearchQueryFor`.
     */
    method KnowledgeSearch(queryArg: Option<string>, elevatorArg: Option<string>, rows: Option<QueryRows>)
      returns (asked: Option<StoreQuery>, reply: SearchReply)
      ensures asked == SearchQueryFor(queryArg, elevatorArg)
      ensures asked.None? ==> reply == SearchReply(400, [])
      ensures asked.Some? && rows.None? ==> reply == SearchReply(500, [])
      ensures asked.Some? && rows.Some? ==>
                reply.status == 200 &&
                |reply.results| == Min(|rows.value.documents|, Min(|rows.value.metadatas|, |rows.value.distances|)) &&
                forall k :: 0 <= k < |reply.results| ==>
                  reply.results[k] == SearchHit(rows.value.documents[k], rows.value.metadatas[k], rows.value.distances[k])
    {
      asked := SearchQueryFor(queryArg, elevatorArg);
      if asked.None? {
        return asked, SearchReply(400, []);
      }
      if rows.None? {
        return asked, SearchReply(500, []);
      }
      var hits := ExtractResults(rows.value);
      reply := SearchReply(200, hits);
    }
  }

  /**
   * A log stored with 201 is listed by the next `get_logs` for its expert,
   * last, whether or not the request filters by its elevator.
   */
  lemma StoredLogIsListed(records: seq<StoredLog>, id: string, log: ExpertLog, filterElevator: bool)
    ensures var filter := LogsFilter(log.expertId, if filterElevator then Some(log.elevatorId) else None);
            var listed := Matching(records + [Record(id, log)], filter);
            |listed| > 0 && listed[|listed| - 1] == Record(id, log)
  {
    var filter := LogsFilter(log.expertId, if filterElevator then Some(log.elevatorId) else None);
    MatchingAppend(records, filter, Record(id, log));
  }

  /** A record of another expert is never listed, whatever the elevator filter. */
  lemma OtherExpertsHidden(records: seq<StoredLog>, expertId: string, elevatorArg: Option<string>, k: nat)
    requires k < |records| && "expert_id" in records[k].metadata && records[k].metadata["expert_id"] != expertId
    ensures records[k] !in Matching(records, LogsFilter(expertId, elevatorArg))
  {
  }
}
