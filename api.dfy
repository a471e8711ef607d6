/**
 * The knowledge API client of the web front end: the search call with its
 * optional elevator filter and its one-record fallback on failure, and the
 * chat-log persistence call with its identity guard, the serialisation of
 * the results into one `ai_response` text and the payload defaults.
 *
 * The HTTP calls themselves are not modelled: the search takes the answer
 * the backend gave (or the failure axios reported) as a parameter, and the
 * POST takes the status the backend answered with, if any.
 */
module KnowledgeApi {
  import opened Text
  import opened Wire

  /** `parseFloat(r.distance)`: a number, or NaN. */
  datatype Distance = Numeric(value: real) | NotNumeric

  /** A search result record as the front end reads it. */
  datatype KnowledgeRecord = KnowledgeRecord(problem: string, cause: string, steps: string, distance: Distance)

  const N_RESULTS := 3
  const ERROR_PROBLEM := "Error"
  const ERROR_CAUSE := "Could not reach knowledge base or backend service."
  const DEFAULT_ERROR_DETAIL := "Server unreachable or misconfigured."
  const NO_STEPS := "No relevant steps found."
  const DEFAULT_ELEVATOR := "All"
  const COMPLETED := "completed"

  /** The query string of the `knowledge_search` URL, decoded. */
  datatype SearchRequest = SearchRequest(query: string, nResults: nat, elevatorId: Option<string>)

  /**
   * The search request: always three results, and an elevator filter only
   * when the elevator id is non-blank, then trimmed.
   */
  function SearchRequestFor(query: string, elevatorId: string): (r: SearchRequest)
    ensures r.query == query && r.nResults == N_RESULTS
    ensures r.elevatorId.Some? <==> !IsBlank(elevatorId)
    ensures r.elevatorId.Some? ==> r.elevatorId.value == Trim(elevatorId)
  {
    SearchRequest(query, N_RESULTS, if IsBlank(elevatorId) then None else Some(Trim(elevatorId)))
  }

  /**
   * An elevator filter, when sent, is a non-empty string with no surrounding
   * whitespace.
   */
  lemma SearchFilterIsTrimmed(query: string, elevatorId: string)
    ensures var r := SearchRequestFor(query, elevatorId);
            r.elevatorId.Some? ==> r.elevatorId.value != "" && Trimmed(r.elevatorId.value)
  {
    TrimIsTrimmed(elevatorId);
    BlankIffTrimEmpty(elevatorId);
  }

  /**
   * How the GET ended: a 2xx answer whose body may or may not carry a
   * `results` list, or an axios error with its message.
   */
  datatype SearchOutcome = Answered(results: Option<seq<KnowledgeRecord>>) | Failed(message: string)

  /** The record returned in place of results when the request fails. */
  function Sentinel(message: string): KnowledgeRecord {
    KnowledgeRecord(ERROR_PROBLEM, ERROR_CAUSE, if message == "" then DEFAULT_ERROR_DETAIL else message, Numeric(1.0))
  }

  /** `searchKnowledge`: the backend's list, `[]` when absent, or the sentinel alone. */
  function SearchKnowledge(outcome: SearchOutcome): (r: seq<KnowledgeRecord>)
    ensures outcome.Answered? && outcome.results.Some? ==> r == outcome.results.value
    ensures outcome.Answered? && outcome.results.None? ==> r == []
    ensures outcome.Failed? ==>
              |r| == 1 && r[0].problem == ERROR_PROBLEM && r[0].cause == ERROR_CAUSE &&
              r[0].distance == Numeric(1.0) &&
              r[0].steps == (if outcome.message != "" then outcome.message else DEFAULT_ERROR_DETAIL)
  {
    match outcome
    case Answered(results) => if results.Some? then results.value else []
    case Failed(message) => [Sentinel(message)]
  }

  /** The distance as both the log text and the result cards print it. */
  function DistanceText(d: Distance): string {
    match d
    case Numeric(v) => Fixed4(v)
    case NotNumeric => "N/A"
  }

  /** The text block for the record at index `i`, numbered from 1. */
  function MatchBlock(i: nat, r: KnowledgeRecord): string {
    "--- Match " + NatToString(i + 1) + " (Distance: " + DistanceText(r.distance) + ") ---\n" +
    "Problem: " + r.problem + "\n" +
    "Cause: " + r.cause + "\n" +
    "Steps: " + r.steps
  }

  function MatchBlocks(results: seq<KnowledgeRecord>): (r: seq<string>)
    ensures |r| == |results|
    ensures forall i :: 0 <= i < |results| ==> r[i] == MatchBlock(i, results[i])
  {
    seq(|results|, i requires 0 <= i < |results| => MatchBlock(i, results[i]))
  }

  /** The `ai_response` text stored for a chat turn. */
  function SerializeResults(results: Option<seq<KnowledgeRecord>>): (r: string)
    ensures results.None? || results.value == [] ==> r == NO_STEPS
    ensures results.Some? && results.value != [] ==> r == Join(MatchBlocks(results.value), "\n\n")
  {
    if results.Some? && |results.value| > 0 then Join(MatchBlocks(results.value), "\n\n")
    else NO_STEPS
  }

  /** The block of record `i` starts at the `i`-th join offset. */
  lemma SerializedBlockAt(results: seq<KnowledgeRecord>, i: nat)
    requires i < |results|
    ensures OccursAt(SerializeResults(Some(results)), MatchBlock(i, results[i]),
                     JoinOffset(MatchBlocks(results), "\n\n", i))
  {
    var blocks := MatchBlocks(results);
    JoinLayout(blocks, "\n\n", i);
    assert blocks[i] == MatchBlock(i, results[i]);
  }

  /**
   * Each record's block occurs in the serialised text, at an offset that
   * grows with the record's index: one block per record, in input order.
   */
  lemma SerializedBlocksInOrder(results: seq<KnowledgeRecord>, i: nat, j: nat)
    requires i < j < |results|
    ensures var text := SerializeResults(Some(results));
            var offsetI := JoinOffset(MatchBlocks(results), "\n\n", i);
            var offsetJ := JoinOffset(MatchBlocks(results), "\n\n", j);
            OccursAt(text, MatchBlock(i, results[i]), offsetI) &&
            OccursAt(text, MatchBlock(j, results[j]), offsetJ) &&
            offsetI < offsetJ
  {
    SerializedBlockAt(results, i);
    SerializedBlockAt(results, j);
    JoinOffsetIncreasing(MatchBlocks(results), "\n\n", i, j);
  }

  /** Each record's block occurs in the serialised text. */
  lemma SerializedBlockPresent(results: seq<KnowledgeRecord>, i: nat)
    requires i < |results|
    ensures Contains(SerializeResults(Some(results)), MatchBlock(i, results[i]))
  {
    SerializedBlockAt(results, i);
  }

  /**
   * One more record appends a blank line and its block; a single record is
   * its block alone.
   */
  lemma SerializeAppend(results: seq<KnowledgeRecord>, r: KnowledgeRecord)
    ensures SerializeResults(Some([r])) == MatchBlock(0, r)
    ensures |results| > 0 ==>
              SerializeResults(Some(results + [r])) ==
              SerializeResults(Some(results)) + "\n\n" + MatchBlock(|results|, r)
  {
    assert MatchBlocks([r]) == [MatchBlock(0, r)];
    if |results| > 0 {
      assert MatchBlocks(results + [r]) == MatchBlocks(results) + [MatchBlock(|results|, r)];
      JoinAppend(MatchBlocks(results), "\n\n", MatchBlock(|results|, r));
    }
  }

  /** The fresh values the call draws: `crypto.randomUUID()` and the ISO time. */
  datatype Fresh = Fresh(logId: string, timestamp: string)

  /** The body of the `store_log` POST. */
  function LogPayload(expertId: string, userQuery: string, results: Option<seq<KnowledgeRecord>>,
                      elevatorId: string, generated: Fresh): Object
  {
    map[
      "expert_id" := expertId,
      "elevator_id" := if elevatorId != "" then elevatorId else DEFAULT_ELEVATOR,
      "user_query" := userQuery,
      "ai_response" := SerializeResults(results),
      "status" := COMPLETED,
      "timestamp" := generated.timestamp,
      "log_id" := generated.logId
    ]
  }

  /** The payload has exactly seven keys, with the defaults filled in. */
  lemma PayloadShape(expertId: string, userQuery: string, results: Option<seq<KnowledgeRecord>>,
                     elevatorId: string, generated: Fresh)
    ensures var p := LogPayload(expertId, userQuery, results, elevatorId, generated);
            p.Keys == {"expert_id", "elevator_id", "user_query", "ai_response", "status", "timestamp", "log_id"} &&
            p["elevator_id"] == (if elevatorId == "" then DEFAULT_ELEVATOR else elevatorId) &&
            p["elevator_id"] != "" &&
            p["status"] == COMPLETED &&
            p["log_id"] == generated.logId &&
            p["user_query"] == userQuery &&
            p["ai_response"] == SerializeResults(results)
  {
  }

  /** What `persistLog` did: whether it reports success, and what it posted. */
  datatype PersistResult = PersistResult(saved: bool, posted: Option<Object>)

  /**
   * `persistLog`: nothing is posted without an expert id; otherwise the
   * payload is posted and the call reports true exactly when the POST was
   * answered with a 2xx status (`postStatus` is `None` when no answer came).
   */
  function PersistLog(expertId: string, userQuery: string, results: Option<seq<KnowledgeRecord>>,
                      elevatorId: string, generated: Fresh, postStatus: Option<int>): (r: PersistResult)
    ensures expertId == "" ==> !r.saved && r.posted.None?
    ensures expertId != "" ==> r.posted == Some(LogPayload(expertId, userQuery, results, elevatorId, generated))
    ensures r.saved <==> expertId != "" && postStatus.Some? && IsSuccess(postStatus.value)
  {
    if expertId == "" then PersistResult(false, None)
    else
      var saved := postStatus.Some? && IsSuccess(postStatus.value);
      PersistResult(saved, Some(LogPayload(expertId, userQuery, results, elevatorId, generated)))
  }
}
