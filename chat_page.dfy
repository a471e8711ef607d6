/**
 * The technician's chat page: the list of previous chat logs for the
 * entered elevator id (newest first), the selected log handed to the chat
 * box, and the refresh after the chat box saves a log.
 *
 * The page's user is fixed (`userId`); the `get_logs` GET is a parameter
 * holding how it ended, and `now` stands for `new Date().toISOString()`.
 */
module ChatPageView {
  import opened Text
  import opened Wire
  import opened ChatBoxSession

  const UNKNOWN_PROBLEM := "Unknown Problem"
  const NO_RESPONSE := "No response recorded"
  const NO_CAUSE := "No cause mentioned"
  const TITLE_LIMIT := 40
  const CAUSE_LIMIT := 50
  const NO_LOGS_NOTICE := "No logs found for this Elevator ID."
  const ENTER_ID_NOTICE := "Enter an Elevator ID to view logs."

  /** How the `get_logs` GET ended: a 2xx body's `logs` member, or a thrown error. */
  datatype LogsReply = Got(logs: LogsField) | RequestFailed

  /** The decoded request: the user in the path, the trimmed elevator id in the query. */
  datatype LogsRequest = LogsRequest(userId: string, elevatorId: string)

  function FormatLog(index: nat, meta: Object, now: string): LogEntry {
    LogEntry(index + 1,
             FieldOr(meta, "problem", UNKNOWN_PROBLEM),
             FieldOr(meta, "steps", NO_RESPONSE),
             FieldOr(meta, "cause", NO_CAUSE),
             FieldOr(meta, "timestamp", now))
  }

  /**
   * The entries numbered from 1 in reply order with defaults for missing
   * fields, then reversed: the last entry comes first.
   */
  function FormatLogs(entries: seq<Object>, now: string): (r: seq<LogEntry>)
    ensures |r| == |entries|
    ensures forall k :: 0 <= k < |r| ==> r[k] == FormatLog(|entries| - 1 - k, entries[|entries| - 1 - k], now)
  {
    Reverse(seq(|entries|, i requires 0 <= i < |entries| => FormatLog(i, entries[i], now)))
  }

  /**
   * The listed logs are numbered n, n-1, ..., 1 from the top, so no two
   * share an id and at most one card is highlighted as active.
   */
  lemma FormattedIdsDistinct(entries: seq<Object>, now: string, j: nat, k: nat)
    requires j < |entries| && k < |entries|
    ensures FormatLogs(entries, now)[k].logId == |entries| - k
    ensures FormatLogs(entries, now)[j].logId == FormatLogs(entries, now)[k].logId ==> j == k
  {
  }

  /**
   * Every listed log has a non-empty query and response, so selecting any
   * of them replays it in the chat box instead of opening a new session.
   */
  lemma FormattedLogsReplayable(entries: seq<Object>, now: string, k: nat)
    requires k < |entries|
    ensures Replayable(Some(FormatLogs(entries, now)[k]))
  {
    var meta := entries[|entries| - 1 - k];
    assert FieldOr(meta, "problem", UNKNOWN_PROBLEM) != "";
    assert FieldOr(meta, "steps", NO_RESPONSE) != "";
  }

  /** `data.logs && Array.isArray(data.logs) && data.logs.length > 0` */
  predicate HasLogArray(reply: LogsReply) {
    reply.Got? && reply.logs.LogsArray? && |reply.logs.entries| > 0
  }

  /** The list after the page's own fetch: the formatted array, or empty for any other reply. */
  function FetchedLogs(reply: LogsReply, now: string): (r: seq<LogEntry>)
    ensures !HasLogArray(reply) ==> r == []
    ensures HasLogArray(reply) ==> |r| == |reply.logs.entries| > 0
    ensures HasLogArray(reply) ==>
              forall k :: 0 <= k < |r| ==>
                var i := |reply.logs.entries| - 1 - k;
                r[k] == FormatLog(i, reply.logs.entries[i], now)
  {
    if HasLogArray(reply) then FormatLogs(reply.logs.entries, now) else []
  }

  /**
   * The backend's `get_logs` reply carries the store's result object, not
   * an array: the page lists nothing for it, and a refresh keeps the list.
   */
  lemma StoreShapeListsNothing(ids: seq<string>, metadatas: Option<seq<Object>>, documents: seq<string>, now: string)
    ensures FetchedLogs(Got(LogsRecord(ids, metadatas, documents)), now) == []
    ensures !HasLogArray(Got(LogsRecord(ids, metadatas, documents)))
  {
  }

  /** A card's title: the query cut to 40 characters, with "..." only when cut. */
  function CardTitle(query: string): (r: string)
    ensures |query| <= TITLE_LIMIT ==> r == query
    ensures |query| > TITLE_LIMIT ==>
              |r| == TITLE_LIMIT + 3 && r[..TITLE_LIMIT] == query[..TITLE_LIMIT] && r[TITLE_LIMIT..] == "..."
  {
    Prefix(query, TITLE_LIMIT) + (if |query| > TITLE_LIMIT then "..." else "")
  }

  /** A card's cause line: the cause cut to 50 characters, always followed by "...". */
  function CausePreview(cause: string): (r: string)
    ensures |r| == (if |cause| < CAUSE_LIMIT then |cause| else CAUSE_LIMIT) + 3
    ensures r[|r| - 3..] == "..."
    ensures |cause| < CAUSE_LIMIT ==> r[..|r| - 3] == cause
    ensures |cause| >= CAUSE_LIMIT ==> r[..|r| - 3] == cause[..CAUSE_LIMIT]
  {
    Prefix(cause, CAUSE_LIMIT) + "..."
  }

  /** What the empty list says: it depends on the raw elevator id, not the trimmed one. */
  function EmptyNotice(elevatorId: string): (r: string)
    ensures elevatorId == "" <==> r == ENTER_ID_NOTICE
    ensures elevatorId != "" <==> r == NO_LOGS_NOTICE
  {
    if elevatorId != "" then NO_LOGS_NOTICE else ENTER_ID_NOTICE
  }

  class Page {
    const userId: string
    var logs: seq<LogEntry>
    var active: Option<LogEntry>
    var elevatorId: string

    constructor(userId: string)
      ensures this.userId == userId && logs == [] && active.None? && elevatorId == ""
    {
      this.userId := userId;
      logs := [];
      active := None;
      elevatorId := "";
    }

    /** `handleElevatorIdChange`, the only setter of the elevator id. */
    method SetElevatorId(id: string)
      modifies this
      ensures elevatorId == id && logs == old(logs) && active == old(active)
    {
      elevatorId := id;
    }

    /**
     * The effect run when the elevator id changes: a blank id empties the
     * list without a request; otherwise the user's logs for the trimmed id
     * are requested and the list becomes `FetchedLogs`.
     */
    method FetchLogs(reply: LogsReply, now: string) returns (request: Option<LogsRequest>)
      modifies this
      ensures IsBlank(elevatorId) ==> request.None? && logs == []
      ensures !IsBlank(elevatorId) ==>
                request == Some(LogsRequest(userId, Trim(elevatorId))) && logs == FetchedLogs(reply, now)
      ensures elevatorId == old(elevatorId) && active == old(active)
    {
      if IsBlank(elevatorId) {
        logs := [];
        return None;
      }
      request := Some(LogsRequest(userId, Trim(elevatorId)));
      logs := FetchedLogs(reply, now);
    }

    method OnSelect(log: LogEntry)
      modifies this
      ensures active == Some(log) && logs == old(logs) && elevatorId == old(elevatorId)
    {
      active := Some(log);
    }

    method HandleNewSearch()
      modifies this
      ensures active.None? && logs == old(logs) && elevatorId == old(elevatorId)
    {
      active := None;
    }

    /**
     * `handleNewLog`: with a non-blank elevator id the list is fetched again
     * and replaced only by a non-empty array (anything else keeps it); the
     * selection is cleared in every case.
     */
    method HandleNewLog(reply: LogsReply, now: string) returns (request: Option<LogsRequest>)
      modifies this
      ensures IsBlank(elevatorId) ==> request.None? && logs == old(logs)
      ensures !IsBlank(elevatorId) ==>
                request == Some(LogsRequest(userId, Trim(elevatorId))) &&
                logs == (if HasLogArray(reply) then FormatLogs(reply.logs.entries, now) else old(logs))
      ensures active.None? && elevatorId == old(elevatorId)
    {
      request := None;
      if !IsBlank(elevatorId) {
        request := Some(LogsRequest(userId, Trim(elevatorId)));
        if HasLogArray(reply) {
          logs := FormatLogs(reply.logs.entries, now);
        }
      }
      active := None;
    }
  }
}
