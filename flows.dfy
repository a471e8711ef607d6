/**
 * How the clients and the backend meet: which payloads the store accepts,
 * which reply shapes each client can display, and what a search from the
 * chat box asks the store. Each lemma connects members of two modules.
 */
module Flows {
  import opened Text
  import opened Wire
  import opened KnowledgeApi
  import opened ChatMessageView
  import opened ChatBoxSession
  import opened ChatPageView
  import opened ExpertPanelView
  import opened Backend

  /**
   * The chat box's log never reaches the store. Its payload carries no
   * `problem`, `cause` or `steps`, so `store_log` answers 400 and stores
   * nothing. The client then reports no success, and its status line
   * reads "Error Saving Log" in the error tone.
   */
  lemma ChatBoxLogRejected(expertId: string, userQuery: string, results: Option<seq<KnowledgeRecord>>,
                           generated: Fresh)
    ensures var payload := LogPayload(expertId, userQuery, results, "", generated);
            ParseExpertLog(Some(payload)).None? &&
            payload["elevator_id"] == DEFAULT_ELEVATOR &&
            !PersistLog(expertId, userQuery, results, "", generated, Some(400)).saved &&
            StatusTone(SAVE_ERROR) == ErrorTone
  {
    PayloadShape(expertId, userQuery, results, "", generated);
    StatusTones();
  }

  /**
   * The expert panel's log never reaches the store either. Its payload has
   * no `elevator_id`, so every attempt is answered 400. The helper then
   * gives up after three attempts, having waited 1000 and then 2000 ms,
   * and the panel shows the submit error, keeping the form.
   */
  lemma ExpertPanelLogRejected(s: PanelState, timestamp: string, text: string, body: ExpertPanelView.StoreReply,
                               attempt: nat -> FetchOutcome<ExpertPanelView.StoreReply>, get: RetryResult<LogsField>)
    requires forall i :: attempt(i) == Responded(Response(400, text, body))
    requires Rejection(s.user, s.problem, s.cause, s.steps).None? && !get.Undefined?
    ensures ParseExpertLog(Some(ExpertLogPayload(ExpertIdOf(s.user), s.problem, s.cause, s.steps, timestamp))).None?
    ensures Retry(attempt, RETRIES, 0) == Run(Rethrown(ErrorOf(attempt(2))), [1000, 2000], 3)
    ensures var t := AfterSubmit(s, FetchResult(attempt), get);
            t.message == SUBMIT_ERROR_PREFIX + ErrorOf(attempt(2)) &&
            t.problem == s.problem && t.cause == s.cause && t.steps == s.steps && !t.loading
  {
    ExpertPayloadShape(ExpertIdOf(s.user), Trim(s.problem), Trim(s.cause), Trim(s.steps), timestamp);
    assert !Ok(attempt(0)) && !Ok(attempt(1)) && !Ok(attempt(2));
    ThreeFailures(attempt);
  }

  /**
   * The same `get_logs` reply reads differently in the two clients. The
   * chat page lists nothing, because it expects an array. The expert panel
   * lists every matching record, newest first.
   */
  lemma ListingReadDifferently(records: seq<StoredLog>, expertId: string, elevatorArg: Option<string>,
                               text: string, now: string)
    ensures var listing := ListingOf(Matching(records, LogsFilter(expertId, elevatorArg)));
            FetchedLogs(Got(listing), now) == [] &&
            ShowLogs(Returned(Response(200, text, listing))).logs ==
              Some(DisplayLogs(listing.ids, listing.metadatas.value)) &&
            |ShowLogs(Returned(Response(200, text, listing))).logs.value| ==
              |Matching(records, LogsFilter(expertId, elevatorArg))|
  {
    var listing := ListingOf(Matching(records, LogsFilter(expertId, elevatorArg)));
    StoreShapeListsNothing(listing.ids, listing.metadatas, listing.documents, now);
  }

  /**
   * A query the chat box sends is never refused with 400. Its text is the
   * trimmed, non-blank input, and no elevator filter reaches the store,
   * because the chat box sends an empty elevator id.
   */
  lemma ChatBoxQueryAccepted(input: string)
    requires !IsBlank(input)
    ensures var request := SearchRequestFor(Trim(input), "");
            request.elevatorId.None? &&
            SearchQueryFor(Some(request.query), None) == Some(StoreQuery(Trim(input), Backend.N_RESULTS, None))
  {
    BlankIffTrimEmpty(input);
    BlankIffTrimEmpty("");
  }

  /** The record a client reads from a stored log's search hit. */
  function RecordOf(log: Backend.ExpertLog, distance: Distance): KnowledgeRecord {
    KnowledgeRecord(log.problem, log.cause, log.steps, distance)
  }

  /**
   * A genuine top hit whose problem is literally "Error" is taken for the
   * failure sentinel. The chat shows only its steps, as plain text, and
   * drops every other hit.
   */
  lemma ErrorNamedHitMistaken(log: Backend.ExpertLog, distance: Distance, rest: seq<KnowledgeRecord>)
    requires log.problem == ERROR_PROBLEM && !IsBlank(log.steps)
    ensures var results := SearchKnowledge(Answered(Some([RecordOf(log, distance)] + rest)));
            Render(AiMessage(results)) == TextBubble(log.steps)
  {
    var results := SearchKnowledge(Answered(Some([RecordOf(log, distance)] + rest)));
    assert results[0] == RecordOf(log, distance);
  }
}
