/**
 * The technician's chat box: a conversation opened either fresh or from a
 * history log, and the turn that searches the knowledge base, replaces the
 * "searching" placeholder by the answer and then saves the turn as a chat
 * log, reporting the outcome in a status line.
 *
 * The asynchronous stages of a turn are separate methods (`StartTurn`,
 * `FinishSearch`, `FinishPersist`); `SendQuery` runs them in order with the
 * search outcome and the POST status as parameters.
 */
module ChatBoxSession {
  import opened Text
  import opened Wire
  import opened KnowledgeApi
  import opened ChatMessageView

  const MOCK_EXPERT_ID := "technician-mock-123"
  const WELCOME := "Welcome!" + " Describe the technical issue to search the expert knowledge base."
  const SEARCHING := "Searching knowledge base..."
  const HISTORY_CAUSE := "Loaded from history log"
  const HISTORY_PREFIX := 30

  const READY := "Ready"
  const NEW_SESSION := "New Session"
  const LOADED := "Loaded from History"
  const PROCESSING := "Processing..."
  const SAVING := "Saving..."
  const LOG_SAVED := "Log Saved"
  const SAVE_ERROR := "Error Saving Log"

  /** A chat log as the history list hands it over. */
  datatype LogEntry = LogEntry(logId: nat, userQuery: string, aiResponse: string, cause: string, timestamp: string)

  /** The `expertId` prop: its default applies only when the prop is absent. */
  function ExpertIdFrom(prop: Option<string>): (r: string)
    ensures prop.None? ==> r == MOCK_EXPERT_ID
    ensures prop.Some? ==> r == prop.value
  {
    if prop.Some? then prop.value else MOCK_EXPERT_ID
  }

  /** A history log is replayed only when both its query and its response are non-empty. */
  predicate Replayable(log: Option<LogEntry>) {
    log.Some? && log.value.userQuery != "" && log.value.aiResponse != ""
  }

  /** The single result card a replayed log shows. */
  function HistoryRecord(log: LogEntry): KnowledgeRecord {
    KnowledgeRecord(Prefix(log.userQuery, HISTORY_PREFIX) + "...", HISTORY_CAUSE, log.aiResponse, Numeric(0.0))
  }

  function UserMessage(text: string): Message {
    Message("user", Some(text), None)
  }

  const WELCOME_MESSAGE := Message("assistant", Some(WELCOME), None)
  const PLACEHOLDER := Message("assistant", Some(SEARCHING), None)

  /** The conversation a chat box opens with. */
  function OpeningMessages(log: Option<LogEntry>): seq<Message> {
    if Replayable(log) then [UserMessage(log.value.userQuery), Message("ai", None, Some([HistoryRecord(log.value)]))]
    else [WELCOME_MESSAGE]
  }

  function OpeningStatus(log: Option<LogEntry>): string {
    if Replayable(log) then LOADED else NEW_SESSION
  }

  /**
   * The answer's text: the top record's steps when its problem is "Error",
   * none when there are results to list, the fixed notice when there are none.
   */
  function AiText(results: seq<KnowledgeRecord>): (r: Option<string>)
    ensures r.None? <==> |results| > 0 && results[0].problem != ERROR_PROBLEM
    ensures |results| == 0 ==> r == Some(NO_KNOWLEDGE)
    ensures |results| > 0 && results[0].problem == ERROR_PROBLEM ==> r == Some(results[0].steps)
  {
    if |results| > 0 && results[0].problem == ERROR_PROBLEM then Some(results[0].steps)
    else if |results| > 0 then None
    else Some(NO_KNOWLEDGE)
  }

  function AiMessage(results: seq<KnowledgeRecord>): Message {
    Message("ai", AiText(results), Some(results))
  }

  /** A query is sent when the trimmed input is non-empty, no search is running and there is an expert id. */
  predicate CanSend(input: string, isLoading: bool, expertId: string) {
    !IsBlank(input) && !isLoading && expertId != ""
  }

  /** The tone of the status line: error, success or neutral, by substring. */
  datatype Tone = ErrorTone | SuccessTone | ReadyTone

  function StatusTone(status: string): Tone {
    if Contains(status, "Error") then ErrorTone
    else if Contains(status, "Saved") then SuccessTone
    else ReadyTone
  }

  /** Every status the chat box sets gets the tone its wording suggests. */
  lemma StatusTones()
    ensures StatusTone(SAVE_ERROR) == ErrorTone
    ensures StatusTone(LOG_SAVED) == SuccessTone
    ensures StatusTone(READY) == ReadyTone && StatusTone(NEW_SESSION) == ReadyTone
    ensures StatusTone(LOADED) == ReadyTone && StatusTone(PROCESSING) == ReadyTone
    ensures StatusTone(SAVING) == ReadyTone
  {
    assert OccursAt(SAVE_ERROR, "Error", 0);
    MissingChar(LOG_SAVED, "Error", 'E');
    assert OccursAt(LOG_SAVED, "Saved", 4);
    MissingChar(READY, "Error", 'E');
    MissingChar(READY, "Saved", 'S');
    MissingChar(NEW_SESSION, "Error", 'E');
    MissingChar(NEW_SESSION, "Saved", 'v');
    MissingChar(LOADED, "Error", 'E');
    MissingChar(LOADED, "Saved", 'S');
    MissingChar(PROCESSING, "Error", 'E');
    MissingChar(PROCESSING, "Saved", 'S');
    MissingChar(SAVING, "Error", 'E');
    MissingChar(SAVING, "Saved", 'd');
  }

  /** The fixed assistant messages show as text bubbles. */
  lemma FixedMessagesRender()
    ensures Render(WELCOME_MESSAGE) == TextBubble(WELCOME)
    ensures Render(PLACEHOLDER) == TextBubble(SEARCHING)
  {
    assert !IsSpace(WELCOME[0]) && !IsSpace(SEARCHING[0]);
  }

  /**
   * A replayed log shows the query as a user bubble and a one-card list:
   * the card is numbered 1, has distance 0.0000 and the stored response as
   * its steps (its title ends in "..." and so is never the error sentinel).
   */
  lemma HistoryRendering(log: LogEntry)
    requires Replayable(Some(log))
    ensures var m := OpeningMessages(Some(log));
            |m| == 2 && Render(m[0]) == UserBubble(Some(log.userQuery)) &&
            Render(m[1]) == ResultList(1, [ResultCard(1, "0.0000", Prefix(log.userQuery, HISTORY_PREFIX) + "...",
                                                      HISTORY_CAUSE, log.aiResponse)])
  {
    var title := Prefix(log.userQuery, HISTORY_PREFIX) + "...";
    assert title[|title| - 1] == '.';
    assert ERROR_PROBLEM[|ERROR_PROBLEM| - 1] == 'r';
    assert title != ERROR_PROBLEM;
    assert Fixed4(0.0) == "0.0000";
  }

  /**
   * How the answer to a turn is shown: a list exactly when the backend
   * answered with results whose first record is not an error; the error
   * detail as text (or as a status line when it is only whitespace) when the
   * search failed; the "nothing found" notice when there were no results.
   */
  lemma TurnRendering(outcome: SearchOutcome)
    ensures var results := SearchKnowledge(outcome);
            var b := Render(AiMessage(results));
            (b.ResultList? <==> outcome.Answered? && Listable(outcome.results)) &&
            (b.ResultList? ==> b.count == |results|) &&
            (results == [] ==> b == TextBubble(NO_KNOWLEDGE)) &&
            (outcome.Failed? ==>
               b == (if IsBlank(results[0].steps) then StatusBubble(results[0].steps) else TextBubble(results[0].steps)))
  {
    assert !IsSpace(NO_KNOWLEDGE[0]);
    var results := SearchKnowledge(outcome);
    if outcome.Failed? {
      assert results[0].steps != "";
    }
  }

  /** Replacing the placeholder after a query leaves the query followed by the answer. */
  lemma ReplacePlaceholder(messages: seq<Message>, query: string, answer: Message)
    ensures var started := messages + [UserMessage(query), PLACEHOLDER];
            started[..|started| - 1] + [answer] == messages + [UserMessage(query), answer]
  {
    var started := messages + [UserMessage(query), PLACEHOLDER];
    assert started[..|started| - 1] == messages + [UserMessage(query)];
  }

  class ChatBox {
    const expertId: string
    const notifiesNewLog: bool
    var messages: seq<Message>
    var input: string
    var isLoading: bool
    var logStatus: string

    constructor(expertIdProp: Option<string>, notifiesNewLog: bool)
      ensures expertId == ExpertIdFrom(expertIdProp) && this.notifiesNewLog == notifiesNewLog
      ensures messages == [] && input == "" && !isLoading && logStatus == READY
    {
      expertId := ExpertIdFrom(expertIdProp);
      this.notifiesNewLog := notifiesNewLog;
      messages := [];
      input := "";
      isLoading := false;
      logStatus := READY;
    }

    /** The effect run whenever `initialLog` changes: the conversation restarts. */
    method LoadLog(initialLog: Option<LogEntry>)
      modifies this
      ensures messages == OpeningMessages(initialLog) && logStatus == OpeningStatus(initialLog)
      ensures input == old(input) && isLoading == old(isLoading)
    {
      messages := OpeningMessages(initialLog);
      logStatus := OpeningStatus(initialLog);
    }

    method Type(text: string)
      modifies this
      ensures input == text
      ensures messages == old(messages) && isLoading == old(isLoading) && logStatus == old(logStatus)
    {
      input := text;
    }

    /**
     * The synchronous part of `sendQuery`: a turn starts, with the query
     * and the placeholder appended, or nothing changes.
     */
    method StartTurn() returns (query: Option<string>)
      modifies this
      ensures query.Some? <==> CanSend(old(input), old(isLoading), expertId)
      ensures query.None? ==>
                messages == old(messages) && input == old(input) &&
                isLoading == old(isLoading) && logStatus == old(logStatus)
      ensures query.Some? ==>
                query.value == Trim(old(input)) && query.value != "" &&
                messages == old(messages) + [UserMessage(query.value), PLACEHOLDER] &&
                input == "" && isLoading && logStatus == PROCESSING
    {
      BlankIffTrimEmpty(input);
      if CanSend(input, isLoading, expertId) {
        var userQuery := Trim(input);
        messages := messages + [UserMessage(userQuery), PLACEHOLDER];
        input := "";
        isLoading := true;
        logStatus := PROCESSING;
        query := Some(userQuery);
      } else {
        query := None;
      }
    }

    /** The search has answered: the placeholder is replaced by the answer and saving starts. */
    method FinishSearch(results: seq<KnowledgeRecord>)
      requires |messages| > 0
      modifies this
      ensures messages == old(messages)[..|old(messages)| - 1] + [AiMessage(results)]
      ensures !isLoading && logStatus == SAVING && input == old(input)
    {
      isLoading := false;
      messages := messages[..|messages| - 1] + [AiMessage(results)];
      logStatus := SAVING;
    }

    /** The save has answered: the status line reports it, and the page is told of a saved log. */
    method FinishPersist(saved: bool) returns (notify: bool)
      modifies this
      ensures logStatus == (if saved then LOG_SAVED else SAVE_ERROR)
      ensures notify <==> saved && notifiesNewLog
      ensures messages == old(messages) && input == old(input) && isLoading == old(isLoading)
    {
      logStatus := if saved then LOG_SAVED else SAVE_ERROR;
      notify := saved && notifiesNewLog;
    }

    /**
     * The asynchronous rest of a started turn: the search answers, the
     * placeholder is replaced by the answer, and the turn is saved under the
     * chat box's expert id with the default elevator.
     */
    method CompleteTurn(query: string, outcome: SearchOutcome, generated: Fresh, postStatus: Option<int>)
      returns (persisted: PersistResult, notify: bool)
      requires |messages| > 0
      modifies this
      ensures var results := SearchKnowledge(outcome);
              messages == old(messages)[..|old(messages)| - 1] + [AiMessage(results)] &&
              !isLoading && input == old(input) &&
              persisted == PersistLog(expertId, query, Some(results), "", generated, postStatus) &&
              logStatus == (if persisted.saved then LOG_SAVED else SAVE_ERROR) &&
              (notify <==> persisted.saved && notifiesNewLog)
    {
      var results := SearchKnowledge(outcome);
      FinishSearch(results);
      persisted := PersistLog(expertId, query, Some(results), "", generated, postStatus);
      notify := FinishPersist(persisted.saved);
    }

    /**
     * A whole turn. When it starts, the conversation grows by exactly the
     * query and the answer (the placeholder is gone), the search is sent
     * without an elevator filter, and the turn is saved under the chat
     * box's expert id with the default elevator.
     */
    method SendQuery(outcome: SearchOutcome, generated: Fresh, postStatus: Option<int>)
      returns (request: Option<SearchRequest>, persisted: Option<PersistResult>, notify: bool)
      modifies this
      ensures request.Some? <==> CanSend(old(input), old(isLoading), expertId)
      ensures request.None? ==>
                persisted.None? && !notify &&
                messages == old(messages) && input == old(input) &&
                isLoading == old(isLoading) && logStatus == old(logStatus)
      ensures request.Some? ==>
                var query := Trim(old(input));
                var results := SearchKnowledge(outcome);
                request.value == SearchRequestFor(query, "") &&
                messages == old(messages) + [UserMessage(query), AiMessage(results)] &&
                input == "" && !isLoading &&
                persisted == Some(PersistLog(expertId, query, Some(results), "", generated, postStatus)) &&
                logStatus == (if persisted.value.saved then LOG_SAVED else SAVE_ERROR) &&
                (notify <==> persisted.value.saved && notifiesNewLog)
    {
      var query := StartTurn();
      if query.None? {
        return None, None, false;
      }
      var q := query.value;
      request := Some(SearchRequestFor(q, ""));
      ReplacePlaceholder(old(messages), q, AiMessage(SearchKnowledge(outcome)));
      var result;
      result, notify := CompleteTurn(q, outcome, generated, postStatus);
      persisted := Some(result);
    }
  }
}
