/**
 * The expert's knowledge panel: a form for new expert logs (problem, cause,
 * steps) and the list of the expert's stored logs, newest first. Both calls
 * go through a fetch helper that retries failed requests with exponential
 * backoff.
 *
 * Each fetch attempt is a parameter `attempt: nat -> FetchOutcome<B>`
 * giving what the i-th call of `fetch` produced; the waits between attempts
 * are returned instead of slept.
 */
module ExpertPanelView {
  import opened Text
  import opened Wire

  /** A `fetch` response: status, the text an error reports, and the parsed JSON body. */
  datatype Response<B> = Response(status: int, text: string, body: B)

  /** One call of `fetch`: it resolved with a response, or it threw. */
  datatype FetchOutcome<B> = Responded(response: Response<B>) | Threw(message: string)

  /**
   * How `fetchDataWithRetry` ended: returned a response, rethrew the last
   * error, or fell out of its loop without either (no attempt allowed).
   */
  datatype RetryResult<B> = Returned(response: Response<B>) | Rethrown(message: string) | Undefined

  /** The result together with the waits between attempts and the number of attempts. */
  datatype Run<B> = Run(result: RetryResult<B>, delays: seq<nat>, attempts: nat)

  const RETRIES := 3
  const ERROR_TEXT_LIMIT := 100

  predicate Ok<B>(outcome: FetchOutcome<B>) {
    outcome.Responded? && IsSuccess(outcome.response.status)
  }

  /** The message of the error an attempt raised. */
  function ErrorOf<B>(outcome: FetchOutcome<B>): string {
    match outcome
    case Responded(r) =>
      "Server Error (" + IntToString(r.status) + "): " + Prefix(r.text, ERROR_TEXT_LIMIT) + "..."
    case Threw(message) => message
  }

  function Pow2(n: nat): (r: nat)
    ensures r >= 1
  {
    if n == 0 then 1 else 2 * Pow2(n - 1)
  }

  /** The wait after failed attempt `i`, in milliseconds. */
  function Delay(i: nat): nat {
    Pow2(i) * 1000
  }

  /** The first `n` waits of the backoff schedule. */
  function Backoff(n: nat): (r: seq<nat>)
    ensures |r| == n
    ensures forall i :: 0 <= i < n ==> r[i] == Delay(i)
  {
    seq(n, i requires 0 <= i < n => Delay(i))
  }

  /**
   * The retry loop from attempt `i` on, as a recursive reference: an ok
   * response ends it, a failure waits and retries unless it was the last
   * attempt, which rethrows.
   */
  function Retry<B>(attempt: nat -> FetchOutcome<B>, retries: int, i: nat): Run<B>
    decreases retries - i
  {
    if i >= retries then Run(Undefined, [], 0)
    else
      var outcome := attempt(i);
      if Ok(outcome) then Run(Returned(outcome.response), [], 1)
      else if i < retries - 1 then
        var rest := Retry(attempt, retries, i + 1);
        Run(rest.result, [Delay(i)] + rest.delays, 1 + rest.attempts)
      else Run(Rethrown(ErrorOf(outcome)), [], 1)
  }

  /** The retry loop from attempt `i` on, in closed form. */
  lemma {:induction false} RetryFrom<B>(attempt: nat -> FetchOutcome<B>, retries: int, i: nat)
    requires i < retries
    ensures var run := Retry(attempt, retries, i);
            1 <= run.attempts <= retries - i &&
            (forall j :: i <= j < i + run.attempts - 1 ==> !Ok(attempt(j))) &&
            |run.delays| == run.attempts - 1 &&
            (forall k :: 0 <= k < |run.delays| ==> run.delays[k] == Delay(i + k)) &&
            (run.result.Returned? <==> Ok(attempt(i + run.attempts - 1))) &&
            (run.result.Returned? ==> run.result.response == attempt(i + run.attempts - 1).response) &&
            (run.result.Rethrown? ==>
               i + run.attempts == retries && run.result.message == ErrorOf(attempt(retries - 1))) &&
            !run.result.Undefined?
    decreases retries - i
  {
    if !Ok(attempt(i)) && i < retries - 1 {
      RetryFrom(attempt, retries, i + 1);
      var rest := Retry(attempt, retries, i + 1);
      var run := Retry(attempt, retries, i);
      assert run.delays == [Delay(i)] + rest.delays;
      forall k | 0 <= k < |run.delays| ensures run.delays[k] == Delay(i + k) {
        if k > 0 {
          assert run.delays[k] == rest.delays[k - 1];
        }
      }
    }
  }

  /**
   * The whole retry loop: with no attempt allowed it returns nothing;
   * otherwise it makes between 1 and `retries` attempts, every attempt but
   * the last failed, the waits are the backoff schedule 1000, 2000, 4000, ...
   * ms, and it returns the last attempt's response when that one was ok and
   * rethrows its error after the last allowed attempt otherwise.
   */
  lemma RetryContract<B>(attempt: nat -> FetchOutcome<B>, retries: int)
    ensures var run := Retry(attempt, retries, 0);
            (retries <= 0 ==> run == Run(Undefined, [], 0)) &&
            (retries > 0 ==>
               1 <= run.attempts <= retries &&
               (forall j :: 0 <= j < run.attempts - 1 ==> !Ok(attempt(j))) &&
               run.delays == Backoff(run.attempts - 1) &&
               (run.result.Returned? <==> Ok(attempt(run.attempts - 1))) &&
               (run.result.Returned? ==> run.result.response == attempt(run.attempts - 1).response) &&
               (run.result.Rethrown? ==>
                  run.attempts == retries && run.result.message == ErrorOf(attempt(retries - 1))) &&
               !run.result.Undefined?)
  {
    if retries > 0 {
      RetryFrom(attempt, retries, 0);
    }
  }

  function Sum(s: seq<nat>): nat {
    if s == [] then 0 else Sum(s[..|s| - 1]) + s[|s| - 1]
  }

  /** After n failed attempts the helper has waited (2^n - 1) seconds in total. */
  lemma {:induction false} BackoffTotal(n: nat)
    ensures Sum(Backoff(n)) == (Pow2(n) - 1) * 1000
  {
    if n > 0 {
      BackoffTotal(n - 1);
      assert Backoff(n)[..n - 1] == Backoff(n - 1);
    }
  }

  /**
   * Three failing attempts: the helper waits 1 s and 2 s, then rethrows the
   * third attempt's error.
   */
  lemma ThreeFailures<B>(attempt: nat -> FetchOutcome<B>)
    requires !Ok(attempt(0)) && !Ok(attempt(1)) && !Ok(attempt(2))
    ensures Retry(attempt, RETRIES, 0) == Run(Rethrown(ErrorOf(attempt(2))), [1000, 2000], 3)
  {
    assert Retry(attempt, RETRIES, 2) == Run(Rethrown(ErrorOf(attempt(2))), [], 1);
    assert Retry(attempt, RETRIES, 1) == Run(Rethrown(ErrorOf(attempt(2))), [2000], 2);
  }

  /** `fetchDataWithRetry(url, options, retries)`. */
  method FetchDataWithRetry<B>(attempt: nat -> FetchOutcome<B>, retries: int) returns (run: Run<B>)
    ensures run == Retry(attempt, retries, 0)
  {
    var delays: seq<nat> := [];
    var i: nat := 0;
    while i < retries
      invariant retries > 0 ==> i < retries
      invariant retries <= 0 ==> i == 0
      invariant |delays| == i
      invariant var rest := Retry(attempt, retries, i);
                Retry(attempt, retries, 0) == Run(rest.result, delays + rest.delays, i + rest.attempts)
      decreases retries - i
    {
      var outcome := attempt(i);
      if Ok(outcome) {
        return Run(Returned(outcome.response), delays, i + 1);
      }
      if i < retries - 1 {
        var rest := Retry(attempt, retries, i + 1);
        assert delays + ([Delay(i)] + rest.delays) == (delays + [Delay(i)]) + rest.delays;
        delays := delays + [Delay(i)];
        i := i + 1;
      } else {
        return Run(Rethrown(ErrorOf(outcome)), delays, i + 1);
      }
    }
    return Run(Undefined, delays, i);
  }

  /** `new Date(ts).toLocaleString()` of a stored timestamp, or "N/A" when there is none. */
  datatype Stamp = Localized(raw: string) | NotAvailable

  /** A stored log as the panel lists it. */
  datatype DisplayLog = DisplayLog(id: Option<string>, problem: string, cause: string, steps: string, timestamp: Stamp)

  const NOT_AVAILABLE := "N/A"

  function ToDisplay(ids: seq<string>, index: nat, meta: Object): DisplayLog {
    DisplayLog(if index < |ids| then Some(ids[index]) else None,
               FieldOr(meta, "problem", NOT_AVAILABLE),
               FieldOr(meta, "cause", NOT_AVAILABLE),
               FieldOr(meta, "steps", NOT_AVAILABLE),
               if FieldOr(meta, "timestamp", "") != "" then Localized(meta["timestamp"]) else NotAvailable)
  }

  /**
   * The metadata list mapped to display logs (the id taken from the
   * parallel `ids` list) and reversed: the last stored log comes first.
   */
  function DisplayLogs(ids: seq<string>, metadatas: seq<Object>): (r: seq<DisplayLog>)
    ensures |r| == |metadatas|
    ensures forall k :: 0 <= k < |r| ==> r[k] == ToDisplay(ids, |metadatas| - 1 - k, metadatas[|metadatas| - 1 - k])
  {
    Reverse(seq(|metadatas|, i requires 0 <= i < |metadatas| => ToDisplay(ids, i, metadatas[i])))
  }

  /** Every listed field is filled: an empty or missing one shows "N/A". */
  lemma DisplayFieldsFilled(ids: seq<string>, metadatas: seq<Object>, k: nat)
    requires k < |metadatas|
    ensures var d := DisplayLogs(ids, metadatas)[k];
            var meta := metadatas[|metadatas| - 1 - k];
            d.problem != "" && d.cause != "" && d.steps != "" &&
            (d.problem == NOT_AVAILABLE <==> "problem" !in meta || meta["problem"] in {"", NOT_AVAILABLE}) &&
            (d.id.Some? <==> |metadatas| - 1 - k < |ids|)
  {
  }

  /** The red circle that opens error messages and the check mark that opens the success message. */
  const RED_CIRCLE := "\U{1F534}"
  const CHECK_MARK := "\U{2705}"

  const SIGN_IN_REQUIRED := RED_CIRCLE + " Error: You must be signed in to submit logs."
  const FILL_ALL_FIELDS := "Please" + " fill in all three fields (Problem, Cause, Steps)."
  const UNEXPECTED_SHAPE := "Warning:" + " Data structure unexpected. Cannot display logs."
  const SUCCESS_PREFIX := CHECK_MARK + " Success! Log stored with ID: "
  const FETCH_ERROR_PREFIX := RED_CIRCLE + " Error fetching logs. Is the /get_logs endpoint implemented? "
  const SUBMIT_ERROR_PREFIX := RED_CIRCLE + " Error submitting log: "
  const DEMO_EXPERT_ID := "expert_demo"
  const FETCH_ERROR_LIMIT := 60

  function FetchError(message: string): string {
    FETCH_ERROR_PREFIX + Prefix(message, FETCH_ERROR_LIMIT) + "..."
  }

  /** What a finished log fetch shows: the logs (or `None` to keep the old ones) and the message. */
  datatype LogsShown = LogsShown(logs: Option<seq<DisplayLog>>, message: string)

  /**
   * A reply whose `logs` carries a `metadatas` list is displayed; any other
   * shape clears the list with a warning; a failed fetch keeps the list and
   * reports the error.
   */
  function ShowLogs(result: RetryResult<LogsField>): (r: LogsShown)
    requires !result.Undefined?
    ensures r.logs.None? <==> result.Rethrown?
    ensures result.Rethrown? ==> r.message == FetchError(result.message)
    ensures result.Returned? && result.response.body.LogsRecord? && result.response.body.metadatas.Some? ==>
              r == LogsShown(Some(DisplayLogs(result.response.body.ids, result.response.body.metadatas.value)), "")
    ensures result.Returned? && !(result.response.body.LogsRecord? && result.response.body.metadatas.Some?) ==>
              r == LogsShown(Some([]), UNEXPECTED_SHAPE)
  {
    match result
    case Returned(response) =>
      (match response.body
       case LogsRecord(ids, Some(metadatas), _) => LogsShown(Some(DisplayLogs(ids, metadatas)), "")
       case _ => LogsShown(Some([]), UNEXPECTED_SHAPE))
    case Rethrown(message) => LogsShown(None, FetchError(message))
  }

  /** The body `store_log` answers with: the new log's id, if any. */
  datatype StoreReply = StoreReply(id: Option<string>)

  /** `${result.id}`: a missing id prints as "undefined". */
  function IdText(reply: StoreReply): string {
    if reply.id.Some? then reply.id.value else "undefined"
  }

  /** The body of the `store_log` POST the panel sends. */
  function ExpertLogPayload(expertId: string, problem: string, cause: string, steps: string, timestamp: string): Object {
    ExpertLog(expertId, Trim(problem), Trim(cause), Trim(steps), timestamp)
  }

  function ExpertLog(expertId: string, problem: string, cause: string, steps: string, timestamp: string): Object {
    map["expert_id" := expertId, "problem" := problem, "cause" := cause, "steps" := steps, "timestamp" := timestamp]
  }

  /** The panel's payload has five keys and no `elevator_id`. */
  lemma ExpertPayloadShape(expertId: string, problem: string, cause: string, steps: string, timestamp: string)
    ensures var r := ExpertLog(expertId, problem, cause, steps, timestamp);
            r.Keys == {"expert_id", "problem", "cause", "steps", "timestamp"} &&
            "elevator_id" !in r &&
            r["expert_id"] == expertId && r["problem"] == problem && r["cause"] == cause &&
            r["steps"] == steps && r["timestamp"] == timestamp
  {
  }

  /**
   * Why a submission is refused before anything is sent: signed out, or a
   * field that is empty after trimming.
   */
  function Rejection(user: Option<string>, problem: string, cause: string, steps: string): (r: Option<string>)
    ensures user.None? ==> r == Some(SIGN_IN_REQUIRED)
    ensures user.Some? ==> (r.None? <==> !IsBlank(problem) && !IsBlank(cause) && !IsBlank(steps))
    ensures user.Some? && r.Some? ==> r.value == FILL_ALL_FIELDS
  {
    if user.None? then Some(SIGN_IN_REQUIRED)
    else if IsBlank(problem) || IsBlank(cause) || IsBlank(steps) then Some(FILL_ALL_FIELDS)
    else None
  }

  /** The class of the panel's message line: success exactly when it starts with the check mark. */
  predicate IsSuccessMessage(message: string) {
    |message| > 0 && message[0] == '\U{2705}'
  }

  /** Only the success message is styled as a success. */
  lemma MessageStyles(id: string, message: string)
    ensures IsSuccessMessage(SUCCESS_PREFIX + id)
    ensures !IsSuccessMessage(SIGN_IN_REQUIRED) && !IsSuccessMessage(FILL_ALL_FIELDS)
    ensures !IsSuccessMessage(UNEXPECTED_SHAPE)
    ensures !IsSuccessMessage(FetchError(message)) && !IsSuccessMessage(SUBMIT_ERROR_PREFIX + message)
    ensures SIGN_IN_REQUIRED[0] == FetchError(message)[0] == (SUBMIT_ERROR_PREFIX + message)[0] == RED_CIRCLE[0]
    ensures FILL_ALL_FIELDS[0] == 'P' && UNEXPECTED_SHAPE[0] == 'W'
  {
    assert (SUCCESS_PREFIX + id)[0] == CHECK_MARK[0];
    assert SIGN_IN_REQUIRED[0] == RED_CIRCLE[0];
    assert FetchError(message)[0] == RED_CIRCLE[0];
    assert (SUBMIT_ERROR_PREFIX + message)[0] == RED_CIRCLE[0];
  }

  /** `user?.uid || "expert_demo"` */
  function ExpertIdOf(user: Option<string>): (r: string)
    ensures r != ""
    ensures user.Some? && user.value != "" ==> r == user.value
    ensures user.None? || user.value == "" ==> r == DEMO_EXPERT_ID
  {
    if user.Some? && user.value != "" then user.value else DEMO_EXPERT_ID
  }

  /** The panel's state: the signed-in user's `uid`, the form, the message line, the list and the busy flag. */
  datatype PanelState = PanelState(user: Option<string>, problem: string, cause: string, steps: string,
                                   message: string, storedLogs: seq<DisplayLog>, loading: bool)

  /** What the helper's three attempts produce; it always returns or rethrows. */
  function FetchResult<B>(attempt: nat -> FetchOutcome<B>): (r: RetryResult<B>)
    ensures !r.Undefined?
    ensures r == Retry(attempt, RETRIES, 0).result
  {
    RetryContract(attempt, RETRIES);
    Retry(attempt, RETRIES, 0).result
  }

  /** `fetchLogs` run to completion: nothing when signed out, else the fetched logs shown. */
  function AfterFetch(s: PanelState, result: RetryResult<LogsField>): PanelState
    requires !result.Undefined?
  {
    if s.user.None? then s
    else
      var shown := ShowLogs(result);
      s.(message := shown.message,
         storedLogs := if shown.logs.Some? then shown.logs.value else s.storedLogs,
         loading := false)
  }

  /**
   * The `try`/`finally` part of `handleLogSubmit`: on success the success
   * message is set, the form is cleared and the logs are fetched again; on
   * failure the error is shown. The panel stops loading either way.
   */
  function AfterStore(s: PanelState, post: RetryResult<StoreReply>, get: RetryResult<LogsField>): PanelState
    requires !post.Undefined? && !get.Undefined?
  {
    if post.Returned? then
      var cleared := s.(message := SUCCESS_PREFIX + IdText(post.response.body), problem := "", cause := "", steps := "");
      AfterFetch(cleared, get).(loading := false)
    else s.(message := SUBMIT_ERROR_PREFIX + post.message, loading := false)
  }

  /** `handleLogSubmit` run to completion. */
  function AfterSubmit(s: PanelState, post: RetryResult<StoreReply>, get: RetryResult<LogsField>): PanelState
    requires !post.Undefined? && !get.Undefined?
  {
    match Rejection(s.user, s.problem, s.cause, s.steps)
    case Some(reason) => s.(message := reason)
    case None => AfterStore(s.(message := "", loading := true), post, get)
  }

  /**
   * A submission either is refused with its reason and changes nothing
   * else, or ends not loading with the form cleared exactly when the POST
   * succeeded; the user never changes.
   */
  lemma SubmitOutcome(s: PanelState, post: RetryResult<StoreReply>, get: RetryResult<LogsField>)
    requires !post.Undefined? && !get.Undefined?
    ensures var t := AfterSubmit(s, post, get);
            var rejection := Rejection(s.user, s.problem, s.cause, s.steps);
            t.user == s.user &&
            (rejection.Some? ==> t == s.(message := rejection.value)) &&
            (rejection.None? ==>
               !t.loading &&
               (post.Returned? ==> t.problem == "" && t.cause == "" && t.steps == "" &&
                                   t.message == ShowLogs(get).message) &&
               (post.Rethrown? ==> t.problem == s.problem && t.cause == s.cause && t.steps == s.steps &&
                                   t.storedLogs == s.storedLogs && t.message == SUBMIT_ERROR_PREFIX + post.message))
  {
  }

  /**
   * The success message never survives a submission: the refresh started
   * right after it clears the message line, so no outcome of a submission
   * leaves a message styled as a success.
   */
  lemma {:induction false} SuccessNeverShown(s: PanelState, post: RetryResult<StoreReply>, get: RetryResult<LogsField>)
    requires !post.Undefined? && !get.Undefined?
    ensures !IsSuccessMessage(AfterSubmit(s, post, get).message)
  {
    var rejection := Rejection(s.user, s.problem, s.cause, s.steps);
    MessageStyles("", if post.Rethrown? then post.message else if get.Rethrown? then get.message else "");
    if rejection.None? && post.Returned? {
      var shown := ShowLogs(get);
      assert shown.message == "" || shown.message == UNEXPECTED_SHAPE || shown.message == FetchError(get.message);
    }
  }

  class Panel {
    var user: Option<string>
    var problem: string
    var cause: string
    var steps: string
    var message: string
    var storedLogs: seq<DisplayLog>
    var loading: bool

    function State(): PanelState
      reads this
    {
      PanelState(user, problem, cause, steps, message, storedLogs, loading)
    }

    constructor(user: Option<string>)
      ensures State() == PanelState(user, "", "", "", "", [], false)
    {
      this.user := user;
      problem := "";
      cause := "";
      steps := "";
      message := "";
      storedLogs := [];
      loading := false;
    }

    method SignOut()
      modifies this
      ensures State() == old(State()).(user := None)
    {
      user := None;
    }

    method Edit(problem: string, cause: string, steps: string)
      modifies this
      ensures State() == old(State()).(problem := problem, cause := cause, steps := steps)
    {
      this.problem := problem;
      this.cause := cause;
      this.steps := steps;
    }

    /**
     * `fetchLogs`: signed out, nothing happens; otherwise the expert's logs
     * are fetched with three attempts and shown. The requested expert id is
     * returned.
     */
    method FetchLogs(attempt: nat -> FetchOutcome<LogsField>) returns (requested: Option<string>)
      modifies this
      ensures State() == AfterFetch(old(State()), FetchResult(attempt))
      ensures requested == if old(user).Some? then Some(ExpertIdOf(old(user))) else None
    {
      if user.None? {
        return None;
      }
      loading := true;
      message := "";
      requested := Some(ExpertIdOf(user));
      var run := FetchDataWithRetry(attempt, RETRIES);
      assert run.result == FetchResult(attempt);
      var shown := ShowLogs(run.result);
      if shown.logs.Some? {
        storedLogs := shown.logs.value;
      }
      message := shown.message;
      loading := false;
    }

    /**
     * `handleLogSubmit`: a refused submission only sets its reason;
     * otherwise the trimmed fields are posted with three attempts (the
     * payload is returned) and the panel ends as `AfterSubmit` says.
     */
    method SubmitLog(timestamp: string, postAttempt: nat -> FetchOutcome<StoreReply>,
                     getAttempt: nat -> FetchOutcome<LogsField>)
      returns (posted: Option<Object>)
      modifies this
      ensures State() == AfterSubmit(old(State()), FetchResult(postAttempt), FetchResult(getAttempt))
      ensures posted == if Rejection(old(user), old(problem), old(cause), old(steps)).None?
                        then Some(ExpertLogPayload(ExpertIdOf(old(user)), old(problem), old(cause), old(steps), timestamp))
                        else None
    {
      var rejection := Rejection(user, problem, cause, steps);
      if rejection.Some? {
        message := rejection.value;
        return None;
      }
      message := "";
      loading := true;
      posted := Some(ExpertLogPayload(ExpertIdOf(user), problem, cause, steps, timestamp));
      var run := FetchDataWithRetry(postAttempt, RETRIES);
      var result := run.result;
      assert result == FetchResult(postAttempt);
      if result.Returned? {
        message := SUCCESS_PREFIX + IdText(result.response.body);
        problem := "";
        cause := "";
        steps := "";
        var _ := FetchLogs(getAttempt);
      } else {
        message := SUBMIT_ERROR_PREFIX + result.message;
      }
      loading := false;
    }
  }
}
