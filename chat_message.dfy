/**
 * The chat message view: which kind of bubble a message is shown as. A
 * user message shows its text; an assistant message shows its text when it
 * has any, else its results as a numbered list of cards (unless the first
 * record is the error sentinel), else a status line; any other role shows
 * nothing.
 */
module ChatMessageView {
  import opened Text
  import opened KnowledgeApi

  /** A chat message: `{ role, text?, results? }`. */
  datatype Message = Message(role: string, text: Option<string>, results: Option<seq<KnowledgeRecord>>)

  const NO_KNOWLEDGE := "No relevant knowledge found."

  /** One card of the result list. */
  datatype ResultCard = ResultCard(number: nat, distanceText: string, problem: string, cause: string, steps: string)

  /** What a message renders as. */
  datatype Bubble =
    | UserBubble(said: Option<string>)
    | TextBubble(text: string)
    | ResultList(count: nat, cards: seq<ResultCard>)
    | StatusBubble(status: string)
    | NoBubble

  predicate IsAssistant(role: string) {
    role == "ai" || role == "assistant"
  }

  /** `message.text && message.text.trim() !== ""` */
  predicate HasText(m: Message) {
    m.text.Some? && !IsBlank(m.text.value)
  }

  /** The sentinel test: results are listed unless the first one is an error. */
  predicate Listable(results: Option<seq<KnowledgeRecord>>) {
    results.Some? && |results.value| > 0 && results.value[0].problem != ERROR_PROBLEM
  }

  function Card(i: nat, r: KnowledgeRecord): ResultCard {
    ResultCard(i + 1, DistanceText(r.distance), r.problem, r.cause, r.steps)
  }

  /** `message.text || "No relevant knowledge found."` */
  function StatusText(text: Option<string>): string {
    if text.Some? && text.value != "" then text.value else NO_KNOWLEDGE
  }

  function Render(m: Message): (b: Bubble)
    ensures m.role == "user" ==> b == UserBubble(m.text)
    ensures b.TextBubble? <==> IsAssistant(m.role) && HasText(m)
    ensures b.ResultList? <==> IsAssistant(m.role) && !HasText(m) && Listable(m.results)
    ensures b.StatusBubble? <==> IsAssistant(m.role) && !HasText(m) && !Listable(m.results)
    ensures b.NoBubble? <==> m.role != "user" && !IsAssistant(m.role)
    ensures b.TextBubble? ==> b.text == m.text.value
    ensures b.StatusBubble? ==> b.status == StatusText(m.text)
    ensures b.ResultList? ==>
              b.count == |m.results.value| == |b.cards| &&
              forall k :: 0 <= k < |b.cards| ==> b.cards[k] == Card(k, m.results.value[k])
  {
    if m.role == "user" then UserBubble(m.text)
    else if IsAssistant(m.role) then
      if HasText(m) then TextBubble(m.text.value)
      else if Listable(m.results) then
        var results := m.results.value;
        ResultList(|results|, seq(|results|, k requires 0 <= k < |results| => Card(k, results[k])))
      else StatusBubble(StatusText(m.text))
    else NoBubble
  }

  /**
   * Whatever its text, an assistant message carrying the failure sentinel is
   * never shown as a list of found logs.
   */
  lemma SentinelNeverListed(role: string, text: Option<string>, message: string)
    ensures !Render(Message(role, text, Some(SearchKnowledge(Failed(message))))).ResultList?
  {
  }

  /**
   * Only the first record is tested: a list whose first record is genuine
   * is shown in full, even with an "Error" record further down.
   */
  lemma OnlyFirstRecordTested(first: KnowledgeRecord, rest: seq<KnowledgeRecord>)
    requires first.problem != ERROR_PROBLEM
    ensures var b := Render(Message("ai", None, Some([first] + rest)));
            b.ResultList? && b.count == 1 + |rest| &&
            forall k :: 0 <= k < |rest| ==> b.cards[k + 1].problem == rest[k].problem
  {
    var results := [first] + rest;
    forall k | 0 <= k < |rest| ensures results[k + 1] == rest[k] {
    }
  }

  /** The card numbers run 1, 2, ... in the order of the results. */
  lemma CardsNumberedInOrder(m: Message, k: nat)
    requires Render(m).ResultList? && k < |Render(m).cards|
    ensures Render(m).cards[k].number == k + 1
    ensures Render(m).cards[k].steps == m.results.value[k].steps
  {
  }
}
