/**
 The structured-output call with its validation retries (src/soctalk/inference.py:
 `_invoke_structured`, `_track`, and the constrained and reason-then-extract paths of
 `_dispatch`).

 The model is an arbitrary function from the number of a call and its transcript to a
 reply, so every result holds for every behaviour of the model.  `Transcript` and `ReplyAt`
 say what the i-th structured call sends and receives; `Calls` says how many there are.
 */
module StructuredRetry {
  import opened Wrappers

  datatype AiMessage = AiMessage(content: string, calls: seq<string>, invalidCalls: seq<string>, tokens: nat)
  {
    /** Valid and truncated tool calls alike must be answered. */
    function CallIds(): seq<string> { calls + invalidCalls }
  }

  datatype Message =
    | System(text: string)
    | Human(text: string)
    | Assistant(ai: AiMessage)
    | ToolResult(callId: string, text: string)
  {
    function Content(): string {
      if Assistant? then ai.content else text
    }
  }

  datatype Reply<+T> =
    | Raises
    | Reply(raw: Option<AiMessage>, parsed: Option<T>, error: string)

  datatype Mode = JsonObject | JsonSchemaStrict | OtherMode

  type Model<!T> = (nat, seq<Message>) -> Reply<T>

  datatype Outcome<+T> =
    | Parsed(value: T, raw: Option<AiMessage>, attempts: nat, usage: nat)
    | SchemaError(error: string)
    | Raised

  // ----- what is sent

  function Feedback(error: string): string {
    "Your previous response failed validation against the output schema: " + error
    + ". Respond again, following the schema exactly."
  }

  /** One tool result per call, in order. */
  function Answers(ids: seq<string>, text: string): seq<Message> {
    seq(|ids|, i requires 0 <= i < |ids| => ToolResult(ids[i], text))
  }

  /** What a retry appends to the original messages. */
  function RetryTail(raw: Option<AiMessage>, feedback: string): seq<Message> {
    match raw
    case None => [Human(feedback)]
    case Some(ai) =>
      if ai.CallIds() != [] then [Assistant(ai)] + Answers(ai.CallIds(), feedback)
      else [Assistant(ai), Human(feedback)]
  }

  function JsonHint(): Message {
    Human("Respond with ONLY a single " + "JSON" + " object")
  }

  function JsonMarker(): Message {
    Human("Return the result as " + "JSON" + ".")
  }

  function Lower(c: char): char {
    if 'A' <= c <= 'Z' then (c as int + 32) as char else c
  }

  /** The word "json" stands in the text, in whatever case. */
  predicate SaysJson(text: string) {
    exists i: nat :: i + 4 <= |text| && Lower(text[i]) == 'j' && Lower(text[i + 1]) == 's' && Lower(text[i + 2]) == 'o'
                     && Lower(text[i + 3]) == 'n'
  }

  predicate HasMarker(messages: seq<Message>) {
    exists m :: m in messages && SaysJson(m.Content())
  }

  method HasJsonMarker(messages: seq<Message>) returns (found: bool)
    ensures found <==> HasMarker(messages)
  {
    for i := 0 to |messages|
      invariant !HasMarker(messages[..i])
    {
      if SaysJson(messages[i].Content()) {
        return true;
      }
      assert messages[..i + 1] == messages[..i] + [messages[i]];
    }
    assert messages[..|messages|] == messages;
    return false;
  }

  /** The messages after the mode had its say: json mode needs the schema in the prompt, strict mode
      the word "json". */
  function Prepare(messages: seq<Message>, mode: Mode): seq<Message> {
    match mode
    case JsonObject => messages + [JsonHint()]
    case JsonSchemaStrict => if HasMarker(messages) then messages else messages + [JsonMarker()]
    case OtherMode => messages
  }

  function Transcript<T>(model: Model<T>, base: seq<Message>, i: nat): seq<Message>
    decreases i, 0
  {
    if i == 0 then base
    else
      match ReplyAt(model, base, i - 1)
      case Raises => base
      case Reply(raw, _, error) => base + RetryTail(raw, Feedback(error))
  }

  function ReplyAt<T>(model: Model<T>, base: seq<Message>, i: nat): Reply<T>
    decreases i, 1
  {
    model(i, Transcript(model, base, i))
  }

  /** A reply that ends the exchange: an exception, or a parsed value. */
  predicate Settles<T>(r: Reply<T>) {
    r.Raises? || r.parsed.Some?
  }

  function Budget(retries: int): nat {
    if retries > 0 then retries else 0
  }

  /** The number of structured calls, counted from call i on: stop at the first settling reply, or
      when the retry budget is spent. */
  function Calls<T>(model: Model<T>, base: seq<Message>, retries: int, i: nat): (n: nat)
    requires i <= Budget(retries)
    ensures i < n <= Budget(retries) + 1
    decreases Budget(retries) - i
  {
    if i == Budget(retries) || Settles(ReplyAt(model, base, i)) then i + 1
    else Calls(model, base, retries, i + 1)
  }

  /** The first n requests, in order. */
  function Requests<T>(model: Model<T>, base: seq<Message>, n: nat): seq<seq<Message>> {
    if n == 0 then [] else Requests(model, base, n - 1) + [Transcript(model, base, n - 1)]
  }

  /** The responses that exist, in order. */
  function Responses<T>(model: Model<T>, base: seq<Message>, n: nat): seq<AiMessage> {
    if n == 0 then []
    else
      var before := Responses(model, base, n - 1);
      match ReplyAt(model, base, n - 1)
      case Reply(Some(ai), _, _) => before + [ai]
      case _ => before
  }

  function Tokens(responses: seq<AiMessage>): nat {
    if responses == [] then 0 else Tokens(responses[..|responses| - 1]) + responses[|responses| - 1].tokens
  }

  function TokensOf(raw: Option<AiMessage>): nat {
    if raw.Some? then raw.value.tokens else 0
  }

  function OutcomeOf<T>(reply: Reply<T>, attempts: nat): Outcome<T> {
    match reply
    case Raises => Raised
    case Reply(raw, Some(v), _) => Parsed(v, raw, attempts, TokensOf(raw))
    case Reply(_, None, error) => SchemaError(error)
  }

  /** How the whole exchange ends. */
  function Final<T>(model: Model<T>, base: seq<Message>, retries: int): Outcome<T> {
    var n := Calls(model, base, retries, 0);
    OutcomeOf(ReplyAt(model, base, n - 1), n)
  }

  /** The requests that were sent for `base` and how the exchange ended. */
  ghost predicate Exchanged<T>(model: Model<T>, base: seq<Message>, retries: int, before: seq<seq<Message>>,
      after: seq<seq<Message>>, r: Outcome<T>) {
    && after == before + Requests(model, base, Calls(model, base, retries, 0))
    && r == Final(model, base, retries)
  }

  /** The responses the budget has seen: each one that exists, once. */
  ghost predicate AllTracked<T>(model: Model<T>, base: seq<Message>, retries: int, before: seq<AiMessage>,
      after: seq<AiMessage>) {
    after == before + Responses(model, base, Calls(model, base, retries, 0))
  }

  // ----- the implementation

  /** The provider, with a record of the structured requests it was sent. */
  class Provider<!T> {
    const model: Model<T>
    ghost var sent: seq<seq<Message>>

    constructor (model: Model<T>)
      ensures this.model == model && sent == []
    {
      this.model := model;
      sent := [];
    }

    method Invoke(i: nat, messages: seq<Message>) returns (r: Reply<T>)
      modifies this
      ensures r == model(i, messages)
      ensures sent == old(sent) + [messages]
    {
      sent := sent + [messages];
      r := model(i, messages);
    }
  }

  /** The budget dictionary, as the list of responses funnelled into it. */
  class BudgetState {
    var tracked: seq<AiMessage>

    constructor ()
      ensures tracked == []
    {
      tracked := [];
    }
  }

  method Track(budget: BudgetState?, raw: Option<AiMessage>)
    modifies budget
    ensures budget != null ==> budget.tracked == old(budget.tracked) + (if raw.Some? then [raw.value] else [])
  {
    if raw.Some? && budget != null {
      budget.tracked := budget.tracked + [raw.value];
    }
  }

  method BuildRetry(messages: seq<Message>, raw: Option<AiMessage>, error: string) returns (retry: seq<Message>)
    ensures retry == messages + RetryTail(raw, Feedback(error))
  {
    var feedback := Feedback(error);
    retry := messages;
    if raw.Some? {
      retry := retry + [Assistant(raw.value)];
      var toolCalls := raw.value.calls + raw.value.invalidCalls;
      if toolCalls != [] {
        for i := 0 to |toolCalls|
          invariant retry == messages + [Assistant(raw.value)] + Answers(toolCalls, feedback)[..i]
        {
          retry := retry + [ToolResult(toolCalls[i], feedback)];
        }
      } else {
        retry := retry + [Human(feedback)];
      }
    } else {
      retry := retry + [Human(feedback)];
    }
  }

  lemma {:induction false} FirstCall<T>(model: Model<T>, base: seq<Message>)
    ensures Transcript(model, base, 0) == base && ReplyAt(model, base, 0) == model(0, base)
    ensures Requests(model, base, 1) == [base]
    ensures Responses(model, base, 1) == match model(0, base) case Reply(Some(ai), _, _) => [ai] case _ => []
  {
  }

  lemma {:induction false} NextCall<T>(model: Model<T>, base: seq<Message>, k: nat)
    requires ReplyAt(model, base, k).Reply?
    ensures Transcript(model, base, k + 1) == base + RetryTail(ReplyAt(model, base, k).raw,
            Feedback(ReplyAt(model, base, k).error))
    ensures ReplyAt(model, base, k + 1) == model(k + 1, Transcript(model, base, k + 1))
  {
  }

  /** The first call and the retry loop of the source. */
  method InvokeStructured<T>(provider: Provider<T>, messages: seq<Message>, mode: Mode, retries: int,
      budget: BudgetState?) returns (r: Outcome<T>)
    modifies provider, budget
    ensures Exchanged(provider.model, Prepare(messages, mode), retries, old(provider.sent), provider.sent, r)
    ensures budget != null ==>
              AllTracked(provider.model, Prepare(messages, mode), retries, old(budget.tracked),
                  budget.tracked)
  {
    hide HasMarker, Transcript, ReplyAt;
    var base := messages;
    if mode == JsonObject {
      base := messages + [JsonHint()];
    } else if mode == JsonSchemaStrict {
      var found := HasJsonMarker(messages);
      if !found {
        base := messages + [JsonMarker()];
      }
    }
    assert base == Prepare(messages, mode);
    hide Prepare;
    ghost var model := provider.model;
    FirstCall(model, base);
    var result := provider.Invoke(0, base);
    if result.Raises? {
      assert Calls(model, base, retries, 0) == 1;
      return Raised;
    }
    Track(budget, result.raw);
    if result.parsed.Some? {
      assert Calls(model, base, retries, 0) == 1;
      return Parsed(result.parsed.value, result.raw, 1, TokensOf(result.raw));
    }
    r := Retry(provider, base, result, retries, budget, provider.sent[..|provider.sent| - 1],
               if budget == null then [] else old(budget.tracked));
    assert provider.sent[..|old(provider.sent)|] == old(provider.sent);
  }

  /** The retry loop.  `sent0` and `tracked0` are what was sent and tracked before the first call. */
  method Retry<T>(provider: Provider<T>, base: seq<Message>, first: Reply<T>, retries: int, budget: BudgetState?,
      ghost sent0: seq<seq<Message>>, ghost tracked0: seq<AiMessage>) returns (r: Outcome<T>)
    requires first == ReplyAt(provider.model, base, 0) && !Settles(first)
    requires provider.sent == sent0 + Requests(provider.model, base, 1)
    requires budget != null ==> budget.tracked == tracked0 + Responses(provider.model, base, 1)
    modifies provider, budget
    ensures Exchanged(provider.model, base, retries, sent0, provider.sent, r)
    ensures budget != null ==> AllTracked(provider.model, base, retries, tracked0, budget.tracked)
  {
    hide RetryTail, Feedback, Transcript, ReplyAt;
    ghost var model := provider.model;
    var attempts, result := 1, first;
    for k := 0 to Budget(retries)
      invariant attempts == k + 1
      invariant result == ReplyAt(model, base, k) && !Settles(result)
      invariant Calls(model, base, retries, 0) == Calls(model, base, retries, k)
      invariant provider.sent == sent0 + Requests(model, base, k + 1)
      invariant budget != null ==> budget.tracked == tracked0 + Responses(model, base, k + 1)
    {
      var retry := BuildRetry(base, result.raw, result.error);
      NextCall(model, base, k);
      result := provider.Invoke(attempts, retry);
      attempts := attempts + 1;
      assert Calls(model, base, retries, k) == Calls(model, base, retries, k + 1);
      if result.Raises? {
        assert Settles(result) && Calls(model, base, retries, k + 1) == k + 2;
        return Raised;
      }
      Track(budget, result.raw);
      if result.parsed.Some? {
        return Parsed(result.parsed.value, result.raw, attempts, TokensOf(result.raw));
      }
    }
    return SchemaError(result.error);
  }

  /** The unconstrained reasoning call first, then the extraction on its transcript. */
  function ExtractBase(messages: seq<Message>, reasoning: AiMessage): seq<Message> {
    messages + [Assistant(reasoning), ExtractPrompt()]
  }

  function ReasonedBase(messages: seq<Message>, reasoning: AiMessage, mode: Mode): seq<Message> {
    Prepare(ExtractBase(messages, reasoning), mode)
  }

  function ExtractPrompt(): Message {
    Human("Now extract the structured result from your reasoning above.")
  }

  /** The unconstrained model: what it replies to the request, `None` if the call raises. */
  type Reasoner = seq<Message> -> Option<AiMessage>

  /** If the reasoning call raises, nothing is tracked and no structured call is made; otherwise its reply is
      tracked and put before the extraction. */
  method ReasonThenExtract<T>(reasoner: Reasoner, provider: Provider<T>, messages: seq<Message>,
      mode: Mode, retries: int, budget: BudgetState?) returns (r: Outcome<T>)
    modifies provider, budget
    ensures reasoner(messages) == None ==> r == Raised && provider.sent == old(provider.sent)
    ensures reasoner(messages) == None && budget != null ==> budget.tracked == old(budget.tracked)
    ensures reasoner(messages).Some? ==>
              ReasonedExchange(provider.model, messages, reasoner(messages).value, mode, retries,
                               old(provider.sent), provider.sent, r)
    ensures reasoner(messages).Some? && budget != null ==>
              AllTracked(provider.model, ReasonedBase(messages, reasoner(messages).value, mode), retries,
                         old(budget.tracked) + [reasoner(messages).value], budget.tracked)
  {
    hide Requests, Calls, Final, AllTracked, Prepare, ExtractPrompt;
    var reply := reasoner(messages);
    if reply == None {
      return Raised;
    }
    var reasoning := reply.value;
    Track(budget, Some(reasoning));
    var extract := messages + [Assistant(reasoning)];
    extract := extract + [ExtractPrompt()];
    assert extract == ExtractBase(messages, reasoning);
    var inner := InvokeStructured(provider, extract, mode, retries, budget);
    match inner
    case Parsed(value, raw, attempts, usage) =>
      r := Parsed(value, raw, attempts + 1, reasoning.tokens + usage);
    case _ =>
      r := inner;
  }

  ghost predicate ReasonedExchange<T>(model: Model<T>, messages: seq<Message>, reasoning: AiMessage, mode: Mode,
      retries: int,
      before: seq<seq<Message>>, after: seq<seq<Message>>, r: Outcome<T>) {
    var base := ReasonedBase(messages, reasoning, mode);
    && r == WithReasoning(Final(model, base, retries), reasoning)
    && after == before + Requests(model, base, Calls(model, base, retries, 0))
  }

  /** The reasoning call adds one attempt and its own usage. */
  function WithReasoning<T>(r: Outcome<T>, reasoning: AiMessage): Outcome<T> {
    match r
    case Parsed(value, raw, attempts, usage) => Parsed(value, raw, attempts + 1, reasoning.tokens + usage)
    case _ => r
  }

  // ----- how many calls there are, and how they end

  /** Whatever the model does: at most 1 + max(0, retries) structured calls are made, none of them but
      the last settles, and the exchange ends in a schema error only when the budget is spent. */
  lemma {:induction false} CallsAreBounded<T>(model: Model<T>, base: seq<Message>, retries: int, i: nat)
    requires i <= Budget(retries)
    ensures var n := Calls(model, base, retries, i);
      && n <= 1 + Budget(retries)
      && (forall k :: i <= k < n - 1 ==> !Settles(ReplyAt(model, base, k)))
      && (!Settles(ReplyAt(model, base, n - 1)) ==> n == 1 + Budget(retries))
    decreases Budget(retries) - i
  {
    if !(i == Budget(retries) || Settles(ReplyAt(model, base, i))) {
      CallsAreBounded(model, base, retries, i + 1);
    }
  }

  lemma {:induction false} RequestsAreTranscripts<T>(model: Model<T>, base: seq<Message>, n: nat)
    ensures |Requests(model, base, n)| == n
    ensures forall i :: 0 <= i < n ==> Requests(model, base, n)[i] == Transcript(model, base, i)
  {
    hide Transcript;
    if n > 0 {
      RequestsAreTranscripts(model, base, n - 1);
    }
  }

  // ----- what a mode adds, and what every request carries

  lemma {:induction false} SaysItsMiddle(head: string, tail: string)
    ensures SaysJson(head + "JSON" + tail)
  {
    var text, n := head + "JSON" + tail, |head|;
    assert text[n] == 'J' && text[n + 1] == 'S' && text[n + 2] == 'O' && text[n + 3] == 'N';
  }

  lemma {:induction false} PromptsSayJson()
    ensures JsonHint().Human? && SaysJson(JsonHint().text)
    ensures JsonMarker().Human? && SaysJson(JsonMarker().text)
  {
    hide SaysJson;
    SaysItsMiddle("Respond with ONLY a single ", " object");
    SaysItsMiddle("Return the result as ", ".");
  }

  /** The caller's messages come first, as they are.  Json mode adds one prompt and strict mode one exactly when
      no message says "json" yet; what is added is a human turn that does, and the other modes add nothing. */
  lemma {:induction false} ModeAdds(messages: seq<Message>, mode: Mode)
    ensures var base := Prepare(messages, mode);
      var added := mode == JsonObject
                   || (mode == JsonSchemaStrict && forall m :: m in messages ==> !SaysJson(m.Content()));
      && |base| == |messages| + (if added then 1 else 0)
      && base[..|messages|] == messages
      && (added ==> base[|messages|].Human? && SaysJson(base[|messages|].text))
  {
    hide SaysJson, JsonHint, JsonMarker;
    PromptsSayJson();
  }

  /** Gateways refuse a request in which no message says "json": in json and in strict mode every request of every
      exchange does, whatever the caller's messages and the model's answers are. */
  lemma {:induction false} EveryRequestSaysJson<T>(model: Model<T>, messages: seq<Message>, mode: Mode, i: nat)
    requires mode == JsonObject || mode == JsonSchemaStrict
    ensures exists m :: m in Transcript(model, Prepare(messages, mode), i) && SaysJson(m.Content())
  {
    hide SaysJson, Prepare, RetryTail;
    var base := Prepare(messages, mode);
    ModeAdds(messages, mode);
    assert exists m :: m in base && SaysJson(m.Content()) by {
      if m :| m in messages && SaysJson(m.Content()) {
        assert m in base[..|messages|];
      } else {
        assert base[|messages|] in base;
      }
    }
    var m :| m in base && SaysJson(m.Content());
    assert m in Transcript(model, base, i);
  }

  ghost predicate Contains(text: string, part: string) {
    exists head: string, tail: string :: text == head + part + tail
  }

  lemma Surrounded(head: string, part: string, tail: string)
    ensures Contains(head + part + tail, part)
  {
  }

  lemma {:induction false} FeedbackNamesError(error: string)
    ensures Contains(Feedback(error), error)
  {
    Surrounded("Your previous response failed validation against the output schema: ", error,
               ". Respond again, following the schema exactly.");
  }

  /** A retry repeats the original messages and no earlier answer, then gives the last answer and, for each of its
      tool calls in order, valid or truncated, one result with the validation error, or else one human turn with
      it. */
  lemma {:induction false} RetryAnswersTheLast<T>(model: Model<T>, base: seq<Message>, i: nat)
    requires ReplyAt(model, base, i).Reply?
    ensures var Reply(raw, _, error), sent := ReplyAt(model, base, i), Transcript(model, base, i + 1);
      |base| <= |sent| && sent[..|base|] == base && AnswersReply(sent[|base|..], raw, error)
  {
    hide AnswersReply, Feedback, RetryTail;
    var reply := ReplyAt(model, base, i);
    TailAnswers(reply.raw, reply.error);
    var sent := Transcript(model, base, i + 1);
    assert sent == base + RetryTail(reply.raw, Feedback(reply.error));
    assert sent[|base|..] == RetryTail(reply.raw, Feedback(reply.error));
  }

  lemma PromptIsHuman()
    ensures ExtractPrompt().Human?
  {
  }

  lemma {:induction false} StartsWithBase<T>(model: Model<T>, base: seq<Message>, i: nat)
    ensures |base| <= |Transcript(model, base, i)| && Transcript(model, base, i)[..|base|] == base
  {
    hide RetryTail, Feedback;
  }

  /** Every extraction request starts with the caller's messages, the reasoning and the prompt to extract. */
  lemma {:induction false} RequestsStartWithReasoning<T>(model: Model<T>, messages: seq<Message>, reasoning: AiMessage,
      mode: Mode, i: nat)
    ensures var sent, n := Transcript(model, ReasonedBase(messages, reasoning, mode), i), |messages|;
      n + 2 <= |sent| && sent[..n] == messages && sent[n] == Assistant(reasoning) && sent[n + 1].Human?
  {
    hide Prepare, RetryTail, ExtractPrompt;
    var extract := ExtractBase(messages, reasoning);
    var base := Prepare(extract, mode);
    ModeAdds(extract, mode);
    StartsWithBase(model, base, i);
    hide Transcript;
    var n, sent := |messages|, Transcript(model, base, i);
    assert sent[..n + 2] == base[..n + 2] == extract;
    assert sent[..n] == extract[..n] && sent[n] == extract[n] && sent[n + 1] == extract[n + 1];
    PromptIsHuman();
  }

  /** The answer, then the error as the result of each call it made, the valid ones first; without a call, or
      without an answer, the error in a human turn. */
  ghost predicate AnswersReply(tail: seq<Message>, raw: Option<AiMessage>, error: string) {
    match raw
    case None => |tail| == 1 && tail[0].Human? && Contains(tail[0].text, error)
    case Some(ai) =>
      var valid, all := |ai.calls|, |ai.calls| + |ai.invalidCalls|;
      && |tail| == 1 + (if all == 0 then 1 else all)
      && tail[0] == Assistant(ai)
      && (forall k :: 1 <= k < |tail| ==> (if all == 0 then tail[k].Human? else tail[k].ToolResult?))
      && (forall k :: 1 <= k < |tail| && !tail[k].Assistant? ==> Contains(tail[k].text, error))
      && (forall k :: 1 <= k < |tail| && tail[k].ToolResult? ==>
            tail[k].callId == if k <= valid then ai.calls[k - 1] else ai.invalidCalls[k - 1 - valid])
  }

  lemma {:induction false} TailAnswers(raw: Option<AiMessage>, error: string)
    ensures AnswersReply(RetryTail(raw, Feedback(error)), raw, error)
  {
    hide Contains, Feedback;
    FeedbackNamesError(error);
  }

  /** How the exchange ends, by the first reply that settles it: after k replies that parsed nothing, an exception
      ends it, a parsed value ends it with what that reply carried, and anything else does when k retries is all
      there were to be. */
  lemma {:induction false} EndsWithReply<T>(model: Model<T>, base: seq<Message>, retries: int, k: nat)
    requires k == 0 || k <= retries
    requires forall j :: 0 <= j < k ==> var r := ReplyAt(model, base, j); r.Reply? && r.parsed == None
    ensures var reply, n, final := ReplyAt(model, base, k), Calls(model, base, retries, 0),
                                   Final(model, base, retries);
      match reply
      case Raises => n == k + 1 && final == Raised
      case Reply(raw, Some(value), _) =>
        n == k + 1 && final == Parsed(value, raw, k + 1, if raw.Some? then raw.value.tokens else 0)
      case Reply(_, None, error) =>
        k >= retries ==> n == k + 1 && final == SchemaError(error)
  {
    hide ReplyAt;
    CallsGoOn(model, base, retries, k);
  }

  /** What a result says of its exchange: as many attempts as requests were sent, and the usage of the last
      answer. */
  lemma {:induction false} ResultCounts<T>(model: Model<T>, base: seq<Message>, retries: int,
      before: seq<seq<Message>>, after: seq<seq<Message>>, r: Outcome<T>)
    requires Exchanged(model, base, retries, before, after, r) && r.Parsed?
    ensures r.attempts == |after| - |before| && r.usage == (if r.raw.Some? then r.raw.value.tokens else 0)
  {
    hide ReplyAt, Calls;
    RequestsAreTranscripts(model, base, Calls(model, base, retries, 0));
  }

  /** After reasoning, one attempt and the usage of the reasoning more. */
  lemma {:induction false} ReasonedResultCounts<T>(model: Model<T>, messages: seq<Message>, reasoning: AiMessage,
      mode: Mode, retries: int, before: seq<seq<Message>>, after: seq<seq<Message>>, r: Outcome<T>)
    requires ReasonedExchange(model, messages, reasoning, mode, retries, before, after, r) && r.Parsed?
    ensures r.attempts == |after| - |before| + 1
    ensures r.usage == reasoning.tokens + (if r.raw.Some? then r.raw.value.tokens else 0)
  {
    hide ReasonedBase, Final;
    var base := ReasonedBase(messages, reasoning, mode);
    ResultCounts(model, base, retries, before, after, Final(model, base, retries));
  }

  lemma {:induction false} CallsGoOn<T>(model: Model<T>, base: seq<Message>, retries: int, k: nat)
    requires k <= Budget(retries)
    requires forall j :: 0 <= j < k ==> !Settles(ReplyAt(model, base, j))
    ensures Calls(model, base, retries, 0) == Calls(model, base, retries, k)
  {
    hide ReplyAt, Settles;
    if k > 0 {
      CallsGoOn(model, base, retries, k - 1);
    }
  }

  // ----- the usage that is returned against the usage that is tracked

  lemma {:induction false} TokensAppend(a: seq<AiMessage>, x: AiMessage)
    ensures Tokens(a + [x]) == Tokens(a) + x.tokens
  {
  }

  /** The budget sees every response; the returned usage only that of the last call.  They agree if and
      only if all the responses before the last call were free. */
  lemma {:induction false} UsageMissesRetries<T>(model: Model<T>, base: seq<Message>, n: nat)
    requires n > 0 && ReplyAt(model, base, n - 1).Reply?
    ensures Tokens(Responses(model, base, n)) == TokensOf(ReplyAt(model, base, n - 1).raw)
       <==> Tokens(Responses(model, base, n - 1)) == 0
  {
    hide Tokens, ReplyAt;
    if ReplyAt(model, base, n - 1).raw.Some? {
      TokensAppend(Responses(model, base, n - 1), ReplyAt(model, base, n - 1).raw.value);
    } else {
      assert Responses(model, base, n) == Responses(model, base, n - 1);
    }
  }

  // ----- every tool call is answered exactly once

  function LeadingResults(messages: seq<Message>): seq<string> {
    if messages == [] || !messages[0].ToolResult? then []
    else [messages[0].callId] + LeadingResults(messages[1..])
  }

  ghost predicate AnsweredOnce(ids: seq<string>, results: seq<string>) {
    forall id: string :: multiset(results)[id] == if id in ids then 1 else 0
  }

  /** Every assistant turn with tool calls, valid or not, is followed by exactly one result per call id
      and no other result. */
  ghost predicate Paired(messages: seq<Message>) {
    messages != [] ==>
      && (messages[0].Assistant? && messages[0].ai.CallIds() != [] ==>
            AnsweredOnce(messages[0].ai.CallIds(), LeadingResults(messages[1..])))
      && Paired(messages[1..])
  }

  lemma {:induction false} LeadingResultsConcat(a: seq<Message>, b: seq<Message>)
    requires b != [] ==> !b[0].ToolResult?
    ensures LeadingResults(a + b) == LeadingResults(a)
  {
    if a == [] {
      assert a + b == b;
    } else {
      assert (a + b)[1..] == a[1..] + b;
      LeadingResultsConcat(a[1..], b);
    }
  }

  lemma {:induction false} PairedConcat(a: seq<Message>, b: seq<Message>)
    requires b != [] ==> !b[0].ToolResult?
    ensures Paired(a + b) <==> Paired(a) && Paired(b)
  {
    if a == [] {
      assert a + b == b;
    } else {
      assert (a + b)[1..] == a[1..] + b;
      LeadingResultsConcat(a[1..], b);
      PairedConcat(a[1..], b);
    }
  }

  lemma {:induction false} AnswersAreResults(ids: seq<string>, text: string)
    ensures LeadingResults(Answers(ids, text)) == ids
    ensures Paired(Answers(ids, text))
  {
    if ids != [] {
      assert Answers(ids, text)[1..] == Answers(ids[1..], text);
      AnswersAreResults(ids[1..], text);
    }
  }

  lemma {:induction false} CountOfDistinct(ids: seq<string>)
    ensures AnsweredOnce(ids, ids) <==> Distinct(ids)
  {
    if ids != [] {
      var init, last := ids[..|ids| - 1], ids[|ids| - 1];
      assert ids == init + [last];
      CountOfDistinct(init);
      if Distinct(ids) {
        assert last !in init && Distinct(init);
      } else if !Distinct(init) {
        var id: string :| multiset(init)[id] != if id in init then 1 else 0;
        assert multiset(ids)[id] >= multiset(init)[id];
        assert id in init;
      } else {
        assert last in init;
        assert multiset(ids)[last] == multiset(init)[last] + 1;
      }
    }
  }

  /** What a retry appends is paired if and only if the answered turn's call ids are distinct. */
  lemma {:induction false} RetryTailPaired(raw: Option<AiMessage>, feedback: string)
    ensures Paired(RetryTail(raw, feedback)) <==> (raw.Some? ==> Distinct(raw.value.CallIds()))
  {
    var tail := RetryTail(raw, feedback);
    assert Paired([Human(feedback)]) by { assert [Human(feedback)][1..] == []; }
    if raw.Some? {
      var ids := raw.value.CallIds();
      if ids != [] {
        assert tail[1..] == Answers(ids, feedback);
        AnswersAreResults(ids, feedback);
        CountOfDistinct(ids);
      } else {
        assert tail[1..] == [Human(feedback)];
      }
    }
  }

  lemma {:induction false} RetryTailStart(raw: Option<AiMessage>, feedback: string)
    ensures RetryTail(raw, feedback) != [] && !RetryTail(raw, feedback)[0].ToolResult?
  {
  }

  /** Over every exchange: a retry's transcript answers every tool call exactly once if and only if the
      original messages do and the call ids of the turn it answers are distinct. */
  lemma {:induction false} RetryTranscriptPaired<T>(model: Model<T>, base: seq<Message>, i: nat)
    requires ReplyAt(model, base, i).Reply?
    ensures var raw := ReplyAt(model, base, i).raw;
      Paired(Transcript(model, base, i + 1)) <==> Paired(base) && (raw.Some? ==> Distinct(raw.value.CallIds()))
  {
    hide Paired, RetryTail, Feedback;
    var reply := ReplyAt(model, base, i);
    var tail := RetryTail(reply.raw, Feedback(reply.error));
    assert Transcript(model, base, i + 1) == base + tail;
    RetryTailPaired(reply.raw, Feedback(reply.error));
    RetryTailStart(reply.raw, Feedback(reply.error));
    PairedConcat(base, tail);
  }

  ghost predicate AnswersDistinctly<T>(reply: Reply<T>) {
    reply.Reply? && reply.raw.Some? ==> Distinct(reply.raw.value.CallIds())
  }

  ghost predicate AllPaired<T>(model: Model<T>, base: seq<Message>, n: nat) {
    forall i :: 0 <= i < n ==> Paired(Transcript(model, base, i))
  }

  ghost predicate AllAnsweredDistinctly<T>(model: Model<T>, base: seq<Message>, n: nat) {
    forall i :: 0 <= i < n ==> AnswersDistinctly(ReplyAt(model, base, i))
  }

  lemma {:induction false} TranscriptsPaired<T>(model: Model<T>, base: seq<Message>, n: nat)
    requires forall k :: 0 <= k < n ==> !Settles(ReplyAt(model, base, k))
    ensures AllPaired(model, base, n + 1) <==> Paired(base) && AllAnsweredDistinctly(model, base, n)
  {
    hide Paired, AnswersDistinctly, ReplyAt, Transcript;
    FirstCall(model, base);
    if n > 0 {
      TranscriptsPaired(model, base, n - 1);
      RetryIsPaired(model, base, n - 1);
      assert AllPaired(model, base, n + 1) <==> AllPaired(model, base, n) && Paired(Transcript(model, base, n));
      assert AllAnsweredDistinctly(model, base, n) <==>
             AllAnsweredDistinctly(model, base, n - 1) && AnswersDistinctly(ReplyAt(model, base, n - 1));
    }
  }

  /** Every request of an exchange answers every tool call exactly once if and only if the request's own
      messages do and every turn that is answered has distinct call ids. */
  lemma {:induction false} EveryRequestPaired<T>(model: Model<T>, messages: seq<Message>, mode: Mode,
      retries: int)
    ensures var base := Prepare(messages, mode);
      var n := Calls(model, base, retries, 0);
      AllPaired(model, base, n) <==> Paired(messages) && AllAnsweredDistinctly(model, base, n - 1)
  {
    hide AllPaired, AllAnsweredDistinctly, Paired, Prepare, ReplyAt;
    var base := Prepare(messages, mode);
    var n := Calls(model, base, retries, 0);
    PreparePaired(messages, mode);
    CallsAreBounded(model, base, retries, 0);
    TranscriptsPaired(model, base, n - 1);
  }

  lemma {:induction false} RetryIsPaired<T>(model: Model<T>, base: seq<Message>, i: nat)
    requires !Settles(ReplyAt(model, base, i))
    ensures Paired(Transcript(model, base, i + 1)) <==> Paired(base) && AnswersDistinctly(ReplyAt(model, base, i))
  {
    hide Paired, ReplyAt, Transcript;
    RetryTranscriptPaired(model, base, i);
  }

  /** The prompts a mode adds never disturb the pairing. */
  lemma {:induction false} PreparePaired(messages: seq<Message>, mode: Mode)
    ensures Paired(Prepare(messages, mode)) <==> Paired(messages)
  {
    hide Paired;
    match mode
    case JsonObject => PromptPaired(messages, JsonHint().text);
    case JsonSchemaStrict => PromptPaired(messages, JsonMarker().text);
    case OtherMode =>
  }

  lemma {:induction false} PromptPaired(messages: seq<Message>, text: string)
    ensures Paired(messages + [Human(text)]) <==> Paired(messages)
  {
    assert [Human(text)][1..] == [];
    assert Paired([Human(text)]);
    PairedConcat(messages, [Human(text)]);
  }

  lemma {:induction false} NothingIsAnswered(ids: seq<string>)
    ensures AnsweredOnce(ids, []) <==> ids == []
  {
    if ids != [] {
      assert ids[0] in ids;
      assert multiset([])[ids[0]] == 0;
    }
  }

  /** Reason-then-extract breaks the rule whenever the reasoning turn itself called a tool: its calls are
      followed by the extraction prompt, not by results.  It keeps the rule exactly when the reasoning
      made no call and the request's own messages are paired. */
  lemma {:induction false} ExtractBasePaired(messages: seq<Message>, reasoning: AiMessage)
    ensures Paired(ExtractBase(messages, reasoning)) <==> Paired(messages) && reasoning.CallIds() == []
  {
    var prompt := ExtractPrompt();
    var tail := [Assistant(reasoning), prompt];
    PairedConcat(messages, tail);
    assert tail[1..] == [prompt] && [prompt][1..] == [];
    assert Paired([prompt]);
    assert LeadingResults(tail[1..]) == [];
    NothingIsAnswered(reasoning.CallIds());
  }
}
