/**
 * The chat endpoints: the two streaming consultations, which only check the
 * image count and name the request before the stream starts, and the two
 * metered endpoints, which estimate the tokens for the quota check, run one
 * chat exchange, and record the tokens of the question and the reply
 * against the caller's API key.
 */
module ChatApi {
  import opened Common
  import opened Numerals
  import opened PyValues
  import opened DocStore
  import opened Conversations
  import opened Kv
  import opened Billing
  import opened Credentials
  import opened ApiKeys
  import opened Users
  import opened Chat

  /** The answer of an endpoint: its response body, or the `HTTPException` it raises. */
  datatype Response<T> = Answered(value: T) | HttpError(status: int, detail: string)

  // ------------------------------------------------------------- identifiers

  /** An optional id inside an f-string: `None` prints as "None". */
  function IdText(id: Option<string>): string
  {
    id.GetOr("None")
  }

  /** `f"{current_user.id}-{int(time.time() * 1000)}"`, with the clock in milliseconds as an input. */
  function RequestId(user: User, epochMillis: int): (r: string)
    ensures |r| > |IdText(user.id)| + 1
    ensures r[..|IdText(user.id)|] == IdText(user.id) && r[|IdText(user.id)|] == '-'
  {
    IdText(user.id) + "-" + Decimal(epochMillis)
  }

  /**
   * The request id can be read back: after the user id and the dash comes
   * the millisecond count, with no further dash, so the id is the text
   * before the last dash.
   */
  lemma RequestIdReadBack(user: User, epochMillis: nat)
    ensures var r := RequestId(user, epochMillis);
            var tail := r[|IdText(user.id)| + 1..];
            ParseInt(tail) == Some(epochMillis) && '-' !in tail
  {
    var r := RequestId(user, epochMillis);
    assert r[|IdText(user.id)| + 1..] == Decimal(epochMillis);
    ParseIntOfDecimal(epochMillis);
    NaturalShape(epochMillis);
    assert forall i :: 0 <= i < |Decimal(epochMillis)| ==> IsDigit(Decimal(epochMillis)[i]);
  }

  /** `f"api_{api_key.id}_{int(datetime.now(timezone.utc).timestamp())}"`. */
  function ApiConversationId(keyId: Option<string>, seconds: int): (r: string)
    ensures |r| > 4 + |IdText(keyId)| + 1
    ensures StartsWith(r, "api_") && r[4..4 + |IdText(keyId)|] == IdText(keyId)
  {
    ("api_" + IdText(keyId)) + ("_" + Decimal(seconds))
  }

  /** The seconds are the digits after the last underscore of the conversation id. */
  lemma ConversationIdReadBack(keyId: Option<string>, seconds: nat)
    ensures var r := ApiConversationId(keyId, seconds);
            var tail := r[4 + |IdText(keyId)| + 1..];
            r[4 + |IdText(keyId)|] == '_' && ParseInt(tail) == Some(seconds) && '_' !in tail
  {
    var r := ApiConversationId(keyId, seconds);
    assert r[4 + |IdText(keyId)|] == '_';
    assert r[4 + |IdText(keyId)| + 1..] == Decimal(seconds);
    ParseIntOfDecimal(seconds);
    NaturalShape(seconds);
    assert forall i :: 0 <= i < |Decimal(seconds)| ==> IsDigit(Decimal(seconds)[i]);
  }

  /** `f"chatcmpl-{conversation_id}"`. */
  function ResponseId(conversationId: string): (r: string)
    ensures StartsWith(r, "chatcmpl-") && r[9..] == conversationId
  {
    "chatcmpl-" + conversationId
  }

  // ---------------------------------------------------------- streaming

  const EventStream: string := "text/event-stream"

  /** The response line and headers of a consultation stream; the events are the chat service's. */
  datatype StreamStart = StreamStart(mediaType: string, headers: map<string, string>)

  function StreamFor(requestId: string): (r: StreamStart)
    ensures r.mediaType == EventStream
    ensures r.headers.Keys == {"Content-Type", "Cache-Control", "Connection", "X-Request-ID"}
    ensures r.headers["X-Request-ID"] == requestId && r.headers["Cache-Control"] == "no-cache"
    ensures r.headers["Content-Type"] == EventStream + "; charset=utf-8" && r.headers["Connection"] == "keep-alive"
  {
    StreamStart(EventStream, map["Content-Type" := EventStream + "; charset=utf-8",
                                 "Cache-Control" := "no-cache",
                                 "Connection" := "keep-alive",
                                 "X-Request-ID" := requestId])
  }

  /**
   * `chat_text`: the stream starts for every request; its `except` clause
   * cannot be reached, because creating the generator and the response runs
   * none of the chat service's code.
   */
  function ChatText(user: User, epochMillis: int): (r: StreamStart)
    ensures "X-Request-ID" in r.headers && r.headers["X-Request-ID"] == RequestId(user, epochMillis)
  {
    StreamFor(RequestId(user, epochMillis))
  }

  const NoImages: string := "Images list cannot be empty."
  const TooManyImages: string := "Maximum of 5 images allowed."
  const MaxImages: nat := 5

  /** `chat_image`: both image-count guards answer 400 before any stream exists. */
  function ChatImage(request: ImageChatRequest, user: User, epochMillis: int): (r: Response<StreamStart>)
    ensures r.Answered? <==> 1 <= |request.images| <= MaxImages
    ensures |request.images| == 0 ==> r == HttpError(400, NoImages)
    ensures |request.images| > MaxImages ==> r == HttpError(400, TooManyImages)
    ensures r.Answered? ==> "X-Request-ID" in r.value.headers && r.value.headers["X-Request-ID"] == RequestId(user, epochMillis)
  {
    if |request.images| == 0 then HttpError(400, NoImages)
    else if |request.images| > MaxImages then HttpError(400, TooManyImages)
    else Answered(StreamFor(RequestId(user, epochMillis)))
  }

  // ------------------------------------------------- the OpenAI request body

  datatype OpenAIMessage = OpenAIMessage(role: string, content: string)

  /** `OpenAIChatRequest` once validated. */
  datatype OpenAIRequest = OpenAIRequest(
    model: string,
    messages: seq<OpenAIMessage>,
    maxTokens: Option<int>,
    temperature: real,
    stream: bool)

  /** The body as sent: every field but `messages` may be missing. */
  datatype OpenAIBody = OpenAIBody(
    model: Option<string>,
    messages: Option<seq<OpenAIMessage>>,
    maxTokens: Option<int>,
    temperature: Option<real>,
    stream: Option<bool>)

  /** `pattern="^(system|user|assistant)$"`, matched against the whole role. */
  predicate KnownRole(role: string)
  {
    role == "system" || role == "user" || role == "assistant"
  }

  /** The field constraints of `OpenAIChatRequest` and `OpenAIChatMessage`. */
  predicate WithinBounds(request: OpenAIRequest)
  {
    && (forall i :: 0 <= i < |request.messages| ==> KnownRole(request.messages[i].role))
    && (request.maxTokens.Some? ==> 1 <= request.maxTokens.value <= 4000)
    && 0.0 <= request.temperature <= 2.0
  }

  const DefaultTemperature: real := 0.7

  /** Validation of the body: the defaults filled in, and None (a 422) when a constraint fails. */
  function ParseOpenAIRequest(body: OpenAIBody): (r: Option<OpenAIRequest>)
    ensures r.Some? ==> WithinBounds(r.value)
    ensures r.Some? ==> && r.value.model == body.model.GetOr(DefaultModel)
                        && Some(r.value.messages) == body.messages && r.value.maxTokens == body.maxTokens
                        && r.value.temperature == body.temperature.GetOr(DefaultTemperature)
                        && r.value.stream == body.stream.GetOr(false)
    ensures r.None? ==> body.messages.None?
                        || !WithinBounds(OpenAIRequest(body.model.GetOr(DefaultModel), body.messages.value, body.maxTokens,
                                                       body.temperature.GetOr(DefaultTemperature), body.stream.GetOr(false)))
  {
    match body.messages
    case None => None
    case Some(messages) =>
      var request := OpenAIRequest(body.model.GetOr(DefaultModel), messages, body.maxTokens,
                                   body.temperature.GetOr(DefaultTemperature), body.stream.GetOr(false));
      if WithinBounds(request) then Some(request) else None
  }

  /** A body that gives only messages with known roles is accepted with every default. */
  lemma DefaultsAccepted(messages: seq<OpenAIMessage>)
    requires forall i :: 0 <= i < |messages| ==> KnownRole(messages[i].role)
    ensures ParseOpenAIRequest(OpenAIBody(None, Some(messages), None, None, None))
            == Some(OpenAIRequest(DefaultModel, messages, None, DefaultTemperature, false))
  {
  }

  // ------------------------------------------------------- token arithmetic

  /** The total length of the parts. */
  function TotalLength(parts: seq<string>): nat
    decreases |parts|
  {
    if |parts| == 0 then 0 else |parts[0]| + TotalLength(parts[1..])
  }

  /** A join is as long as its parts plus one separator between each two of them. */
  lemma {:induction false} JoinLength(parts: seq<string>, sep: string)
    requires |parts| > 0
    ensures |Join(parts, sep)| == TotalLength(parts) + (|parts| - 1) * |sep|
    decreases |parts|
  {
    if |parts| > 1 {
      JoinLength(parts[1..], sep);
      assert (|parts| - 1) * |sep| == |sep| + (|parts| - 2) * |sep|;
    }
  }

  /** Parts that are each no longer than their partners are no longer in total. */
  lemma {:induction false} TotalLengthMonotone(a: seq<string>, b: seq<string>)
    requires |a| == |b| && forall i :: 0 <= i < |a| ==> |a[i]| <= |b[i]|
    ensures TotalLength(a) <= TotalLength(b)
    decreases |a|
  {
    if |a| > 0 {
      TotalLengthMonotone(a[1..], b[1..]);
    }
  }

  /** `[msg.content for msg in chat_request.messages]`. */
  function Contents(messages: seq<OpenAIMessage>): (r: seq<string>)
    ensures |r| == |messages| && forall i :: 0 <= i < |r| ==> r[i] == messages[i].content
  {
    seq(|messages|, i requires 0 <= i < |messages| => messages[i].content)
  }

  /** `[f"{msg.role}: {msg.content}" for msg in chat_request.messages]`. */
  function MessageLines(messages: seq<OpenAIMessage>): (r: seq<string>)
    ensures |r| == |messages| && forall i :: 0 <= i < |r| ==> r[i] == messages[i].role + ": " + messages[i].content
  {
    seq(|messages|, i requires 0 <= i < |messages| => messages[i].role + ": " + messages[i].content)
  }

  /** `messages_text`: the conversation handed to the chat service as one question. */
  function MessagesText(messages: seq<OpenAIMessage>): string
  {
    Join(MessageLines(messages), "\n")
  }

  /** `len(" ".join(contents)) // 4`: a quarter of the contents' length with a space between each two. */
  function EstimatedTokens(messages: seq<OpenAIMessage>): (r: int)
    ensures 0 <= 4 * r <= |Join(Contents(messages), " ")| < 4 * r + 4
  {
    |Join(Contents(messages), " ")| / 4
  }

  /** The estimate counts the contents and the spaces between them, and nothing else. */
  lemma EstimateCountsContents(messages: seq<OpenAIMessage>)
    ensures |messages| == 0 ==> EstimatedTokens(messages) == 0
    ensures |messages| > 0 ==> EstimatedTokens(messages) == (TotalLength(Contents(messages)) + |messages| - 1) / 4
  {
    if |messages| > 0 {
      JoinLength(Contents(messages), " ");
    }
  }

  /** `usage`: the integer quarters of the two lengths, and their sum. */
  datatype Usage = Usage(promptTokens: int, completionTokens: int, totalTokens: int)

  function UsageOf(messagesText: string, reply: string): (u: Usage)
    ensures 0 <= 4 * u.promptTokens <= |messagesText| < 4 * u.promptTokens + 4
    ensures 0 <= 4 * u.completionTokens <= |reply| < 4 * u.completionTokens + 4
    ensures u.totalTokens == u.promptTokens + u.completionTokens
  {
    var prompt := |messagesText| / 4;
    var completion := |reply| / 4;
    Usage(prompt, completion, prompt + completion)
  }

  /**
   * The prompt tokens charged are never fewer than the tokens estimated
   * for the quota check: each line holds its content and more, and both
   * texts put one character between each two parts.
   */
  lemma PromptCoversEstimate(messages: seq<OpenAIMessage>, reply: string)
    ensures EstimatedTokens(messages) <= UsageOf(MessagesText(messages), reply).promptTokens
  {
    if |messages| > 0 {
      JoinLength(Contents(messages), " ");
      JoinLength(MessageLines(messages), "\n");
      TotalLengthMonotone(Contents(messages), MessageLines(messages));
    }
  }

  /** The usage data `chat_completions` hands to `record_usage`. */
  function CompletionData(model: string, u: Usage): UsageData
  {
    UsageData(Some(model), Some(u.promptTokens), Some(u.completionTokens), Some("/chat/completions"), Some("POST"))
  }

  /** The usage data the legacy endpoint hands to `record_usage`. */
  function LegacyData(u: Usage): UsageData
  {
    UsageData(Some("default"), Some(u.promptTokens), Some(u.completionTokens), Some("/chat"), Some("POST"))
  }

  /** The usage recorded is the usage returned: the same three counts, under the request's model. */
  lemma RecordedUsageIsReturned(key: ApiKey, model: string, messagesText: string, reply: string, now: int)
    ensures var u := UsageOf(messagesText, reply);
            var record := UsageFor(key, CompletionData(model, u), now);
            && record.promptTokens == u.promptTokens && record.completionTokens == u.completionTokens
            && record.totalTokens == u.totalTokens && record.model == Some(model)
            && record.endpoint == "/chat/completions" && record.httpMethod == "POST"
  {
  }

  // ------------------------------------------------------- the completion

  datatype Choice = Choice(index: int, role: string, content: string, finishReason: string)

  /** `OpenAIChatResponse`. */
  datatype Completion = Completion(id: string, object: string, created: int, model: string, choices: seq<Choice>, usage: Usage)

  /**
   * What `check_quota(api_key, estimated_tokens)` does: let the request
   * through, raise an `HTTPException`, or raise anything else.
   */
  datatype QuotaVerdict = Passed | Refused(status: int, detail: string) | CheckFailed(error: string)

  type Quota = (ApiKey, int) -> QuotaVerdict

  const InternalError: string := "Internal server error"
  const ChatServiceError: string := "聊天服务错误: "

  class ChatEndpoints {
    const chat: ChatService
    const keys: ApiKeyService

    constructor(chat: ChatService, keys: ApiKeyService)
      ensures this.chat == chat && this.keys == keys
    {
      this.chat := chat;
      this.keys := keys;
    }

    /**
     * `chat_completions`: the estimate goes to the quota check; the
     * conversation is named after the key and the clock; a failed exchange
     * is a 500 carrying its error; a successful one records the usage of
     * the joined messages and the reply and returns that same usage.
     */
    method ChatCompletions(request: OpenAIRequest, key: ApiKey, quota: Quota, generate: string -> Outcome<string>,
                           startSeconds: int, createdSeconds: int, times: SaveTimes, now: int, isoNow: string,
                           codec: JsonCodec, userMsgId: string, replyMsgId: string, usageId: string)
      returns (r: Response<Completion>)
      modifies chat.mongo.conversations`docs, chat.redis`entries, keys.usage`docs, keys.keys`docs, keys.accounts`docs
      ensures var question := MessagesText(request.messages);
              var cid := ApiConversationId(key.id, startSeconds);
              var answer := Answer(old(chat.mongo.conversations.docs), chat.mongo.conversations.up, question, cid,
                                   generate, times.asked, userMsgId);
              match quota(key, EstimatedTokens(request.messages))
              case Refused(status, detail) =>
                r == HttpError(status, detail)
                && unchanged(chat.mongo.conversations, chat.redis, keys.usage, keys.keys, keys.accounts)
              case CheckFailed(_) =>
                r == HttpError(500, InternalError)
                && unchanged(chat.mongo.conversations, chat.redis, keys.usage, keys.keys, keys.accounts)
              case Passed =>
                && chat.mongo.conversations.docs
                   == AfterAnswer(old(chat.mongo.conversations.docs), chat.mongo.conversations.up, question, cid, answer,
                                  times, userMsgId, replyMsgId)
                && chat.redis.entries - {HistoryKey(cid)} == old(chat.redis.entries) - {HistoryKey(cid)}
                && match answer
                   case Raised(e) =>
                     r == HttpError(500, e) && chat.redis.entries == old(chat.redis.entries)
                     && unchanged(keys.usage, keys.keys, keys.accounts)
                   case Ok(reply) =>
                     var u := UsageOf(question, reply);
                     && r == Answered(Completion(ResponseId(cid), "chat.completion", createdSeconds, request.model,
                                                 [Choice(0, "assistant", reply, "stop")], u))
                     && keys.UsageRecorded(key, CompletionData(request.model, u), now, usageId)
    {
      var estimated := EstimatedTokens(request.messages);
      var verdict := quota(key, estimated);
      if verdict.Refused? {
        return HttpError(verdict.status, verdict.detail);
      } else if verdict.CheckFailed? {
        return HttpError(500, InternalError);
      }
      var cid := ApiConversationId(key.id, startSeconds);
      var question := MessagesText(request.messages);
      // The request always names its conversation, so no new id is drawn.
      var reply := chat.ProcessChatRequest(ChatRequest(question, Some(cid)), generate, "", times, now, isoNow, codec,
                                           userMsgId, replyMsgId);
      if !reply.success {
        return HttpError(500, reply.error.value);
      }
      var u := UsageOf(question, reply.response.value);
      var _ := keys.RecordUsage(key, CompletionData(request.model, u), now, usageId);
      r := Answered(Completion(ResponseId(cid), "chat.completion", createdSeconds, request.model,
                               [Choice(0, "assistant", reply.response.value, "stop")], u));
    }

    /**
     * The legacy `chat` endpoint: the estimate is a quarter of the question;
     * the chat response is returned as it is, and the usage (model
     * "default") is recorded only when it succeeded.
     */
    method LegacyChat(request: ChatRequest, key: ApiKey, quota: Quota, generate: string -> Outcome<string>, uuid: string,
                      times: SaveTimes, now: int, isoNow: string, codec: JsonCodec, userMsgId: string, replyMsgId: string,
                      usageId: string)
      returns (r: Response<ChatReply>)
      modifies chat.mongo.conversations`docs, chat.redis`entries, keys.usage`docs, keys.keys`docs, keys.accounts`docs
      ensures var cid := ConversationIdOf(request, uuid);
              var answer := Answer(old(chat.mongo.conversations.docs), chat.mongo.conversations.up, request.question, cid,
                                   generate, times.asked, userMsgId);
              match quota(key, |request.question| / 4)
              case Refused(status, detail) =>
                r == HttpError(status, detail)
                && unchanged(chat.mongo.conversations, chat.redis, keys.usage, keys.keys, keys.accounts)
              case CheckFailed(e) =>
                r == HttpError(500, ChatServiceError + e)
                && unchanged(chat.mongo.conversations, chat.redis, keys.usage, keys.keys, keys.accounts)
              case Passed =>
                && r == Answered(ReplyFor(answer, request, cid))
                && chat.mongo.conversations.docs
                   == AfterAnswer(old(chat.mongo.conversations.docs), chat.mongo.conversations.up, request.question, cid,
                                  answer, times, userMsgId, replyMsgId)
                && chat.redis.entries - {HistoryKey(cid)} == old(chat.redis.entries) - {HistoryKey(cid)}
                && (answer.Raised? ==> chat.redis.entries == old(chat.redis.entries) && unchanged(keys.usage, keys.keys, keys.accounts))
                && (answer.Ok? ==> keys.UsageRecorded(key, LegacyData(UsageOf(request.question, answer.value)), now, usageId))
    {
      var verdict := quota(key, |request.question| / 4);
      if verdict.Refused? {
        return HttpError(verdict.status, verdict.detail);
      } else if verdict.CheckFailed? {
        return HttpError(500, ChatServiceError + verdict.error);
      }
      var reply := LegacyExchange(request, key, generate, uuid, times, now, isoNow, codec, userMsgId, replyMsgId, usageId);
      r := Answered(reply);
    }

    /** The legacy endpoint past the quota check: the exchange, then the usage when it succeeded. */
    method LegacyExchange(request: ChatRequest, key: ApiKey, generate: string -> Outcome<string>, uuid: string,
                          times: SaveTimes, now: int, isoNow: string, codec: JsonCodec, userMsgId: string,
                          replyMsgId: string, usageId: string)
      returns (reply: ChatReply)
      modifies chat.mongo.conversations`docs, chat.redis`entries, keys.usage`docs, keys.keys`docs, keys.accounts`docs
      ensures var cid := ConversationIdOf(request, uuid);
              && ChatAnswered(old(chat.mongo.conversations.docs), chat.mongo.conversations.up, chat.mongo.conversations.docs,
                              request, cid, generate, times, userMsgId, replyMsgId, reply)
              && chat.redis.entries - {HistoryKey(cid)} == old(chat.redis.entries) - {HistoryKey(cid)}
              && (!reply.success ==> chat.redis.entries == old(chat.redis.entries) && unchanged(keys.usage, keys.keys, keys.accounts))
              && (reply.success ==> keys.UsageRecorded(key, LegacyData(UsageOf(request.question, reply.response.value)), now, usageId))
    {
      // The conversations are none of the key service's collections: they hold other documents.
      assert chat.mongo.conversations as object != keys.usage as object && chat.mongo.conversations as object != keys.keys as object
             && chat.mongo.conversations as object != keys.accounts as object;
      reply := chat.ProcessChatRequest(request, generate, uuid, times, now, isoNow, codec, userMsgId, replyMsgId);
      if reply.success {
        var u := UsageOf(request.question, reply.response.value);
        var _ := keys.RecordUsage(key, LegacyData(u), now, usageId);
      }
    }
  }
}
