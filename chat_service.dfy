/**
 * `ChatService`: the text and image consultation streams, the prompt and
 * context handed to the language model, the turns saved after a stream,
 * and the conversation cache kept in front of the message store.
 */
module Chat {
  import opened Common
  import opened Numerals
  import opened PyValues
  import opened JsonText
  import opened DocStore
  import opened Conversations
  import opened Kv
  import opened Signature
  import opened Vision

  // ------------------------------------------------------------- requests

  datatype TextChatRequest = TextChatRequest(userId: string, conversationId: string, petId: string, question: string)

  datatype ImageChatRequest = ImageChatRequest(
    userId: string,
    conversationId: string,
    petId: string,
    question: string,
    imageType: ImageType,
    images: seq<string>)

  // --------------------------------------------------------------- events

  /** `StreamChunk`, one piece of the answer as the client receives it. */
  datatype StreamChunk = StreamChunk(conversationId: string, textChunk: string, isFinal: bool, timestamp: string)

  /** What one `yield` of a stream carries: a chunk, or the structured error. */
  datatype Event =
    | Chunk(chunk: StreamChunk)
    | Failure(error: string, detail: string)

  const TextChatError: string := "ChatProcessingError"
  const ImageChatError: string := "ImageChatProcessingError"

  const ErrorHead: string := "{\"success\": false, \"error\": "

  const DetailSeparator: string := ", \"detail\": "

  /** Printable parts make a printable error object that opens with the head and closes with `}`. */
  lemma ErrorObjectShape(q1: string, q2: string)
    requires Printable(q1) && Printable(q2)
    ensures var r := ErrorHead + q1 + DetailSeparator + q2 + "}";
            && Printable(r) && |r| > |ErrorHead| && r[..|ErrorHead|] == ErrorHead && r[|r| - 1] == '}'
  {
    var close: string := "}";
    assert Printable(ErrorHead) && Printable(DetailSeparator) && Printable(close);
    PrintableConcat(ErrorHead, q1);
    PrintableConcat(ErrorHead + q1, DetailSeparator);
    PrintableConcat(ErrorHead + q1 + DetailSeparator, q2);
    PrintableConcat(ErrorHead + q1 + DetailSeparator + q2, close);
    var r := ErrorHead + q1 + DetailSeparator + q2 + close;
    assert r == ErrorHead + (q1 + DetailSeparator + q2 + close);
  }

  /**
   * `json.dumps(error_message)` with the default separators `", "` and
   * `": "`, the keys in insertion order and non-ASCII characters escaped.
   */
  function ErrorJson(error: string, detail: string): (r: string)
    ensures Printable(r)
    ensures |r| > |ErrorHead| && r[..|ErrorHead|] == ErrorHead && r[|r| - 1] == '}'
  {
    ErrorObjectShape(Quote(error), Quote(detail));
    ErrorHead + Quote(error) + DetailSeparator + Quote(detail) + "}"
  }

  predicate NoLineBreak(s: string)
  {
    forall i :: 0 <= i < |s| ==> s[i] != '\n' && s[i] != '\r'
  }

  /**
   * How an event-stream reader (section 9.2 of the WHATWG HTML standard)
   * reads one block made of a single `data:` line and the blank line that
   * ends it: the line's value after the colon and one space.
   */
  function ReadEvent(block: string): Option<string>
  {
    if |block| >= 8 && block[..6] == "data: " && block[|block| - 2..] == "\n\n" && NoLineBreak(block[6..|block| - 2])
    then Some(block[6..|block| - 2])
    else None
  }

  /** `f"data: {payload}\n\n"`: a payload without line breaks reaches the reader unchanged. */
  function Frame(payload: string): (r: string)
    ensures NoLineBreak(payload) ==> ReadEvent(r) == Some(payload)
    ensures !NoLineBreak(payload) ==> ReadEvent(r).None?
  {
    var r := "data: " + payload + "\n\n";
    assert r[..6] == "data: " && r[6..|r| - 2] == payload && r[|r| - 2..] == "\n\n";
    r
  }

  /** `StreamChunk.model_dump_json()`. */
  type ChunkJson = StreamChunk -> string

  /** The text of an event on the wire; the error payload always arrives whole. */
  function Wire(e: Event, chunkJson: ChunkJson): (r: string)
    ensures e.Failure? ==> ReadEvent(r) == Some(ErrorJson(e.error, e.detail))
    ensures e.Chunk? && NoLineBreak(chunkJson(e.chunk)) ==> ReadEvent(r) == Some(chunkJson(e.chunk))
  {
    match e
    case Chunk(c) => Frame(chunkJson(c))
    case Failure(error, detail) => Frame(ErrorJson(error, detail))
  }

  // --------------------------------------------------------------- streams

  /**
   * What `llm_service.stream_chat(prompt)` delivers: each chunk's
   * `choices[0].delta.content` (None when absent), then, when the stream
   * breaks off, the text of the exception.
   */
  datatype LlmStream = LlmStream(deltas: seq<Option<string>>, failure: Option<string>)

  type Llm = string -> LlmStream

  /** `datetime.utcnow().isoformat()` at the `k`-th event of a stream. */
  type Clock = nat -> string

  /** `chunk.choices[0].delta.content or ""`. */
  function Piece(delta: Option<string>): string
  {
    delta.GetOr("")
  }

  /** `full_response_content` after the given chunks. */
  function Reply(deltas: seq<Option<string>>): string
    decreases |deltas|
  {
    if |deltas| == 0 then "" else Reply(deltas[..|deltas| - 1]) + Piece(deltas[|deltas| - 1])
  }

  /** One non-final chunk event per LLM chunk, stamped in turn. */
  function ChunkEvents(conversationId: string, deltas: seq<Option<string>>, stamps: Clock): seq<Event>
  {
    seq(|deltas|, i requires 0 <= i < |deltas| => Chunk(StreamChunk(conversationId, Piece(deltas[i]), false, stamps(i))))
  }

  /** The event after the chunks: the final chunk, or the error event when the stream broke off. */
  function LastEvent(conversationId: string, s: LlmStream, stamps: Clock, errorName: string): Event
  {
    if s.failure.None? then Chunk(StreamChunk(conversationId, "", true, stamps(|s.deltas|)))
    else Failure(errorName, s.failure.value)
  }

  /** The text a client assembles from the chunk events it receives. */
  function Streamed(events: seq<Event>): string
    decreases |events|
  {
    if |events| == 0 then ""
    else Streamed(events[..|events| - 1]) + (if events[|events| - 1].Chunk? then events[|events| - 1].chunk.textChunk else "")
  }

  /**
   * The `async for` loop of both generators and the event after it: the
   * chunks relayed one by one, then exactly one closing event; the reply
   * saved is exactly the text the client was sent.
   */
  method Relay(conversationId: string, s: LlmStream, stamps: Clock, errorName: string)
    returns (events: seq<Event>, reply: string)
    ensures events == ChunkEvents(conversationId, s.deltas, stamps) + [LastEvent(conversationId, s, stamps, errorName)]
    ensures reply == Reply(s.deltas) && reply == Streamed(events)
    ensures |events| == |s.deltas| + 1
    ensures forall i :: 0 <= i < |s.deltas| ==>
              events[i].Chunk? && !events[i].chunk.isFinal && events[i].chunk.textChunk == Piece(s.deltas[i])
    ensures s.failure.None? <==> events[|s.deltas|].Chunk?
    ensures s.failure.None? ==> events[|s.deltas|].chunk.isFinal && events[|s.deltas|].chunk.textChunk == ""
    ensures s.failure.Some? ==> events[|s.deltas|] == Failure(errorName, s.failure.value)
  {
    events := [];
    reply := "";
    for i := 0 to |s.deltas|
      invariant events == ChunkEvents(conversationId, s.deltas[..i], stamps)
      invariant reply == Reply(s.deltas[..i])
    {
      var piece := Piece(s.deltas[i]);
      assert s.deltas[..i + 1][..i] == s.deltas[..i];
      reply := reply + piece;
      events := events + [Chunk(StreamChunk(conversationId, piece, false, stamps(i)))];
    }
    assert s.deltas[..|s.deltas|] == s.deltas;
    StreamedChunks(conversationId, s.deltas, stamps);
    var last := LastEvent(conversationId, s, stamps, errorName);
    assert (events + [last])[..|events|] == events;
    events := events + [last];
  }

  /** The chunk events carry the reply, piece by piece. */
  lemma {:induction false} StreamedChunks(conversationId: string, deltas: seq<Option<string>>, stamps: Clock)
    ensures Streamed(ChunkEvents(conversationId, deltas, stamps)) == Reply(deltas)
    decreases |deltas|
  {
    if |deltas| > 0 {
      var n := |deltas| - 1;
      var e := ChunkEvents(conversationId, deltas, stamps);
      assert e[..n] == ChunkEvents(conversationId, deltas[..n], stamps);
      StreamedChunks(conversationId, deltas[..n], stamps);
    }
  }

  /** Nothing is saved exactly when every chunk was empty or had no content. */
  lemma {:induction false} ReplyEmpty(deltas: seq<Option<string>>)
    ensures Reply(deltas) == "" <==> forall i :: 0 <= i < |deltas| ==> Piece(deltas[i]) == ""
    decreases |deltas|
  {
    if |deltas| > 0 {
      var n := |deltas| - 1;
      ReplyEmpty(deltas[..n]);
      assert forall i :: 0 <= i < n ==> deltas[..n][i] == deltas[i];
    }
  }

  // ------------------------------------------------------ saved exchanges

  predicate IdTaken(docs: seq<Stored<MessageDoc>>, id: string)
  {
    exists i :: 0 <= i < |docs| && docs[i].id == id
  }

  /** `save_message` on the collection's documents: appended unless the server is down or the id is taken. */
  function Inserted(docs: seq<Stored<MessageDoc>>, up: bool, id: string, doc: MessageDoc): seq<Stored<MessageDoc>>
  {
    if up && !IdTaken(docs, id) then docs + [Stored(id, doc)] else docs
  }

  /**
   * The clock readings of the two `save_message` calls of an exchange:
   * each save stamps its document with `datetime.now` when it runs, the
   * question's first and the answer's afterwards.
   */
  datatype SaveTimes = SaveTimes(asked: int, answered: int)

  /** The `finally` clause: the user turn and then the reply, only when the reply is not empty. */
  function AfterExchange(docs: seq<Stored<MessageDoc>>, up: bool, conversationId: string, userText: string,
                         reply: string, times: SaveTimes, userMsgId: string, replyMsgId: string): seq<Stored<MessageDoc>>
  {
    if reply == "" then docs
    else
      var withUser := Inserted(docs, up, userMsgId, MessageDoc(conversationId, "user", userText, times.asked, map[]));
      Inserted(withUser, up, replyMsgId, MessageDoc(conversationId, "assistant", reply, times.answered, map[]))
  }

  /** With the server up and unused ids, a non-empty reply saves two turns, user first; an empty one saves none. */
  lemma ExchangeSaved(docs: seq<Stored<MessageDoc>>, conversationId: string, userText: string, reply: string,
                      times: SaveTimes, userMsgId: string, replyMsgId: string)
    requires userMsgId != replyMsgId && !IdTaken(docs, userMsgId) && !IdTaken(docs, replyMsgId)
    ensures var after := AfterExchange(docs, true, conversationId, userText, reply, times, userMsgId, replyMsgId);
            && (reply == "" <==> after == docs)
            && (reply != "" ==> after == docs + [Stored(userMsgId, MessageDoc(conversationId, "user", userText, times.asked, map[])),
                                                 Stored(replyMsgId, MessageDoc(conversationId, "assistant", reply, times.answered, map[]))])
  {
    var u := Stored(userMsgId, MessageDoc(conversationId, "user", userText, times.asked, map[]));
    if reply != "" {
      var withUser := docs + [u];
      assert !IdTaken(withUser, replyMsgId) by {
        forall i | 0 <= i < |withUser|
          ensures withUser[i].id != replyMsgId
        {
          if i < |docs| {
            assert withUser[i] == docs[i];
          }
        }
      }
      assert |AfterExchange(docs, true, conversationId, userText, reply, times, userMsgId, replyMsgId)| == |docs| + 2;
    }
  }

  /**
   * When the clock moves on between the two saves and every earlier turn
   * of the conversation is older, the next history read of two or more
   * turns ends with the user turn and then the reply.
   */
  lemma ExchangeReadInOrder(docs: seq<Stored<MessageDoc>>, conversationId: string, userText: string, reply: string,
                            times: SaveTimes, userMsgId: string, replyMsgId: string, limit: nat)
    requires userMsgId != replyMsgId && !IdTaken(docs, userMsgId) && !IdTaken(docs, replyMsgId)
    requires reply != "" && times.asked < times.answered && limit >= 2
    requires forall i :: 0 <= i < |docs| && docs[i].doc.conversationId == conversationId ==> docs[i].doc.timestamp < times.asked
    ensures var h := Project(RecentWindow(AfterExchange(docs, true, conversationId, userText, reply, times, userMsgId, replyMsgId),
                                          conversationId, limit));
            |h| >= 2 && h[|h| - 2] == Turn("user", userText) && h[|h| - 1] == Turn("assistant", reply)
  {
    ExchangeSaved(docs, conversationId, userText, reply, times, userMsgId, replyMsgId);
    PairComesLast(docs, Stored(userMsgId, MessageDoc(conversationId, "user", userText, times.asked, map[])),
                  Stored(replyMsgId, MessageDoc(conversationId, "assistant", reply, times.answered, map[])), limit);
  }

  /** The user turn of an image consultation. */
  function ImageTurn(imageType: ImageType, question: string): (r: string)
    ensures |r| >= |"[Image Analysis: "| + |question|
    ensures r[..|"[Image Analysis: "|] == "[Image Analysis: " && r[|r| - |question|..] == question
  {
    "[Image Analysis: " + imageType.Value() + "] " + question
  }

  // ---------------------------------------------------------------- prompt

  const PromptIntro: string := "你是一个专业的宠物医生。请根据以下信息，用中文回答用户的问题。\n\n[宠物信息]\n"
  const HistoryHeading: string := "\n\n[对话历史]\n"
  const KnowledgeHeading: string := "\n\n[相关知识库]\n"
  const ImageHeading: string := "\n[图片分析结果]\n"
  const QuestionHeading: string := "\n[用户当前问题]\n"
  const PromptEnd: string := "\n\n请根据以上所有信息，提供专业、详细的回答。\n"

  const RagKnowledge: string := "RAG Knowledge: 狗狗在呕吐黄色泡沫时，通常建议禁食12小时，并观察精神状态。如果持续呕吐或精神萎靡，应立即就医。"

  /** `_rag_retrieval`: a fixed passage, whatever the query. */
  function RagRetrieval(query: string): string
  {
    RagKnowledge
  }

  /** Any two queries retrieve the same non-empty passage. */
  lemma RagIgnoresQuery(q1: string, q2: string)
    ensures RagRetrieval(q1) == RagRetrieval(q2) && |RagRetrieval(q1)| > 0
  {
  }

  /** `f"{role}: {content}"`. */
  function Line(t: Turn): string
  {
    t.role + ": " + t.content
  }

  function Lines(history: seq<Turn>): (r: seq<string>)
    ensures |r| == |history| && forall i :: 0 <= i < |r| ==> r[i] == Line(history[i])
  {
    seq(|history|, i requires 0 <= i < |history| => Line(history[i]))
  }

  /** Pet profile, history and knowledge: the prompt before any image section. */
  function PromptHead(petJson: string, history: seq<Turn>, rag: string): string
  {
    PromptIntro + petJson + HistoryHeading + Join(Lines(history), "\n") + KnowledgeHeading + rag + "\n"
  }

  function ImageSection(descriptions: string): string
  {
    ImageHeading + descriptions + "\n"
  }

  function QuestionSection(question: string): string
  {
    QuestionHeading + question + PromptEnd
  }

  /**
   * `_build_prompt`: pet profile, history, knowledge, the image results
   * when there are any, then the question, in that order.
   */
  function BuildPrompt(question: string, petJson: string, history: seq<Turn>, rag: string,
                       imageDescriptions: Option<string>): (r: string)
    ensures var head := PromptHead(petJson, history, rag);
            var tail := QuestionSection(question);
            && |head| + |tail| <= |r| && r[..|head|] == head && r[|r| - |tail|..] == tail
            && (imageDescriptions.Some? && imageDescriptions.value != "" ==>
                  r[|head|..|r| - |tail|] == ImageSection(imageDescriptions.value))
            && (imageDescriptions.None? || imageDescriptions.value == "" ==> |r| == |head| + |tail|)
  {
    var head := PromptHead(petJson, history, rag);
    var middle := if imageDescriptions.Some? && imageDescriptions.value != "" then ImageSection(imageDescriptions.value) else "";
    var r := head + middle + QuestionSection(question);
    assert r[..|head|] == head;
    assert r[|head|..|r| - |QuestionSection(question)|] == middle;
    r
  }

  /** The image section appears exactly when there are descriptions: otherwise the prompt is the text-only one. */
  lemma ImageSectionOnlyWhenDescribed(question: string, petJson: string, history: seq<Turn>, rag: string, d: string)
    ensures BuildPrompt(question, petJson, history, rag, Some(d)) == BuildPrompt(question, petJson, history, rag, None) <==> d == ""
  {
    var with := BuildPrompt(question, petJson, history, rag, Some(d));
    var without := BuildPrompt(question, petJson, history, rag, None);
    var head := PromptHead(petJson, history, rag);
    var tail := QuestionSection(question);
    if d == "" {
      assert with[..|head|] == without[..|head|];
      assert with == with[..|head|] + with[|head|..];
      assert without == without[..|head|] + without[|head|..];
    } else {
      assert |ImageSection(d)| > 0;
    }
  }

  // --------------------------------------------------------------- context

  /** `history[-5:]`. */
  function LastFive(history: seq<Turn>): (r: seq<Turn>)
    ensures |r| == Min(|history|, 5) && r == history[|history| - |r|..]
  {
    if |history| <= 5 then history else history[|history| - 5..]
  }

  /** The lines `_build_context` joins: the last five turns, then the question as the user's. */
  function ContextLines(history: seq<Turn>, question: string): (r: seq<string>)
    ensures |r| == Min(|history|, 5) + 1
    ensures r[|r| - 1] == "user: " + question
    ensures forall i :: 0 <= i < |r| - 1 ==> r[i] == Line(history[|history| - (|r| - 1) + i])
  {
    Lines(LastFive(history)) + ["user: " + question]
  }

  /** `_build_context`: the context lines joined by newlines; the question always comes last. */
  method BuildContext(history: seq<Turn>, question: string) returns (context: string)
    ensures context == Join(ContextLines(history, question), "\n")
    ensures |context| >= |"user: " + question| && context[|context| - |"user: " + question|..] == "user: " + question
  {
    var recent := LastFive(history);
    var parts: seq<string> := [];
    for i := 0 to |recent|
      invariant parts == Lines(recent[..i])
    {
      parts := parts + [Line(recent[i])];
    }
    assert recent[..|recent|] == recent;
    var last := "user: " + question;
    if |parts| > 0 {
      JoinSnoc(parts, last, "\n");
    } else {
      assert parts + [last] == [last];
    }
    parts := parts + [last];
    context := Join(parts, "\n");
  }

  /**
   * When the question was saved after every earlier message of the
   * conversation and the history is read afterwards, the question is the
   * last history turn and the context ends with it twice.
   */
  lemma QuestionRepeatedInContext(docs: seq<Stored<MessageDoc>>, conversationId: string, question: string,
                                  now: int, id: string)
    requires forall i :: 0 <= i < |docs| && docs[i].doc.conversationId == conversationId ==> docs[i].doc.timestamp < now
    ensures var saved := Stored(id, MessageDoc(conversationId, "user", question, now, map[]));
            var lines := ContextLines(Project(RecentWindow(docs + [saved], conversationId, 10)), question);
            |lines| >= 2 && lines[|lines| - 2] == "user: " + question && lines[|lines| - 1] == "user: " + question
  {
    var saved := Stored(id, MessageDoc(conversationId, "user", question, now, map[]));
    SavedMessageComesLast(docs, saved, 10);
    var w := RecentWindow(docs + [saved], conversationId, 10);
    var h := Project(w);
    assert h[|h| - 1] == Turn("user", question);
    QuestionLastTwice(h, question);
  }

  /** A history that ends with the question as the user's turn gives a context ending with it twice. */
  lemma QuestionLastTwice(h: seq<Turn>, question: string)
    requires |h| > 0 && h[|h| - 1] == Turn("user", question)
    ensures var lines := ContextLines(h, question);
            |lines| >= 2 && lines[|lines| - 2] == "user: " + question && lines[|lines| - 1] == "user: " + question
  {
    var lines := ContextLines(h, question);
    assert lines[|lines| - 2] == Line(h[|h| - 1]);
  }

  // ------------------------------------------------------ image descriptions

  /** `'<type>' object is not subscriptable`. */
  function NotSubscriptable(v: PyValue): string
  {
    "'" + TypeName(v) + "' object is not subscriptable"
  }

  const StringIndex: string := "string indices must be integers, not 'str'"
  const ListIndex: string := "list indices must be integers or slices, not str"

  /** `item['text']`, or the exception it raises. */
  function TextField(item: PyValue): Outcome<PyValue>
  {
    match item
    case PyDict(fields) => if "text" in fields then Ok(fields["text"]) else Raised("'text'")
    case PyList(_) => Raised(ListIndex)
    case PyStr(_) => Raised(StringIndex)
    case _ => Raised(NotSubscriptable(item))
  }

  /** `data[0]['text']` for a truthy `data`, or the exception it raises. */
  function FirstText(data: PyValue): Outcome<PyValue>
    requires Truthy(data)
  {
    match data
    case PyList(items) => TextField(items[0])
    case PyDict(_) => Raised("0")
    case PyStr(_) => Raised(StringIndex)
    case _ => Raised(NotSubscriptable(data))
  }

  /**
   * One result in `[res['data'][0]['text'] for res in results if res and
   * res.get('data')]`: None when the filter drops it.
   */
  function DescriptionOf(res: PyValue): Option<Outcome<PyValue>>
  {
    if !Truthy(res) then None
    else if !res.PyDict? then Some(Raised(NoGet(res)))
    else match Field(res, "data")
      case None => None
      case Some(data) => if Truthy(data) then Some(FirstText(data)) else None
  }

  /** The comprehension: the texts in result order, or the first exception. */
  function Texts(results: seq<PyValue>): (r: Outcome<seq<PyValue>>)
    decreases |results|
  {
    if |results| == 0 then Ok([])
    else
      match DescriptionOf(results[0])
      case None => Texts(results[1..])
      case Some(Raised(e)) => Raised(e)
      case Some(Ok(t)) =>
        match Texts(results[1..])
        case Raised(e) => Raised(e)
        case Ok(ts) => Ok([t] + ts)
  }

  /** A result that yields a text puts it at the head of the texts that follow it. */
  lemma TextsFirst(results: seq<PyValue>)
    requires |results| > 0 && DescriptionOf(results[0]).Some? && DescriptionOf(results[0]).value.Ok?
    ensures Texts(results) == match Texts(results[1..])
                              case Raised(e) => Raised(e)
                              case Ok(ts) => Ok([DescriptionOf(results[0]).value.value] + ts)
  {
  }

  /** The first item that is not a string, as `str.join` finds it. */
  function FirstNonStr(texts: seq<PyValue>): (r: Option<nat>)
    ensures r.Some? ==> r.value < |texts| && !texts[r.value].PyStr? && forall j :: 0 <= j < r.value ==> texts[j].PyStr?
    ensures r.None? ==> forall j :: 0 <= j < |texts| ==> texts[j].PyStr?
    decreases |texts|
  {
    if |texts| == 0 then None
    else if !texts[0].PyStr? then Some(0)
    else match FirstNonStr(texts[1..])
      case None => None
      case Some(k) => Some(k + 1)
  }

  function Strs(texts: seq<PyValue>): (r: seq<string>)
    requires forall j :: 0 <= j < |texts| ==> texts[j].PyStr?
    ensures |r| == |texts| && forall j :: 0 <= j < |r| ==> texts[j] == PyStr(r[j])
  {
    seq(|texts|, j requires 0 <= j < |texts| => texts[j].s)
  }

  /** `"\n".join(texts)`: a `TypeError` names the first item that is not a string. */
  function JoinTexts(texts: seq<PyValue>): (r: Outcome<string>)
    ensures r.Ok? <==> forall j :: 0 <= j < |texts| ==> texts[j].PyStr?
    ensures r.Ok? ==> r.value == Join(Strs(texts), "\n")
  {
    match FirstNonStr(texts)
    case Some(i) => Raised("sequence item " + Decimal(i) + ": expected str instance, " + TypeName(texts[i]) + " found")
    case None => Ok(Join(Strs(texts), "\n"))
  }

  /** `image_descriptions`. */
  function ImageDescriptions(results: seq<PyValue>): Outcome<string>
  {
    match Texts(results)
    case Raised(e) => Raised(e)
    case Ok(ts) => JoinTexts(ts)
  }

  const NoImageResults: string := "Failed to analyze images or got empty results."

  /**
   * The descriptions are empty only when no result contributed a text, or
   * exactly one did and it was empty: an empty text beside another one
   * still leaves the separator.
   */
  lemma DescriptionsEmpty(results: seq<PyValue>)
    requires ImageDescriptions(results).Ok?
    ensures var ts := Texts(results).value;
            ImageDescriptions(results).value == "" <==> |ts| == 0 || (|ts| == 1 && ts[0] == PyStr(""))
  {
    var ts := Texts(results).value;
    JoinEmpty(Strs(ts), "\n");
  }

  /** An answer of the multimodal API carrying one text. */
  function Described(text: string): PyValue
  {
    PyDict(map["data" := PyList([PyDict(map["text" := PyStr(text)])])])
  }

  /** One empty text makes the request fail; two empty texts give `"\n"` and it goes on. */
  lemma EmptyTextsRule()
    ensures ImageDescriptions([Described("")]) == Ok("")
    ensures ImageDescriptions([Described(""), Described("")]) == Ok("\n")
  {
    var d := Described("");
    var data := PyList([PyDict(map["text" := PyStr("")])]);
    assert Field(d, "data") == Some(data);
    assert |d.fields| == 1;
    assert |data.items[0].fields| == 1;
    assert DescriptionOf(d) == Some(Ok(PyStr("")));
    var one, two := [d], [d, d];
    assert one[0] == d && one[1..] == [];
    assert Texts(one) == Ok([PyStr("")] + []);
    assert [PyStr("")] + [] == [PyStr("")];
    assert two[0] == d && two[1..] == one;
    TextsFirst(two);
    var texts := [PyStr(""), PyStr("")];
    assert [PyStr("")] + [PyStr("")] == texts;
    assert Texts(two) == Ok(texts);
    assert Strs(texts) == ["", ""];
    assert ["", ""][1..] == [""];
    assert Join(["", ""], "\n") == "" + "\n" + "";
    assert "" + "\n" + "" == "\n";
    assert JoinTexts(texts) == Ok("\n");
    assert ImageDescriptions(two) == Ok("\n");
    assert Strs([PyStr("")]) == [""];
    assert ImageDescriptions(one) == Ok("");
  }

  /** `asyncio.gather`: every result in order, or the first exception in list order. */
  function Gather(outcomes: seq<Outcome<PyValue>>): (r: Outcome<seq<PyValue>>)
    ensures r.Ok? <==> forall i :: 0 <= i < |outcomes| ==> outcomes[i].Ok?
    ensures r.Ok? ==> |r.value| == |outcomes| && forall i :: 0 <= i < |outcomes| ==> outcomes[i] == Ok(r.value[i])
    ensures r.Raised? ==> exists i :: 0 <= i < |outcomes| && outcomes[i] == Raised(r.message) &&
                                     forall j :: 0 <= j < i ==> outcomes[j].Ok?
    decreases |outcomes|
  {
    if |outcomes| == 0 then Ok([])
    else if outcomes[0].Raised? then Raised(outcomes[0].message)
    else
      match Gather(outcomes[1..])
      case Raised(e) =>
        assert forall i :: 1 <= i < |outcomes| ==> outcomes[i] == outcomes[1..][i - 1];
        Raised(e)
      case Ok(vs) => Ok([outcomes[0].value] + vs)
  }

  // -------------------------------------------------------- the chat cache

  /** What `_cache_conversation` pushes for a history turn; the projection has no timestamp, so the clock's is used. */
  function CacheRecord(t: Turn, isoNow: string): PyValue
  {
    PyDict(map["role" := PyStr(t.role), "content" := PyStr(t.content), "timestamp" := PyStr(isoNow)])
  }

  function CacheRecords(history: seq<Turn>, isoNow: string): (r: seq<PyValue>)
    ensures |r| == |history| && forall i :: 0 <= i < |r| ==> r[i] == CacheRecord(history[i], isoNow)
  {
    seq(|history|, i requires 0 <= i < |history| => CacheRecord(history[i], isoNow))
  }

  /** Every cache record is plain JSON, so none of them makes `json.dumps` raise. */
  lemma RecordsSerializable(history: seq<Turn>, isoNow: string)
    ensures forall i :: 0 <= i < |history| ==> Serializable(CacheRecords(history, isoNow)[i])
  {
    forall i | 0 <= i < |history|
      ensures Serializable(CacheRecords(history, isoNow)[i])
    {
      var f := CacheRecord(history[i], isoNow).fields;
      assert f.Keys == {"role", "content", "timestamp"};
      assert forall k :: k in f ==> f[k].PyStr?;
    }
  }

  /** A full window of twenty turns replaces whatever the cache held; a shorter one leaves older entries below it. */
  lemma CachedWindow(latest: seq<string>, previous: seq<string>)
    requires |latest| <= 20
    ensures KeepHead(latest + previous, 20) == latest + previous[..Min(20 - |latest|, |previous|)]
    ensures |latest| == 20 ==> KeepHead(latest + previous, 20) == latest
  {
    HeadWindow(|latest + previous|, 20);
    assert (latest + previous)[..Min(20, |latest| + |previous|)] == latest + previous[..Min(20 - |latest|, |previous|)];
  }

  /**
   * The cache holds the newest turn first, so a history served from it is
   * the reverse of the chronological one the store gives.
   */
  lemma CacheServesNewestFirst(codec: JsonCodec, history: seq<Turn>, isoNow: string)
    requires Sound(codec)
    ensures Decoded(codec, Reversed(Kv.Dumps(codec, CacheRecords(history, isoNow)))) == Reversed(CacheRecords(history, isoNow))
  {
    var recs := CacheRecords(history, isoNow);
    assert Reversed(Kv.Dumps(codec, recs)) == Kv.Dumps(codec, Reversed(recs));
    DecodedDumps(codec, Reversed(recs));
  }

  /** `ChatMessage(role, content, timestamp, metadata)` as the history reader builds it. */
  datatype ChatMessage = ChatMessage(role: PyValue, content: PyValue, timestamp: int, metadata: PyValue)

  /** `datetime.fromisoformat`: the instant, or None when it raises. */
  type IsoParser = string -> Option<int>

  /** One cached message as a `ChatMessage`, or None when a key is missing or the timestamp does not parse. */
  function CachedMessage(v: PyValue, parseIso: IsoParser): Option<ChatMessage>
  {
    if v.PyDict? && "role" in v.fields && "content" in v.fields && "timestamp" in v.fields
       && v.fields["timestamp"].PyStr? && parseIso(v.fields["timestamp"].s).Some?
    then Some(ChatMessage(v.fields["role"], v.fields["content"], parseIso(v.fields["timestamp"].s).value,
                          Field(v, "metadata").GetOr(PyNone)))
    else None
  }

  /** The cached messages converted, or [] when any of them makes the conversion raise. */
  function FromCache(cached: seq<PyValue>, parseIso: IsoParser): (r: seq<ChatMessage>)
    ensures (forall i :: 0 <= i < |cached| ==> CachedMessage(cached[i], parseIso).Some?) ==>
              |r| == |cached| && forall i :: 0 <= i < |r| ==> Some(r[i]) == CachedMessage(cached[i], parseIso)
    ensures (exists i :: 0 <= i < |cached| && CachedMessage(cached[i], parseIso).None?) ==> r == []
  {
    if forall i :: 0 <= i < |cached| ==> CachedMessage(cached[i], parseIso).Some?
    then seq(|cached|, i requires 0 <= i < |cached| => CachedMessage(cached[i], parseIso).value)
    else []
  }

  /** Store turns as `ChatMessage`s: the projection has no timestamp, so each is stamped with the clock. */
  function FromStore(history: seq<Turn>, now: int): (r: seq<ChatMessage>)
    ensures |r| == |history|
    ensures forall i :: 0 <= i < |r| ==> r[i] == ChatMessage(PyStr(history[i].role), PyStr(history[i].content), now, PyNone)
  {
    seq(|history|, i requires 0 <= i < |history| => ChatMessage(PyStr(history[i].role), PyStr(history[i].content), now, PyNone))
  }

  // ------------------------------------------------------------ the service

  /** `ChatRequest`, with the fields `process_chat_request` reads. */
  datatype ChatRequest = ChatRequest(question: string, conversationId: Option<string>)

  /** The response `process_chat_request` builds. */
  datatype ChatReply = ChatReply(success: bool, response: Option<string>, error: Option<string>, conversationId: Option<string>)

  /** The request's conversation id when it is given and not empty, otherwise the new one. */
  function ConversationIdOf(request: ChatRequest, uuid: string): (r: string)
    ensures r == uuid || Some(r) == request.conversationId
    ensures r == "" ==> uuid == ""
  {
    if request.conversationId.Some? && request.conversationId.value != "" then request.conversationId.value else uuid
  }

  /** The context `generate_response` is given: the last ten turns of the conversation, then the question. */
  function QuestionContext(docs: seq<Stored<MessageDoc>>, cid: string, question: string): string
  {
    Join(ContextLines(Project(RecentWindow(docs, cid, 10)), question), "\n")
  }

  /** The question's document as `save_message` stores it. */
  function QuestionDoc(cid: string, question: string, now: int): MessageDoc
  {
    MessageDoc(cid, "user", question, now, map[])
  }

  /**
   * The reply an exchange gets, or the text of the exception that ends it:
   * with the store down the history read raises; otherwise the context is
   * read from the history that already holds the question.
   */
  function Answer(before: seq<Stored<MessageDoc>>, up: bool, question: string, cid: string,
                  generate: string -> Outcome<string>, askedAt: int, userMsgId: string): Outcome<string>
  {
    if up then generate(QuestionContext(Inserted(before, up, userMsgId, QuestionDoc(cid, question, askedAt)), cid, question))
    else Raised(ServerUnavailable)
  }

  /** The response for an answer: success with the reply and the conversation id, or the error text with the request's own id. */
  function ReplyFor(answer: Outcome<string>, request: ChatRequest, cid: string): (r: ChatReply)
    ensures r.success <==> answer.Ok?
    ensures r.success ==> r.response == Some(answer.value) && r.error.None? && r.conversationId == Some(cid)
    ensures !r.success ==> r.response.None? && r.error == Some(answer.message) && r.conversationId == request.conversationId
  {
    match answer
    case Ok(a) => ChatReply(true, Some(a), None, Some(cid))
    case Raised(e) => ChatReply(false, None, Some(e), request.conversationId)
  }

  /** The conversation's documents after an exchange: the question, then the answer when one came. */
  function AfterAnswer(before: seq<Stored<MessageDoc>>, up: bool, question: string, cid: string,
                       answer: Outcome<string>, times: SaveTimes, userMsgId: string, replyMsgId: string)
    : seq<Stored<MessageDoc>>
  {
    var withQuestion := Inserted(before, up, userMsgId, QuestionDoc(cid, question, times.asked));
    match answer
    case Ok(answer) => Inserted(withQuestion, true, replyMsgId, MessageDoc(cid, "assistant", answer, times.answered, map[]))
    case Raised(_) => withQuestion
  }

  /** What one exchange leaves behind: the response for its answer, and the documents after it. */
  predicate ChatAnswered(before: seq<Stored<MessageDoc>>, up: bool, after: seq<Stored<MessageDoc>>, request: ChatRequest,
                         cid: string, generate: string -> Outcome<string>, times: SaveTimes, userMsgId: string,
                         replyMsgId: string, r: ChatReply)
  {
    var answer := Answer(before, up, request.question, cid, generate, times.asked, userMsgId);
    && r == ReplyFor(answer, request, cid)
    && after == AfterAnswer(before, up, request.question, cid, answer, times, userMsgId, replyMsgId)
  }

  /**
   * With the store up the question is always saved, and the answer is
   * saved after it exactly when one came; with the store down nothing is.
   */
  lemma AnswerSavedAfterQuestion(before: seq<Stored<MessageDoc>>, up: bool, question: string, cid: string,
                                 answer: Outcome<string>, times: SaveTimes, userMsgId: string, replyMsgId: string)
    requires !IdTaken(before, userMsgId) && !IdTaken(before, replyMsgId) && userMsgId != replyMsgId
    requires !up ==> answer.Raised?
    ensures var after := AfterAnswer(before, up, question, cid, answer, times, userMsgId, replyMsgId);
            && (!up ==> after == before)
            && (up && answer.Raised? ==> after == before + [Stored(userMsgId, QuestionDoc(cid, question, times.asked))])
            && (up && answer.Ok? ==>
                  after == before + [Stored(userMsgId, QuestionDoc(cid, question, times.asked)),
                                     Stored(replyMsgId, MessageDoc(cid, "assistant", answer.value, times.answered, map[]))])
  {
    if up {
      var withQuestion := before + [Stored(userMsgId, QuestionDoc(cid, question, times.asked))];
      forall i | 0 <= i < |withQuestion|
        ensures withQuestion[i].id != replyMsgId
      {
        if i < |before| {
          assert withQuestion[i] == before[i];
        }
      }
    }
  }

  /**
   * When the clock moves on between the two saves and every earlier turn
   * of the conversation is older, the next history read of two or more
   * turns ends with the question and then the answer.
   */
  lemma AnswerReadAfterQuestion(before: seq<Stored<MessageDoc>>, question: string, cid: string, answer: string,
                                times: SaveTimes, userMsgId: string, replyMsgId: string, limit: nat)
    requires !IdTaken(before, userMsgId) && !IdTaken(before, replyMsgId) && userMsgId != replyMsgId
    requires times.asked < times.answered && limit >= 2
    requires forall i :: 0 <= i < |before| && before[i].doc.conversationId == cid ==> before[i].doc.timestamp < times.asked
    ensures var h := Project(RecentWindow(AfterAnswer(before, true, question, cid, Ok(answer), times, userMsgId, replyMsgId),
                                          cid, limit));
            |h| >= 2 && h[|h| - 2] == Turn("user", question) && h[|h| - 1] == Turn("assistant", answer)
  {
    AnswerSavedAfterQuestion(before, true, question, cid, Ok(answer), times, userMsgId, replyMsgId);
    PairComesLast(before, Stored(userMsgId, QuestionDoc(cid, question, times.asked)),
                  Stored(replyMsgId, MessageDoc(cid, "assistant", answer, times.answered, map[])), limit);
  }

  /** The inputs of one `analyze_image` call besides the image: date, date format, signer, draws, clock, client. */
  datatype VisionCall = VisionCall(
    today: int,
    formatDate: DateFormat,
    hmac: Hmac,
    draws: nat -> seq<nat>,
    now: int,
    post: Post,
    render: PyValue -> string)

  ghost predicate CallReady(call: VisionCall)
  {
    1 <= call.today <= MaxOrdinal && forall i: nat :: ValidDraws(call.draws(i))
  }

  class ChatService {
    const mongo: MongoService
    const redis: RedisService
    const vision: MultiModalService
    /** `pet_info_service.get_pet_info`: the profile, or the text of the exception it raises. */
    const pets: string -> Outcome<PetInfo>
    /** `json.dumps(pet_info.model_dump(), indent=2, ensure_ascii=False)`. */
    const petJson: PetInfo -> string
    /** `llm_service.stream_chat`. */
    const llm: Llm

    constructor(mongo: MongoService, redis: RedisService, vision: MultiModalService,
                pets: string -> Outcome<PetInfo>, petJson: PetInfo -> string, llm: Llm)
      ensures this.mongo == mongo && this.redis == redis && this.vision == vision
      ensures this.pets == pets && this.petJson == petJson && this.llm == llm
    {
      this.mongo := mongo;
      this.redis := redis;
      this.vision := vision;
      this.pets := pets;
      this.petJson := petJson;
      this.llm := llm;
    }

    /** What `mongo_service.get_conversation_history` answers in the current state. */
    function StoredHistory(conversationId: string, limit: nat): Outcome<seq<Turn>>
      reads mongo.conversations
    {
      if mongo.conversations.up then Ok(Project(RecentWindow(mongo.conversations.docs, conversationId, limit)))
      else Raised(ServerUnavailable)
    }

    /** The prompt of a text consultation, or the exception that stops it first. */
    function TextPrompt(request: TextChatRequest, history: Outcome<seq<Turn>>): Outcome<string>
    {
      match pets(request.petId)
      case Raised(e) => Raised(e)
      case Ok(pet) =>
        match history
        case Raised(e) => Raised(e)
        case Ok(turns) => Ok(BuildPrompt(request.question, petJson(pet), turns, RagRetrieval(request.question), None))
    }

    /** The `analyze_image` answer for each image, in order. */
    function Analyses(images: seq<string>, imageType: ImageType, pet: PetInfo, call: VisionCall): seq<Outcome<PyValue>>
      requires CallReady(call)
    {
      seq(|images|, i requires 0 <= i < |images| =>
        vision.Analysis(images[i], imageType, pet, call.today, call.formatDate, call.hmac, call.draws(i), call.now,
                        call.post, call.render))
    }

    /** The prompt of an image consultation, or the exception that stops it first. */
    function ImagePrompt(request: ImageChatRequest, history: Outcome<seq<Turn>>, call: VisionCall): Outcome<string>
      requires CallReady(call)
    {
      match pets(request.petId)
      case Raised(e) => Raised(e)
      case Ok(pet) =>
        match history
        case Raised(e) => Raised(e)
        case Ok(turns) => DescribedPrompt(request.question, pet, turns, Gather(Analyses(request.images, request.imageType, pet, call)))
    }

    /** The steps after the analyses: the descriptions joined, refused when empty, and the prompt built. */
    function DescribedPrompt(question: string, pet: PetInfo, turns: seq<Turn>, gathered: Outcome<seq<PyValue>>): Outcome<string>
    {
      match gathered
      case Raised(e) => Raised(e)
      case Ok(results) =>
        match ImageDescriptions(results)
        case Raised(e) => Raised(e)
        case Ok(descriptions) =>
          if descriptions == "" then Raised(NoImageResults)
          else Ok(BuildPrompt(question, petJson(pet), turns, RagRetrieval(question + "\n" + descriptions), Some(descriptions)))
    }

    /** The `finally` clause of both streams. */
    method SaveExchange(conversationId: string, userText: string, reply: string, times: SaveTimes,
                        userMsgId: string, replyMsgId: string)
      modifies mongo.conversations`docs
      ensures mongo.conversations.docs == AfterExchange(old(mongo.conversations.docs), mongo.conversations.up, conversationId,
                                                        userText, reply, times, userMsgId, replyMsgId)
    {
      if reply != "" {
        var _ := mongo.SaveMessage(conversationId, "user", userText, times.asked, userMsgId);
        var _ := mongo.SaveMessage(conversationId, "assistant", reply, times.answered, replyMsgId);
      }
    }

    /**
     * The part both streams share once the prompt is known or the `try`
     * block has raised: the relayed answer or the single error event, then
     * the `finally` clause.
     */
    method Consult(conversationId: string, prompt: Outcome<string>, errorName: string, userText: string, stamps: Clock,
                   times: SaveTimes, userMsgId: string, replyMsgId: string)
      returns (events: seq<Event>)
      modifies mongo.conversations`docs
      ensures match prompt
              case Raised(e) =>
                events == [Failure(errorName, e)] && mongo.conversations.docs == old(mongo.conversations.docs)
              case Ok(p) =>
                var s := llm(p);
                && events == ChunkEvents(conversationId, s.deltas, stamps) + [LastEvent(conversationId, s, stamps, errorName)]
                && mongo.conversations.docs
                   == AfterExchange(old(mongo.conversations.docs), mongo.conversations.up, conversationId,
                                    userText, Reply(s.deltas), times, userMsgId, replyMsgId)
    {
      if prompt.Raised? {
        return [Failure(errorName, prompt.message)];
      }
      var reply;
      events, reply := Relay(conversationId, llm(prompt.value), stamps, errorName);
      SaveExchange(conversationId, userText, reply, times, userMsgId, replyMsgId);
    }

    /**
     * `process_text_chat`: profile and history, a prompt, the relayed
     * stream; a failure before the stream is the one error event; the
     * exchange is saved only when the reply is not empty.
     */
    method ProcessTextChat(request: TextChatRequest, stamps: Clock, times: SaveTimes, userMsgId: string, replyMsgId: string)
      returns (events: seq<Event>)
      modifies mongo.conversations`docs
      ensures match TextPrompt(request, old(StoredHistory(request.conversationId, 10)))
              case Raised(e) =>
                events == [Failure(TextChatError, e)] && mongo.conversations.docs == old(mongo.conversations.docs)
              case Ok(prompt) =>
                var s := llm(prompt);
                && events == ChunkEvents(request.conversationId, s.deltas, stamps)
                             + [LastEvent(request.conversationId, s, stamps, TextChatError)]
                && mongo.conversations.docs
                   == AfterExchange(old(mongo.conversations.docs), mongo.conversations.up, request.conversationId,
                                    request.question, Reply(s.deltas), times, userMsgId, replyMsgId)
    {
      var pet := pets(request.petId);
      var history := mongo.GetConversationHistory(request.conversationId, 10);
      var prompt: Outcome<string>;
      if pet.Raised? {
        prompt := Raised(pet.message);
      } else if history.Raised? {
        prompt := Raised(history.message);
      } else {
        prompt := Ok(BuildPrompt(request.question, petJson(pet.value), history.value, RagRetrieval(request.question), None));
      }
      events := Consult(request.conversationId, prompt, TextChatError, request.question, stamps, times, userMsgId, replyMsgId);
    }

    /**
     * `process_image_chat`: as the text stream, with every image analysed
     * first; the descriptions join the knowledge query and the prompt, and
     * the saved user turn names the image type.
     */
    method ProcessImageChat(request: ImageChatRequest, call: VisionCall, stamps: Clock, times: SaveTimes,
                            userMsgId: string, replyMsgId: string)
      returns (events: seq<Event>)
      requires CallReady(call)
      modifies mongo.conversations`docs
      ensures match ImagePrompt(request, old(StoredHistory(request.conversationId, 10)), call)
              case Raised(e) =>
                events == [Failure(ImageChatError, e)] && mongo.conversations.docs == old(mongo.conversations.docs)
              case Ok(prompt) =>
                var s := llm(prompt);
                && events == ChunkEvents(request.conversationId, s.deltas, stamps)
                             + [LastEvent(request.conversationId, s, stamps, ImageChatError)]
                && mongo.conversations.docs
                   == AfterExchange(old(mongo.conversations.docs), mongo.conversations.up, request.conversationId,
                                    ImageTurn(request.imageType, request.question), Reply(s.deltas), times,
                                    userMsgId, replyMsgId)
    {
      var history := mongo.GetConversationHistory(request.conversationId, 10);
      var prompt := ImagePrompt(request, history, call);
      events := Consult(request.conversationId, prompt, ImageChatError, ImageTurn(request.imageType, request.question),
                        stamps, times, userMsgId, replyMsgId);
    }

    /**
     * `_cache_conversation`: the latest twenty turns pushed onto the cached
     * list and the list cut to twenty for an hour; a failing history read
     * is swallowed and leaves the cache alone.
     */
    method CacheConversation(conversationId: string, isoNow: string, codec: JsonCodec, now: int)
      modifies redis`entries
      ensures !mongo.conversations.up ==> redis.entries == old(redis.entries)
      ensures redis.entries - {HistoryKey(conversationId)} == old(redis.entries) - {HistoryKey(conversationId)}
      ensures mongo.conversations.up && redis.up && old(redis.ListAt(HistoryKey(conversationId), now)).Some? ==>
                var records := CacheRecords(Project(RecentWindow(mongo.conversations.docs, conversationId, 20)), isoNow);
                var l := KeepHead(Reversed(Kv.Dumps(codec, records)) + old(redis.ListAt(HistoryKey(conversationId), now)).value, 20);
                && redis.ListAt(HistoryKey(conversationId), now) == Some(l)
                && (|l| > 0 ==> redis.Ttl(HistoryKey(conversationId), now) == 3600)
    {
      var history := mongo.GetConversationHistory(conversationId, 20);
      if history.Raised? {
        return;
      }
      var records: seq<PyValue> := [];
      for i := 0 to |history.value|
        invariant |records| == i && forall j :: 0 <= j < i ==> records[j] == CacheRecord(history.value[j], isoNow)
      {
        records := records + [CacheRecord(history.value[i], isoNow)];
      }
      assert records == CacheRecords(history.value, isoNow);
      RecordsSerializable(history.value, isoNow);
      var _ := redis.CacheConversationHistory(conversationId, records, 20, 3600, codec, now);
    }

    /**
     * `get_conversation_history`: the cached messages when the cache has
     * any, otherwise the store's window; any exception gives [].
     */
    method GetConversationHistory(conversationId: string, limit: int, codec: JsonCodec, parseIso: IsoParser, now: int)
      returns (r: seq<ChatMessage>)
      ensures var cached := Decoded(codec, redis.LRange(HistoryKey(conversationId), 0, limit - 1, now));
              r == if |cached| > 0 then FromCache(cached, parseIso)
                   else if limit < 0 || !mongo.conversations.up then []
                   else FromStore(Project(RecentWindow(mongo.conversations.docs, conversationId, limit)), now)
    {
      var cached := redis.GetCachedConversationHistory(conversationId, limit, codec, now);
      if |cached| > 0 {
        return FromCache(cached, parseIso);
      }
      if limit < 0 {
        return [];
      }
      var history := mongo.GetConversationHistory(conversationId, limit);
      if history.Raised? {
        return [];
      }
      r := FromStore(history.value, now);
    }

    /**
     * The question saved and the context read back: the history is read
     * after the save, so when the store is up the context already holds
     * the question.
     */
    method Ask(cid: string, question: string, askedAt: int, userMsgId: string) returns (context: Outcome<string>)
      modifies mongo.conversations`docs
      ensures mongo.conversations.docs
              == Inserted(old(mongo.conversations.docs), mongo.conversations.up, userMsgId, QuestionDoc(cid, question, askedAt))
      ensures context == if mongo.conversations.up then Ok(QuestionContext(mongo.conversations.docs, cid, question))
                         else Raised(ServerUnavailable)
    {
      ghost var before := mongo.conversations.docs;
      var _ := mongo.SaveMessage(cid, "user", question, askedAt, userMsgId);
      assert mongo.conversations.docs == Inserted(before, mongo.conversations.up, userMsgId,
                                                  MessageDoc(cid, "user", question, askedAt, map[]));
      var history := mongo.GetConversationHistory(cid, 10);
      if history.Raised? {
        return Raised(history.message);
      }
      var c := BuildContext(history.value, question);
      context := Ok(c);
    }

    /**
     * `process_chat_request` up to the caching step: the question is saved,
     * then the history is read (so it already holds the question), and the
     * reply is generated and saved.
     */
    method Exchange(request: ChatRequest, cid: string, generate: string -> Outcome<string>, times: SaveTimes,
                    userMsgId: string, replyMsgId: string)
      returns (r: ChatReply)
      modifies mongo.conversations`docs
      ensures ChatAnswered(old(mongo.conversations.docs), mongo.conversations.up, mongo.conversations.docs,
                           request, cid, generate, times, userMsgId, replyMsgId, r)
    {
      var asked := Ask(cid, request.question, times.asked, userMsgId);
      if asked.Raised? {
        return ChatReply(false, None, Some(asked.message), request.conversationId);
      }
      r := Respond(request, cid, generate(asked.value), times.answered, replyMsgId);
    }

    /** The reply generated for the context: on success it is saved after the question. */
    method Respond(request: ChatRequest, cid: string, answer: Outcome<string>, answeredAt: int, replyMsgId: string)
      returns (r: ChatReply)
      modifies mongo.conversations`docs
      ensures r == ReplyFor(answer, request, cid)
      ensures mongo.conversations.docs == match answer
                                          case Ok(a) => Inserted(old(mongo.conversations.docs), mongo.conversations.up, replyMsgId,
                                                                 MessageDoc(cid, "assistant", a, answeredAt, map[]))
                                          case Raised(_) => old(mongo.conversations.docs)
    {
      if answer.Raised? {
        return ChatReply(false, None, Some(answer.message), request.conversationId);
      }
      ghost var withQuestion := mongo.conversations.docs;
      var _ := mongo.SaveMessage(cid, "assistant", answer.value, answeredAt, replyMsgId);
      assert mongo.conversations.docs == Inserted(withQuestion, mongo.conversations.up, replyMsgId,
                                                  MessageDoc(cid, "assistant", answer.value, answeredAt, map[]));
      r := ChatReply(true, Some(answer.value), None, Some(cid));
    }

    /**
     * `process_chat_request`: the conversation id is the request's, or a
     * new one when it has none; after a successful exchange the
     * conversation is cached, and only its own cache entry can change.
     */
    method ProcessChatRequest(request: ChatRequest, generate: string -> Outcome<string>, uuid: string, times: SaveTimes,
                              now: int, isoNow: string, codec: JsonCodec, userMsgId: string, replyMsgId: string)
      returns (r: ChatReply)
      modifies mongo.conversations`docs, redis`entries
      ensures var cid := ConversationIdOf(request, uuid);
              && ChatAnswered(old(mongo.conversations.docs), mongo.conversations.up, mongo.conversations.docs,
                              request, cid, generate, times, userMsgId, replyMsgId, r)
              && redis.entries - {HistoryKey(cid)} == old(redis.entries) - {HistoryKey(cid)}
              && (!r.success ==> redis.entries == old(redis.entries))
    {
      var cid := ConversationIdOf(request, uuid);
      r := Exchange(request, cid, generate, times, userMsgId, replyMsgId);
      if r.success {
        CacheConversation(cid, isoNow, codec, now);
      }
    }
  }
}
