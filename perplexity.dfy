/** The Perplexity streaming service: how a chat request is checked and turned into an
    upstream request, how each upstream chunk becomes a response to the client or is
    skipped, and the loop that relays the decoded stream. The HTTP exchange between the
    two halves is not part of this model: the relay takes the upstream's lines as given. */
module Perplexity {
  import opened Wrappers
  import opened GoStrings
  import SseStream

  // ---------------------------------------------------------------------------------
  // Upstream chunks (the concise stream mode).

  datatype SearchResult = SearchResult(title: string, url: string, date: string,
                                       lastUpdated: string, snippet: string, source: string)

  datatype ImageResult = ImageResult(url: string, title: string, source: string)

  datatype WebSearch = WebSearch(searchKeywords: seq<string>, searchResults: seq<SearchResult>)

  datatype ReasoningStep = ReasoningStep(thought: string, kind: string, webSearch: Option<WebSearch>)

  /** Token counts; the floating-point cost figures are not modelled. */
  datatype Usage = Usage(promptTokens: int, completionTokens: int, totalTokens: int,
                         searchContextSize: int)

  datatype Delta = Delta(content: string, reasoningSteps: seq<ReasoningStep>)

  datatype ChunkMessage = ChunkMessage(role: string, content: string, reasoningSteps: seq<ReasoningStep>)

  /** A choice; `None` stands for a nil pointer. */
  datatype Choice = Choice(index: int, delta: Option<Delta>, message: Option<ChunkMessage>,
                           finishReason: Option<string>)

  datatype Chunk = Chunk(id: string, objectType: string, created: int, model: string,
                         choices: seq<Choice>, searchResults: seq<SearchResult>,
                         images: seq<ImageResult>, usage: Option<Usage>)

  /** The value `Current` gives before anything is decoded. */
  const ZeroChunk := Chunk("", "", 0, "", [], [], [], None)

  const ReasoningObject := "chat.reasoning"
  const ReasoningDoneObject := "chat.reasoning.done"
  const CompletionObject := "chat.completion.chunk"
  const CompletionDoneObject := "chat.completion.done"

  // ---------------------------------------------------------------------------------
  // Responses to the client. The converters copy search results, images and reasoning
  // steps field by field, so the model keeps those upstream values; the usage is
  // converted as `ConvertUsage` says.

  /** The usage as the client receives it: each token count is optional, and the search
      context size is not carried. */
  datatype SentUsage = SentUsage(promptTokens: Option<int>, completionTokens: Option<int>,
                                 totalTokens: Option<int>)

  const TwoTo31 := 0x8000_0000
  const TwoTo32 := 0x1_0000_0000

  /** Go's conversion `int32(x)`: the 32-bit two's-complement value with the same low 32
      bits as `x`. */
  function Int32(x: int): (r: int)
    ensures -TwoTo31 <= r < TwoTo31
    ensures (x - r) % TwoTo32 == 0
    ensures -TwoTo31 <= x < TwoTo31 ==> r == x
  {
    var low := x % TwoTo32;
    if low < TwoTo31 then low else low - TwoTo32
  }

  /** A token count as sent: set, narrowed to 32 bits, only when it is positive. */
  function SentCount(n: int): (r: Option<int>)
    ensures r.Some? <==> n > 0
    ensures r.Some? ==> r.value == Int32(n)
  {
    if n > 0 then Some(Int32(n)) else None
  }

  /** `ConvertUsage`: no usage stays absent; otherwise each token count is kept only when
      positive, and the search context size and the cost figures are dropped. */
  function ConvertUsage(u: Option<Usage>): (r: Option<SentUsage>)
    ensures r.None? <==> u.None?
    ensures u.Some? ==> r.value.promptTokens == SentCount(u.value.promptTokens)
                        && r.value.completionTokens == SentCount(u.value.completionTokens)
                        && r.value.totalTokens == SentCount(u.value.totalTokens)
  {
    match u
    case None => None
    case Some(x) =>
      Some(SentUsage(SentCount(x.promptTokens), SentCount(x.completionTokens), SentCount(x.totalTokens)))
  }

  /** Counts that fit in 32 bits reach the client unchanged, a count of zero or below is
      not sent at all, and a count of 2^31 wraps around to the most negative 32-bit value. */
  lemma {:induction false} SmallCountsKept(n: int)
    ensures 0 < n < TwoTo31 ==> SentCount(n) == Some(n)
    ensures n <= 0 ==> SentCount(n) == None
    ensures SentCount(TwoTo31) == Some(-TwoTo31)
  {
  }

  datatype Response =
    | Reasoning(id: string, model: string, created: int, reasoningSteps: seq<ReasoningStep>)
    | ReasoningDone(id: string, model: string, created: int, searchResults: seq<SearchResult>,
                    images: seq<ImageResult>, reasoningSteps: seq<ReasoningStep>)
    | Completion(id: string, model: string, created: int, content: string)
    | CompletionDone(id: string, model: string, created: int, searchResults: seq<SearchResult>,
                     images: seq<ImageResult>, usage: Option<SentUsage>, fullContent: Option<string>)

  /** The first choice carries a delta with at least one reasoning step. */
  predicate HasReasoningDelta(c: Chunk) {
    |c.choices| > 0 && c.choices[0].delta.Some? && |c.choices[0].delta.value.reasoningSteps| > 0
  }

  /** The first choice carries a delta with non-empty content. */
  predicate HasContentDelta(c: Chunk) {
    |c.choices| > 0 && c.choices[0].delta.Some? && c.choices[0].delta.value.content != ""
  }

  /** The first choice carries a full message. */
  predicate HasMessage(c: Chunk) {
    |c.choices| > 0 && c.choices[0].message.Some?
  }

  /** A reasoning delta becomes a `Reasoning` response; a chunk without one is skipped. */
  function HandleReasoning(c: Chunk): (r: Option<Response>)
    ensures r.Some? <==> HasReasoningDelta(c)
    ensures r.Some? ==> r.value.Reasoning? && r.value.id == c.id && r.value.model == c.model
                        && r.value.created == c.created
                        && r.value.reasoningSteps == c.choices[0].delta.value.reasoningSteps
  {
    if |c.choices| == 0 || c.choices[0].delta.None? then None
    else
      var delta := c.choices[0].delta.value;
      if |delta.reasoningSteps| == 0 then None
      else Some(Reasoning(c.id, c.model, c.created, delta.reasoningSteps))
  }

  /** The end of reasoning always gives a response; its steps come from the first choice's
      message when there is one and are empty otherwise. */
  function HandleReasoningDone(c: Chunk): (r: Response)
    ensures r.ReasoningDone? && r.id == c.id && r.model == c.model && r.created == c.created
    ensures r.searchResults == c.searchResults && r.images == c.images
    ensures HasMessage(c) ==> r.reasoningSteps == c.choices[0].message.value.reasoningSteps
    ensures !HasMessage(c) ==> r.reasoningSteps == []
  {
    var steps := if |c.choices| > 0 && c.choices[0].message.Some?
                 then c.choices[0].message.value.reasoningSteps else [];
    ReasoningDone(c.id, c.model, c.created, c.searchResults, c.images, steps)
  }

  /** A content delta becomes a `Completion` response; an empty one is skipped. */
  function HandleCompletionChunk(c: Chunk): (r: Option<Response>)
    ensures r.Some? <==> HasContentDelta(c)
    ensures r.Some? ==> r.value.Completion? && r.value.id == c.id && r.value.model == c.model
                        && r.value.created == c.created
                        && r.value.content == c.choices[0].delta.value.content && r.value.content != ""
  {
    if |c.choices| == 0 || c.choices[0].delta.None? then None
    else
      var delta := c.choices[0].delta.value;
      if delta.content == "" then None
      else Some(Completion(c.id, c.model, c.created, delta.content))
  }

  /** The end of the completion always gives a response; its content is the first
      choice's message content when there is a message and absent otherwise. */
  function HandleCompletionDone(c: Chunk): (r: Response)
    ensures r.CompletionDone? && r.id == c.id && r.model == c.model && r.created == c.created
    ensures r.searchResults == c.searchResults && r.images == c.images
    ensures r.usage == ConvertUsage(c.usage)
    ensures HasMessage(c) ==> r.fullContent == Some(c.choices[0].message.value.content)
    ensures !HasMessage(c) ==> r.fullContent.None?
  {
    var content := if |c.choices| > 0 && c.choices[0].message.Some?
                   then Some(c.choices[0].message.value.content) else None;
    CompletionDone(c.id, c.model, c.created, c.searchResults, c.images, ConvertUsage(c.usage), content)
  }

  /** `processChunk`: the chunk's `object` picks the handler, and the response is that
      handler's; a chunk of an unknown kind, or a delta with nothing in it, gives no
      response. Every response echoes the chunk's id, model and creation time. (The Go
      function's error result is always nil.) */
  function ProcessChunk(c: Chunk): (r: Option<Response>)
    ensures r.Some? && r.value.Reasoning? <==> c.objectType == ReasoningObject && HasReasoningDelta(c)
    ensures r.Some? && r.value.ReasoningDone? <==> c.objectType == ReasoningDoneObject
    ensures r.Some? && r.value.Completion? <==> c.objectType == CompletionObject && HasContentDelta(c)
    ensures r.Some? && r.value.CompletionDone? <==> c.objectType == CompletionDoneObject
    ensures r.Some? ==> r.value.id == c.id && r.value.model == c.model && r.value.created == c.created
    ensures c.objectType !in {ReasoningObject, ReasoningDoneObject, CompletionObject, CompletionDoneObject}
            ==> r.None?
    ensures c.objectType == ReasoningObject ==> r == HandleReasoning(c)
    ensures c.objectType == ReasoningDoneObject ==> r == Some(HandleReasoningDone(c))
    ensures c.objectType == CompletionObject ==> r == HandleCompletionChunk(c)
    ensures c.objectType == CompletionDoneObject ==> r == Some(HandleCompletionDone(c))
  {
    if c.objectType == ReasoningObject then HandleReasoning(c)
    else if c.objectType == ReasoningDoneObject then Some(HandleReasoningDone(c))
    else if c.objectType == CompletionObject then HandleCompletionChunk(c)
    else if c.objectType == CompletionDoneObject then Some(HandleCompletionDone(c))
    else None
  }

  /** What the relay sends for a run of chunks: each chunk's response, in order, with the
      chunks that give none left out. */
  function Responses(chunks: seq<Chunk>): (r: seq<Response>)
    ensures |r| <= |chunks|
  {
    if chunks == [] then [] else Sent(chunks[0]) + Responses(chunks[1..])
  }

  /** What the relay sends for one chunk: its response, if it gives one. */
  function Sent(c: Chunk): seq<Response> {
    match ProcessChunk(c) case None => [] case Some(x) => [x]
  }

  /** Relaying two runs of chunks one after the other sends the two runs' responses one
      after the other: order is kept. */
  lemma {:induction false} ResponsesAppend(a: seq<Chunk>, b: seq<Chunk>)
    ensures Responses(a + b) == Responses(a) + Responses(b)
    decreases |a|
  {
    if a == [] {
      assert a + b == b;
    } else {
      assert (a + b)[0] == a[0];
      assert (a + b)[1..] == a[1..] + b;
      ResponsesAppend(a[1..], b);
    }
  }

  /** A single chunk sends its response, or nothing. */
  lemma {:induction false} ResponsesOfOne(c: Chunk)
    ensures Responses([c]) == if ProcessChunk(c).Some? then [ProcessChunk(c).value] else []
  {
    assert [c][1..] == [];
  }

  /** A chunk that gives no response sends nothing, wherever it stands. */
  lemma {:induction false} SkippedChunkSendsNothing(a: seq<Chunk>, c: Chunk, b: seq<Chunk>)
    requires ProcessChunk(c).None?
    ensures Responses(a + [c] + b) == Responses(a) + Responses(b)
  {
    ResponsesAppend(a + [c], b);
    ResponsesAppend(a, [c]);
    ResponsesOfOne(c);
  }

  /** A chunk that gives a response sends exactly that response, between what the chunks
      before and after it send. */
  lemma {:induction false} SentChunkSendsItsResponse(a: seq<Chunk>, c: Chunk, b: seq<Chunk>)
    requires ProcessChunk(c).Some?
    ensures Responses(a + [c] + b) == Responses(a) + [ProcessChunk(c).value] + Responses(b)
  {
    ResponsesAppend(a + [c], b);
    ResponsesAppend(a, [c]);
    ResponsesOfOne(c);
  }

  // ---------------------------------------------------------------------------------
  // The client's request and its validation.

  /** The protocol's message roles; `Other` is any value outside the four named ones. */
  datatype MessageRole = Unspecified | System | User | Assistant | Other(code: int)

  datatype ChatMessage = ChatMessage(role: MessageRole, content: string)

  /** The client's request. Temperature and top-p are optional numbers. */
  datatype ChatRequest = ChatRequest(token: string, model: string, messages: seq<ChatMessage>,
                                     temperature: Option<real>, topP: Option<real>)

  /** A message as the upstream expects it. */
  datatype Message = Message(role: string, content: string)

  /** The upstream request body. */
  datatype CompletionRequest = CompletionRequest(model: string, messages: seq<Message>, stream: bool,
                                                 streamMode: string, temperature: Option<real>,
                                                 topP: Option<real>)

  /** A validated request: the trimmed bearer token and the body to post. */
  datatype Prepared = Prepared(token: string, request: CompletionRequest)

  /** Why a request is refused, all with status InvalidArgument. */
  datatype Invalid = EmptyToken | RoleUnspecified | InvalidRole(code: int) | EmptyContent | NoMessages

  const ConciseMode := "concise"

  /** The upstream name of a role; only the system, user and assistant roles have one. */
  function RoleName(role: MessageRole): (r: Result<string, Invalid>)
    ensures r.Success? <==> role.System? || role.User? || role.Assistant?
    ensures role.System? ==> r == Success("system")
    ensures role.User? ==> r == Success("user")
    ensures role.Assistant? ==> r == Success("assistant")
    ensures role.Unspecified? ==> r == Failure(RoleUnspecified)
    ensures role.Other? ==> r == Failure(InvalidRole(role.code))
  {
    match role
    case System => Success("system")
    case User => Success("user")
    case Assistant => Success("assistant")
    case Unspecified => Failure(RoleUnspecified)
    case Other(code) => Failure(InvalidRole(code))
  }

  /** Distinct roles get distinct names. */
  lemma {:induction false} RoleNamesDistinct(a: MessageRole, b: MessageRole)
    requires RoleName(a).Success? && RoleName(b).Success? && a != b
    ensures RoleName(a).value != RoleName(b).value
  {
  }

  /** One message: the role is checked first, then the content, which is kept trimmed and
      must not be blank. */
  function ConvertMessage(m: ChatMessage): (r: Result<Message, Invalid>)
    ensures RoleName(m.role).Failure? ==> r == Failure(RoleName(m.role).error)
    ensures RoleName(m.role).Success? && TrimSpace(m.content) == [] ==> r == Failure(EmptyContent)
    ensures r.Success? <==> RoleName(m.role).Success? && TrimSpace(m.content) != []
    ensures r.Success? ==> r.value == Message(RoleName(m.role).value, TrimSpace(m.content))
  {
    match RoleName(m.role)
    case Failure(e) => Failure(e)
    case Success(role) =>
      var content := TrimSpace(m.content);
      if content == "" then Failure(EmptyContent) else Success(Message(role, content))
  }

  /** All messages, in order; the first message that does not convert decides the error. */
  function ConvertAll(ms: seq<ChatMessage>): (r: Result<seq<Message>, Invalid>)
    ensures r.Success? <==> forall i :: 0 <= i < |ms| ==> ConvertMessage(ms[i]).Success?
    ensures r.Success? ==> |r.value| == |ms|
                           && forall i :: 0 <= i < |ms| ==> r.value[i] == ConvertMessage(ms[i]).value
  {
    if ms == [] then Success([])
    else
      var head := ConvertMessage(ms[0]);
      var tail := ConvertAll(ms[1..]);
      assert forall i :: 1 <= i < |ms| ==> ms[i] == ms[1..][i - 1];
      if head.Failure? then Failure(head.error)
      else if tail.Failure? then Failure(tail.error)
      else Success([head.value] + tail.value)
  }

  /** The message loop of `StreamChatCompletions`: each message's role is mapped and its
      content trimmed, and the first message that fails stops the loop with its error. */
  method ConvertMessages(ms: seq<ChatMessage>) returns (r: Result<seq<Message>, Invalid>)
    ensures r == ConvertAll(ms)
  {
    var msgs: seq<Message> := [];
    for k := 0 to |ms|
      invariant |msgs| == k
      invariant forall i :: 0 <= i < k ==> ConvertMessage(ms[i]) == Success(msgs[i])
    {
      var c := ConvertOne(ms[k]);
      if c.Failure? {
        ConvertFailsAt(ms, k);
        return Failure(c.error);
      }
      msgs := msgs + [c.value];
    }
    ConvertAllSucceeds(ms, msgs);
    return Success(msgs);
  }

  /** The body of the message loop: the role is mapped first, then the content trimmed. */
  method ConvertOne(m: ChatMessage) returns (r: Result<Message, Invalid>)
    ensures r == ConvertMessage(m)
  {
    var role := RoleName(m.role);
    if role.Failure? {
      return Failure(role.error);
    }
    var content := TrimSpace(m.content);
    if content == "" {
      return Failure(EmptyContent);
    }
    return Success(Message(role.value, content));
  }

  /** When every message converts, the conversion is the messages converted one by one. */
  lemma {:induction false} ConvertAllSucceeds(ms: seq<ChatMessage>, msgs: seq<Message>)
    requires |msgs| == |ms|
    requires forall i :: 0 <= i < |ms| ==> ConvertMessage(ms[i]) == Success(msgs[i])
    ensures ConvertAll(ms) == Success(msgs)
  {
    assert ConvertAll(ms).Success?;
    assert ConvertAll(ms).value == msgs;
  }

  /** The checks and the request built from a valid client request. */
  function Validate(req: ChatRequest): (r: Result<Prepared, Invalid>)
    ensures TrimSpace(req.token) == [] ==> r == Failure(EmptyToken)
    ensures TrimSpace(req.token) != [] && ConvertAll(req.messages).Failure?
            ==> r == Failure(ConvertAll(req.messages).error)
    ensures TrimSpace(req.token) != [] && req.messages == [] ==> r == Failure(NoMessages)
    ensures r.Success? <==> TrimSpace(req.token) != [] && req.messages != []
                            && ConvertAll(req.messages).Success?
    ensures r.Success? ==>
              r.value.token == TrimSpace(req.token)
              && r.value.request.messages == ConvertAll(req.messages).value
              && |r.value.request.messages| > 0
              && r.value.request.model == req.model
              && r.value.request.stream && r.value.request.streamMode == ConciseMode
              && r.value.request.temperature == req.temperature && r.value.request.topP == req.topP
  {
    var token := TrimSpace(req.token);
    if token == "" then Failure(EmptyToken)
    else match ConvertAll(req.messages)
      case Failure(e) => Failure(e)
      case Success(msgs) =>
        if |msgs| == 0 then Failure(NoMessages)
        else Success(Prepared(token, CompletionRequest(req.model, msgs, true, ConciseMode,
                                                       req.temperature, req.topP)))
  }

  /** The first part of `StreamChatCompletions`: the token, then each message in turn,
      then the request body. */
  method BuildRequest(req: ChatRequest) returns (r: Result<Prepared, Invalid>)
    ensures r == Validate(req)
  {
    var token := TrimSpace(req.token);
    if token == "" {
      return Failure(EmptyToken);
    }
    var converted := ConvertMessages(req.messages);
    if converted.Failure? {
      return Failure(converted.error);
    }
    var msgs := converted.value;
    if |msgs| == 0 {
      return Failure(NoMessages);
    }
    var temperature: Option<real> := None;
    if req.temperature.Some? {
      temperature := req.temperature;
    }
    var topP: Option<real> := None;
    if req.topP.Some? {
      topP := req.topP;
    }
    return Success(Prepared(token, CompletionRequest(req.model, msgs, true, ConciseMode, temperature, topP)));
  }

  /** The first message that does not convert, after messages that all do, decides the
      error of the whole conversion. */
  lemma {:induction false} ConvertFailsAt(ms: seq<ChatMessage>, k: nat)
    requires k < |ms| && forall i :: 0 <= i < k ==> ConvertMessage(ms[i]).Success?
    requires ConvertMessage(ms[k]).Failure?
    ensures ConvertAll(ms) == Failure(ConvertMessage(ms[k]).error)
    decreases k
  {
    if k > 0 {
      assert forall i :: 0 <= i < k - 1 ==> ms[1..][i] == ms[i + 1];
      ConvertFailsAt(ms[1..], k - 1);
    }
  }

  // ---------------------------------------------------------------------------------
  // Relaying the stream.

  /** The upstream's stream as values: the chunks decoded and the error left behind. */
  function Upstream(decode: SseStream.Payload -> Result<Chunk, string>,
                    errorField: string -> Option<string>,
                    lines: seq<string>, readErr: Option<string>): (r: (seq<Chunk>, Option<SseStream.StreamError>))
    ensures |r.0| <= |SseStream.Records(lines, 0)|
  {
    SseStream.Drain(decode, errorField, SseStream.Records(lines, 0), readErr, false)
  }

  /** The second part of `StreamChatCompletions`, once the upstream has answered with
      `lines` (and `readErr` if reading them failed): a decoder and a stream over them,
      every chunk's response sent in order and the empty ones skipped, and the stream's
      error, if any, as the result. The stream is closed on the way out. */
  method Relay(decode: SseStream.Payload -> Result<Chunk, string>,
               errorField: string -> Option<string>,
               lines: seq<string>, readErr: Option<string>)
    returns (sent: seq<Response>, err: Option<SseStream.StreamError>)
    ensures sent == Responses(Upstream(decode, errorField, lines, readErr).0)
    ensures err == Upstream(decode, errorField, lines, readErr).1
  {
    var decoder := new SseStream.EventStreamDecoder(lines, readErr);
    var stream := new SseStream.Stream(decoder, None, ZeroChunk, decode, errorField);
    ghost var whole := Upstream(decode, errorField, lines, readErr);
    sent := [];
    while true
      invariant stream.Valid() && stream.err.None?
      invariant stream.decoder == decoder && decoder.readErr == readErr
      invariant stream.decode == decode && stream.errorField == errorField
      invariant var left := SseStream.Drain(decode, errorField, decoder.rest, readErr, stream.done);
                sent + Responses(left.0) == Responses(whole.0) && left.1 == whole.1
      decreases |decoder.rest|
    {
      SseStream.PullStartsDrain(decode, errorField, decoder.rest, readErr, stream.done);
      var more := stream.Next();
      if !more {
        err := stream.Err();
        break;
      }
      var chunk := stream.Current();
      ghost var after := SseStream.Drain(decode, errorField, decoder.rest, readErr, stream.done);
      RelayedOne(sent, chunk, after.0);
      var resp := ProcessChunk(chunk);
      if resp.None? {
        continue;
      }
      sent := sent + [resp.value];
    }
    stream.Close();
  }

  /** Sending what one more chunk gives keeps the invariant of `Relay`. */
  lemma {:induction false} RelayedOne(sent: seq<Response>, c: Chunk, rest: seq<Chunk>)
    ensures (if ProcessChunk(c).None? then sent else sent + [ProcessChunk(c).value]) + Responses(rest)
            == sent + Responses([c] + rest)
  {
    ResponsesAppend([c], rest);
    ResponsesOfOne(c);
  }
}
