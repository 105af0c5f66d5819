/** The `POST /api/chat` handler: validate the message, dispatch it to the
    route the model selector names, cache the reply, and answer with a status
    and a JSON body. */
module Server {
  import opened Wrappers
  import opened JsString
  import opened Backends
  import opened MemoryCache

  const EmptyMessageError := "Message cannot be empty"
  const AiFailureError := "Failed to communicate with the AI"
  /** Ten minutes, in milliseconds. */
  const ReplyTtl := 10 * 60 * 1000

  /** The JSON body of a response: `{ reply }` or `{ error }`. */
  datatype Body = ReplyBody(reply: string) | ErrorBody(error: string)

  /** `req.body.message?.trim()` followed by the `!userInput` guard: the
      trimmed message when it is present and not blank, None otherwise. */
  function ValidMessage(message: Option<string>): (r: Option<string>)
    ensures r.None? <==> message.None? || AllWhitespace(message.value)
    ensures r.Some? ==> Truthy(r.value) && IsTrimOf(message.value, r.value)
  {
    match message
    case None => None
    case Some(text) =>
      var input := Trim(text);
      if Truthy(input) then Some(input) else None
  }

  /** The application: the reply cache and the local model's pipeline, which
      is unset until its one-time loading succeeds. */
  class App {
    const cache: Cache
    var gptjReady: bool

    constructor ()
      ensures fresh(cache) && cache.entries == map[] && !gptjReady
    {
      cache := new Cache();
      gptjReady := false;
    }

    /** The start-up loading of the local model: the pipeline becomes set
        when loading succeeds; a failure is only logged and leaves it as it
        was. */
    method LoadGptJ(loaded: bool)
      modifies this
      ensures gptjReady == (old(gptjReady) || loaded)
    {
      if loaded {
        gptjReady := true;
      }
    }

    /** One `POST /api/chat` request, given the message and model fields of
        its body, what the chat-completion service and the local pipeline
        produce for the requests sent to them, and the current time. */
    method HandleChat(message: Option<string>, model: Option<string>,
                      openai: CompletionService, pipeline: GenerationPipeline, now: int)
      returns (status: nat, body: Body)
      modifies cache
      ensures ValidMessage(message).None? ==>
        status == 400 && body == ErrorBody(EmptyMessageError) && cache.entries == old(cache.entries)
      ensures ValidMessage(message).Some? ==>
        var input := ValidMessage(message).value;
        var reply := Dispatch(RouteOf(Selector(model)), input, gptjReady, openai, pipeline);
        if reply.Success? then
          status == 200 && body == ReplyBody(reply.value)
          && cache.entries == old(cache.entries)[input := Entry(reply.value, now + ReplyTtl)]
        else
          status == 500 && body == ErrorBody(AiFailureError) && cache.entries == old(cache.entries)
    {
      var userInput := ValidMessage(message);
      var selector := Selector(model);
      if userInput.None? {
        return 400, ErrorBody(EmptyMessageError);
      }
      var input := userInput.value;
      var aiResponse: Result<string>;
      if selector == LocalSelector {
        aiResponse := GenerateGptJResponse(gptjReady, pipeline, input);
      } else if selector == AlternateSelector {
        aiResponse := GenerateChatGpt3Response(openai, input);
      } else {
        aiResponse := DefaultRemoteResponse(openai, input);
      }
      assert aiResponse == Dispatch(RouteOf(selector), input, gptjReady, openai, pipeline);
      if aiResponse.Failure? {
        return 500, ErrorBody(AiFailureError);
      }
      cache.Put(input, aiResponse.value, ReplyTtl, now);
      status, body := 200, ReplyBody(aiResponse.value);
    }
  }

  /** A message with no whitespace at either end reaches the routes, and
      the cache, as it was sent. */
  lemma MessageWithoutPaddingIsKept(text: string)
    requires text != [] && !IsWhitespace(text[0]) && !IsWhitespace(text[|text| - 1])
    ensures ValidMessage(Some(text)) == Some(text)
  {
    TrimOfUnpadded(text);
  }

  /** Messages that differ only in surrounding whitespace are one request:
      both are rejected, or both reach the routes with the same text and are
      cached under the same key. */
  lemma PaddedMessagesShareKey(text: string, pre: string, post: string)
    requires AllWhitespace(pre) && AllWhitespace(post)
    ensures ValidMessage(Some(pre + text + post)) == ValidMessage(Some(text))
  {
    TrimIgnoresPadding(text, pre, post);
  }

  /** Scenario: "Hello" sent to the alternate remote route, whose service
      answers "Hi there", is answered 200 and cached under "Hello". */
  method HelloThroughChatGpt3(now: int) {
    var app := new App();
    var openai: CompletionService := req => Completed([Choice(Some("Hi there"))]);
    var pipeline: GenerationPipeline := req => GenerationThrew("unused");
    MessageWithoutPaddingIsKept("Hello");
    assert RouteOf(Selector(Some("chatgpt-3"))) == AlternateRemoteRoute;
    assert Dispatch(AlternateRemoteRoute, "Hello", false, openai, pipeline) == Success("Hi there");
    var status, body := app.HandleChat(Some("Hello"), Some("chatgpt-3"), openai, pipeline, now);
    assert status == 200 && body == ReplyBody("Hi there");
    assert app.cache.entries == map["Hello" := Entry("Hi there", now + 600000)];
  }

  /** Scenario: a blank message is answered 400 and the cache stays empty. */
  method BlankMessage(now: int) {
    var app := new App();
    var openai: CompletionService := req => Completed([Choice(Some("unused"))]);
    var pipeline: GenerationPipeline := req => GenerationThrew("unused");
    assert Trim("  ") == "";
    var status, body := app.HandleChat(Some("  "), None, openai, pipeline, now);
    assert status == 400 && body == ErrorBody("Message cannot be empty");
    assert app.cache.entries == map[];
  }

  /** Scenario: the local route answers 500 and writes nothing while its
      pipeline is not loaded, even though the pipeline would have replied;
      once loaded, the same request is answered with the pipeline's text. */
  method GptJBeforeLoading(now: int) {
    var app := new App();
    var openai: CompletionService := req => Completed([Choice(Some("unused"))]);
    var pipeline: GenerationPipeline := req => Generated([Candidate(Some("text"))]);
    MessageWithoutPaddingIsKept("test");
    assert RouteOf(Selector(Some("gpt-j"))) == LocalRoute;
    var status, body := app.HandleChat(Some("test"), Some("gpt-j"), openai, pipeline, now);
    assert status == 500 && body == ErrorBody("Failed to communicate with the AI");
    assert app.cache.entries == map[];
    app.LoadGptJ(true);
    assert Dispatch(LocalRoute, "test", true, openai, pipeline) == Success("text");
    status, body := app.HandleChat(Some("test"), Some("gpt-j"), openai, pipeline, now);
    assert status == 200 && body == ReplyBody("text");
  }

  /** Scenario: a transport error on the default route is answered 500 with
      the generic message; the error's own text does not reach the body. */
  method TransportError(now: int) {
    var app := new App();
    var openai: CompletionService := req => CompletionThrew("ECONNRESET");
    var pipeline: GenerationPipeline := req => GenerationThrew("unused");
    MessageWithoutPaddingIsKept("hi");
    assert RouteOf(Selector(None)) == DefaultRemoteRoute;
    assert Dispatch(DefaultRemoteRoute, "hi", false, openai, pipeline).Failure?;
    var status, body := app.HandleChat(Some("hi"), None, openai, pipeline, now);
    assert status == 500 && body == ErrorBody("Failed to communicate with the AI");
    assert app.cache.entries == map[];
  }
}
