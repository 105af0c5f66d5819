/** The three text-generation routes of the chat gateway and the choice
    between them. Each external service is a function from the request the
    route sends to the outcome the service produces for it: either a thrown
    error or a list of candidates. */
module Backends {
  import opened Wrappers
  import opened JsString

  /** One `{ role, content }` entry of a chat-completion request. */
  datatype ChatMessage = ChatMessage(role: string, content: string)

  /** What a remote route asks the chat-completion service for. The sampling
      temperature (a float) is not part of the model. */
  datatype CompletionRequest = CompletionRequest(model: string, messages: seq<ChatMessage>, maxTokens: nat)

  /** One element of `response.choices`; `content` is `choice.message?.content`,
      None when the message or its content is missing or null. */
  datatype Choice = Choice(content: Option<string>)

  datatype CompletionOutcome =
    | CompletionThrew(message: string)
    | Completed(choices: seq<Choice>)

  type CompletionService = CompletionRequest -> CompletionOutcome

  /** What the local route asks the text-generation pipeline for. */
  datatype GenerationRequest = GenerationRequest(prompt: string, maxLength: nat)

  /** One element of the pipeline's result; `generatedText` is `generated_text`. */
  datatype Candidate = Candidate(generatedText: Option<string>)

  datatype GenerationOutcome =
    | GenerationThrew(message: string)
    | Generated(candidates: seq<Candidate>)

  type GenerationPipeline = GenerationRequest -> GenerationOutcome

  const DefaultSelector := "gpt-3.5-turbo"
  const LocalSelector := "gpt-j"
  const AlternateSelector := "chatgpt-3"
  const RemoteModel := "gpt-3.5-turbo"
  const RemoteMaxTokens := 150
  const LocalMaxLength := 100
  const NoResponseContent := "No response content"
  const NoGeneratedText := "No generated text"
  const GptJFailure := "Failed to generate response using GPT-J."
  const ChatGpt3Failure := "Failed to generate response using ChatGPT-3."

  /** JavaScript's `text || fallback` for a value that is a string or missing. */
  function OrElse(text: Option<string>, fallback: string): string {
    if text.Some? && Truthy(text.value) then text.value else fallback
  }

  /** The single-turn request both remote routes build from the prompt. */
  function CompletionFor(prompt: string): CompletionRequest {
    CompletionRequest(RemoteModel, [ChatMessage("user", prompt)], RemoteMaxTokens)
  }

  /** `response.choices[0]?.message?.content || "No response content"`. */
  function ChoiceReply(choices: seq<Choice>): (r: string)
    ensures Truthy(r)
    ensures r == NoResponseContent || (|choices| > 0 && choices[0].content == Some(r))
    ensures |choices| > 0 && choices[0].content.Some? && Truthy(choices[0].content.value)
      ==> r == choices[0].content.value
    ensures (|choices| == 0 || choices[0].content.None? || choices[0].content == Some(""))
      ==> r == NoResponseContent
  {
    OrElse(if |choices| == 0 then None else choices[0].content, NoResponseContent)
  }

  /** `response[0]?.generated_text || "No generated text"`. */
  function CandidateReply(candidates: seq<Candidate>): (r: string)
    ensures Truthy(r)
    ensures r == NoGeneratedText || (|candidates| > 0 && candidates[0].generatedText == Some(r))
    ensures |candidates| > 0 && candidates[0].generatedText.Some? && Truthy(candidates[0].generatedText.value)
      ==> r == candidates[0].generatedText.value
    ensures (|candidates| == 0 || candidates[0].generatedText.None? || candidates[0].generatedText == Some(""))
      ==> r == NoGeneratedText
  {
    OrElse(if |candidates| == 0 then None else candidates[0].generatedText, NoGeneratedText)
  }

  /** The default route, written inline in the handler: the service's error
      propagates unchanged. */
  function DefaultRemoteResponse(openai: CompletionService, prompt: string): (r: Result<string>)
    ensures r.Success? <==> openai(CompletionFor(prompt)).Completed?
    ensures r.Failure? ==> r.error == openai(CompletionFor(prompt)).message
    ensures r.Success? ==> r.value == ChoiceReply(openai(CompletionFor(prompt)).choices)
  {
    match openai(CompletionFor(prompt))
    case CompletionThrew(message) => Failure(message)
    case Completed(choices) => Success(ChoiceReply(choices))
  }

  /** `generateChatGPT3Response`: the same request as the default route; any
      error is replaced by the route's own. */
  function GenerateChatGpt3Response(openai: CompletionService, prompt: string): (r: Result<string>)
    ensures r.Success? <==> openai(CompletionFor(prompt)).Completed?
    ensures r.Failure? ==> r.error == ChatGpt3Failure
    ensures r.Success? ==> r.value == ChoiceReply(openai(CompletionFor(prompt)).choices)
  {
    match openai(CompletionFor(prompt))
    case CompletionThrew(_) => Failure(ChatGpt3Failure)
    case Completed(choices) => Success(ChoiceReply(choices))
  }

  /** `generateGPTJResponse`: fails at once while the pipeline is not loaded;
      otherwise runs it with a maximum length of 100. Every error, including
      the missing pipeline, is replaced by the route's own. */
  function GenerateGptJResponse(gptjReady: bool, pipeline: GenerationPipeline, prompt: string): (r: Result<string>)
    ensures r.Success? <==> gptjReady && pipeline(GenerationRequest(prompt, LocalMaxLength)).Generated?
    ensures r.Failure? ==> r.error == GptJFailure
    ensures r.Success? ==> r.value == CandidateReply(pipeline(GenerationRequest(prompt, LocalMaxLength)).candidates)
  {
    if !gptjReady then Failure(GptJFailure)
    else match pipeline(GenerationRequest(prompt, LocalMaxLength))
      case GenerationThrew(_) => Failure(GptJFailure)
      case Generated(candidates) => Success(CandidateReply(candidates))
  }

  datatype Route = LocalRoute | AlternateRemoteRoute | DefaultRemoteRoute

  /** `req.body.model || "gpt-3.5-turbo"`. */
  function Selector(model: Option<string>): (s: string)
    ensures Truthy(s)
    ensures model.Some? && Truthy(model.value) ==> s == model.value
    ensures model == None || model == Some("") ==> s == DefaultSelector
  {
    OrElse(model, DefaultSelector)
  }

  /** The handler's exact-string comparisons of the selector. */
  function RouteOf(selector: string): (route: Route)
    ensures route == LocalRoute <==> selector == LocalSelector
    ensures route == AlternateRemoteRoute <==> selector == AlternateSelector
    ensures route == DefaultRemoteRoute <==> selector != LocalSelector && selector != AlternateSelector
  {
    if selector == LocalSelector then LocalRoute
    else if selector == AlternateSelector then AlternateRemoteRoute
    else DefaultRemoteRoute
  }

  /** The reply of the chosen route, or the error it throws. */
  function Dispatch(route: Route, prompt: string, gptjReady: bool,
                    openai: CompletionService, pipeline: GenerationPipeline): (r: Result<string>)
    ensures r.Success? ==> Truthy(r.value)
    ensures route == LocalRoute && !gptjReady ==> r == Failure(GptJFailure)
    ensures route == LocalRoute ==>
      (r.Success? <==> gptjReady && pipeline(GenerationRequest(prompt, LocalMaxLength)).Generated?)
    ensures route != LocalRoute ==> (r.Success? <==> openai(CompletionFor(prompt)).Completed?)
  {
    match route
    case LocalRoute => GenerateGptJResponse(gptjReady, pipeline, prompt)
    case AlternateRemoteRoute => GenerateChatGpt3Response(openai, prompt)
    case DefaultRemoteRoute => DefaultRemoteResponse(openai, prompt)
  }

  /** Only the two exact selectors leave the default route: a missing or
      empty model, the default identifier itself, and every case or padding
      variant of the two selectors all take the default remote route. */
  lemma SelectedRoute(model: Option<string>)
    ensures RouteOf(Selector(model)) == LocalRoute <==> model == Some(LocalSelector)
    ensures RouteOf(Selector(model)) == AlternateRemoteRoute <==> model == Some(AlternateSelector)
    ensures RouteOf(Selector(model)) == DefaultRemoteRoute
      <==> model != Some(LocalSelector) && model != Some(AlternateSelector)
  {
    if model.Some? && !Truthy(model.value) {
      assert Selector(model) == DefaultSelector;
    }
  }

  lemma VariantsTakeDefaultRoute()
    ensures RouteOf(Selector(None)) == DefaultRemoteRoute
    ensures RouteOf(Selector(Some(""))) == DefaultRemoteRoute
    ensures RouteOf(Selector(Some(DefaultSelector))) == DefaultRemoteRoute
    ensures RouteOf(Selector(Some("GPT-J"))) == DefaultRemoteRoute
    ensures RouteOf(Selector(Some(" chatgpt-3"))) == DefaultRemoteRoute
  {
  }

  /** The two remote routes send the same request and read the reply the same
      way, so for one service outcome they succeed together with the same
      reply; they differ only in the error they throw. */
  lemma RemoteRoutesAgree(openai: CompletionService, prompt: string, gptjReady: bool, pipeline: GenerationPipeline)
    ensures var alt := Dispatch(AlternateRemoteRoute, prompt, gptjReady, openai, pipeline);
            var def := Dispatch(DefaultRemoteRoute, prompt, gptjReady, openai, pipeline);
            alt.Success? == def.Success? && (alt.Success? ==> alt.value == def.value)
  {
  }
}
