/** `services/llm_service.py`: routes a completion request to a vendor
    backend or to the deterministic demo responder. The vendor HTTP clients
    themselves are a parameter (`VendorCall`). */
module LlmService {
  import opened Wrappers
  import opened Text
  import Config

  /** The two vendor backends. */
  datatype Vendor = OpenAi | Anthropic

  /** One chat message `{"role": ..., "content": ...}`. */
  datatype ChatMessage = ChatMessage(role: string, content: string)

  /** A vendor client call (`chat.completions.create` or `messages.create`)
      with a message list: the reply text, or the text of the exception it raised. */
  type VendorCall = (Vendor, seq<ChatMessage>) -> Result<string, string>

  /** The completion capability the agents depend on: prompt, model selector
      ("" stands for `None`) and system prompt, to generated text or the text
      of the exception raised. */
  type Completion = (string, string, string) -> Result<string, string>

  /** The `LLMService` instance: which clients `__init__` created, the
      configured default model, and the vendor calls. */
  datatype Service = Service(
    hasOpenAiClient: bool,
    hasAnthropicClient: bool,
    defaultModel: string,
    call: VendorCall)

  /** `LLMService()` under a given environment: a client is created exactly
      when its API key is set. */
  function FromConfig(env: Config.Environment, call: VendorCall): (svc: Service)
    ensures svc.hasOpenAiClient <==> Config.IsSet(env.openaiApiKey)
    ensures svc.hasAnthropicClient <==> Config.IsSet(env.anthropicApiKey)
    ensures svc.defaultModel == Config.DefaultModel(env)
  {
    Service(Config.IsSet(env.openaiApiKey), Config.IsSet(env.anthropicApiKey), Config.DefaultModel(env), call)
  }

  const ErrorPrefix: string := "LLM service error: "

  /** The message of the exception raised for a selection no backend serves. */
  function NotAvailableMessage(model: string): string
  {
    "Model " + model + " is not available or API key not configured"
  }

  /** `model or Config.DEFAULT_MODEL`. */
  function SelectedModel(model: string, default: string): (m: string)
    ensures model != "" ==> m == model
    ensures model == "" ==> m == default
  {
    if model != "" then model else default
  }

  /** The selection is served by some backend of `svc`. */
  predicate Routes(svc: Service, m: string)
  {
    || (m == "openai" && svc.hasOpenAiClient)
    || (m == "anthropic" && svc.hasAnthropicClient)
    || m == "demo"
  }

  /** The messages `_openai_completion` sends. */
  function OpenAiMessages(prompt: string, systemPrompt: string): (r: seq<ChatMessage>)
    ensures |r| == if systemPrompt == "" then 1 else 2
    ensures r[|r| - 1] == ChatMessage("user", prompt)
    ensures systemPrompt != "" ==> r[0] == ChatMessage("system", systemPrompt)
  {
    (if systemPrompt != "" then [ChatMessage("system", systemPrompt)] else [])
      + [ChatMessage("user", prompt)]
  }

  /** `_openai_completion`'s message list, built by appends. */
  method BuildOpenAiMessages(prompt: string, systemPrompt: string) returns (messages: seq<ChatMessage>)
    ensures messages == OpenAiMessages(prompt, systemPrompt)
  {
    messages := [];
    if systemPrompt != "" {
      messages := messages + [ChatMessage("system", systemPrompt)];
    }
    messages := messages + [ChatMessage("user", prompt)];
  }

  /** The messages `_anthropic_completion` sends. */
  function AnthropicMessages(prompt: string, systemPrompt: string): (r: seq<ChatMessage>)
    ensures |r| == 1 && r[0].role == "user"
    ensures systemPrompt == "" ==> r[0].content == prompt
    ensures systemPrompt != "" ==> r[0].content == systemPrompt + "\n\n" + prompt
  {
    if systemPrompt != "" then [ChatMessage("user", systemPrompt + "\n\n" + prompt)]
    else [ChatMessage("user", prompt)]
  }

  /** `_anthropic_completion`'s message list, built by appends. */
  method BuildAnthropicMessages(prompt: string, systemPrompt: string) returns (messages: seq<ChatMessage>)
    ensures messages == AnthropicMessages(prompt, systemPrompt)
  {
    messages := [];
    if systemPrompt != "" {
      messages := messages + [ChatMessage("user", systemPrompt + "\n\n" + prompt)];
    } else {
      messages := messages + [ChatMessage("user", prompt)];
    }
  }

  const DemoEnhancedDocument: string := @"## Enhanced Requirements Document

### Project Overview
Based on your provided requirements, I recommend creating a comprehensive application system.

### Functional Requirements
1. **User Interface Design**
   - Modern, responsive design
   - Intuitive user experience
   - Mobile device support

2. **Core Feature Modules**
   - Data management functionality
   - User authentication system
   - Data analysis and reporting

3. **Technical Requirements**
   - Use modern technology stack
   - Ensure system security
   - Support scalable design

### Non-Functional Requirements
- **Performance Requirements**: Page load time < 3 seconds
- **Security Requirements**: Encrypted data storage, user authentication
- **Availability Requirements**: 99.9% system availability

### Acceptance Criteria
- All core functions operate normally
- Pass security testing
- User-friendly interface

### Recommended Technology Stack
- Frontend: Modern web framework
- Backend: Stable server technology
- Database: Relational database

This is a demo mode response. Please configure real API keys for more accurate requirement analysis."

  const DemoReviewPayload: string := @"{
    ""issues"": [
        {
            ""type"": ""warning"",
            ""text"": ""Requirements description may not be specific enough"",
            ""location"": ""Functional requirements section"",
            ""suggestion"": ""Recommend adding more detailed functional descriptions and user scenarios""
        },
        {
            ""type"": ""suggestion"", 
            ""text"": ""Recommend adding performance metrics"",
            ""location"": ""Non-functional requirements"",
            ""suggestion"": ""Specify concrete performance requirements such as response time and concurrent users""
        }
    ],
    ""summary"": ""Overall requirement structure is good, but there is room for improvement in specificity and testability. Recommend adding more detailed acceptance criteria."",
    ""score"": 7
}"

  const DemoGenericReply: string := @"This is a demo mode response. Please configure API keys for real AI responses."

  /** The demo responder asks for an enhanced document. */
  predicate AsksForDocument(prompt: string, systemPrompt: string)
  {
    Contains(ToLower(prompt), "requirement") && Contains(ToLower(systemPrompt), "enhance")
  }

  /** `_demo_completion`: one of three canned replies, chosen by keywords of
      the prompt and the system prompt (the one-second sleep is left out). */
  function DemoCompletion(prompt: string, systemPrompt: string): (r: string)
    ensures r == DemoEnhancedDocument <==> AsksForDocument(prompt, systemPrompt)
    ensures r == DemoReviewPayload <==>
              !AsksForDocument(prompt, systemPrompt) && Contains(ToLower(systemPrompt), "review")
    ensures r == DemoGenericReply <==>
              !AsksForDocument(prompt, systemPrompt) && !Contains(ToLower(systemPrompt), "review")
  {
    assert |DemoEnhancedDocument| != |DemoReviewPayload| && |DemoReviewPayload| != |DemoGenericReply|
      && |DemoGenericReply| != |DemoEnhancedDocument|;
    if AsksForDocument(prompt, systemPrompt) then DemoEnhancedDocument
    else if Contains(ToLower(systemPrompt), "review") then DemoReviewPayload
    else DemoGenericReply
  }

  /** The demo document is not empty. */
  lemma DemoDocumentNotEmpty()
    ensures DemoEnhancedDocument != ""
  {
    assert |DemoEnhancedDocument| != |DemoGenericReply|;
  }

  /** A vendor reply, with any error re-raised under `ErrorPrefix`. */
  function Rewrapped(r: Result<string, string>): (w: Result<string, string>)
    ensures w.Ok? <==> r.Ok?
    ensures r.Ok? ==> w.value == r.value
    ensures r.Err? ==> w.error == ErrorPrefix + r.error
  {
    match r
    case Ok(t) => Ok(t)
    case Err(e) => Err(ErrorPrefix + e)
  }

  /** `generate_completion`: the selected model is the argument, or the
      default when the argument is empty; a configured vendor or the demo
      responder serves it; every error leaves prefixed with `ErrorPrefix`. */
  function GenerateCompletion(svc: Service, prompt: string, model: string, systemPrompt: string): (r: Result<string, string>)
    ensures var m := SelectedModel(model, svc.defaultModel);
      && (r.Err? ==> ErrorPrefix <= r.error)
      && (!Routes(svc, m) ==> r == Err(ErrorPrefix + NotAvailableMessage(m)))
      && (m == "demo" ==> r == Ok(DemoCompletion(prompt, systemPrompt)))
      && (m == "openai" && svc.hasOpenAiClient ==>
            r == Rewrapped(svc.call(OpenAi, OpenAiMessages(prompt, systemPrompt))))
      && (m == "anthropic" && svc.hasAnthropicClient ==>
            r == Rewrapped(svc.call(Anthropic, AnthropicMessages(prompt, systemPrompt))))
  {
    var m := SelectedModel(model, svc.defaultModel);
    if m == "openai" && svc.hasOpenAiClient then
      Rewrapped(svc.call(OpenAi, OpenAiMessages(prompt, systemPrompt)))
    else if m == "anthropic" && svc.hasAnthropicClient then
      Rewrapped(svc.call(Anthropic, AnthropicMessages(prompt, systemPrompt)))
    else if m == "demo" then
      Ok(DemoCompletion(prompt, systemPrompt))
    else
      Err(ErrorPrefix + NotAvailableMessage(m))
  }

  /** `GenerateCompletion` of a service, as the capability the agents use. */
  function AsCompletion(svc: Service): Completion
  {
    (prompt, model, systemPrompt) => GenerateCompletion(svc, prompt, model, systemPrompt)
  }

  /** Every backend `get_available_models` offers is one `generate_completion`
      serves under the same environment: choosing from the list never reaches
      the "not available" branch. */
  lemma OfferedModelsRoute(env: Config.Environment, call: VendorCall, i: nat)
    requires i < |Config.AvailableModels(env)|
    ensures Routes(FromConfig(env, call), Config.AvailableModels(env)[i].id)
  {
    var models := Config.AvailableModels(env);
    var id := models[i].id;
    assert Config.Offers(models, id);
  }
}
