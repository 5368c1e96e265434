# BA Copilot requirement assistant: a Dafny model

BA Copilot is a Streamlit assistant that turns a short project description
into a structured requirements document. It works in three phases:

1. **input**: the user describes the project;
2. **enhance**: an agent, helped by a LightRAG knowledge base when one is
   available, writes an enhanced requirement, and the user refines it in a
   chat;
3. **review**: a review agent scores the document and highlights its issues.

A user can keep several chat sessions at once and switch between them.

This project models that core in Dafny 4.11 and proves properties of the
model. Each module follows one file.

| module | file | what it holds |
|---|---|---|
| `Config` | `config.py` | environment settings and the list of offered backends |
| `LlmService` | `services/llm_service.py` | routing a completion to OpenAI, Anthropic or the demo responder |
| `KnowledgeBase` | `services/knowledge_base.py` | the knowledge-base query, suggestion parsing, clarification questions, the template lookup |
| `RequirementAgent` | `agents/requirement_agent.py` | the plain enhance and clarify agent |
| `EnhancedRequirementAgent` | `agents/enhanced_requirement_agent.py` | the knowledge-augmented agent, its fallback and its keyword heuristics |
| `ReviewAgent` | `agents/review_agent.py` | the review call, the three-step JSON parse chain, keyword extraction, issue highlighting |
| `Workflow` | `main.py` | the multi-session state, the `SessionState` class, and the phase handlers of the page |
| `Text` | (shared) | the Python `str` operations the core uses: `lower`, `in`, `find`, `replace(…, 1)`, `strip`, `split`, `join`, `str(n)`, slicing |
| `Wrappers` | (shared) | `Option` and `Result` |

Outside services reach the model only as function-valued parameters:

- `LlmService.VendorCall` stands for the vendor HTTP clients.
- `LlmService.Completion` stands for the completion capability the agents
  use. Every agent property holds for any completion.
  `LlmService.AsCompletion` is the concrete one, built from
  `GenerateCompletion`.
- `KnowledgeBase.RagQuery` stands for `rag.aquery`.
- `ReviewAgent.Loads` stands for `json.loads`.

A Python exception becomes the `Err` or `…Failed` case of a result type,
carrying the exception's text. A Python model argument of `None` is modelled
as `""`, because `model or DEFAULT_MODEL` treats both as unset.

Code that works step by step is modelled as a `method`, proved against a
function that specifies it. This covers the list-building heuristics, the
prompt builder, the highlighting loops and the bullet-appending loops.
`st.session_state` is modelled as the class `Workflow.SessionState`. Its
fields are:

- `sessions`: the session dictionary;
- `order`: the dictionary's key insertion order, used by `list(keys())[0]`;
- `counter`: the id counter;
- `currentId`: the current session id.

Each page handler is a method of that class. Each handler:

- states the new state in terms of a function on one session (`Analyzed`,
  `Enhanced`, `Clarified`, `WithField`);
- keeps the store invariant `ValidStore`: keys match the order, ids are
  unique, each session is stored under its own id, ids the counter has not
  yet reached are free, and the current id names a session;
- keeps the invariant that a review result exists only in the review phase.

## Model

| member | source | states |
|---|---|---|
| Config.DefaultModel | config.py:12 | the `DEFAULT_MODEL` variable when set, `"openai"` when unset |
| Config.AvailableModels | config.py:25-53 | OpenAI is offered iff its key is set, Anthropic iff its key is set, demo iff neither is set; 1 or 2 entries, OpenAI first and Anthropic last, all enabled, ids distinct |
| Config.GetAvailableModels | config.py:25-53 | the conditional appends build exactly `AvailableModels` |
| LlmService.FromConfig | services/llm_service.py:7-17 | a vendor client exists iff its API key is set; the default model comes from the configuration |
| LlmService.SelectedModel | services/llm_service.py:21 | the argument when it is non-empty, else the configured default |
| LlmService.OpenAiMessages | services/llm_service.py:37-42 | a system message only for a non-empty system prompt, always followed by the user prompt |
| LlmService.BuildOpenAiMessages | services/llm_service.py:37-42 | the appends build exactly `OpenAiMessages` |
| LlmService.AnthropicMessages | services/llm_service.py:55-60 | a single user message, holding the system prompt, a blank line and the prompt, or the prompt alone when there is no system prompt |
| LlmService.BuildAnthropicMessages | services/llm_service.py:55-60 | the appends build exactly `AnthropicMessages` |
| LlmService.DemoCompletion | services/llm_service.py:71-135 | the document iff the lower-cased prompt has "requirement" and the system prompt has "enhance"; else the review JSON iff the system prompt has "review"; else the generic reply |
| LlmService.DemoDocumentNotEmpty | services/llm_service.py:77-113 | the demo document is non-empty |
| LlmService.Rewrapped | services/llm_service.py:32-33 | a success passes through unchanged; an error is re-raised with the "LLM service error: " prefix |
| LlmService.GenerateCompletion | services/llm_service.py:19-33 | every error carries the prefix; an unserved selection gives the "not available" error; demo gives the demo reply; a configured vendor gets its own message list |
| LlmService.OfferedModelsRoute | services/llm_service.py:24-31 | every backend `get_available_models` offers is one that `generate_completion` serves under the same environment |
| KnowledgeBase.SuggestionLines | services/knowledge_base.py:282-286 | no more lines than the input has, and every kept line is non-empty and carries a suggestion marker |
| KnowledgeBase.SuggestionLinesMembership | services/knowledge_base.py:282-286 | a text is kept iff it is the stripped form of some line and carries a marker |
| KnowledgeBase.SuggestionLinesEmpty | services/knowledge_base.py:282-290 | nothing is kept iff no stripped line carries a marker |
| KnowledgeBase.ParsedSuggestions | services/knowledge_base.py:277-297 | between 1 and 5 suggestions |
| KnowledgeBase.ParsedSuggestionsCharacterized | services/knowledge_base.py:277-297 | the generic list when no line is marked; otherwise the first five marked lines in order, each a stripped response line |
| KnowledgeBase.ParseSuggestions | services/knowledge_base.py:277-297 | the line loop, with its invariant, computes exactly `ParsedSuggestions` |
| KnowledgeBase.ClarificationQuestions | services/knowledge_base.py:299-347 | between 1 and 6 questions |
| KnowledgeBase.ClarificationQuestionsCharacterized | services/knowledge_base.py:299-347 | the generic questions iff no domain matched; the first matched domain's block comes first (web, then mobile, then e-commerce, then management) |
| KnowledgeBase.GenerateClarificationQuestions | services/knowledge_base.py:299-347 | the `extend` steps compute exactly `ClarificationQuestions`; the context argument is unused |
| KnowledgeBase.QueryKnowledgeBase | services/knowledge_base.py:237-275 | success iff the index is ready and the query returns; failures carry the not-initialized text or the exception text, with empty lists; a success carries the parsed suggestions, the questions and the raw answer; result lists are bounded and, on success, non-empty |
| KnowledgeBase.GetRequirementTemplate | services/knowledge_base.py:349-411 | a template exists iff the category is "web_app" |
| RequirementAgent.EnhancePrompt | agents/requirement_agent.py:27-30 | the fixed lead, the input quoted verbatim at a fixed offset, then the fixed instruction |
| RequirementAgent.ClarifyPrompt | agents/requirement_agent.py:58-64 | the requirement and the question, each quoted verbatim, in that order, between the fixed texts |
| RequirementAgent.EnhanceRequirement | agents/requirement_agent.py:25-54 | success iff the completion returns; the input is echoed and the completion becomes the enhanced text; an error carries the exception text |
| RequirementAgent.ClarifyRequirement | agents/requirement_agent.py:56-86 | success iff the completion returns, with the completion as the clarified text; an error carries the exception text |
| RequirementAgent.SystemPromptAsksToEnhance | agents/requirement_agent.py:6 | the lower-cased system prompt contains "enhance" |
| RequirementAgent.EnhancePromptMentionsRequirement | agents/requirement_agent.py:27 | the lower-cased enhance prompt contains "requirement", whatever the input |
| RequirementAgent.ClarifyPromptMentionsRequirement | agents/requirement_agent.py:58 | the lower-cased clarify prompt contains "requirement", whatever the inputs |
| RequirementAgent.DemoAnswersEnhanceWithDocument | agents/requirement_agent.py:25-39 | the demo responder answers the enhance prompt with its document |
| RequirementAgent.DemoAnswersClarifyWithDocument | agents/requirement_agent.py:56-72 | the demo responder answers the clarify prompt with its document |
| EnhancedRequirementAgent.SatisfiedCriteria | agents/enhanced_requirement_agent.py:216-225 | at most five of the completeness conditions hold |
| EnhancedRequirementAgent.AssessCompleteness | agents/enhanced_requirement_agent.py:210-227 | the score is 5 plus the number of conditions met, so it lies in [5, 10] and the clamp never changes it |
| EnhancedRequirementAgent.CompletenessMonotone | agents/enhanced_requirement_agent.py:210-227 | appending text never lowers the completeness score |
| EnhancedRequirementAgent.MissingElements | agents/enhanced_requirement_agent.py:229-249 | at most five missing elements |
| EnhancedRequirementAgent.MissingElementsCharacterized | agents/enhanced_requirement_agent.py:229-249 | a category is listed iff none of its keywords occurs in the lower-cased text |
| EnhancedRequirementAgent.MissingElementsShrink | agents/enhanced_requirement_agent.py:229-249 | appending text can only remove missing elements, never add one |
| EnhancedRequirementAgent.IdentifyMissingElements | agents/enhanced_requirement_agent.py:229-249 | the appends compute exactly `MissingElements` |
| EnhancedRequirementAgent.DomainPractices | agents/enhanced_requirement_agent.py:256-275 | three practices for each triggered domain |
| EnhancedRequirementAgent.BestPractices | agents/enhanced_requirement_agent.py:251-284 | at most five practices |
| EnhancedRequirementAgent.BestPracticesCharacterized | agents/enhanced_requirement_agent.py:251-284 | no trigger: the three generic practices; one trigger: that domain's three and two generic ones; two or more: five domain practices; web first when triggered |
| EnhancedRequirementAgent.HyphenatedEcommerceIsNotRecognized | agents/enhanced_requirement_agent.py:270 | "e-commerce" triggers no domain, so it gets only the generic practices |
| EnhancedRequirementAgent.GetRelevantBestPractices | agents/enhanced_requirement_agent.py:251-284 | the `extend` steps compute exactly `BestPractices` |
| EnhancedRequirementAgent.TriggeredRisks | agents/enhanced_requirement_agent.py:291-301 | one risk per triggered condition |
| EnhancedRequirementAgent.PotentialRisksCharacterized | agents/enhanced_requirement_agent.py:286-310 | with k triggered risks the list has min(4, k + 3) entries; the triggered risks come first, then generic ones in order |
| EnhancedRequirementAgent.IdentifyPotentialRisks | agents/enhanced_requirement_agent.py:286-310 | the appends compute exactly `PotentialRisks` |
| EnhancedRequirementAgent.SuggestionsBlock | agents/enhanced_requirement_agent.py:59-63 | present iff the query succeeded with suggestions; then every suggestion appears as a bullet |
| EnhancedRequirementAgent.QuestionsBlock | agents/enhanced_requirement_agent.py:65-69 | present iff there are questions, whatever the query's success; then every question appears as a bullet |
| EnhancedRequirementAgent.EnhancedPrompt | agents/enhanced_requirement_agent.py:52-80 | the quoted input, then the suggestions block, then the questions block, then the five-deliverable instruction; so it always opens with the quoted input and ends with the instruction |
| EnhancedRequirementAgent.EnhancedPromptListsKb | agents/enhanced_requirement_agent.py:59-69 | every suggestion of a successful query, and every question, appears as a bullet in the enhanced prompt |
| EnhancedRequirementAgent.BuildEnhancedPrompt | agents/enhanced_requirement_agent.py:52-80 | the `+=` steps compute exactly `EnhancedPrompt` |
| EnhancedRequirementAgent.GenerateBasicQuestions | agents/enhanced_requirement_agent.py:110-118 | the five fixed questions, whatever the text |
| EnhancedRequirementAgent.FallbackEnhance | agents/enhanced_requirement_agent.py:82-108 | success iff the completion of the plain prompt returns; then no knowledge-base suggestions, the basic questions, and the knowledge base reported unused |
| EnhancedRequirementAgent.EnhanceRequirementWithKb | agents/enhanced_requirement_agent.py:23-50 | a returned completion gives the knowledge-base outcome passed through; an error defers to the fallback; suggestions are present only when the knowledge base was used, and then non-empty |
| EnhancedRequirementAgent.EnhancedPromptAsksForDocument | agents/enhanced_requirement_agent.py:52-57 | the demo responder reads every enhanced prompt as a request for its document: the prompt's header mentions "requirement" and the agent's system prompt asks to "enhance" |
| EnhancedRequirementAgent.DemoEnhancementYieldsDocument | agents/enhanced_requirement_agent.py:23-45 | in demo mode the enhancement always succeeds with the demo document, reporting the knowledge base used iff its query succeeded |
| EnhancedRequirementAgent.InsightsBlock | agents/enhanced_requirement_agent.py:136-140 | present iff the query succeeded with suggestions; then every suggestion appears as a bullet |
| EnhancedRequirementAgent.ClarifyPromptWithKb | agents/enhanced_requirement_agent.py:128-142 | both texts quoted verbatim first, then the insights block, then the fixed instruction; every suggestion of a successful query appears as a bullet in the prompt |
| EnhancedRequirementAgent.ClarifyRequirementWithKb | agents/enhanced_requirement_agent.py:120-162 | success iff the completion returns (no internal fallback), with the knowledge-base suggestions and success passed through; an error carries the exception text |
| EnhancedRequirementAgent.GetSmartQuestions | agents/enhanced_requirement_agent.py:164-183 | the knowledge-base questions when the query succeeds, the basic questions otherwise; never empty, at most six |
| EnhancedRequirementAgent.SuggestRequirementImprovements | agents/enhanced_requirement_agent.py:185-201 | each field is the matching heuristic on the same text, plus the knowledge-base suggestions |
| ReviewAgent.ReviewPrompt | agents/review_agent.py:57-68 | the quoted document, then the fixed instruction |
| ReviewAgent.FallbackResult | agents/review_agent.py:107-118 | one warning issue located "Overall" with the fixed text and suggestion, the raw review text as the summary, score 5 |
| ReviewAgent.FirstIndexOf | agents/review_agent.py:83 | the first index of the character, or -1 iff it is absent |
| ReviewAgent.LastIndexOf | agents/review_agent.py:83 | the last index of the character, or -1 iff it is absent |
| ReviewAgent.BraceSpan | agents/review_agent.py:83 | a match exists iff some `{` precedes some `}`; the match runs from the first `{` to the last `}` |
| ReviewAgent.BraceSpanOfWrapped | agents/review_agent.py:83 | a JSON object wrapped in brace-free prose is cut out exactly |
| ReviewAgent.ParseReview | agents/review_agent.py:79-90 | the whole answer if it parses; else the brace span if it parses; else the fallback record |
| ReviewAgent.ParseReviewOfWrapped | agents/review_agent.py:79-90 | an answer made of prose around a JSON object is parsed from the object alone |
| ReviewAgent.ReviewRequirement | agents/review_agent.py:55-105 | success iff the completion returns, with the requirement echoed and the answer parsed; an error carries the exception text |
| ReviewAgent.ContainedWords | agents/review_agent.py:141 | a word is kept iff it is in the list and in the text; no repeats |
| ReviewAgent.ContainedWordsInOrder | agents/review_agent.py:141 | the kept words keep their list order |
| ReviewAgent.ExtractKeywords | agents/review_agent.py:138-141 | exactly the whitelist words found in the lower-cased text, without repeats, in whitelist order |
| ReviewAgent.MarkPattern | agents/review_agent.py:133 | the marked form is longer than the keyword |
| ReviewAgent.MarkStep | agents/review_agent.py:131-134 | an absent keyword changes nothing; otherwise only its first occurrence is wrapped; the text never shrinks |
| ReviewAgent.HighlightIssues | agents/review_agent.py:120-136 | the two nested loops, with their invariants, compute exactly `Highlighted` |
| ReviewAgent.MarkAllGrows | agents/review_agent.py:130-134 | keyword steps never shorten the text |
| ReviewAgent.HighlightedGrows | agents/review_agent.py:120-136 | highlighting never shortens the requirement |
| ReviewAgent.HighlightedIdentity | agents/review_agent.py:126 | issues that are neither errors nor warnings leave the text unchanged |
| ReviewAgent.MarkAllAbsent | agents/review_agent.py:130-131 | a text with none of the keywords is left as it is |
| Workflow.SessionIdShape | main.py:574 | every session id starts with "session_" and is non-empty |
| Workflow.SessionIdInjective | main.py:573-574 | equal ids come from equal counter values |
| Workflow.SessionIdDistinct | main.py:573-574 | a new counter value gives a new id |
| Workflow.NewSession | main.py:576-588 | the new session has the given or default title ("New Session n"), the input phase, empty texts and history, and no review |
| Workflow.Without | main.py:612 | removing a key keeps the other keys distinct and in insertion order |
| Workflow.DisplayTitle | main.py:650-653 | at most 25 characters; a short title is unchanged; a long one becomes 22 characters and "..." |
| Workflow.PhaseStatusOf | main.py:749-756 | current iff same phase; complete iff earlier in the workflow; pending iff later |
| Workflow.ScoreClass | main.py:1149 | excellent iff ≥ 8, good iff 6 to 8, fair iff 4 to 6, poor iff < 4 |
| Workflow.CompletenessNeverPoor | main.py:1148-1149 | a completeness score is never shown as poor |
| Workflow.AnalyzedTitle | main.py:793-795 | a short text is the title; a long one gives its first 30 characters and "..." |
| Workflow.BulletLinesContain | main.py:911-912 | every suggestion appears as a bullet line |
| Workflow.AppendBulletLines | main.py:910-912 | the loop appends one bullet line per suggestion |
| Workflow.ClarificationTurn | main.py:982-1040 | the user message is always appended; one assistant reply follows unless both agents fail; the enhanced requirement becomes the reply's text; phase, review, id, title and original text are unchanged |
| Workflow.FirstEnhanceTurn | main.py:889-948 | a non-empty history is left alone; otherwise user then assistant, for the KB result or the plain fallback; both failing changes nothing; phase, review and original text are unchanged |
| Workflow.TurnsKeepPhase | main.py:889-1040 | neither the enhance turn nor the clarify turn changes the id, the phase or the review |
| Workflow.DemoFirstTurnEnablesReview | main.py:889-925 | in demo mode the first turn stores the demo document and two messages; the document is non-empty, so the Review button's guard is met |
| Workflow.InsertKeepsValid | main.py:573-590 | inserting the next id keeps the store valid, with the counter advanced and the new id current |
| Workflow.ReplaceKeepsValid | main.py:599-602 | storing a session under its present id keeps the store valid |
| Workflow.RemoveKeepsValid | main.py:611-612 | removing a key keeps the store valid |
| Workflow.OrderMatchesKeys | main.py:616-617 | no sessions iff an empty order; otherwise the first key in order is a session |
| Workflow.SessionState.CurrentSession | main.py:593-597 | a session iff the current id is set, non-empty and present |
| Workflow.SessionState.constructor | main.py:553-565 | empty dictionary, no current id, counter 0 |
| Workflow.SessionState.CreateNewSession | main.py:571-591 | the counter rises by one; a fresh id is inserted last with a new session and becomes current; the store stays valid |
| Workflow.SessionState.InitializeSessionState | main.py:553-569 | a first session is created only when there is none and no current id; otherwise nothing changes |
| Workflow.SessionState.UpdateSessionData | main.py:599-602 | one key of the current session changes when there is one; otherwise nothing; order, counter and current id are kept |
| Workflow.SessionState.UpdateKeepsWellformed | main.py:599-602 | a store update keeps the state valid and keeps reviews in the review phase |
| Workflow.SessionState.SwitchToSession | main.py:604-607 | only an existing id becomes current; the dictionary is unchanged |
| Workflow.SessionState.DeleteSession | main.py:609-619 | an unknown id changes nothing; otherwise it is removed; when it was current, the first remaining key in insertion order becomes current, or a new session is created when none remains |
| Workflow.SessionState.Analyze | main.py:786-800 | a blank requirement changes nothing; otherwise the stripped text is stored, the phase becomes enhance and the title is derived |
| Workflow.SessionState.StartEnhancement | main.py:889-948 | the current session becomes `Enhanced` of itself; the phase stays enhance |
| Workflow.SessionState.SendClarification | main.py:982-1040 | a blank input changes nothing; otherwise the current session becomes `Clarified` with the stripped question |
| Workflow.SessionState.RequestReview | main.py:1046-1049 | the phase becomes review iff the enhanced requirement is non-empty |
| Workflow.SessionState.EnsureReview | main.py:1062-1068 | a review is computed and stored, whatever its outcome, only when none is stored; afterwards one is always stored |
| Workflow.SessionState.BackToEnhancement | main.py:1122-1125 | the phase returns to enhance and the review is discarded |
| Workflow.SessionState.RetryAssessment | main.py:1129-1131 | the stored review is discarded and the phase stays review |

## Left out

- The Streamlit rendering is not modelled: the HTML and CSS, phase icons,
  chat bubbles, the header, the model selector widget, spinners and
  warnings. No state depends on them.
- Document upload is not modelled: file decoding (`extract_text_from_file`)
  and knowledge-base ingestion (`process_uploaded_documents`) are I/O and
  third-party libraries.
- LightRAG setup, its embedding and its loading (`_initialize_rag`,
  `_load_knowledge_base`, `_get_requirements_knowledge`) are not modelled.
  The knowledge base is a readiness flag and a query function.
- The vendor HTTP calls are the parameter `VendorCall`. Their model name,
  temperature and token limit are configuration the model does not use.
  The demo responder's one-second sleep and the asyncio event loops have no
  observable effect here.
- `json.loads` is the parameter `Loads`, so the JSON grammar is not
  modelled. The review result is not validated, as in the source.
- `Text.ToLower` lowers ASCII letters only. Python's full Unicode case
  mapping is not modelled.
- The fixed `timestamp` fields and `created_at` (taken from `time.time()`
  and passed in as `now`) are not interpreted.
- `ReviewAgent.get_knowledge_base` is not modelled: it returns a constant
  dictionary that the page never reads.
- `run.py` and `install_lightrag.py` are launch and install scripts, so they
  are not modelled.
- The smart-question buttons are not modelled. A button stores its question
  in `selected_question`, which pre-fills the clarification input once and
  is then cleared. The model takes whatever the input holds as
  `SendClarification`'s `userInput` parameter.
- The display cut-offs (`[:4]` smart questions, `[:3]` missing elements,
  `[:2]` practices) only select what is shown.
- The `logging.error` calls in the `except` branches of the knowledge-base
  query and of the enhanced agent are not modelled. No state depends on
  them.
- A `KeyError` raised by an issue lacking "type", "text" or "suggestion" in
  `highlight_issues` is not modelled: `ReviewAgent.Issue` always has the
  three fields.
- `Workflow.SessionField` covers the keys the handlers pass. `id` and
  `created_at` are never updated.
- Workflow handlers take the agents as an `Agents` value. `Workflow.Wired`
  builds that value from the agent modules.
  `Workflow.DemoFirstTurnEnablesReview` shows the two working together.
- Workflow.SessionState.BackToEnhancement: the source shows this button
  only when the stored review succeeded. The model requires only the review
  phase.
- Workflow.SessionState.RetryAssessment: the source shows this button only
  when no review succeeded. The model requires only the review phase.
- `suggest_requirement_improvements` and `get_smart_questions` have an
  `except` branch that cannot be reached for string inputs, so it is not
  modelled.
- Where the repository's documentation and its code differ, the model
  follows the code:
  - the code neither clamps nor validates the review score;
  - sessions are neither persisted nor de-duplicated;
  - "e-commerce" with a hyphen triggers no domain practice
    (`EnhancedRequirementAgent.HyphenatedEcommerceIsNotRecognized`);
  - the completeness clamp to [1, 10] never applies, because the score is
    always between 5 and 10.
