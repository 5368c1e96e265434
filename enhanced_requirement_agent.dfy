/** `agents/enhanced_requirement_agent.py`: the knowledge-augmented agent.
    Its keyword heuristics and prompt builder are methods proved against
    specification functions; its call-and-return compositions are functions
    over the knowledge-base query and an abstract completion. */
module EnhancedRequirementAgent {
  import opened Wrappers
  import opened Text
  import LlmService
  import KnowledgeBase
  import RequirementAgent

  /** The agent's system prompt, split around the word "enhance" that the
      demo responder looks for. */
  const SystemPrompt: string := SystemPromptHead + RequirementAgent.EnhanceWord + SystemPromptRest
  const SystemPromptHead: string := @"You are an advanced requirements analyst with access to a comprehensive knowledge base. Your task is to help users refine and "
  const SystemPromptRest: string := @" their requirement descriptions using best practices and industry standards.

Please follow these principles:
1. Analyze user requirements using knowledge base insights
2. Identify gaps and missing information based on similar projects
3. Ask targeted questions derived from domain expertise
4. Provide structured, comprehensive requirement documents
5. Include both functional and non-functional requirements
6. Suggest best practices and potential risks

Format your responses clearly using Markdown, and always explain your reasoning for suggested improvements."

  /** The capabilities the agent calls: the knowledge-base service, its
      LightRAG query, and the completion service. */
  datatype Services = Services(
    kb: KnowledgeBase.KbService,
    aquery: KnowledgeBase.RagQuery,
    llm: LlmService.Completion)

  function Min(a: int, b: int): int { if a <= b then a else b }
  function Max(a: int, b: int): int { if a >= b then a else b }

  /** 1 for a satisfied condition, 0 otherwise. */
  function Indicator(b: bool): nat { if b then 1 else 0 }

  // ---------------------------------------------------------------------
  // Completeness score

  const UserWords: seq<string> := [
    "user",
    "function",
    "feature"]
  const QualityWords: seq<string> := [
    "performance",
    "security",
    "scalability"]
  const InterfaceWords: seq<string> := [
    "interface",
    "ui",
    "ux"]
  const PlatformWords: seq<string> := [
    "technology",
    "platform",
    "system"]
  /** A description with more words than this counts as detailed. */
  const DetailedWordCount: nat := 50

  /** The number of the five completeness conditions the text meets. */
  function SatisfiedCriteria(text: string): (n: nat)
    ensures n <= 5
  {
    var l := ToLower(text);
    Indicator(ContainsAny(l, UserWords))
      + Indicator(ContainsAny(l, QualityWords))
      + Indicator(ContainsAny(l, InterfaceWords))
      + Indicator(WordCount(text) > DetailedWordCount)
      + Indicator(ContainsAny(l, PlatformWords))
  }

  /** `_assess_completeness`: the base score 5, one point per condition met,
      then clamped to [1, 10]; the clamp never changes the score. */
  method AssessCompleteness(requirementText: string) returns (score: int)
    ensures score == 5 + SatisfiedCriteria(requirementText)
    ensures 5 <= score <= 10
  {
    score := 5;
    var textLower := ToLower(requirementText);
    if ContainsAny(textLower, UserWords) {
      score := score + 1;
    }
    if ContainsAny(textLower, QualityWords) {
      score := score + 1;
    }
    if ContainsAny(textLower, InterfaceWords) {
      score := score + 1;
    }
    if WordCount(requirementText) > DetailedWordCount {
      score := score + 1;
    }
    if ContainsAny(textLower, PlatformWords) {
      score := score + 1;
    }
    score := Min(10, Max(1, score));
  }

  /** Appending text keeps every condition the text already met, so the
      completeness score never drops. */
  lemma CompletenessMonotone(t: string, u: string)
    ensures SatisfiedCriteria(t) <= SatisfiedCriteria(t + u)
  {
    if ContainsAny(ToLower(t), UserWords) { ContainsAnyLowerExtended(t, u, UserWords); }
    if ContainsAny(ToLower(t), QualityWords) { ContainsAnyLowerExtended(t, u, QualityWords); }
    if ContainsAny(ToLower(t), InterfaceWords) { ContainsAnyLowerExtended(t, u, InterfaceWords); }
    if ContainsAny(ToLower(t), PlatformWords) { ContainsAnyLowerExtended(t, u, PlatformWords); }
    WordCountExtended(t, u);
  }

  // ---------------------------------------------------------------------
  // Missing elements

  /** A requirement element and the keywords whose presence shows it is covered. */
  datatype ElementCategory = ElementCategory(name: string, keywords: seq<string>)

  const ElementCategories: seq<ElementCategory> := [
    ElementCategory("Target user identification", [
    "user",
    "customer",
    "client"]),
    ElementCategory("Core functionality description", [
    "function",
    "feature",
    "capability"]),
    ElementCategory("Performance requirements", [
    "performance",
    "speed",
    "load"]),
    ElementCategory("Security requirements", [
    "security",
    "authentication",
    "authorization"]),
    ElementCategory("User interface requirements", [
    "interface",
    "ui",
    "design"])]

  /** The category at index `k` is reported missing for the lower-cased text. */
  predicate IsMissing(l: string, k: nat)
    requires k < |ElementCategories|
  {
    !ContainsAny(l, ElementCategories[k].keywords)
  }

  /** Category `k`'s label when it is missing, nothing otherwise. */
  function MissingPart(l: string, k: nat): seq<string>
    requires k < |ElementCategories|
  {
    if IsMissing(l, k) then [ElementCategories[k].name] else []
  }

  /** The labels of the missing categories, in category order. */
  function MissingElements(text: string): (r: seq<string>)
    ensures |r| <= 5
  {
    var l := ToLower(text);
    MissingPart(l, 0) + MissingPart(l, 1) + MissingPart(l, 2) + MissingPart(l, 3) + MissingPart(l, 4)
  }

  /** A category is listed exactly when none of its keywords occurs in the
      lower-cased text. */
  lemma MissingElementsCharacterized(text: string, k: nat)
    requires k < |ElementCategories|
    ensures ElementCategories[k].name in MissingElements(text) <==> IsMissing(ToLower(text), k)
  {
    var l := ToLower(text);
    var labels := seq(5, i requires 0 <= i < 5 => ElementCategories[i].name);
    assert forall i, j :: 0 <= i < j < 5 ==> labels[i] != labels[j];
    assert MissingElements(text) == MissingPart(l, 0) + MissingPart(l, 1) + MissingPart(l, 2) + MissingPart(l, 3) + MissingPart(l, 4);
  }

  /** Appending text can only remove missing categories. */
  lemma MissingElementsShrink(t: string, u: string, k: nat)
    requires k < |ElementCategories|
    requires ElementCategories[k].name in MissingElements(t + u)
    ensures ElementCategories[k].name in MissingElements(t)
  {
    MissingElementsCharacterized(t + u, k);
    MissingElementsCharacterized(t, k);
    if !IsMissing(ToLower(t), k) {
      ContainsAnyLowerExtended(t, u, ElementCategories[k].keywords);
    }
  }

  /** `_identify_missing_elements`: one append per uncovered category. */
  method IdentifyMissingElements(requirementText: string) returns (missing: seq<string>)
    ensures missing == MissingElements(requirementText)
  {
    missing := [];
    var textLower := ToLower(requirementText);
    if !ContainsAny(textLower, ElementCategories[0].keywords) {
      missing := missing + [ElementCategories[0].name];
    }
    assert missing == MissingPart(textLower, 0);
    if !ContainsAny(textLower, ElementCategories[1].keywords) {
      missing := missing + [ElementCategories[1].name];
    }
    assert missing == MissingPart(textLower, 0) + MissingPart(textLower, 1);
    if !ContainsAny(textLower, ElementCategories[2].keywords) {
      missing := missing + [ElementCategories[2].name];
    }
    assert missing == MissingPart(textLower, 0) + MissingPart(textLower, 1) + MissingPart(textLower, 2);
    if !ContainsAny(textLower, ElementCategories[3].keywords) {
      missing := missing + [ElementCategories[3].name];
    }
    assert missing == MissingPart(textLower, 0) + MissingPart(textLower, 1) + MissingPart(textLower, 2) + MissingPart(textLower, 3);
    if !ContainsAny(textLower, ElementCategories[4].keywords) {
      missing := missing + [ElementCategories[4].name];
    }
    assert missing == MissingPart(textLower, 0) + MissingPart(textLower, 1) + MissingPart(textLower, 2) + MissingPart(textLower, 3) + MissingPart(textLower, 4);
  }

  // ---------------------------------------------------------------------
  // Best practices

  const WebPractices: seq<string> := [
    "Responsive design for mobile compatibility",
    "SEO optimization for search visibility",
    "Progressive web app features"]
  const MobilePractices: seq<string> := [
    "Cross-platform compatibility consideration",
    "Offline functionality for poor network areas",
    "Battery optimization design"]
  const EcommercePractices: seq<string> := [
    "PCI DSS compliance for payment security",
    "Multi-payment gateway integration",
    "Inventory management system"]
  const GenericPractices: seq<string> := [
    "User-centered design approach",
    "Scalable architecture design",
    "Comprehensive testing strategy"]
  const MaxPractices: nat := 5

  predicate PracticeWeb(l: string) { Contains(l, "web") }
  predicate PracticeMobile(l: string) { Contains(l, "mobile") || Contains(l, "app") }
  predicate PracticeEcommerce(l: string) { Contains(l, "ecommerce") || Contains(l, "shopping") }

  /** The domain practices triggered by the lower-cased text, in domain order. */
  function DomainPractices(l: string): (r: seq<string>)
    ensures |r| == 3 * (Indicator(PracticeWeb(l)) + Indicator(PracticeMobile(l)) + Indicator(PracticeEcommerce(l)))
  {
    (if PracticeWeb(l) then WebPractices else [])
      + (if PracticeMobile(l) then MobilePractices else [])
      + (if PracticeEcommerce(l) then EcommercePractices else [])
  }

  /** `_get_relevant_best_practices` as a value. */
  function BestPractices(text: string): (r: seq<string>)
    ensures |r| <= MaxPractices
  {
    Take(DomainPractices(ToLower(text)) + GenericPractices, MaxPractices)
  }

  /** With no trigger the result is exactly the generic practices; with one
      trigger it is that domain's three followed by two generic ones; with
      more, five domain practices and no generic one. */
  lemma BestPracticesCharacterized(text: string)
    ensures var l := ToLower(text);
      var k := Indicator(PracticeWeb(l)) + Indicator(PracticeMobile(l)) + Indicator(PracticeEcommerce(l));
      var r := BestPractices(text);
      && (k == 0 ==> r == GenericPractices)
      && (k == 1 ==> r == DomainPractices(l) + GenericPractices[..2])
      && (k >= 2 ==> r == DomainPractices(l)[..5])
      && (PracticeWeb(l) ==> r[..3] == WebPractices)
  {
    var l := ToLower(text);
    var d := DomainPractices(l);
    assert (d + GenericPractices)[..|d|] == d;
  }

  /** The e-commerce trigger is the literal word "ecommerce" or "shopping":
      a text saying "e-commerce" gets only the generic practices. */
  lemma HyphenatedEcommerceIsNotRecognized()
    ensures BestPractices("e-commerce") == GenericPractices
  {
    var s := "e-commerce";
    assert ToLower(s) == s;
    CharAbsent(s, "web", 0);
    CharAbsent(s, "mobile", 2);
    CharAbsent(s, "app", 0);
    CharAbsent(s, "shopping", 0);
    forall i | 0 <= i <= 1 ensures !OccursAt(s, "ecommerce", i) {
      assert s[i..i + 9][1 - i] == s[1];
    }
  }

  /** `_get_relevant_best_practices`: domain blocks by `extend`, then the
      generic block, then at most five. */
  method GetRelevantBestPractices(requirementText: string) returns (practices: seq<string>)
    ensures practices == BestPractices(requirementText)
  {
    practices := [];
    var textLower := ToLower(requirementText);
    if Contains(textLower, "web") {
      practices := practices + WebPractices;
    }
    if Contains(textLower, "mobile") || Contains(textLower, "app") {
      practices := practices + MobilePractices;
    }
    if Contains(textLower, "ecommerce") || Contains(textLower, "shopping") {
      practices := practices + EcommercePractices;
    }
    practices := practices + GenericPractices;
    practices := Take(practices, MaxPractices);
  }

  // ---------------------------------------------------------------------
  // Potential risks

  const IntegrationRisk: string := "Technical integration complexity"
  const RealTimeRisk: string := "Real-time performance challenges"
  const FinancialRisk: string := "Financial transaction security risks"
  const ScaleRisk: string := "Scalability and performance bottlenecks"
  const GenericRisks: seq<string> := [
    "User adoption and change management",
    "Data privacy and compliance requirements",
    "Technical debt accumulation"]
  const MaxRisks: nat := 4

  predicate RiskIntegration(l: string) { Contains(l, "complex") || Contains(l, "integration") }
  predicate RiskRealTime(l: string) { Contains(l, "real-time") || Contains(l, "live") }
  predicate RiskFinancial(l: string) { Contains(l, "payment") || Contains(l, "financial") }
  predicate RiskScale(l: string) { Contains(l, "scale") || Contains(l, "large") }

  /** The number of triggered risks. */
  function RiskCount(l: string): nat
  {
    Indicator(RiskIntegration(l)) + Indicator(RiskRealTime(l)) + Indicator(RiskFinancial(l)) + Indicator(RiskScale(l))
  }

  /** The triggered risks, in the fixed order. */
  function TriggeredRisks(l: string): (r: seq<string>)
    ensures |r| == RiskCount(l)
  {
    (if RiskIntegration(l) then [IntegrationRisk] else [])
      + (if RiskRealTime(l) then [RealTimeRisk] else [])
      + (if RiskFinancial(l) then [FinancialRisk] else [])
      + (if RiskScale(l) then [ScaleRisk] else [])
  }

  /** `_identify_potential_risks` as a value. */
  function PotentialRisks(text: string): (r: seq<string>)
  {
    Take(TriggeredRisks(ToLower(text)) + GenericRisks, MaxRisks)
  }

  /** The risk list has length min(4, k + 3) for k triggered risks; the
      triggered ones come first, and the rest are generic risks in order. */
  lemma PotentialRisksCharacterized(text: string)
    ensures var l := ToLower(text);
      var k := RiskCount(l);
      var r := PotentialRisks(text);
      && |r| == Min(MaxRisks, k + 3)
      && r[..Min(k, MaxRisks)] == TriggeredRisks(l)[..Min(k, MaxRisks)]
      && (k < MaxRisks ==> r[k..] == GenericRisks[..|r| - k])
  {
    var l := ToLower(text);
    var t := TriggeredRisks(l);
    var all := t + GenericRisks;
    assert all[..|t|] == t;
    assert all[|t|..] == GenericRisks;
  }

  /** `_identify_potential_risks`: one append per triggered risk, then the
      generic block, then at most four. */
  method IdentifyPotentialRisks(requirementText: string) returns (risks: seq<string>)
    ensures risks == PotentialRisks(requirementText)
  {
    risks := [];
    var textLower := ToLower(requirementText);
    if Contains(textLower, "complex") || Contains(textLower, "integration") {
      risks := risks + [IntegrationRisk];
    }
    if Contains(textLower, "real-time") || Contains(textLower, "live") {
      risks := risks + [RealTimeRisk];
    }
    if Contains(textLower, "payment") || Contains(textLower, "financial") {
      risks := risks + [FinancialRisk];
    }
    if Contains(textLower, "scale") || Contains(textLower, "large") {
      risks := risks + [ScaleRisk];
    }
    risks := risks + GenericRisks;
    risks := Take(risks, MaxRisks);
  }

  // ---------------------------------------------------------------------
  // Enhanced prompt

  const PromptFooter: string := @"Please analyze this requirement and provide:
1. A comprehensive, enhanced requirement document
2. Identification of any missing critical information
3. Specific recommendations based on industry best practices
4. Potential risks or challenges to consider
5. Suggested next steps for requirement clarification

Make your response detailed, structured, and actionable."
  const SuggestionsHeading: string := "Knowledge Base Suggestions:\n"
  const QuestionsHeading: string := "Key Questions to Address:\n"

  /** The quoted user input that opens the prompt; the same lead as the
      plain agent's enhance prompt. */
  function PromptHeader(userInput: string): string
  {
    RequirementAgent.EnhanceLead + Quoted(userInput) + "\n\n"
  }

  /** A headed bullet block lists each of its items as a bullet. */
  lemma HeadedBulletsContain(heading: string, items: seq<string>)
    ensures forall k :: 0 <= k < |items| ==> Contains(heading + BulletList(items) + "\n\n", "- " + items[k])
  {
    forall k | 0 <= k < |items| ensures Contains(heading + BulletList(items) + "\n\n", "- " + items[k]) {
      ContainsWithin(heading, BulletList(items), "\n\n", "- " + items[k]);
    }
  }

  /** The suggestions block: present exactly when the query succeeded with
      suggestions, and then listing each of them as a bullet. */
  function SuggestionsBlock(kb: KnowledgeBase.QueryResult): (b: string)
    ensures b != "" <==> kb.success && kb.suggestions != []
    ensures b != "" ==> forall k :: 0 <= k < |kb.suggestions| ==> Contains(b, "- " + kb.suggestions[k])
  {
    if kb.success && kb.suggestions != [] then
      HeadedBulletsContain(SuggestionsHeading, kb.suggestions);
      SuggestionsHeading + BulletList(kb.suggestions) + "\n\n"
    else ""
  }

  /** The questions block: present exactly when there are questions, whatever
      the query's success, and then listing each of them as a bullet. */
  function QuestionsBlock(kb: KnowledgeBase.QueryResult): (b: string)
    ensures b != "" <==> kb.questions != []
    ensures b != "" ==> forall k :: 0 <= k < |kb.questions| ==> Contains(b, "- " + kb.questions[k])
  {
    if kb.questions != [] then
      HeadedBulletsContain(QuestionsHeading, kb.questions);
      QuestionsHeading + BulletList(kb.questions) + "\n\n"
    else ""
  }

  /** `_build_enhanced_prompt` as a value: the quoted input, the suggestions
      block, the questions block and the five-deliverable instruction, in that
      order. */
  function EnhancedPrompt(userInput: string, kb: KnowledgeBase.QueryResult): (p: string)
    ensures p == PromptHeader(userInput) + SuggestionsBlock(kb) + QuestionsBlock(kb) + PromptFooter
    ensures PromptHeader(userInput) <= p
    ensures |p| >= |PromptFooter| && p[|p| - |PromptFooter|..] == PromptFooter
  {
    var head := PromptHeader(userInput) + SuggestionsBlock(kb) + QuestionsBlock(kb);
    var p := head + PromptFooter;
    assert p[..|PromptHeader(userInput)|] == PromptHeader(userInput);
    assert p[|head|..] == PromptFooter;
    p
  }

  /** Every suggestion of a successful query and every question of the query
      is listed as a bullet in the enhanced prompt. */
  lemma EnhancedPromptListsKb(userInput: string, kb: KnowledgeBase.QueryResult)
    ensures kb.success && kb.suggestions != [] ==>
              forall k :: 0 <= k < |kb.suggestions| ==> Contains(EnhancedPrompt(userInput, kb), "- " + kb.suggestions[k])
    ensures kb.questions != [] ==>
              forall k :: 0 <= k < |kb.questions| ==> Contains(EnhancedPrompt(userInput, kb), "- " + kb.questions[k])
  {
    var header, sb, qb := PromptHeader(userInput), SuggestionsBlock(kb), QuestionsBlock(kb);
    ListedAround(header, sb, qb, PromptFooter, kb.suggestions, kb.questions);
  }

  /** Bullets listed in either of two middle blocks occur in the whole text. */
  lemma ListedAround(h: string, sb: string, qb: string, f: string, xs: seq<string>, ys: seq<string>)
    requires sb != "" ==> forall k :: 0 <= k < |xs| ==> Contains(sb, "- " + xs[k])
    requires qb != "" ==> forall k :: 0 <= k < |ys| ==> Contains(qb, "- " + ys[k])
    ensures sb != "" ==> forall k :: 0 <= k < |xs| ==> Contains(h + sb + qb + f, "- " + xs[k])
    ensures qb != "" ==> forall k :: 0 <= k < |ys| ==> Contains(h + sb + qb + f, "- " + ys[k])
  {
    assert h + sb + qb + f == h + sb + (qb + f);
    forall k | 0 <= k < |xs| && sb != "" ensures Contains(h + sb + qb + f, "- " + xs[k]) {
      ContainsWithin(h, sb, qb + f, "- " + xs[k]);
    }
    forall k | 0 <= k < |ys| && qb != "" ensures Contains(h + sb + qb + f, "- " + ys[k]) {
      ContainsWithin(h + sb, qb, f, "- " + ys[k]);
    }
  }

  /** `_build_enhanced_prompt`: the header, then `+=` of each present block,
      then the footer. */
  method BuildEnhancedPrompt(userInput: string, kb: KnowledgeBase.QueryResult) returns (prompt: string)
    ensures prompt == EnhancedPrompt(userInput, kb)
  {
    prompt := RequirementAgent.EnhanceLead + Quoted(userInput) + "\n\n";
    ghost var header := prompt;
    if kb.success && kb.suggestions != [] {
      prompt := prompt + SuggestionsHeading + BulletList(kb.suggestions) + "\n\n";
    }
    assert prompt == header + SuggestionsBlock(kb);
    ghost var withSuggestions := prompt;
    if kb.questions != [] {
      prompt := prompt + QuestionsHeading + BulletList(kb.questions) + "\n\n";
    }
    assert prompt == withSuggestions + QuestionsBlock(kb);
    prompt := prompt + PromptFooter;
  }

  // ---------------------------------------------------------------------
  // Enhancement with the knowledge base, and its fallback

  const BasicQuestions: seq<string> := [
    "What is the main goal of this system?",
    "Who are the primary users?",
    "What is the expected number of users?",
    "Are there any special technical requirements?",
    "What are the project time and budget constraints?"]

  /** `_generate_basic_questions`: five fixed questions, whatever the text. */
  function GenerateBasicQuestions(requirementText: string): (r: seq<string>)
    ensures |r| == 5 && r == BasicQuestions
  {
    BasicQuestions
  }

  /** The dictionary `enhance_requirement_with_kb` returns (the fixed
      timestamp left out). */
  datatype KbEnhanceResult =
    | KbEnhanced(
        originalRequirement: string,
        enhancedRequirement: string,
        kbSuggestions: seq<string>,
        clarificationQuestions: seq<string>,
        knowledgeBaseUsed: bool)
    | KbEnhanceFailed(error: string)

  /** `_fallback_enhance_requirement`: the plain prompt under this agent's
      system prompt; no knowledge-base data and the basic questions. */
  function FallbackEnhance(svc: Services, userInput: string, model: string): (r: KbEnhanceResult)
    ensures var c := svc.llm(RequirementAgent.EnhancePrompt(userInput), model, SystemPrompt);
      && (r.KbEnhanced? <==> c.Ok?)
      && (r.KbEnhanced? ==>
            && r.originalRequirement == userInput
            && r.enhancedRequirement == c.value
            && r.kbSuggestions == []
            && r.clarificationQuestions == BasicQuestions
            && !r.knowledgeBaseUsed)
      && (r.KbEnhanceFailed? ==> r.error == c.error)
  {
    match svc.llm(RequirementAgent.EnhancePrompt(userInput), model, SystemPrompt)
    case Ok(text) => KbEnhanced(userInput, text, [], GenerateBasicQuestions(userInput), false)
    case Err(e) => KbEnhanceFailed(e)
  }

  /** `enhance_requirement_with_kb`: query the knowledge base, complete the
      enhanced prompt, and pass the knowledge-base outcome through; when the
      completion raises, the fallback decides. */
  function EnhanceRequirementWithKb(svc: Services, userInput: string, model: string): (r: KbEnhanceResult)
    ensures var kb := KnowledgeBase.QueryKnowledgeBase(svc.kb, svc.aquery, userInput, KnowledgeBase.DefaultQueryMode);
      var c := svc.llm(EnhancedPrompt(userInput, kb), model, SystemPrompt);
      && (c.Ok? ==> r == KbEnhanced(userInput, c.value, kb.suggestions, kb.questions, kb.success))
      && (c.Err? ==> r == FallbackEnhance(svc, userInput, model))
    ensures r.KbEnhanced? ==> r.originalRequirement == userInput
    ensures r.KbEnhanced? && !r.knowledgeBaseUsed ==> r.kbSuggestions == []
    ensures r.KbEnhanced? && r.knowledgeBaseUsed ==> r.kbSuggestions != [] && r.clarificationQuestions != []
  {
    var kb := KnowledgeBase.QueryKnowledgeBase(svc.kb, svc.aquery, userInput, KnowledgeBase.DefaultQueryMode);
    match svc.llm(EnhancedPrompt(userInput, kb), model, SystemPrompt)
    case Ok(text) => KbEnhanced(userInput, text, kb.suggestions, kb.questions, kb.success)
    case Err(_) => FallbackEnhance(svc, userInput, model)
  }

  /** Every enhanced prompt mentions "requirement" and the system prompt asks
      to "enhance", so the demo responder answers with its document. */
  lemma EnhancedPromptAsksForDocument(userInput: string, kb: KnowledgeBase.QueryResult)
    ensures LlmService.AsksForDocument(EnhancedPrompt(userInput, kb), SystemPrompt)
  {
    LowerContainsMiddle(SystemPromptHead, RequirementAgent.EnhanceWord, SystemPromptRest);
    var p := EnhancedPrompt(userInput, kb);
    var lead := RequirementAgent.EnhanceLead;
    assert PromptHeader(userInput)[..|lead|] == lead;
    assert p == lead + p[|lead|..];
    LowerContainsInLead(RequirementAgent.EnhanceLeadStart, RequirementAgent.RequirementWord, ":\n", p[|lead|..]);
  }

  /** In demo mode the knowledge-augmented enhancement always succeeds with
      the demo document, and reports the knowledge base as used exactly when
      its query succeeded. */
  lemma DemoEnhancementYieldsDocument(
    kb: KnowledgeBase.KbService, aquery: KnowledgeBase.RagQuery, llm: LlmService.Service,
    userInput: string, model: string)
    requires LlmService.SelectedModel(model, llm.defaultModel) == "demo"
    ensures var r := EnhanceRequirementWithKb(Services(kb, aquery, LlmService.AsCompletion(llm)), userInput, model);
      && r.KbEnhanced?
      && r.enhancedRequirement == LlmService.DemoEnhancedDocument
      && (r.knowledgeBaseUsed <==> kb.Ready() && aquery(KnowledgeBase.QueryPrefix + userInput, KnowledgeBase.DefaultQueryMode).Ok?)
  {
    var q := KnowledgeBase.QueryKnowledgeBase(kb, aquery, userInput, KnowledgeBase.DefaultQueryMode);
    EnhancedPromptAsksForDocument(userInput, q);
  }

  // ---------------------------------------------------------------------
  // Clarification with the knowledge base

  const ClarifyFooter: string := @"Please update and refine the requirement document based on the user's input and knowledge base insights. Ensure the new requirement is clearer, more complete, and follows best practices."
  const InsightsHeading: string := "Relevant knowledge base insights:\n"
  const ClarifyLead: string := "Current requirement document:\n"
  const ClarifyMiddle: string := "\n\nUser question or additional information:\n"

  /** The text the knowledge base is queried with during clarification. */
  function ClarifyContextQuery(requirement: string, userQuestion: string): string
  {
    requirement + "\n\nUser question: " + userQuestion
  }

  /** The insights block: present exactly when the query succeeded with
      suggestions, and then listing each of them as a bullet. */
  function InsightsBlock(kb: KnowledgeBase.QueryResult): (b: string)
    ensures b != "" <==> kb.success && kb.suggestions != []
    ensures b != "" ==> forall k :: 0 <= k < |kb.suggestions| ==> Contains(b, "- " + kb.suggestions[k])
  {
    if kb.success && kb.suggestions != [] then
      HeadedBulletsContain(InsightsHeading, kb.suggestions);
      InsightsHeading + BulletList(kb.suggestions) + "\n\n"
    else ""
  }

  /** The clarification prompt: both texts quoted verbatim, the insights
      block, and the fixed instruction last; every suggestion of a successful
      query is therefore listed in the prompt. */
  function ClarifyPromptWithKb(requirement: string, userQuestion: string, kb: KnowledgeBase.QueryResult): (p: string)
    ensures p == ClarifyLead + Quoted(requirement) + ClarifyMiddle + Quoted(userQuestion) + "\n\n"
                 + InsightsBlock(kb) + ClarifyFooter
    ensures ClarifyLead + Quoted(requirement) + ClarifyMiddle + Quoted(userQuestion) <= p
    ensures |p| >= |ClarifyFooter| && p[|p| - |ClarifyFooter|..] == ClarifyFooter
    ensures kb.success && kb.suggestions != [] ==>
              forall k :: 0 <= k < |kb.suggestions| ==> Contains(p, "- " + kb.suggestions[k])
  {
    var head := ClarifyLead + Quoted(requirement) + ClarifyMiddle + Quoted(userQuestion) + "\n\n";
    var ib := InsightsBlock(kb);
    var p := head + ib + ClarifyFooter;
    assert p[..|head|] == head;
    assert head[..|head| - 2] == ClarifyLead + Quoted(requirement) + ClarifyMiddle + Quoted(userQuestion);
    assert p[|head + ib|..] == ClarifyFooter;
    forall k | 0 <= k < |kb.suggestions| && ib != "" ensures Contains(p, "- " + kb.suggestions[k]) {
      ContainsWithin(head, ib, ClarifyFooter, "- " + kb.suggestions[k]);
    }
    p
  }

  /** The dictionary `clarify_requirement_with_kb` returns (the fixed
      timestamp left out). */
  datatype KbClarifyResult =
    | KbClarified(clarifiedRequirement: string, additionalSuggestions: seq<string>, knowledgeBaseUsed: bool)
    | KbClarifyFailed(error: string)

  /** `clarify_requirement_with_kb`: no internal fallback; a completion error
      becomes a failed result. */
  function ClarifyRequirementWithKb(svc: Services, requirement: string, userQuestion: string, model: string): (r: KbClarifyResult)
    ensures var kb := KnowledgeBase.QueryKnowledgeBase(svc.kb, svc.aquery, ClarifyContextQuery(requirement, userQuestion), KnowledgeBase.DefaultQueryMode);
      var c := svc.llm(ClarifyPromptWithKb(requirement, userQuestion, kb), model, SystemPrompt);
      && (r.KbClarified? <==> c.Ok?)
      && (r.KbClarified? ==> r == KbClarified(c.value, kb.suggestions, kb.success))
      && (r.KbClarifyFailed? ==> r.error == c.error)
    ensures r.KbClarified? && !r.knowledgeBaseUsed ==> r.additionalSuggestions == []
  {
    var kb := KnowledgeBase.QueryKnowledgeBase(svc.kb, svc.aquery, ClarifyContextQuery(requirement, userQuestion), KnowledgeBase.DefaultQueryMode);
    match svc.llm(ClarifyPromptWithKb(requirement, userQuestion, kb), model, SystemPrompt)
    case Ok(text) => KbClarified(text, kb.suggestions, kb.success)
    case Err(e) => KbClarifyFailed(e)
  }

  // ---------------------------------------------------------------------
  // Smart questions and improvement suggestions

  /** `get_smart_questions`: the knowledge-base questions when the query
      succeeds, the basic questions otherwise; never empty. */
  function GetSmartQuestions(svc: Services, requirementText: string): (r: seq<string>)
    ensures var kb := KnowledgeBase.QueryKnowledgeBase(svc.kb, svc.aquery, requirementText, KnowledgeBase.DefaultQueryMode);
      && (kb.success ==> r == KnowledgeBase.ClarificationQuestions(requirementText))
      && (!kb.success ==> r == BasicQuestions)
    ensures 1 <= |r| <= KnowledgeBase.MaxQuestions
  {
    var kb := KnowledgeBase.QueryKnowledgeBase(svc.kb, svc.aquery, requirementText, KnowledgeBase.DefaultQueryMode);
    if kb.success then kb.questions else GenerateBasicQuestions(requirementText)
  }

  /** The `improvements` dictionary of `suggest_requirement_improvements`. */
  datatype Improvements = Improvements(
    completenessScore: int,
    missingElements: seq<string>,
    suggestions: seq<string>,
    bestPractices: seq<string>,
    potentialRisks: seq<string>)

  /** `suggest_requirement_improvements`: every heuristic of the agent on the
      same text, plus the knowledge-base suggestions (empty when the query fails). */
  method SuggestRequirementImprovements(svc: Services, requirementText: string) returns (improvements: Improvements)
    ensures var kb := KnowledgeBase.QueryKnowledgeBase(svc.kb, svc.aquery, requirementText, KnowledgeBase.DefaultQueryMode);
      improvements == Improvements(
        5 + SatisfiedCriteria(requirementText),
        MissingElements(requirementText),
        kb.suggestions,
        BestPractices(requirementText),
        PotentialRisks(requirementText))
  {
    var kb := KnowledgeBase.QueryKnowledgeBase(svc.kb, svc.aquery, requirementText, KnowledgeBase.DefaultQueryMode);
    var score := AssessCompleteness(requirementText);
    var missing := IdentifyMissingElements(requirementText);
    var practices := GetRelevantBestPractices(requirementText);
    var risks := IdentifyPotentialRisks(requirementText);
    improvements := Improvements(score, missing, kb.suggestions, practices, risks);
  }
}
