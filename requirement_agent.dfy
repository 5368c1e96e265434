/** `agents/requirement_agent.py`: the plain agent, one completion call per
    operation, used as the second tier of every fallback. */
module RequirementAgent {
  import opened Wrappers
  import opened Text
  import LlmService

  /** The agent's system prompt; it is split around the word "enhance" that
      the demo responder looks for. */
  const SystemPrompt: string := SystemPromptHead + EnhanceWord + SystemPromptRest
  const EnhanceWord: string := "enhance"
  const SystemPromptHead: string := @"You are a professional requirements analyst. Your task is to help users refine and "
  const SystemPromptRest: string := @" their requirement descriptions.

Please follow these principles:
1. Carefully analyze the simple requirements provided by users
2. Identify missing key information in the requirements
3. Ask specific questions to clarify requirements
4. Expand simple requirements into detailed, clear, actionable requirement documents
5. Ensure requirements include both functional and non-functional requirements
6. Use structured format to organize requirements

Format requirements:
- Use clear headings and subheadings
- List specific functional requirements
- Include user interface requirements
- Specify performance and security requirements
- Mention technology stack or platform requirements

Please respond in English and use Markdown format for better presentation."

  const EnhanceInstruction: string :=
    "Please help me analyze and enhance this requirement, providing a more detailed and complete requirement description. If key information is missing, please point out what needs further clarification."

  const ClarifyInstruction: string :=
    "Please update and refine the requirement document based on the user's question or additional information. Ensure the new requirement is clearer and more complete."

  /** The text before the quoted input in the enhance prompt. */
  const EnhanceLead: string := EnhanceLeadStart + RequirementWord + ":\n"
  const EnhanceLeadStart: string := "User's original "
  /** The word the demo responder looks for in a prompt. */
  const RequirementWord: string := "requirement"
  /** The text after the quoted input in the enhance prompt. */
  const EnhanceTail: string := "\n\n" + EnhanceInstruction

  const ClarifyLead: string := ClarifyLeadStart + RequirementWord + ":\n"
  const ClarifyLeadStart: string := "Current "
  const ClarifyMiddle: string := "\n\nUser question or additional information:\n"
  const ClarifyTail: string := "\n\n" + ClarifyInstruction

  /** The prompt of `enhance_requirement`: the input quoted verbatim between
      a fixed lead and a fixed instruction. */
  function EnhancePrompt(userInput: string): (p: string)
    ensures |p| == |EnhanceLead| + |userInput| + 2 + |EnhanceTail|
    ensures EnhanceLead + Quoted(userInput) <= p
    ensures p[|EnhanceLead| + 1..|EnhanceLead| + 1 + |userInput|] == userInput
    ensures p[|EnhanceLead| + |userInput| + 2..] == EnhanceTail
  {
    var p := EnhanceLead + Quoted(userInput) + EnhanceTail;
    assert p[..|EnhanceLead| + |userInput| + 2] == EnhanceLead + Quoted(userInput);
    p
  }

  /** The prompt of `clarify_requirement`: the current requirement and the
      question, each quoted verbatim, in that order. */
  function ClarifyPrompt(requirement: string, userQuestion: string): (p: string)
    ensures ClarifyLead + Quoted(requirement) + ClarifyMiddle <= p
    ensures p[|ClarifyLead| + |requirement| + 2 + |ClarifyMiddle|..] == Quoted(userQuestion) + ClarifyTail
    ensures Contains(p, Quoted(requirement)) && Contains(p, Quoted(userQuestion))
  {
    var head := ClarifyLead + Quoted(requirement) + ClarifyMiddle;
    var p := head + Quoted(userQuestion) + ClarifyTail;
    assert p[..|head|] == head;
    assert p[|head|..] == Quoted(userQuestion) + ClarifyTail;
    ContainsBoth(ClarifyLead, Quoted(requirement), ClarifyMiddle, Quoted(userQuestion), ClarifyTail);
    p
  }

  /** The dictionary `enhance_requirement` returns (the fixed timestamp left out). */
  datatype EnhanceResult =
    | Enhanced(originalRequirement: string, enhancedRequirement: string)
    | EnhanceFailed(error: string)

  /** The dictionary `clarify_requirement` returns (the fixed timestamp left out). */
  datatype ClarifyResult =
    | Clarified(clarifiedRequirement: string)
    | ClarifyFailed(error: string)

  /** `enhance_requirement`: success exactly when the completion returns; the
      input is echoed and the completion text becomes the enhanced requirement;
      an exception becomes its message. */
  function EnhanceRequirement(llm: LlmService.Completion, userInput: string, model: string): (r: EnhanceResult)
    ensures var c := llm(EnhancePrompt(userInput), model, SystemPrompt);
      && (r.Enhanced? <==> c.Ok?)
      && (r.Enhanced? ==> r.originalRequirement == userInput && r.enhancedRequirement == c.value)
      && (r.EnhanceFailed? ==> r.error == c.error)
  {
    match llm(EnhancePrompt(userInput), model, SystemPrompt)
    case Ok(text) => Enhanced(userInput, text)
    case Err(e) => EnhanceFailed(e)
  }

  /** `clarify_requirement`: success exactly when the completion returns, with
      the completion text as the clarified requirement. */
  function ClarifyRequirement(llm: LlmService.Completion, requirement: string, userQuestion: string, model: string): (r: ClarifyResult)
    ensures var c := llm(ClarifyPrompt(requirement, userQuestion), model, SystemPrompt);
      && (r.Clarified? <==> c.Ok?)
      && (r.Clarified? ==> r.clarifiedRequirement == c.value)
      && (r.ClarifyFailed? ==> r.error == c.error)
  {
    match llm(ClarifyPrompt(requirement, userQuestion), model, SystemPrompt)
    case Ok(text) => Clarified(text)
    case Err(e) => ClarifyFailed(e)
  }

  /** The system prompt contains "enhance" in lower case. */
  lemma SystemPromptAsksToEnhance()
    ensures Contains(ToLower(SystemPrompt), "enhance")
  {
    LowerContainsMiddle(SystemPromptHead, EnhanceWord, SystemPromptRest);
  }

  /** The enhance prompt mentions "requirement" in lower case. */
  lemma EnhancePromptMentionsRequirement(userInput: string)
    ensures Contains(ToLower(EnhancePrompt(userInput)), RequirementWord)
  {
    var x := Quoted(userInput);
    assert EnhanceLead + x + EnhanceTail == EnhanceLead + (x + EnhanceTail);
    LowerContainsInLead(EnhanceLeadStart, RequirementWord, ":\n", x + EnhanceTail);
  }

  /** So does the clarify prompt, whatever the requirement and question. */
  lemma ClarifyPromptMentionsRequirement(requirement: string, userQuestion: string)
    ensures Contains(ToLower(ClarifyPrompt(requirement, userQuestion)), RequirementWord)
  {
    var x, y := Quoted(requirement), Quoted(userQuestion);
    Regroup(ClarifyLead, x, ClarifyMiddle, y, ClarifyTail);
    LowerContainsInLead(ClarifyLeadStart, RequirementWord, ":\n", x + ClarifyMiddle + y + ClarifyTail);
  }

  lemma Regroup(a: string, x: string, m: string, y: string, t: string)
    ensures a + x + m + y + t == a + (x + m + y + t)
  {
  }

  /** The system prompt asks to "enhance", so the demo responder reads the
      enhance prompt as a request for a requirements document. */
  lemma DemoAnswersEnhanceWithDocument(userInput: string)
    ensures LlmService.AsksForDocument(EnhancePrompt(userInput), SystemPrompt)
  {
    SystemPromptAsksToEnhance();
    EnhancePromptMentionsRequirement(userInput);
  }

  /** The same holds for the clarify prompt. */
  lemma DemoAnswersClarifyWithDocument(requirement: string, userQuestion: string)
    ensures LlmService.AsksForDocument(ClarifyPrompt(requirement, userQuestion), SystemPrompt)
  {
    SystemPromptAsksToEnhance();
    ClarifyPromptMentionsRequirement(requirement, userQuestion);
  }
}
