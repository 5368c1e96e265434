/** `services/knowledge_base.py`: the knowledge-base query and the shaping of
    its answer into suggestions and clarification questions. LightRAG is a
    parameter (`RagQuery`); setting it up and loading it are not modelled. */
module KnowledgeBase {
  import opened Wrappers
  import opened Text

  /** What a query reads of `KnowledgeBaseService`: whether setup finished and
      whether a LightRAG instance exists. */
  datatype KbService = KbService(isInitialized: bool, hasRag: bool)
  {
    /** `self.is_initialized and self.rag`. */
    predicate Ready()
    {
      isInitialized && hasRag
    }
  }

  /** `rag.aquery(query, param=QueryParam(mode=mode))`: the answer text, or
      the text of the exception it raised. */
  type RagQuery = (string, string) -> Result<string, string>

  /** The dictionary `query_knowledge_base` returns; keys it does not set are `None`. */
  datatype QueryResult = QueryResult(
    success: bool,
    suggestions: seq<string>,
    questions: seq<string>,
    error: Option<string>,
    rawResponse: Option<string>)

  const NotInitializedError: string := "Knowledge base not initialized"
  const DefaultQueryMode: string := "hybrid"
  const QueryPrefix: string := "分析以下需求并提供改进建议："
  const MaxSuggestions: nat := 5
  const MaxQuestions: nat := 6

  const GenericSuggestions: seq<string> := [
    "建议明确目标用户群体和使用场景",
    "需要详细说明核心功能和用户流程",
    "考虑非功能需求如性能、安全性、可扩展性",
    "明确技术栈和部署环境要求"]

  const WebQuestions: seq<string> := [
    "这个Web应用的主要用户群体是谁？",
    "预期的并发用户数量是多少？",
    "需要支持哪些浏览器和设备？",
    "是否需要移动端适配？"]

  const MobileQuestions: seq<string> := [
    "需要开发iOS版本、Android版本还是跨平台应用？",
    "应用是否需要离线功能？",
    "需要集成哪些设备功能（相机、GPS、推送等）？"]

  const EcommerceQuestions: seq<string> := [
    "支持哪些支付方式？",
    "配送范围是什么？",
    "是否需要多商家入驻功能？",
    "需要支持哪些促销活动类型？"]

  const ManagementQuestions: seq<string> := [
    "系统将有多少用户同时使用？",
    "需要哪些用户角色和权限？",
    "是否需要移动端管理功能？",
    "数据导入导出需求是什么？"]

  const GenericQuestions: seq<string> := [
    "这个系统的主要目标是什么？",
    "谁是主要用户？",
    "有什么特殊的安全或合规要求？",
    "预期的用户数量和数据量级？",
    "有哪些现有系统需要集成？"]

  /** A stripped response line that `_parse_suggestions` keeps. */
  predicate IsSuggestionLine(line: string)
  {
    line != "" && (Contains(line, "建议") || Contains(line, "推荐") || Contains(line, "应该"))
  }

  /** The stripped lines of `lines` that carry a suggestion marker, in order. */
  function SuggestionLines(lines: seq<string>): (r: seq<string>)
    ensures |r| <= |lines|
    ensures forall x :: x in r ==> IsSuggestionLine(x)
    decreases |lines|
  {
    if lines == [] then []
    else
      var prev := SuggestionLines(lines[..|lines| - 1]);
      var line := Strip(lines[|lines| - 1]);
      if IsSuggestionLine(line) then prev + [line] else prev
  }

  /** A text is kept exactly when it is the stripped form of some line and
      carries a marker. */
  lemma {:induction false} SuggestionLinesMembership(lines: seq<string>, x: string)
    ensures x in SuggestionLines(lines) <==>
              exists k :: 0 <= k < |lines| && Strip(lines[k]) == x && IsSuggestionLine(x)
    decreases |lines|
  {
    if lines != [] {
      var init := lines[..|lines| - 1];
      SuggestionLinesMembership(init, x);
      if x in SuggestionLines(lines) && x !in SuggestionLines(init) {
        assert Strip(lines[|lines| - 1]) == x;
      }
      if exists k :: 0 <= k < |lines| && Strip(lines[k]) == x && IsSuggestionLine(x) {
        var k :| 0 <= k < |lines| && Strip(lines[k]) == x && IsSuggestionLine(x);
        if k < |lines| - 1 {
          assert init[k] == lines[k];
        }
      }
      forall k | 0 <= k < |init| ensures init[k] == lines[k] { }
    }
  }

  /** `_parse_suggestions(response)` as a value. */
  function ParsedSuggestions(response: string): (r: seq<string>)
    ensures 1 <= |r| <= MaxSuggestions
  {
    var found := SuggestionLines(Split(response, '\n'));
    Take(if found == [] then GenericSuggestions else found, MaxSuggestions)
  }

  /** What the suggestions of a response are: the generic list when no line of
      the response carries a marker; otherwise the first five marked lines, in
      response order, each the stripped form of a response line. */
  lemma ParsedSuggestionsCharacterized(response: string)
    ensures var lines := Split(response, '\n');
      var r := ParsedSuggestions(response);
      && ((forall k :: 0 <= k < |lines| ==> !IsSuggestionLine(Strip(lines[k]))) ==> r == GenericSuggestions)
      && ((exists k :: 0 <= k < |lines| && IsSuggestionLine(Strip(lines[k]))) ==>
            && r == Take(SuggestionLines(lines), MaxSuggestions)
            && forall i :: 0 <= i < |r| ==>
                 exists k :: 0 <= k < |lines| && Strip(lines[k]) == r[i] && IsSuggestionLine(r[i]))
  {
    var lines := Split(response, '\n');
    SuggestionLinesEmpty(lines);
    var r := ParsedSuggestions(response);
    if SuggestionLines(lines) != [] {
      forall i | 0 <= i < |r|
        ensures exists k :: 0 <= k < |lines| && Strip(lines[k]) == r[i] && IsSuggestionLine(r[i])
      {
        SuggestionLinesMembership(lines, r[i]);
      }
    }
  }

  /** No line is kept exactly when no stripped line carries a marker. */
  lemma SuggestionLinesEmpty(lines: seq<string>)
    ensures SuggestionLines(lines) == [] <==> forall k :: 0 <= k < |lines| ==> !IsSuggestionLine(Strip(lines[k]))
  {
    if SuggestionLines(lines) != [] {
      SuggestionLinesMembership(lines, SuggestionLines(lines)[0]);
    } else {
      forall k | 0 <= k < |lines| ensures !IsSuggestionLine(Strip(lines[k])) {
        SuggestionLinesMembership(lines, Strip(lines[k]));
      }
    }
  }

  /** `_parse_suggestions`: keeps the marked lines by appending them one by
      one, falls back to the generic list, and keeps at most five. */
  method ParseSuggestions(response: string) returns (suggestions: seq<string>)
    ensures suggestions == ParsedSuggestions(response)
  {
    suggestions := [];
    var lines := Split(response, '\n');
    var i := 0;
    while i < |lines|
      invariant 0 <= i <= |lines|
      invariant suggestions == SuggestionLines(lines[..i])
    {
      var line := Strip(lines[i]);
      if line != "" && (Contains(line, "建议") || Contains(line, "推荐") || Contains(line, "应该")) {
        suggestions := suggestions + [line];
      }
      assert lines[..i + 1][..i] == lines[..i];
      i := i + 1;
    }
    assert lines[..i] == lines;
    if suggestions == [] {
      suggestions := GenericSuggestions;
    }
    suggestions := Take(suggestions, MaxSuggestions);
  }

  /** The domain tests of `_generate_clarification_questions`, on the
      lower-cased requirement. */
  predicate MentionsWeb(l: string) { Contains(l, "web") || Contains(l, "网站") }
  predicate MentionsMobile(l: string) { Contains(l, "mobile") || Contains(l, "移动") || Contains(l, "app") }
  predicate MentionsEcommerce(l: string) { Contains(l, "ecommerce") || Contains(l, "电商") || Contains(l, "购物") }
  predicate MentionsManagement(l: string) { Contains(l, "management") || Contains(l, "管理") }

  /** The question blocks of every matched domain, in the fixed domain order. */
  function DomainQuestions(l: string): seq<string>
  {
    (if MentionsWeb(l) then WebQuestions else [])
      + (if MentionsMobile(l) then MobileQuestions else [])
      + (if MentionsEcommerce(l) then EcommerceQuestions else [])
      + (if MentionsManagement(l) then ManagementQuestions else [])
  }

  /** `_generate_clarification_questions(requirement_text, context)` as a
      value; it depends on the requirement text alone. */
  function ClarificationQuestions(requirementText: string): (r: seq<string>)
    ensures 1 <= |r| <= MaxQuestions
  {
    var found := DomainQuestions(ToLower(requirementText));
    Take(if found == [] then GenericQuestions else found, MaxQuestions)
  }

  /** The generic questions come exactly when no domain matched; otherwise
      the first matched domain's block leads, cut to six questions. */
  lemma ClarificationQuestionsCharacterized(requirementText: string)
    ensures var l := ToLower(requirementText);
      var r := ClarificationQuestions(requirementText);
      && (r == GenericQuestions <==>
            !MentionsWeb(l) && !MentionsMobile(l) && !MentionsEcommerce(l) && !MentionsManagement(l))
      && (MentionsWeb(l) ==> r[..4] == WebQuestions)
      && (!MentionsWeb(l) && MentionsMobile(l) ==> r[..3] == MobileQuestions)
      && (!MentionsWeb(l) && !MentionsMobile(l) && MentionsEcommerce(l) ==> r[..4] == EcommerceQuestions)
      && (!MentionsWeb(l) && !MentionsMobile(l) && !MentionsEcommerce(l) && MentionsManagement(l) ==>
            r == ManagementQuestions)
  {
    var l := ToLower(requirementText);
    var r := ClarificationQuestions(requirementText);
    var found := DomainQuestions(l);
    if found != [] {
      assert r[0] == found[0];
      assert found[0] in {WebQuestions[0], MobileQuestions[0], EcommerceQuestions[0], ManagementQuestions[0]};
      assert r[0] != GenericQuestions[0];
    }
  }

  /** `_generate_clarification_questions`: extends the list block by block,
      falls back to the generic list, and keeps at most six. `context` is
      accepted and unused, as in the source. */
  method GenerateClarificationQuestions(requirementText: string, context: string) returns (questions: seq<string>)
    ensures questions == ClarificationQuestions(requirementText)
  {
    questions := [];
    var requirementLower := ToLower(requirementText);
    if Contains(requirementLower, "web") || Contains(requirementLower, "网站") {
      questions := questions + WebQuestions;
    }
    assert questions == (if MentionsWeb(requirementLower) then WebQuestions else []);
    if Contains(requirementLower, "mobile") || Contains(requirementLower, "移动") || Contains(requirementLower, "app") {
      questions := questions + MobileQuestions;
    }
    assert questions == (if MentionsWeb(requirementLower) then WebQuestions else [])
      + (if MentionsMobile(requirementLower) then MobileQuestions else []);
    if Contains(requirementLower, "ecommerce") || Contains(requirementLower, "电商") || Contains(requirementLower, "购物") {
      questions := questions + EcommerceQuestions;
    }
    if Contains(requirementLower, "management") || Contains(requirementLower, "管理") {
      questions := questions + ManagementQuestions;
    }
    assert questions == DomainQuestions(requirementLower);
    if questions == [] {
      questions := GenericQuestions;
    }
    questions := Take(questions, MaxQuestions);
  }

  /** `query_knowledge_base`: a failure record with empty lists when the
      index is not ready or the query raised; otherwise suggestions parsed
      from the answer and questions derived from the requirement text. */
  function QueryKnowledgeBase(kb: KbService, aquery: RagQuery, requirementText: string, mode: string): (r: QueryResult)
    ensures var answer := aquery(QueryPrefix + requirementText, mode);
      && (r.success <==> kb.Ready() && answer.Ok?)
      && (!r.success ==> r.suggestions == [] && r.questions == [] && r.rawResponse.None?)
      && (!kb.Ready() ==> r.error == Some(NotInitializedError))
      && (kb.Ready() && answer.Err? ==> r.error == Some(answer.error))
      && (r.success ==>
            && r.error.None?
            && r.rawResponse == Some(answer.value)
            && r.suggestions == ParsedSuggestions(answer.value)
            && r.questions == ClarificationQuestions(requirementText))
      && |r.suggestions| <= MaxSuggestions && |r.questions| <= MaxQuestions
      && (r.success ==> r.suggestions != [] && r.questions != [])
  {
    if !kb.Ready() then
      QueryResult(false, [], [], Some(NotInitializedError), None)
    else
      match aquery(QueryPrefix + requirementText, mode)
      case Err(e) => QueryResult(false, [], [], Some(e), None)
      case Ok(response) =>
        QueryResult(true, ParsedSuggestions(response), ClarificationQuestions(requirementText), None, Some(response))
  }

  /** The `RequirementTemplate` dataclass. */
  datatype RequirementTemplate = RequirementTemplate(
    category: string,
    subcategory: string,
    template: string,
    questions: seq<string>,
    examples: seq<string>,
    bestPractices: seq<string>)

  const WebAppTemplate: RequirementTemplate := RequirementTemplate(
    "Web应用",
    "标准Web应用",
    @"
# {项目名称} 需求文档

## 1. 项目概述
- **项目目标**: 
- **目标用户**: 
- **核心价值**: 

## 2. 功能需求
### 2.1 用户管理
- 用户注册和登录
- 用户角色管理
- 个人资料管理

### 2.2 核心功能
- [具体功能列表]

### 2.3 管理功能
- 后台管理界面
- 数据管理
- 系统配置

## 3. 非功能需求
- **性能**: 页面加载时间 < 3秒
- **安全**: HTTPS、数据加密
- **兼容性**: 支持主流浏览器
- **可用性**: 99.9%正常运行时间

## 4. 技术要求
- **前端技术**: 
- **后端技术**: 
- **数据库**: 
- **部署环境**: 
                ",
    [
    "网站的主要功能是什么？",
    "预期有多少用户使用？",
    "需要支持哪些浏览器？",
    "是否需要移动端适配？",
    "有什么特殊的安全要求？"],
    [
    "企业官网",
    "在线商城",
    "内容管理系统",
    "社交平台"],
    [
    "响应式设计",
    "SEO优化",
    "安全性设计",
    "用户体验优化"])

  /** `get_requirement_template`: only the "web_app" key has a template. */
  function GetRequirementTemplate(category: string): (r: Option<RequirementTemplate>)
    ensures r.Some? <==> category == "web_app"
    ensures r.Some? ==> r.value == WebAppTemplate
  {
    if category == "web_app" then Some(WebAppTemplate) else None
  }
}
