/** `agents/review_agent.py`: the review request, the three-stage parse of
    the model's answer, and the highlighting of issue keywords in the
    requirement text. `json.loads` is a parameter (`Loads`). */
module ReviewAgent {
  import opened Wrappers
  import opened Text
  import LlmService

  const SystemPrompt: string := @"You are a senior requirements review expert. You need to review requirement documents according to software engineering best practices, identify potential issues and provide improvement suggestions.

Review focus:
1. Clarity and completeness of requirements
2. Testability and implementability
3. Consistency and unambiguity
4. Consideration of non-functional requirements
5. User experience and usability
6. Technical feasibility
7. Risk identification

Output format requirements:
- Return results in JSON format
- Include issues array, each issue contains:
  - type: ""error"" | ""warning"" | ""suggestion""
  - text: Issue description
  - location: Location description in the original text
  - suggestion: Improvement suggestion
- Include summary field for overall evaluation
- Include score field with quality rating from 1-10

Please conduct the review and provide feedback in English. Ensure the returned JSON format is correct."

  const PromptLead: string := "Please review the following requirement document:\n\n"
  const ReviewInstruction: string :=
    "Based on software engineering best practices, identify issues and improvement points. Pay special attention to:\n"
    + "- Whether requirements are clear and specific\n"
    + "- Whether key information is missing\n"
    + "- Whether there are ambiguities or contradictions\n"
    + "- Whether non-functional requirements are sufficient\n"
    + "- Whether user experience is considered\n"
    + "\n"
    + "Please return the review results in JSON format."

  /** The prompt of `review_requirement`: the document quoted verbatim. */
  function ReviewPrompt(requirement: string): (p: string)
    ensures PromptLead + Quoted(requirement) <= p
    ensures p[|PromptLead| + |requirement| + 2..] == "\n\n" + ReviewInstruction
  {
    var head := PromptLead + Quoted(requirement);
    var p := head + ("\n\n" + ReviewInstruction);
    assert p[..|head|] == head;
    p
  }

  /** A value `json.loads` returns. */
  datatype Json =
    | JNull
    | JBool(b: bool)
    | JNum(n: real)
    | JStr(s: string)
    | JArr(items: seq<Json>)
    | JObj(fields: map<string, Json>)

  /** `json.loads`: the parsed value, or `None` where it raises. */
  type Loads = string -> Option<Json>

  /** `obj[key]` on a parsed object, `None` when absent or not an object. */
  function Field(j: Json, key: string): Option<Json>
  {
    if j.JObj? && key in j.fields then Some(j.fields[key]) else None
  }

  const ParseFailedText: string := "Review result parsing failed, please check original review content"
  const ParseFailedSuggestion: string := "Please conduct review again"

  /** `_create_fallback_result`: exactly one warning issue located "Overall",
      the raw review text as the summary, and score 5. */
  function FallbackResult(reviewText: string): (r: Json)
    ensures Field(r, "summary") == Some(JStr(reviewText))
    ensures Field(r, "score") == Some(JNum(5.0))
    ensures Field(r, "issues").Some? && Field(r, "issues").value.JArr?
    ensures var issues := Field(r, "issues").value.items;
      && |issues| == 1
      && Field(issues[0], "type") == Some(JStr("warning"))
      && Field(issues[0], "location") == Some(JStr("Overall"))
      && Field(issues[0], "text") == Some(JStr(ParseFailedText))
      && Field(issues[0], "suggestion") == Some(JStr(ParseFailedSuggestion))
  {
    var issue := JObj(map[
      "type" := JStr("warning"),
      "text" := JStr(ParseFailedText),
      "location" := JStr("Overall"),
      "suggestion" := JStr(ParseFailedSuggestion)]);
    JObj(map["issues" := JArr([issue]), "summary" := JStr(reviewText), "score" := JNum(5.0)])
  }

  /** The first index of `c` in `s`, or -1. */
  function FirstIndexOf(s: string, c: char): (r: int)
    ensures r == -1 <==> c !in s
    ensures r != -1 ==> 0 <= r < |s| && s[r] == c && forall k :: 0 <= k < r ==> s[k] != c
    decreases |s|
  {
    if s == [] then -1
    else if s[0] == c then 0
    else
      var i := FirstIndexOf(s[1..], c);
      if i == -1 then -1 else i + 1
  }

  /** The last index of `c` in `s`, or -1. */
  function LastIndexOf(s: string, c: char): (r: int)
    ensures r == -1 <==> c !in s
    ensures r != -1 ==> 0 <= r < |s| && s[r] == c && forall k :: r < k < |s| ==> s[k] != c
    decreases |s|
  {
    if s == [] then -1
    else if s[|s| - 1] == c then |s| - 1
    else LastIndexOf(s[..|s| - 1], c)
  }

  /** The match of `re.search(r'\{.*\}', s, re.DOTALL)`: the span from the
      first `{` to the last `}`, present exactly when some `{` precedes
      some `}`. */
  function BraceSpan(s: string): (r: Option<string>)
    ensures r.Some? <==> exists i, j :: 0 <= i < j < |s| && s[i] == '{' && s[j] == '}'
    ensures r.Some? ==>
              exists i, j :: 0 <= i < j < |s| && r.value == s[i..j + 1]
                && s[i] == '{' && s[j] == '}'
                && (forall k :: 0 <= k < i ==> s[k] != '{')
                && (forall k :: j < k < |s| ==> s[k] != '}')
  {
    var i := FirstIndexOf(s, '{');
    var j := LastIndexOf(s, '}');
    if i != -1 && i < j then Some(s[i..j + 1])
    else None
  }

  /** A JSON object wrapped in prose that holds no `{` before it and no `}`
      after it is cut out exactly. */
  lemma BraceSpanOfWrapped(pre: string, body: string, post: string)
    requires '{' !in pre && '}' !in post
    requires |body| >= 2 && body[0] == '{' && body[|body| - 1] == '}'
    ensures BraceSpan(pre + body + post) == Some(body)
  {
    var s := pre + body + post;
    var i := FirstIndexOf(s, '{');
    var j := LastIndexOf(s, '}');
    assert s[|pre|] == '{';
    assert s[|pre| + |body| - 1] == '}';
    assert s[i..j + 1] == body;
  }

  /** The parse chain of `review_requirement`: the whole answer, else the
      brace span, else the fallback record. */
  function ParseReview(loads: Loads, reviewText: string): (r: Json)
    ensures loads(reviewText).Some? ==> r == loads(reviewText).value
    ensures loads(reviewText).None? && BraceSpan(reviewText).Some? && loads(BraceSpan(reviewText).value).Some? ==>
              r == loads(BraceSpan(reviewText).value).value
    ensures loads(reviewText).None? && (BraceSpan(reviewText).None? || loads(BraceSpan(reviewText).value).None?) ==>
              r == FallbackResult(reviewText)
  {
    match loads(reviewText)
    case Some(parsed) => parsed
    case None =>
      match BraceSpan(reviewText)
      case None => FallbackResult(reviewText)
      case Some(span) =>
        match loads(span)
        case Some(parsed) => parsed
        case None => FallbackResult(reviewText)
  }

  /** An answer that is a JSON object wrapped in prose (for instance a fenced
      code block) is parsed from the object alone. */
  lemma ParseReviewOfWrapped(loads: Loads, pre: string, body: string, post: string)
    requires '{' !in pre && '}' !in post
    requires |body| >= 2 && body[0] == '{' && body[|body| - 1] == '}'
    requires loads(pre + body + post).None? && loads(body).Some?
    ensures ParseReview(loads, pre + body + post) == loads(body).value
  {
    BraceSpanOfWrapped(pre, body, post);
  }

  /** The dictionary `review_requirement` returns (the fixed timestamp left out). */
  datatype ReviewOutcome =
    | Reviewed(requirement: string, review: Json)
    | ReviewFailed(error: string)

  /** `review_requirement`: success exactly when the completion returns, with
      the requirement echoed and the parsed answer unvalidated; an exception
      becomes its message. */
  function ReviewRequirement(llm: LlmService.Completion, loads: Loads, requirement: string, model: string): (r: ReviewOutcome)
    ensures var c := llm(ReviewPrompt(requirement), model, SystemPrompt);
      && (r.Reviewed? <==> c.Ok?)
      && (r.Reviewed? ==> r.requirement == requirement && r.review == ParseReview(loads, c.value))
      && (r.ReviewFailed? ==> r.error == c.error)
  {
    match llm(ReviewPrompt(requirement), model, SystemPrompt)
    case Ok(text) => Reviewed(requirement, ParseReview(loads, text))
    case Err(e) => ReviewFailed(e)
  }

  // ---------------------------------------------------------------------
  // Keywords and highlighting

  const CommonWords: seq<string> := [
    "requirement",
    "function",
    "user",
    "system",
    "interface",
    "performance",
    "security",
    "test",
    "acceptance",
    "criteria"]

  /** No whitelist word is listed twice. */
  lemma CommonWordsDistinct()
    ensures forall a, b :: 0 <= a < b < |CommonWords| ==> CommonWords[a] != CommonWords[b]
  {
  }

  /** `x` comes before `y` in `words`. */
  predicate Before(words: seq<string>, x: string, y: string)
  {
    exists a, b :: 0 <= a < b < |words| && words[a] == x && words[b] == y
  }

  /** An order in the tail of `words` is an order in `words`. */
  lemma BeforeInTail(words: seq<string>, x: string, y: string)
    requires words != [] && Before(words[1..], x, y)
    ensures Before(words, x, y)
  {
    var a, b :| 0 <= a < b < |words[1..]| && words[1..][a] == x && words[1..][b] == y;
    assert words[a + 1] == x && words[b + 1] == y;
  }

  /** The first word comes before every word of the tail. */
  lemma HeadBefore(words: seq<string>, y: string)
    requires words != [] && y in words[1..]
    ensures Before(words, words[0], y)
  {
    var b :| 0 <= b < |words[1..]| && words[1..][b] == y;
    assert words[b + 1] == y;
  }

  /** Every earlier entry of `r` comes before every later one in `words`. */
  predicate InWordOrder(words: seq<string>, r: seq<string>)
  {
    forall i, j :: 0 <= i < j < |r| ==> Before(words, r[i], r[j])
  }

  /** The words of `words` contained in `l`, in the order of `words`. */
  function ContainedWords(words: seq<string>, l: string): (r: seq<string>)
    requires forall a, b :: 0 <= a < b < |words| ==> words[a] != words[b]
    ensures forall w :: w in r <==> w in words && Contains(l, w)
    ensures forall i, j :: 0 <= i < j < |r| ==> r[i] != r[j]
    decreases |words|
  {
    if words == [] then []
    else
      var rest := ContainedWords(words[1..], l);
      if Contains(l, words[0]) then [words[0]] + rest else rest
  }

  /** The contained words keep the order they have in `words`. */
  lemma {:induction false} ContainedWordsInOrder(words: seq<string>, l: string)
    requires forall a, b :: 0 <= a < b < |words| ==> words[a] != words[b]
    ensures InWordOrder(words, ContainedWords(words, l))
    decreases |words|
  {
    if words != [] {
      var rest := ContainedWords(words[1..], l);
      ContainedWordsInOrder(words[1..], l);
      var r := ContainedWords(words, l);
      forall i, j | 0 <= i < j < |r| ensures Before(words, r[i], r[j]) {
        if Contains(l, words[0]) {
          assert r == [words[0]] + rest;
          assert r[j] == rest[j - 1] && r[j] in words[1..];
          if i == 0 {
            HeadBefore(words, r[j]);
          } else {
            assert r[i] == rest[i - 1];
            BeforeInTail(words, r[i], r[j]);
          }
        } else {
          assert r == rest;
          BeforeInTail(words, r[i], r[j]);
        }
      }
    }
  }

  /** `_extract_keywords`: the whitelist words contained in the lower-cased
      issue text, in whitelist order and without repetition. */
  function ExtractKeywords(issueText: string): (r: seq<string>)
    ensures forall w :: w in r <==> w in CommonWords && Contains(ToLower(issueText), w)
    ensures forall i, j :: 0 <= i < j < |r| ==> r[i] != r[j]
    ensures forall i, j :: 0 <= i < j < |r| ==> Before(CommonWords, r[i], r[j])
  {
    CommonWordsDistinct();
    ContainedWordsInOrder(CommonWords, ToLower(issueText));
    ContainedWords(CommonWords, ToLower(issueText))
  }

  /** One issue as `highlight_issues` reads it. */
  datatype Issue = Issue(kind: string, text: string, suggestion: string)

  /** The issue kinds that are highlighted. */
  predicate Highlights(issue: Issue)
  {
    issue.kind == "error" || issue.kind == "warning"
  }

  const MarkOpen: string := "<mark style=\"background-color: #fef3c7; padding: 2px 4px; border-radius: 3px;\" title=\""

  /** The marked-up form of one keyword. */
  function MarkPattern(suggestion: string, keyword: string): (m: string)
    ensures |m| > |keyword|
  {
    MarkOpen + suggestion + "\">" + keyword + "</mark>"
  }

  /** One keyword step: the first case-sensitive occurrence is wrapped, and
      an absent keyword changes nothing. */
  function MarkStep(text: string, keyword: string, suggestion: string): (r: string)
    ensures !Contains(text, keyword) ==> r == text
    ensures Contains(text, keyword) ==>
              var i := Find(text, keyword);
              r == text[..i] + MarkPattern(suggestion, keyword) + text[i + |keyword|..]
    ensures |r| >= |text|
  {
    if Contains(text, keyword) then ReplaceFirst(text, keyword, MarkPattern(suggestion, keyword)) else text
  }

  /** The keyword steps of one issue, in keyword order. */
  function MarkAll(text: string, keywords: seq<string>, suggestion: string): string
    decreases |keywords|
  {
    if keywords == [] then text
    else MarkAll(MarkStep(text, keywords[0], suggestion), keywords[1..], suggestion)
  }

  /** The effect of one issue on the text. */
  function HighlightOne(text: string, issue: Issue): string
  {
    if Highlights(issue) then MarkAll(text, ExtractKeywords(issue.text), issue.suggestion) else text
  }

  /** `highlight_issues` as a value: the issues' effects in list order. */
  function Highlighted(text: string, issues: seq<Issue>): string
    decreases |issues|
  {
    if issues == [] then text else Highlighted(HighlightOne(text, issues[0]), issues[1..])
  }

  /** `highlight_issues`: the loop over issues and, for a highlighted one,
      over its keywords, rewriting the text one step at a time. */
  method HighlightIssues(requirement: string, issues: seq<Issue>) returns (highlightedText: string)
    ensures highlightedText == Highlighted(requirement, issues)
  {
    highlightedText := requirement;
    var i := 0;
    while i < |issues|
      invariant 0 <= i <= |issues|
      invariant Highlighted(highlightedText, issues[i..]) == Highlighted(requirement, issues)
    {
      var issue := issues[i];
      ghost var before := highlightedText;
      if issue.kind == "error" || issue.kind == "warning" {
        var keywords := ExtractKeywords(issue.text);
        var k := 0;
        while k < |keywords|
          invariant 0 <= k <= |keywords|
          invariant MarkAll(highlightedText, keywords[k..], issue.suggestion) == MarkAll(before, keywords, issue.suggestion)
        {
          var keyword := keywords[k];
          ghost var prev := highlightedText;
          if Contains(highlightedText, keyword) {
            var highlightedPattern := MarkPattern(issue.suggestion, keyword);
            highlightedText := ReplaceFirst(highlightedText, keyword, highlightedPattern);
          }
          assert highlightedText == MarkStep(prev, keyword, issue.suggestion);
          assert keywords[k..][1..] == keywords[k + 1..];
          k := k + 1;
        }
      }
      assert highlightedText == HighlightOne(before, issue);
      assert issues[i..][0] == issue && issues[i..][1..] == issues[i + 1..];
      assert Highlighted(before, issues[i..]) == Highlighted(highlightedText, issues[i + 1..]);
      i := i + 1;
    }
  }

  /** Keyword steps never shorten the text. */
  lemma {:induction false} MarkAllGrows(text: string, keywords: seq<string>, suggestion: string)
    ensures |MarkAll(text, keywords, suggestion)| >= |text|
    decreases |keywords|
  {
    if keywords != [] {
      MarkAllGrows(MarkStep(text, keywords[0], suggestion), keywords[1..], suggestion);
    }
  }

  /** Highlighting never shortens the requirement text. */
  lemma {:induction false} HighlightedGrows(text: string, issues: seq<Issue>)
    ensures |Highlighted(text, issues)| >= |text|
    decreases |issues|
  {
    if issues != [] {
      if Highlights(issues[0]) {
        MarkAllGrows(text, ExtractKeywords(issues[0].text), issues[0].suggestion);
      }
      HighlightedGrows(HighlightOne(text, issues[0]), issues[1..]);
    }
  }

  /** Issues that are neither errors nor warnings never change the text:
      without such issues, highlighting is the identity. */
  lemma {:induction false} HighlightedIdentity(text: string, issues: seq<Issue>)
    requires forall k :: 0 <= k < |issues| ==> !Highlights(issues[k])
    ensures Highlighted(text, issues) == text
    decreases |issues|
  {
    if issues != [] {
      HighlightedIdentity(text, issues[1..]);
    }
  }

  /** A text holding none of an issue's keywords is left as it is. */
  lemma {:induction false} MarkAllAbsent(text: string, keywords: seq<string>, suggestion: string)
    requires forall k :: 0 <= k < |keywords| ==> !Contains(text, keywords[k])
    ensures MarkAll(text, keywords, suggestion) == text
    decreases |keywords|
  {
    if keywords != [] {
      MarkAllAbsent(text, keywords[1..], suggestion);
    }
  }
}
