/** `main.py`: the multi-session state kept in `st.session_state` and the
    phase transitions the page handlers perform on the current session.
    Rendering is left out; each handler is a method whose arguments are what
    the user typed or clicked and the capabilities it calls. */
module Workflow {
  import opened Wrappers
  import opened Text
  import LlmService
  import RequirementAgent
  import EnhancedRequirementAgent
  import ReviewAgent
  import KnowledgeBase

  /** The three phases of a session, in workflow order. */
  datatype Phase = Input | Enhance | Review

  /** One session dictionary. `kb_suggestions` is added only once the
      knowledge base contributed suggestions, hence optional. */
  datatype Session = Session(
    id: string,
    title: string,
    createdAt: real,
    phase: Phase,
    originalRequirement: string,
    enhancedRequirement: string,
    chatHistory: seq<LlmService.ChatMessage>,
    reviewResult: Option<ReviewAgent.ReviewOutcome>,
    kbSuggestions: Option<seq<string>>)

  /** A key and value that the handlers pass to `update_session_data`. */
  datatype SessionField =
    | Title(title: string)
    | CurrentPhase(phase: Phase)
    | OriginalRequirement(text: string)
    | EnhancedRequirement(text: string)
    | ChatHistory(history: seq<LlmService.ChatMessage>)
    | ReviewResult(result: Option<ReviewAgent.ReviewOutcome>)
    | KbSuggestions(suggestions: seq<string>)

  /** The session with one key set to a new value and every other key kept. */
  function WithField(s: Session, f: SessionField): Session
  {
    match f
    case Title(t) => s.(title := t)
    case CurrentPhase(p) => s.(phase := p)
    case OriginalRequirement(t) => s.(originalRequirement := t)
    case EnhancedRequirement(t) => s.(enhancedRequirement := t)
    case ChatHistory(h) => s.(chatHistory := h)
    case ReviewResult(r) => s.(reviewResult := r)
    case KbSuggestions(k) => s.(kbSuggestions := Some(k))
  }

  const SessionIdPrefix: string := "session_"

  /** `f"session_{n}"`. */
  function SessionId(n: nat): string
  {
    SessionIdPrefix + NatToString(n)
  }

  /** Every session id starts with the prefix and so is never empty. */
  lemma SessionIdShape(n: nat)
    ensures SessionIdPrefix <= SessionId(n) && SessionId(n) != ""
  {
    assert SessionId(n)[..|SessionIdPrefix|] == SessionIdPrefix;
  }

  /** Equal session ids come from equal counter values. */
  lemma SessionIdInjective(a: nat, b: nat)
    requires SessionId(a) == SessionId(b)
    ensures a == b
  {
    var n := |SessionIdPrefix|;
    assert NatToString(a) == SessionId(a)[n..];
    assert NatToString(b) == SessionId(b)[n..];
    NatToStringInjective(a, b);
  }

  /** The same fact read the other way: a new counter value gives a new id. */
  lemma SessionIdDistinct(a: nat, b: nat)
    requires a != b
    ensures SessionId(a) != SessionId(b)
  {
    if SessionId(a) == SessionId(b) {
      SessionIdInjective(a, b);
      assert false;
    }
  }

  /** The dictionary `create_new_session` inserts for counter value `n`. */
  function NewSession(n: nat, title: Option<string>, now: real): (s: Session)
    ensures s.id == SessionId(n) && s.phase == Input && s.createdAt == now
    ensures s.originalRequirement == "" && s.enhancedRequirement == ""
    ensures s.chatHistory == [] && s.reviewResult.None? && s.kbSuggestions.None?
    ensures title.Some? ==> s.title == title.value
    ensures title.None? ==> s.title == "New Session " + NatToString(n)
  {
    var t := if title.Some? then title.value else "New Session " + NatToString(n);
    Session(SessionId(n), t, now, Input, "", "", [], None, None)
  }

  /** `order` without `id`. */
  function Without(order: seq<string>, id: string): (r: seq<string>)
    ensures forall x :: x in r <==> x in order && x != id
    ensures (forall i, j :: 0 <= i < j < |order| ==> order[i] != order[j]) ==>
              forall i, j :: 0 <= i < j < |r| ==> r[i] != r[j]
    ensures order != [] && order[0] != id ==> r != [] && r[0] == order[0]
    decreases |order|
  {
    if order == [] then []
    else if order[0] == id then Without(order[1..], id)
    else
      var rest := Without(order[1..], id);
      assert forall x :: x in rest ==> x in order[1..];
      assert (forall i, j :: 0 <= i < j < |order| ==> order[i] != order[j]) ==>
        && (forall i, j :: 0 <= i < j < |order[1..]| ==> order[1..][i] != order[1..][j])
        && order[0] !in order[1..];
      [order[0]] + rest
  }

  // ---------------------------------------------------------------------
  // Pure display mappings

  /** The sidebar title: longer titles are cut to 22 characters and "...". */
  function DisplayTitle(title: string): (r: string)
    ensures |r| <= 25
    ensures |title| <= 25 ==> r == title
    ensures |title| > 25 ==> r == title[..22] + "..."
  {
    if |title| > 25 then title[..22] + "..." else title
  }

  /** The position of a phase in the workflow. */
  function Rank(p: Phase): nat
  {
    match p
    case Input => 0
    case Enhance => 1
    case Review => 2
  }

  datatype PhaseStatus = Current | Complete | Pending

  /** The phase tracker's class for item `item` while the session is in `phase`. */
  function PhaseStatusOf(item: Phase, phase: Phase): (r: PhaseStatus)
    ensures r == Current <==> Rank(item) == Rank(phase)
    ensures r == Complete <==> Rank(item) < Rank(phase)
    ensures r == Pending <==> Rank(item) > Rank(phase)
  {
    if item == phase then Current
    else if (item == Enhance && phase == Review) || (item == Input && (phase == Enhance || phase == Review)) then Complete
    else Pending
  }

  datatype ScoreBand = Excellent | Good | Fair | Poor

  /** The colour band of a completeness score. */
  function ScoreClass(score: int): (r: ScoreBand)
    ensures r == Excellent <==> score >= 8
    ensures r == Good <==> 6 <= score < 8
    ensures r == Fair <==> 4 <= score < 6
    ensures r == Poor <==> score < 4
  {
    if score >= 8 then Excellent else if score >= 6 then Good else if score >= 4 then Fair else Poor
  }

  /** A completeness score lies in [5, 10], so it is never shown as poor. */
  lemma CompletenessNeverPoor(text: string)
    ensures ScoreClass(5 + EnhancedRequirementAgent.SatisfiedCriteria(text)) != Poor
  {
  }

  /** The title the Analyze handler gives a session: the text when it has at
      most 30 characters, else its first 30 and "...". */
  function AnalyzedTitle(t: string): (r: string)
    ensures |t| <= 30 ==> r == t
    ensures |t| > 30 ==> |r| == 33 && r[..30] == t[..30] && r[30..] == "..."
  {
    var r := Take(t, 30) + (if |t| > 30 then "..." else "");
    assert |t| > 30 ==> r[30..] == "...";
    r
  }

  /** `"- x\n"` for every item, concatenated. */
  function BulletLines(items: seq<string>): string
    decreases |items|
  {
    if items == [] then "" else BulletLines(items[..|items| - 1]) + "- " + items[|items| - 1] + "\n"
  }

  /** Every item appears as a bullet line. */
  lemma {:induction false} BulletLinesContain(items: seq<string>, k: nat)
    requires k < |items|
    ensures Contains(BulletLines(items), "- " + items[k] + "\n")
    decreases |items|
  {
    var init := items[..|items| - 1];
    var line := "- " + items[k] + "\n";
    if k == |items| - 1 {
      assert BulletLines(items) == BulletLines(init) + line;
      ContainsMiddle(BulletLines(init), line, "");
      assert BulletLines(init) + line + "" == BulletLines(init) + line;
    } else {
      assert init[k] == items[k];
      BulletLinesContain(init, k);
      ContainsExtended(BulletLines(init), "- " + items[|items| - 1] + "\n", line);
      assert BulletLines(items) == BulletLines(init) + ("- " + items[|items| - 1] + "\n");
    }
  }

  /** The `for` loops that append `"- x\n"` for each suggestion. */
  method AppendBulletLines(text: string, items: seq<string>) returns (r: string)
    ensures r == text + BulletLines(items)
  {
    r := text;
    for i := 0 to |items|
      invariant r == text + BulletLines(items[..i])
    {
      assert items[..i + 1][..i] == items[..i];
      r := r + "- " + items[i] + "\n";
    }
    assert items[..|items|] == items;
  }

  const KbInsightsHeading: string := "\n\n**🧠 Knowledge Base Insights:**\n"
  const AdditionalInsightsHeading: string := "\n\n**💡 Additional Insights:**\n"

  /** The text appended to a reply for a list of suggestions: nothing for
      none, else the heading and one bullet line each. */
  function InsightsText(heading: string, suggestions: seq<string>): string
  {
    if suggestions == [] then "" else heading + BulletLines(suggestions)
  }

  // ---------------------------------------------------------------------
  // Session effects of the handlers, as values

  /** The agent operations the page calls; `Wired` plugs in the agent modules. */
  datatype Agents = Agents(
    enhanceWithKb: (string, string) -> EnhancedRequirementAgent.KbEnhanceResult,
    enhance: (string, string) -> RequirementAgent.EnhanceResult,
    clarifyWithKb: (string, string, string) -> EnhancedRequirementAgent.KbClarifyResult,
    clarify: (string, string, string) -> RequirementAgent.ClarifyResult,
    review: (string, string) -> ReviewAgent.ReviewOutcome)

  /** The agents of the running page: the knowledge-augmented agent and the
      plain agent over the same completion service, and the review agent. */
  function Wired(svc: EnhancedRequirementAgent.Services, loads: ReviewAgent.Loads): Agents
  {
    Agents(
      (u, m) => EnhancedRequirementAgent.EnhanceRequirementWithKb(svc, u, m),
      (u, m) => RequirementAgent.EnhanceRequirement(svc.llm, u, m),
      (r, q, m) => EnhancedRequirementAgent.ClarifyRequirementWithKb(svc, r, q, m),
      (r, q, m) => RequirementAgent.ClarifyRequirement(svc.llm, r, q, m),
      (r, m) => ReviewAgent.ReviewRequirement(svc.llm, loads, r, m))
  }

  /** The Analyze button: stores the stripped requirement, moves to enhance
      and derives the title, as three updates. */
  function Analyzed(s: Session, t: string): Session
  {
    WithField(WithField(WithField(s, OriginalRequirement(t)), CurrentPhase(Enhance)), Title(AnalyzedTitle(t)))
  }

  /** The first turn of the enhance phase when the history is empty: the
      knowledge-augmented agent, else the plain agent, else no change. */
  function Enhanced(s: Session, agents: Agents, model: string): Session
  {
    if s.chatHistory != [] then s
    else
      var orig := s.originalRequirement;
      var r := agents.enhanceWithKb(orig, model);
      if r.KbEnhanced? then
        var history := [
          LlmService.ChatMessage("user", "**Original requirement:** " + orig),
          LlmService.ChatMessage("assistant", r.enhancedRequirement + InsightsText(KbInsightsHeading, r.kbSuggestions))];
        var t := WithField(WithField(s, ChatHistory(history)), EnhancedRequirement(r.enhancedRequirement));
        if r.kbSuggestions != [] then WithField(t, KbSuggestions(r.kbSuggestions)) else t
      else
        match agents.enhance(orig, model)
        case Enhanced(_, text) =>
          var history := [
            LlmService.ChatMessage("user", "Original requirement: " + orig),
            LlmService.ChatMessage("assistant", text)];
          WithField(WithField(s, ChatHistory(history)), EnhancedRequirement(text))
        case EnhanceFailed(_) => s
  }

  /** One clarification turn with the stripped question `q`: the user message
      first, then the reply of the knowledge-augmented agent or of the plain
      agent, if either succeeds. */
  function Clarified(s: Session, agents: Agents, q: string, model: string): Session
  {
    var history := s.chatHistory + [LlmService.ChatMessage("user", q)];
    var asked := WithField(s, ChatHistory(history));
    var r := agents.clarifyWithKb(s.enhancedRequirement, q, model);
    if r.KbClarified? then
      var reply := r.clarifiedRequirement + InsightsText(AdditionalInsightsHeading, r.additionalSuggestions);
      WithField(WithField(asked, ChatHistory(history + [LlmService.ChatMessage("assistant", reply)])),
                EnhancedRequirement(r.clarifiedRequirement))
    else
      match agents.clarify(s.enhancedRequirement, q, model)
      case Clarified(text) =>
        WithField(WithField(asked, ChatHistory(history + [LlmService.ChatMessage("assistant", text)])),
                  EnhancedRequirement(text))
      case ClarifyFailed(_) => asked
  }

  /** A clarification turn appends the user message and, unless both agents
      fail, one assistant reply; the enhanced requirement becomes the reply's
      requirement text; nothing else changes. */
  lemma ClarificationTurn(s: Session, agents: Agents, q: string, model: string)
    ensures var t := Clarified(s, agents, q, model);
      var kb := agents.clarifyWithKb(s.enhancedRequirement, q, model);
      var plain := agents.clarify(s.enhancedRequirement, q, model);
      && t.chatHistory[..|s.chatHistory| + 1] == s.chatHistory + [LlmService.ChatMessage("user", q)]
      && (|t.chatHistory| == |s.chatHistory| + 1 <==> kb.KbClarifyFailed? && plain.ClarifyFailed?)
      && (|t.chatHistory| == |s.chatHistory| + 1 || |t.chatHistory| == |s.chatHistory| + 2)
      && (kb.KbClarified? ==>
            && t.enhancedRequirement == kb.clarifiedRequirement
            && t.chatHistory[|s.chatHistory| + 1].role == "assistant"
            && kb.clarifiedRequirement <= t.chatHistory[|s.chatHistory| + 1].content)
      && (kb.KbClarifyFailed? && plain.Clarified? ==>
            && t.enhancedRequirement == plain.clarifiedRequirement
            && t.chatHistory[|s.chatHistory| + 1] == LlmService.ChatMessage("assistant", plain.clarifiedRequirement))
      && (kb.KbClarifyFailed? && plain.ClarifyFailed? ==> t.enhancedRequirement == s.enhancedRequirement)
      && t.phase == s.phase && t.reviewResult == s.reviewResult && t.id == s.id
      && t.originalRequirement == s.originalRequirement && t.title == s.title
  {
    var history := s.chatHistory + [LlmService.ChatMessage("user", q)];
    var t := Clarified(s, agents, q, model);
    assert t.chatHistory[..|history|] == history;
  }

  /** The first enhance turn fills an empty history with exactly two
      messages, user then assistant, when either agent succeeds, and never
      touches the phase, the review or the original requirement. */
  lemma FirstEnhanceTurn(s: Session, agents: Agents, model: string)
    ensures var t := Enhanced(s, agents, model);
      var orig := s.originalRequirement;
      var kb := agents.enhanceWithKb(orig, model);
      var plain := agents.enhance(orig, model);
      && t.phase == s.phase && t.reviewResult == s.reviewResult && t.id == s.id
      && t.originalRequirement == s.originalRequirement && t.title == s.title
      && (s.chatHistory != [] ==> t == s)
      && (s.chatHistory == [] && kb.KbEnhanced? ==>
            && t.enhancedRequirement == kb.enhancedRequirement
            && |t.chatHistory| == 2
            && t.chatHistory[0] == LlmService.ChatMessage("user", "**Original requirement:** " + orig)
            && t.chatHistory[1].role == "assistant"
            && kb.enhancedRequirement <= t.chatHistory[1].content
            && t.kbSuggestions == (if kb.kbSuggestions != [] then Some(kb.kbSuggestions) else s.kbSuggestions))
      && (s.chatHistory == [] && kb.KbEnhanceFailed? && plain.Enhanced? ==>
            && t.enhancedRequirement == plain.enhancedRequirement
            && t.chatHistory == [LlmService.ChatMessage("user", "Original requirement: " + orig),
                                 LlmService.ChatMessage("assistant", plain.enhancedRequirement)])
      && (s.chatHistory == [] && kb.KbEnhanceFailed? && plain.EnhanceFailed? ==> t == s)
  {
    var kb := agents.enhanceWithKb(s.originalRequirement, model);
    if s.chatHistory == [] && kb.KbEnhanced? {
      var e := kb.enhancedRequirement;
      var extra := InsightsText(KbInsightsHeading, kb.kbSuggestions);
      assert (e + extra)[..|e|] == e;
    }
  }

  /** Neither handler turn touches the id, the phase or the review. */
  lemma TurnsKeepPhase(s: Session, agents: Agents, q: string, model: string)
    ensures var t := Enhanced(s, agents, model);
      t.id == s.id && t.phase == s.phase && t.reviewResult == s.reviewResult
    ensures var t := Clarified(s, agents, q, model);
      t.id == s.id && t.phase == s.phase && t.reviewResult == s.reviewResult
  {
  }

  /** In demo mode the first enhance turn always succeeds with the demo
      document, so the Review button then moves the session on. */
  lemma DemoFirstTurnEnablesReview(
    s: Session, kb: KnowledgeBase.KbService, aquery: KnowledgeBase.RagQuery,
    llm: LlmService.Service, loads: ReviewAgent.Loads, model: string)
    requires s.chatHistory == []
    requires LlmService.SelectedModel(model, llm.defaultModel) == "demo"
    ensures var t := Enhanced(s, Wired(EnhancedRequirementAgent.Services(kb, aquery, LlmService.AsCompletion(llm)), loads), model);
      && t.enhancedRequirement == LlmService.DemoEnhancedDocument
      && |t.chatHistory| == 2
      && t.enhancedRequirement != ""
  {
    var svc := EnhancedRequirementAgent.Services(kb, aquery, LlmService.AsCompletion(llm));
    var agents := Wired(svc, loads);
    EnhancedRequirementAgent.DemoEnhancementYieldsDocument(kb, aquery, llm, s.originalRequirement, model);
    assert agents.enhanceWithKb(s.originalRequirement, model)
        == EnhancedRequirementAgent.EnhanceRequirementWithKb(svc, s.originalRequirement, model);
    FirstEnhanceTurn(s, agents, model);
    LlmService.DemoDocumentNotEmpty();
  }

  // ---------------------------------------------------------------------
  // The session state

  /** The dictionary's keys are the ordered keys without repetition, every
      session is stored under its own id, no id is empty, no id the counter
      will still hand out is taken, and the current id, when set, names a
      session. */
  ghost predicate ValidStore(sessions: map<string, Session>, order: seq<string>, counter: nat, currentId: Option<string>)
  {
    && (forall id :: id in sessions <==> id in order)
    && (forall i, j :: 0 <= i < j < |order| ==> order[i] != order[j])
    && (forall id :: id in sessions ==> sessions[id].id == id)
    && "" !in sessions
    && (forall n: nat :: n > counter ==> SessionId(n) !in sessions)
    && (currentId.Some? ==> currentId.value in sessions)
  }

  /** Inserting the session of the next id last keeps the store valid, with
      the counter advanced and the new id current. */
  lemma InsertKeepsValid(sessions: map<string, Session>, order: seq<string>, counter: nat, s: Session)
    requires ValidStore(sessions, order, counter, None)
    requires s.id == SessionId(counter + 1)
    ensures s.id !in sessions
    ensures ValidStore(sessions[s.id := s], order + [s.id], counter + 1, Some(s.id))
  {
    SessionIdShape(counter + 1);
    var m := sessions[s.id := s];
    forall n: nat | n > counter + 1 ensures SessionId(n) !in m {
      SessionIdDistinct(n, counter + 1);
    }
  }

  /** Storing a session under its own, present id keeps the store valid. */
  lemma ReplaceKeepsValid(sessions: map<string, Session>, order: seq<string>, counter: nat, currentId: Option<string>, id: string, s: Session)
    requires ValidStore(sessions, order, counter, currentId)
    requires id in sessions && s.id == id
    ensures ValidStore(sessions[id := s], order, counter, currentId)
  {
  }

  /** Removing a present id from the dictionary and from the order keeps the
      store valid for any current id other than the removed one. */
  lemma RemoveKeepsValid(sessions: map<string, Session>, order: seq<string>, counter: nat, currentId: Option<string>, id: string)
    requires ValidStore(sessions, order, counter, None)
    requires currentId.Some? ==> currentId.value in sessions && currentId.value != id
    ensures ValidStore(sessions - {id}, Without(order, id), counter, currentId)
  {
  }

  /** Storing twice under one key keeps only the second value. */
  lemma UpdateTwice(m: map<string, Session>, k: string, a: Session, b: Session)
    ensures m[k := a][k := b] == m[k := b]
  {
  }

  /** Removing a session keeps the others' reviews in place. */
  lemma RemoveKeepsReviews(sessions: map<string, Session>, id: string)
    requires ReviewsInPlace(sessions)
    ensures ReviewsInPlace(sessions - {id})
  {
  }

  /** Storing the value already present changes nothing. */
  lemma UpdateSame(m: map<string, Session>, k: string)
    requires k in m
    ensures m[k := m[k]] == m
  {
  }

  /** The order is empty exactly when the dictionary is, and otherwise its
      first entry is a key. */
  lemma OrderMatchesKeys(sessions: map<string, Session>, order: seq<string>, counter: nat)
    requires ValidStore(sessions, order, counter, None)
    ensures sessions == map[] <==> order == []
    ensures order != [] ==> order[0] in sessions
  {
    if order != [] {
      assert order[0] in order;
    }
    if sessions != map[] {
      var k :| k in sessions;
      assert k in order;
    }
  }

  /** A session keeps a review result only in the review phase. */
  predicate ReviewInPlace(s: Session)
  {
    s.reviewResult.Some? ==> s.phase == Review
  }

  /** Every stored session keeps its review result only in the review phase. */
  predicate ReviewsInPlace(sessions: map<string, Session>)
  {
    forall id :: id in sessions ==> ReviewInPlace(sessions[id])
  }

  /** Storing a session that keeps its review in place keeps all in place. */
  lemma ReplaceKeepsReviews(sessions: map<string, Session>, id: string, s: Session)
    requires ReviewsInPlace(sessions) && ReviewInPlace(s)
    ensures ReviewsInPlace(sessions[id := s])
  {
  }


  /** `st.session_state`: the session dictionary, its key insertion order,
      the id counter and the current session id. */
  class SessionState {
    var sessions: map<string, Session>
    var order: seq<string>
    var counter: nat
    var currentId: Option<string>

    /** The state is a valid store. */
    ghost predicate Wellformed()
      reads this
    {
      ValidStore(sessions, order, counter, currentId)
    }

    /** Wellformed with a current session, as after `initialize_session_state`. */
    ghost predicate Ready()
      reads this
    {
      Wellformed() && currentId.Some?
    }

    /** A review result is kept only in the review phase. */
    predicate ReviewOnlyInReview()
      reads this
    {
      ReviewsInPlace(sessions)
    }

    /** `get_current_session`: the current session when the id is set,
        non-empty and present. */
    function CurrentSession(): (r: Option<Session>)
      reads this
      ensures r.Some? <==> currentId.Some? && currentId.value != "" && currentId.value in sessions
      ensures r.Some? ==> r.value == sessions[currentId.value]
    {
      if currentId.Some? && currentId.value != "" && currentId.value in sessions then Some(sessions[currentId.value])
      else None
    }

    /** In a ready state there always is a current session. */
    lemma ReadyHasCurrent()
      requires Ready()
      ensures CurrentSession().Some?
    {
    }

    /** The current session is in phase `p`. */
    ghost predicate InPhase(p: Phase)
      reads this
    {
      Ready() && sessions[currentId.value].phase == p
    }

    /** The defaults `initialize_session_state` installs in a fresh session
        state: no sessions, no current id, counter 0. */
    constructor ()
      ensures sessions == map[] && order == [] && counter == 0 && currentId.None?
      ensures Wellformed() && ReviewOnlyInReview()
    {
      sessions := map[];
      order := [];
      counter := 0;
      currentId := None;
    }

    /** `create_new_session`: the counter goes up by one, a fresh id is
        inserted last with an empty session in the input phase, and it
        becomes current. */
    method CreateNewSession(title: Option<string>, now: real) returns (sessionId: string)
      requires ValidStore(sessions, order, counter, None)
      modifies this
      ensures Ready()
      ensures counter == old(counter) + 1
      ensures sessionId == SessionId(counter) && sessionId !in old(sessions)
      ensures sessions == old(sessions)[sessionId := NewSession(counter, title, now)]
      ensures order == old(order) + [sessionId]
      ensures currentId == Some(sessionId)
      ensures old(ReviewOnlyInReview()) ==> ReviewOnlyInReview()
    {
      counter := counter + 1;
      sessionId := SessionIdPrefix + NatToString(counter);
      var t := if title.None? then "New Session " + NatToString(counter) else title.value;
      sessions := sessions[sessionId := Session(sessionId, t, now, Input, "", "", [], None, None)];
      order := order + [sessionId];
      currentId := Some(sessionId);
      InsertKeepsValid(old(sessions), old(order), old(counter), NewSession(counter, title, now));
    }

    /** `initialize_session_state`: a session is created only when there
        is none and no current id; otherwise nothing changes. */
    method InitializeSessionState(now: real)
      requires Wellformed()
      modifies this
      ensures Wellformed()
      ensures old(sessions) == map[] && old(currentId).None? ==>
                counter == old(counter) + 1 && Ready()
                && sessions == map[SessionId(counter) := NewSession(counter, None, now)]
      ensures !(old(sessions) == map[] && old(currentId).None?) ==>
                sessions == old(sessions) && order == old(order) && counter == old(counter) && currentId == old(currentId)
      ensures old(ReviewOnlyInReview()) ==> ReviewOnlyInReview()
    {
      if sessions == map[] && currentId.None? {
        var _ := CreateNewSession(None, now);
      }
    }

    /** `update_session_data`: sets one key of the current session when
        there is one, and changes nothing otherwise. */
    method UpdateSessionData(field: SessionField)
      modifies this
      ensures order == old(order) && counter == old(counter) && currentId == old(currentId)
      ensures old(currentId.Some? && currentId.value != "" && currentId.value in sessions) ==>
                sessions == old(sessions)[currentId.value := WithField(old(sessions)[currentId.value], field)]
      ensures !old(currentId.Some? && currentId.value != "" && currentId.value in sessions) ==> sessions == old(sessions)
    {
      if currentId.Some? && currentId.value != "" && currentId.value in sessions {
        var id := currentId.value;
        sessions := sessions[id := WithField(sessions[id], field)];
      }
    }

    /** Every update keeps the state wellformed, and keeps reviews in the
        review phase unless it stores a review outside it. */
    lemma UpdateKeepsWellformed(s: Session)
      requires Wellformed() && CurrentSession().Some? && s.id == currentId.value
      ensures ValidStore(sessions[currentId.value := s], order, counter, currentId)
      ensures ReviewOnlyInReview() && ReviewInPlace(s) ==> ReviewsInPlace(sessions[currentId.value := s])
    {
      ReplaceKeepsValid(sessions, order, counter, currentId, currentId.value, s);
    }

    /** `switch_to_session`: only an existing id becomes current. */
    method SwitchToSession(sessionId: string)
      requires Wellformed()
      modifies this
      ensures Wellformed()
      ensures sessions == old(sessions) && order == old(order) && counter == old(counter)
      ensures sessionId in sessions ==> currentId == Some(sessionId)
      ensures sessionId !in sessions ==> currentId == old(currentId)
    {
      if sessionId in sessions {
        currentId := Some(sessionId);
      }
    }

    /** `delete_session`: an existing id is removed; when it was current,
        the first remaining key in insertion order becomes current, or a new
        session is created when none remains; an unknown id changes nothing. */
    method DeleteSession(sessionId: string, now: real)
      requires Wellformed()
      modifies this
      ensures Wellformed()
      ensures sessionId !in old(sessions) ==>
                sessions == old(sessions) && order == old(order) && counter == old(counter) && currentId == old(currentId)
      ensures sessionId in old(sessions) && old(currentId) != Some(sessionId) ==>
                sessions == old(sessions) - {sessionId} && order == Without(old(order), sessionId)
                && counter == old(counter) && currentId == old(currentId)
      ensures sessionId in old(sessions) && old(currentId) == Some(sessionId) && old(sessions) - {sessionId} != map[] ==>
                sessions == old(sessions) - {sessionId} && order == Without(old(order), sessionId)
                && counter == old(counter) && currentId == Some(order[0])
      ensures sessionId in old(sessions) && old(currentId) == Some(sessionId) && old(sessions) - {sessionId} == map[] ==>
                counter == old(counter) + 1 && order == [SessionId(counter)]
                && sessions == map[SessionId(counter) := NewSession(counter, None, now)]
                && currentId == Some(SessionId(counter))
      ensures sessionId !in sessions
      ensures old(currentId).Some? ==> currentId.Some?
      ensures old(ReviewOnlyInReview()) ==> ReviewOnlyInReview()
    {
      if sessionId in sessions {
        RemoveKeepsValid(sessions, order, counter, if currentId == Some(sessionId) then None else currentId, sessionId);
        RemoveKeepsValid(sessions, order, counter, None, sessionId);
        if ReviewOnlyInReview() {
          RemoveKeepsReviews(sessions, sessionId);
        }
        sessions := sessions - {sessionId};
        order := Without(order, sessionId);
        OrderMatchesKeys(sessions, order, counter);
        if currentId == Some(sessionId) {
          if sessions != map[] {
            currentId := Some(order[0]);
          } else {
            var _ := CreateNewSession(None, now);
          }
        }
      }
    }

    // -------------------------------------------------------------------
    // Phase handlers of the page

    /** The Analyze button of the input phase: with a non-blank requirement,
        the stripped text is stored, the phase becomes enhance and the
        title is derived; a blank one changes nothing. */
    method Analyze(requirement: string)
      requires InPhase(Input) && ReviewOnlyInReview()
      modifies this
      ensures InPhase(if Strip(requirement) == "" then Input else Enhance) && ReviewOnlyInReview()
      ensures order == old(order) && counter == old(counter) && currentId == old(currentId)
      ensures Strip(requirement) == "" ==> sessions == old(sessions)
      ensures Strip(requirement) != "" ==>
                sessions == old(sessions)[currentId.value := Analyzed(old(sessions)[currentId.value], Strip(requirement))]
    {
      ReadyHasCurrent();
      ghost var s0, cid := sessions, currentId.value;
      var stripped := Strip(requirement);
      if stripped != "" {
        UpdateSessionData(OriginalRequirement(stripped));
        ghost var cur := WithField(s0[cid], OriginalRequirement(stripped));
        UpdateSessionData(CurrentPhase(Enhance));
        UpdateTwice(s0, cid, cur, WithField(cur, CurrentPhase(Enhance)));
        cur := WithField(cur, CurrentPhase(Enhance));
        var title := Take(stripped, 30);
        if |stripped| > 30 {
          title := title + "...";
        } else {
          assert Take(stripped, 30) + "" == Take(stripped, 30);
        }
        assert title == AnalyzedTitle(stripped);
        UpdateSessionData(Title(title));
        UpdateTwice(s0, cid, cur, WithField(cur, Title(title)));
        ghost var t := Analyzed(s0[cid], stripped);
        assert ReviewInPlace(s0[cid]);
        ReplaceKeepsReviews(s0, cid, t);
        ReplaceKeepsValid(s0, order, counter, currentId, cid, t);
      }
    }

    /** The opening of the enhance phase: when the history is empty, the
        first turn fills it; otherwise nothing changes. */
    method StartEnhancement(agents: Agents, model: string)
      requires InPhase(Enhance) && ReviewOnlyInReview()
      modifies this
      ensures InPhase(Enhance) && ReviewOnlyInReview()
      ensures order == old(order) && counter == old(counter) && currentId == old(currentId)
      ensures sessions == old(sessions)[currentId.value := Enhanced(old(sessions)[currentId.value], agents, model)]
    {
      ReadyHasCurrent();
      ghost var s0, cid := sessions, currentId.value;
      UpdateSame(s0, cid);
      var current := sessions[currentId.value];
      if current.chatHistory == [] {
        var orig := current.originalRequirement;
        var result := agents.enhanceWithKb(orig, model);
        if result.KbEnhanced? {
          var initialMessage := "**Original requirement:** " + orig;
          var kbSuggestionsText := "";
          if result.kbSuggestions != [] {
            kbSuggestionsText := AppendBulletLines(KbInsightsHeading, result.kbSuggestions);
          }
          assert kbSuggestionsText == InsightsText(KbInsightsHeading, result.kbSuggestions);
          var chatHistory := [
            LlmService.ChatMessage("user", initialMessage),
            LlmService.ChatMessage("assistant", result.enhancedRequirement + kbSuggestionsText)];
          UpdateSessionData(ChatHistory(chatHistory));
          ghost var cur := WithField(s0[cid], ChatHistory(chatHistory));
          UpdateSessionData(EnhancedRequirement(result.enhancedRequirement));
          UpdateTwice(s0, cid, cur, WithField(cur, EnhancedRequirement(result.enhancedRequirement)));
          cur := WithField(cur, EnhancedRequirement(result.enhancedRequirement));
          if result.kbSuggestions != [] {
            UpdateSessionData(KbSuggestions(result.kbSuggestions));
            UpdateTwice(s0, cid, cur, WithField(cur, KbSuggestions(result.kbSuggestions)));
          }
        } else {
          var plain := agents.enhance(orig, model);
          if plain.Enhanced? {
            var chatHistory := [
              LlmService.ChatMessage("user", "Original requirement: " + orig),
              LlmService.ChatMessage("assistant", plain.enhancedRequirement)];
            UpdateSessionData(ChatHistory(chatHistory));
            ghost var cur := WithField(s0[cid], ChatHistory(chatHistory));
            UpdateSessionData(EnhancedRequirement(plain.enhancedRequirement));
            UpdateTwice(s0, cid, cur, WithField(cur, EnhancedRequirement(plain.enhancedRequirement)));
          }
        }
      }
      ghost var t := Enhanced(s0[cid], agents, model);
      TurnsKeepPhase(s0[cid], agents, "", model);
      assert ReviewInPlace(s0[cid]);
      ReplaceKeepsReviews(s0, cid, t);
      ReplaceKeepsValid(s0, order, counter, currentId, cid, t);
    }

    /** The Send button of the enhance phase: a non-blank input runs one
        clarification turn with the stripped text; a blank one changes nothing. */
    method SendClarification(agents: Agents, userInput: string, model: string)
      requires InPhase(Enhance) && ReviewOnlyInReview()
      modifies this
      ensures InPhase(Enhance) && ReviewOnlyInReview()
      ensures order == old(order) && counter == old(counter) && currentId == old(currentId)
      ensures Strip(userInput) == "" ==> sessions == old(sessions)
      ensures Strip(userInput) != "" ==>
                sessions == old(sessions)[currentId.value := Clarified(old(sessions)[currentId.value], agents, Strip(userInput), model)]
    {
      ReadyHasCurrent();
      ghost var s0, cid := sessions, currentId.value;
      var q := Strip(userInput);
      if q != "" {
        var current := sessions[currentId.value];
        var newChatHistory := current.chatHistory + [LlmService.ChatMessage("user", q)];
        UpdateSessionData(ChatHistory(newChatHistory));
        ghost var cur := WithField(s0[cid], ChatHistory(newChatHistory));
        var result := agents.clarifyWithKb(current.enhancedRequirement, q, model);
        if result.KbClarified? {
          var responseContent := result.clarifiedRequirement;
          if result.additionalSuggestions != [] {
            responseContent := AppendBulletLines(responseContent + AdditionalInsightsHeading, result.additionalSuggestions);
          }
          assert responseContent == result.clarifiedRequirement + InsightsText(AdditionalInsightsHeading, result.additionalSuggestions);
          var h := newChatHistory + [LlmService.ChatMessage("assistant", responseContent)];
          UpdateSessionData(ChatHistory(h));
          UpdateTwice(s0, cid, cur, WithField(cur, ChatHistory(h)));
          cur := WithField(cur, ChatHistory(h));
          UpdateSessionData(EnhancedRequirement(result.clarifiedRequirement));
          UpdateTwice(s0, cid, cur, WithField(cur, EnhancedRequirement(result.clarifiedRequirement)));
        } else {
          var plain := agents.clarify(current.enhancedRequirement, q, model);
          if plain.Clarified? {
            var h := newChatHistory + [LlmService.ChatMessage("assistant", plain.clarifiedRequirement)];
            UpdateSessionData(ChatHistory(h));
            UpdateTwice(s0, cid, cur, WithField(cur, ChatHistory(h)));
            cur := WithField(cur, ChatHistory(h));
            UpdateSessionData(EnhancedRequirement(plain.clarifiedRequirement));
            UpdateTwice(s0, cid, cur, WithField(cur, EnhancedRequirement(plain.clarifiedRequirement)));
          }
        }
        ghost var t := Clarified(s0[cid], agents, q, model);
        TurnsKeepPhase(s0[cid], agents, q, model);
        assert ReviewInPlace(s0[cid]);
        ReplaceKeepsReviews(s0, cid, t);
        ReplaceKeepsValid(s0, order, counter, currentId, cid, t);
      }
    }

    /** The Review button: moves to the review phase only with a non-empty
        enhanced requirement. */
    method RequestReview()
      requires InPhase(Enhance) && ReviewOnlyInReview()
      modifies this
      ensures Ready() && ReviewOnlyInReview()
      ensures order == old(order) && counter == old(counter) && currentId == old(currentId)
      ensures var s := old(sessions)[currentId.value];
        && (s.enhancedRequirement != "" ==> sessions == old(sessions)[currentId.value := WithField(s, CurrentPhase(Review))])
        && (s.enhancedRequirement == "" ==> sessions == old(sessions))
    {
      ReadyHasCurrent();
      ghost var s0, cid := sessions, currentId.value;
      if sessions[currentId.value].enhancedRequirement != "" {
        UpdateSessionData(CurrentPhase(Review));
        ReplaceKeepsReviews(s0, cid, WithField(s0[cid], CurrentPhase(Review)));
        ReplaceKeepsValid(s0, order, counter, currentId, cid, WithField(s0[cid], CurrentPhase(Review)));
      }
    }

    /** The opening of the review phase: a review is computed and stored,
        whatever its outcome, only when none is stored yet. */
    method EnsureReview(agents: Agents, model: string)
      requires InPhase(Review) && ReviewOnlyInReview()
      modifies this
      ensures InPhase(Review) && ReviewOnlyInReview()
      ensures order == old(order) && counter == old(counter) && currentId == old(currentId)
      ensures var s := old(sessions)[currentId.value];
        && (s.reviewResult.Some? ==> sessions == old(sessions))
        && (s.reviewResult.None? ==> sessions == old(sessions)[currentId.value :=
              WithField(s, ReviewResult(Some(agents.review(s.enhancedRequirement, model))))])
      ensures sessions[currentId.value].reviewResult.Some?
    {
      ReadyHasCurrent();
      ghost var s0, cid := sessions, currentId.value;
      var current := sessions[currentId.value];
      if current.reviewResult.None? {
        var result := agents.review(current.enhancedRequirement, model);
        UpdateSessionData(ReviewResult(Some(result)));
        ReplaceKeepsReviews(s0, cid, WithField(current, ReviewResult(Some(result))));
        ReplaceKeepsValid(s0, order, counter, currentId, cid, WithField(current, ReviewResult(Some(result))));
      }
    }

    /** "Back to Enhancement": the phase returns to enhance and the review is
        discarded. */
    method BackToEnhancement()
      requires InPhase(Review) && ReviewOnlyInReview()
      modifies this
      ensures InPhase(Enhance) && ReviewOnlyInReview()
      ensures order == old(order) && counter == old(counter) && currentId == old(currentId)
      ensures var s := old(sessions)[currentId.value];
        sessions == old(sessions)[currentId.value := WithField(WithField(s, CurrentPhase(Enhance)), ReviewResult(None))]
    {
      ReadyHasCurrent();
      ghost var s0, cid := sessions, currentId.value;
      ghost var cur := WithField(s0[cid], CurrentPhase(Enhance));
      UpdateSessionData(CurrentPhase(Enhance));
      UpdateSessionData(ReviewResult(None));
      UpdateTwice(s0, cid, cur, WithField(cur, ReviewResult(None)));
      ReplaceKeepsReviews(s0, cid, WithField(cur, ReviewResult(None)));
      ReplaceKeepsValid(s0, order, counter, currentId, cid, WithField(cur, ReviewResult(None)));
    }

    /** "Retry Assessment": the stored review is discarded so that the next
        opening of the phase computes a new one. */
    method RetryAssessment()
      requires InPhase(Review) && ReviewOnlyInReview()
      modifies this
      ensures InPhase(Review) && ReviewOnlyInReview()
      ensures order == old(order) && counter == old(counter) && currentId == old(currentId)
      ensures var s := old(sessions)[currentId.value];
        sessions == old(sessions)[currentId.value := WithField(s, ReviewResult(None))]
    {
      ReadyHasCurrent();
      ghost var s0, cid := sessions, currentId.value;
      UpdateSessionData(ReviewResult(None));
      ReplaceKeepsReviews(s0, cid, WithField(s0[cid], ReviewResult(None)));
      ReplaceKeepsValid(s0, order, counter, currentId, cid, WithField(s0[cid], ReviewResult(None)));
    }
  }
}
