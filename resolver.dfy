/** The intent resolver (`getBotResponse`): the message is lowercased and a
    cascade of substring tests, tried top to bottom, picks the first rule
    that matches; the rule decides which catalog answer is returned, and a
    message no rule matches gets the fallback answer quoting it.

    `Classify` is the cascade exactly as the program writes it. `Rules`
    and `FirstMatch` restate it as an ordered table read by one generic
    first-match loop; `ClassifyIsFirstMatch` proves the two agree, and the
    precedence facts are proved about both. */
module Resolver {
  import opened Text
  import Catalog

  /** Which branch of the cascade answered. */
  datatype Intent =
    | JavaScriptRoadmap
    | PythonRoadmap
    | RoadmapGuide
    | Greeting
    | CareerTrends
    | ProgrammingLanguages
    | LearningResources
    | LearningPlan
    | JobOpportunities
    | React
    | Python
    | Frontend
    | Backend
    | AiMl
    | Unmatched

  // ---------------------------------------------------------------------
  // The keyword groups the cascade tests, over the lowered message

  /** "lộ trình", "roadmap" or "tạo": the words that ask for a roadmap. */
  predicate RoadmapTrigger(l: string) {
    Contains(l, "lộ trình") || Contains(l, "roadmap") || Contains(l, "tạo")
  }

  predicate NamesJavaScript(l: string) {
    Contains(l, "javascript") || Contains(l, "js")
  }

  predicate NamesPython(l: string) {
    Contains(l, "python")
  }

  /** The words of the generic roadmap rule; note "tạo" is not one of them. */
  predicate GenericRoadmapWord(l: string) {
    Contains(l, "lộ trình") || Contains(l, "roadmap") || Contains(l, "kế hoạch học")
  }

  predicate GreetingWord(l: string) {
    Contains(l, "xin chào") || Contains(l, "hi") || Contains(l, "hey") || Contains(l, "hello")
  }

  predicate CareerWord(l: string) {
    Contains(l, "xu hướng") || Contains(l, "nghề nghiệp") || Contains(l, "career") || Contains(l, "trends")
  }

  predicate LanguagesWord(l: string) {
    Contains(l, "ngôn ngữ lập trình") || Contains(l, "nên học") || Contains(l, "programming language")
  }

  predicate ResourcesWord(l: string) {
    Contains(l, "tài liệu") || Contains(l, "học tập") || Contains(l, "resources") || Contains(l, "đề xuất")
  }

  predicate PlanWord(l: string) {
    Contains(l, "kế hoạch") || Contains(l, "lộ trình") || Contains(l, "plan") || Contains(l, "roadmap")
  }

  predicate JobWord(l: string) {
    Contains(l, "việc làm") || Contains(l, "cơ hội") || Contains(l, "job") || Contains(l, "career opportunity")
  }

  predicate NamesReact(l: string) {
    Contains(l, "react")
  }

  predicate FrontendWord(l: string) {
    Contains(l, "frontend") || Contains(l, "front-end")
  }

  predicate BackendWord(l: string) {
    Contains(l, "backend") || Contains(l, "back-end")
  }

  predicate AiMlWord(l: string) {
    Contains(l, "ai") || Contains(l, "machine learning") || Contains(l, "ml") || Contains(l, "trí tuệ nhân tạo")
  }

  /** One of the three roadmap rules at the top of the cascade matches. */
  predicate RoadmapRuleMatches(l: string) {
    (RoadmapTrigger(l) && (NamesJavaScript(l) || NamesPython(l))) || GenericRoadmapWord(l)
  }

  /** Some keyword of some rule occurs in l. */
  predicate AnyKeyword(l: string) {
    RoadmapTrigger(l) || NamesJavaScript(l) || NamesPython(l) || GenericRoadmapWord(l) ||
    GreetingWord(l) || CareerWord(l) || LanguagesWord(l) || ResourcesWord(l) ||
    PlanWord(l) || JobWord(l) || NamesReact(l) || FrontendWord(l) || BackendWord(l) ||
    AiMlWord(l)
  }

  // ---------------------------------------------------------------------
  // The cascade and the resolver

  /** The if-cascade of `getBotResponse` over the lowered message: the first
      condition that holds names the answer. */
  function Classify(l: string): Intent
  {
    if RoadmapTrigger(l) && NamesJavaScript(l) then JavaScriptRoadmap
    else if RoadmapTrigger(l) && NamesPython(l) then PythonRoadmap
    else if GenericRoadmapWord(l) then RoadmapGuide
    else if GreetingWord(l) then Greeting
    else if CareerWord(l) then CareerTrends
    else if LanguagesWord(l) then ProgrammingLanguages
    else if ResourcesWord(l) then LearningResources
    else if PlanWord(l) then LearningPlan
    else if JobWord(l) then JobOpportunities
    else if NamesReact(l) then React
    else if NamesPython(l) then Python
    else if FrontendWord(l) then Frontend
    else if BackendWord(l) then Backend
    else if AiMlWord(l) then AiMl
    else Unmatched
  }

  /** The answer a branch returns, read from the catalog c; the fallback
      quotes the original message. */
  function Answer(c: Catalog.Responses, i: Intent, message: string): Catalog.AIResponse
  {
    match i
    case JavaScriptRoadmap => c.roadmaps.javascript
    case PythonRoadmap => c.roadmaps.python
    case RoadmapGuide => c.roadmaps.guidance
    case Greeting => c.greeting
    case CareerTrends => c.topics.careerTrends
    case ProgrammingLanguages => c.topics.programmingLanguages
    case LearningResources => c.topics.learningResources
    case LearningPlan => c.topics.learningPlan
    case JobOpportunities => c.topics.jobOpportunities
    case React => c.tech.react
    case Python => c.tech.python
    case Frontend => c.tech.frontend
    case Backend => c.tech.backend
    case AiMl => c.tech.aiMl
    case Unmatched => Catalog.DefaultAnswer(c.fallback, message)
  }

  /** `getBotResponse(message)` over the catalog c (the program uses
      `Catalog.Standard()`): total; over a well-formed catalog every answer
      has a non-empty text; an unmatched message is quoted verbatim, with
      the fallback's next steps. */
  function GetBotResponse(c: Catalog.Responses, message: string): (r: Catalog.AIResponse)
    ensures Catalog.WellFormed(c) ==> |r.text| > 0
    ensures Classify(Lower(message)) == Unmatched ==>
      Contains(r.text, message) && r.nextSteps == Catalog.Some(c.fallback.nextSteps) && r.roadmap == Catalog.None
  {
    Answer(c, Classify(Lower(message)), message)
  }

  /** The shape every answer of a well-formed catalog has: a non-empty text;
      a roadmap exactly in the two technology roadmap answers, and there the
      matching template; next steps in every answer but the greeting, always
      four of them. */
  lemma AnswerShape(c: Catalog.Responses, i: Intent, message: string)
    requires Catalog.WellFormed(c)
    ensures var r := Answer(c, i, message);
      |r.text| > 0 &&
      (r.roadmap.Some? <==> i == JavaScriptRoadmap || i == PythonRoadmap) &&
      (i == JavaScriptRoadmap ==> r.roadmap == Catalog.Some(c.templates.javascript)) &&
      (i == PythonRoadmap ==> r.roadmap == Catalog.Some(c.templates.python)) &&
      (r.nextSteps.None? <==> i == Greeting) &&
      (r.nextSteps.Some? ==> |r.nextSteps.value| == 4)
  {
  }

  // ---------------------------------------------------------------------
  // The cascade as an ordered rule table

  /** The condition of the rule that answers with intent i. */
  predicate Fires(i: Intent, l: string) {
    match i
    case JavaScriptRoadmap => RoadmapTrigger(l) && NamesJavaScript(l)
    case PythonRoadmap => RoadmapTrigger(l) && NamesPython(l)
    case RoadmapGuide => GenericRoadmapWord(l)
    case Greeting => GreetingWord(l)
    case CareerTrends => CareerWord(l)
    case ProgrammingLanguages => LanguagesWord(l)
    case LearningResources => ResourcesWord(l)
    case LearningPlan => PlanWord(l)
    case JobOpportunities => JobWord(l)
    case React => NamesReact(l)
    case Python => NamesPython(l)
    case Frontend => FrontendWord(l)
    case Backend => BackendWord(l)
    case AiMl => AiMlWord(l)
    case Unmatched => false
  }

  /** The rules in the order `getBotResponse` tries them. */
  function Rules(): (rs: seq<Intent>)
    ensures |rs| == 14 && Unmatched !in rs
  {
    [JavaScriptRoadmap, PythonRoadmap, RoadmapGuide, Greeting, CareerTrends,
     ProgrammingLanguages, LearningResources, LearningPlan, JobOpportunities,
     React, Python, Frontend, Backend, AiMl]
  }

  /** The first rule of rs from position k on whose condition holds, or
      Unmatched when there is none. */
  function FirstMatch(rs: seq<Intent>, k: nat, l: string): Intent
    decreases |rs| - k
  {
    if k >= |rs| then Unmatched
    else if Fires(rs[k], l) then rs[k]
    else FirstMatch(rs, k + 1, l)
  }

  /** First-match semantics: the chosen rule fires and no rule between k and
      it does; Unmatched exactly when no rule from k on fires. */
  lemma {:induction false} FirstMatchIsEarliest(rs: seq<Intent>, k: nat, l: string)
    requires k <= |rs| && Unmatched !in rs
    decreases |rs| - k
    ensures FirstMatch(rs, k, l) == Unmatched <==> forall j :: k <= j < |rs| ==> !Fires(rs[j], l)
    ensures FirstMatch(rs, k, l) != Unmatched ==>
      exists j :: k <= j < |rs| && rs[j] == FirstMatch(rs, k, l) && Fires(rs[j], l) &&
        forall i :: k <= i < j ==> !Fires(rs[i], l)
  {
    if k < |rs| && !Fires(rs[k], l) {
      FirstMatchIsEarliest(rs, k + 1, l);
    }
  }

  /** The cascade is the first match over the rule table. */
  lemma ClassifyIsFirstMatch(l: string)
    ensures Classify(l) == FirstMatch(Rules(), 0, l)
  {
    // One unfolding of FirstMatch per rule; without them the solver
    // exceeds its resource budget on some seeds.
    var rs := Rules();
    assert FirstMatch(rs, 0, l) == if Fires(rs[0], l) then rs[0] else FirstMatch(rs, 1, l);
    assert FirstMatch(rs, 1, l) == if Fires(rs[1], l) then rs[1] else FirstMatch(rs, 2, l);
    assert FirstMatch(rs, 2, l) == if Fires(rs[2], l) then rs[2] else FirstMatch(rs, 3, l);
    assert FirstMatch(rs, 3, l) == if Fires(rs[3], l) then rs[3] else FirstMatch(rs, 4, l);
    assert FirstMatch(rs, 4, l) == if Fires(rs[4], l) then rs[4] else FirstMatch(rs, 5, l);
    assert FirstMatch(rs, 5, l) == if Fires(rs[5], l) then rs[5] else FirstMatch(rs, 6, l);
    assert FirstMatch(rs, 6, l) == if Fires(rs[6], l) then rs[6] else FirstMatch(rs, 7, l);
    assert FirstMatch(rs, 7, l) == if Fires(rs[7], l) then rs[7] else FirstMatch(rs, 8, l);
    assert FirstMatch(rs, 8, l) == if Fires(rs[8], l) then rs[8] else FirstMatch(rs, 9, l);
    assert FirstMatch(rs, 9, l) == if Fires(rs[9], l) then rs[9] else FirstMatch(rs, 10, l);
    assert FirstMatch(rs, 10, l) == if Fires(rs[10], l) then rs[10] else FirstMatch(rs, 11, l);
    assert FirstMatch(rs, 11, l) == if Fires(rs[11], l) then rs[11] else FirstMatch(rs, 12, l);
    assert FirstMatch(rs, 12, l) == if Fires(rs[12], l) then rs[12] else FirstMatch(rs, 13, l);
    assert FirstMatch(rs, 13, l) == if Fires(rs[13], l) then rs[13] else FirstMatch(rs, 14, l);
  }

  /** So the answering rule's condition holds, every earlier rule's fails,
      and the fallback is taken exactly when no rule's condition holds. */
  lemma ClassifyIsEarliest(l: string)
    ensures Classify(l) == Unmatched <==> forall k :: 0 <= k < |Rules()| ==> !Fires(Rules()[k], l)
    ensures Classify(l) != Unmatched ==>
      exists k :: 0 <= k < |Rules()| && Rules()[k] == Classify(l) && Fires(Classify(l), l) &&
        forall j :: 0 <= j < k ==> !Fires(Rules()[j], l)
  {
    ClassifyIsFirstMatch(l);
    FirstMatchIsEarliest(Rules(), 0, l);
  }

  // ---------------------------------------------------------------------
  // Precedence between the rules

  /** A roadmap word (or "tạo") together with JavaScript yields the
      JavaScript roadmap answer and its template, whatever else the message
      says, a greeting or Python included. */
  lemma JavaScriptRoadmapFirst(c: Catalog.Responses, message: string)
    requires RoadmapTrigger(Lower(message)) && NamesJavaScript(Lower(message))
    ensures GetBotResponse(c, message) == c.roadmaps.javascript
    ensures Catalog.WellFormed(c) ==> GetBotResponse(c, message).roadmap == Catalog.Some(c.templates.javascript)
  {
  }

  /** "js" matches inside any word that contains it: a roadmap request that
      mentions JSON gets the JavaScript roadmap. */
  lemma JsonCountsAsJavaScript(c: Catalog.Responses, message: string)
    requires RoadmapTrigger(Lower(message)) && Contains(Lower(message), "json")
    ensures GetBotResponse(c, message) == c.roadmaps.javascript
  {
    assert OccursAt("json", "js", 0);
    ContainsTransitive(Lower(message), "json", "js");
  }

  /** The Python roadmap is given exactly when a roadmap word (or "tạo")
      and "python" occur and JavaScript is not named. */
  lemma PythonRoadmapIff(l: string)
    ensures Classify(l) == PythonRoadmap <==>
      RoadmapTrigger(l) && NamesPython(l) && !NamesJavaScript(l)
  {
  }

  /** The generic roadmap guidance is given exactly when a generic roadmap
      word occurs and neither technology roadmap rule matched; "tạo" on its
      own never reaches it. */
  lemma RoadmapGuideIff(l: string)
    ensures Classify(l) == RoadmapGuide <==>
      GenericRoadmapWord(l) && !(RoadmapTrigger(l) && (NamesJavaScript(l) || NamesPython(l)))
  {
  }

  /** The greeting is given exactly when a greeting word occurs and none of
      the roadmap rules matched. */
  lemma GreetingIff(l: string)
    ensures Classify(l) == Greeting <==> GreetingWord(l) && !RoadmapRuleMatches(l)
  {
  }

  /** "hi" is a substring of "machine learning" and of "nghề nghiệp": a
      message containing either is answered by a roadmap rule or the
      greeting, so those two keywords never decide their own rules. */
  lemma GreetingShadowsLongerKeywords(l: string)
    requires Contains(l, "machine learning") || Contains(l, "nghề nghiệp")
    ensures Classify(l) == Greeting || RoadmapRuleMatches(l)
    ensures Classify(l) != AiMl && Classify(l) != CareerTrends
  {
    if Contains(l, "machine learning") {
      assert OccursAt("machine learning", "hi", 3);
      ContainsTransitive(l, "machine learning", "hi");
    } else {
      assert OccursAt("nghề nghiệp", "hi", 7);
      ContainsTransitive(l, "nghề nghiệp", "hi");
    }
  }

  /** "career opportunity" contains "career", so the career-trends rule
      answers it before the job rule is tried. */
  lemma CareerShadowsJobKeyword(l: string)
    requires Contains(l, "career opportunity")
    ensures Classify(l) != JobOpportunities
  {
    assert OccursAt("career opportunity", "career", 0);
    ContainsTransitive(l, "career opportunity", "career");
  }

  /** The learning-plan answer is only ever reached through "kế hoạch" or
      "plan": its "lộ trình" and "roadmap" keywords are taken by the generic
      roadmap rule further up. */
  lemma LearningPlanKeywords(l: string)
    ensures Classify(l) == LearningPlan ==>
      !Contains(l, "lộ trình") && !Contains(l, "roadmap") &&
      (Contains(l, "kế hoạch") || Contains(l, "plan"))
  {
  }

  /** The Python deep-dive answers only messages that name Python without
      any roadmap word or "tạo" and without React, which is tried first. */
  lemma PythonDeepDive(l: string)
    ensures Classify(l) == Python ==> NamesPython(l) && !RoadmapTrigger(l) && !NamesReact(l)
    ensures NamesPython(l) && RoadmapTrigger(l) ==> Classify(l) in {JavaScriptRoadmap, PythonRoadmap}
  {
  }

  /** A message with no keyword of any rule gets the fallback answer, which
      quotes it verbatim. */
  lemma NoKeywordFallsBack(c: Catalog.Responses, message: string)
    requires !AnyKeyword(Lower(message))
    ensures Classify(Lower(message)) == Unmatched
    ensures Contains(GetBotResponse(c, message).text, message)
  {
  }

  /** Capitals do not hide a keyword: if the message contains v, a spelling
      of the keyword w in any mix of cases ("JS", "JavaScript", "Lộ Trình"),
      the lowered message contains w. */
  lemma KeywordFoundInAnyCase(message: string, v: string, w: string)
    requires Contains(message, v) && Lower(v) == w
    ensures Contains(Lower(message), w)
  {
    LowerPreservesContains(message, v);
  }

  /** "JS" typed in capitals is found as "js" in the lowered message. */
  lemma ExampleCapitalKeyword()
    ensures Contains(Lower("Học JS"), "js")
  {
    assert OccursAt("Học JS", "JS", 4);
    assert Lower("JS") == "js";
    KeywordFoundInAnyCase("Học JS", "JS", "js");
  }

  // ---------------------------------------------------------------------
  // Examples

  lemma LowerJavaScriptRequest()
    ensures Lower("Tạo lộ trình JavaScript") == "tạo lộ trình javascript"
  {
  }

  /** "Tạo lộ trình JavaScript" gets the JavaScript roadmap. */
  lemma ExampleJavaScriptRoadmap(c: Catalog.Responses)
    ensures GetBotResponse(c, "Tạo lộ trình JavaScript") == c.roadmaps.javascript
  {
    var l := "tạo lộ trình javascript";
    LowerJavaScriptRequest();
    assert OccursAt(l, "tạo", 0);
    assert OccursAt(l, "javascript", 13);
    assert RoadmapTrigger(l) && NamesJavaScript(l);
    JavaScriptRoadmapFirst(c, "Tạo lộ trình JavaScript");
  }

  lemma LowerTriggerAlone()
    ensures Lower("tạo") == "tạo"
  {
  }

  /** "tạo" alone is a roadmap trigger without a rule of its own: the
      message falls through to the fallback, which quotes it. */
  lemma ExampleTriggerAlone(c: Catalog.Responses)
    ensures Classify(Lower("tạo")) == Unmatched
    ensures Contains(GetBotResponse(c, "tạo").text, "tạo")
  {
    var l := "tạo";
    LowerTriggerAlone();
    AbsentChar(l, "js", 0);
    AbsentChar(l, "hi", 0);
    AbsentChar(l, "ai", 0);
    AbsentChar(l, "ml", 0);
    AbsentChar(l, "hey", 0);
    AbsentChar(l, "job", 0);
    assert !NamesJavaScript(l) && !NamesPython(l) && !GenericRoadmapWord(l);
    assert !GreetingWord(l) && !CareerWord(l) && !LanguagesWord(l) && !ResourcesWord(l);
    assert !PlanWord(l) && !JobWord(l) && !NamesReact(l) && !FrontendWord(l);
    assert !BackendWord(l) && !AiMlWord(l);
  }
}
