# SkillVerse chatbot page: intent resolver and conversation state

This project models the career-advice chatbot page of SkillVerse
(`src/pages/navbar/ChatbotPage.tsx`) and proves properties of the model.
Four modules make up the model.

- `Text` (`text.dfy`) holds the string operations the page is built from:
  - `includes` as `Contains`, a substring test;
  - `toLowerCase` as `Lower`;
  - `trim` as `Trim`, plus the blank test the page applies to its input.
- `Catalog` (`catalog.dfy`) holds the response data.
  - The `AIResponse` payload and the two roadmap templates of
    `roadmapTemplates` (JavaScript and Python).
  - The five topic answers of `aiResponses`.
  - The answers written inline in `getBotResponse`: the two roadmap answers,
    the roadmap guidance, the greeting, the five technology deep-dives, and
    the fallback that quotes the user's message.
  - The welcome message the conversation opens with.
  - `Catalog.Standard()` is the program's catalog. It is proved well-formed:
    every text is non-empty, every answer but the greeting has four next
    steps, and only the two roadmap answers carry a roadmap, which is their
    template.
- `Resolver` (`resolver.dfy`) holds `getBotResponse`.
  - `Classify` is the if-cascade in source order over the lowered message.
  - `GetBotResponse` answers from a catalog.
  - `Rules` and `FirstMatch` form an ordered rule table. Lemmas show that the
    cascade is exactly "first rule whose condition holds".
  - Lemmas state the precedence and shadowing facts that follow from the
    rule order and from plain substring matching. Examples: "js" fires
    inside "json", "hi" inside "machine learning" and "nghề nghiệp", and
    "career" inside "career opportunity".
- `Chat` (`chat.dfy`) holds the page state.
  - The class `ChatPage` has the fields `messages`, `inputMessage` and
    `isTyping`, plus `pending`, the text the scheduled reply answers.
  - `Submit` is the synchronous half of `handleSendMessage`. `Deliver` is
    the timer callback.
  - `SetInput` is typing into the field or `handleSuggestionClick`.
  - The invariant `Valid` ties `messages` to `Transcript`, the welcome
    message followed by one user/bot pair per answered question. Each reply
    is `GetBotResponse` of the question before it.

The resolver and the page are written over any catalog value. The program's
own catalog is `Catalog.Standard()`, and the page's invariant requires only
that the catalog is well-formed.

Three facts of the code shape the page model.

- The roadmap step button (line 1159) only writes to the console, and no
  code path sets a step's `completed` flag or changes a template. So the
  model has no completion toggle, and every template step's `completed` is
  absent (`FreshProgress`).
- While `isTyping` holds, the input field (line 1232) and the send button
  (line 1237) are disabled, so `Submit` requires `!isTyping`. The suggestion
  buttons stay enabled, so `SetInput` has no such requirement.
- The timer callback (line 560) passes `getBotResponse` the `inputMessage`
  of the render that submitted, not the field cleared at line 555. The
  model keeps that submitted text in `pending`.

## Model

| member | source | states |
|---|---|---|
| Text.Contains | src/pages/navbar/ChatbotPage.tsx:580-861 | `includes`: some index at which the keyword occurs in the text; pinned down by `ContainsTransitive`, `ContainsInContext` and `LowerPreservesContains` |
| Text.Lower | src/pages/navbar/ChatbotPage.tsx:577 | lowering keeps the length and maps every character by `LowerChar` |
| Text.LowerChar | src/pages/navbar/ChatbotPage.tsx:577 | a character is either kept or mapped to a higher code point (its small letter) |
| Text.LowerCharIdempotent | src/pages/navbar/ChatbotPage.tsx:577 | lowering a lowered character changes nothing |
| Text.LowerIdempotent | src/pages/navbar/ChatbotPage.tsx:577 | lowering a lowered message changes nothing, so the all-lowercase keywords are in normal form |
| Text.LowerPreservesContains | src/pages/navbar/ChatbotPage.tsx:577 | an occurrence of w in the message is an occurrence of lowered w in the lowered message |
| Text.ContainsTransitive | src/pages/navbar/ChatbotPage.tsx:576-945 | a substring of a substring is a substring: the basis of every shadowing fact between keywords |
| Text.ContainsInContext | src/pages/navbar/ChatbotPage.tsx:913 | a string occurs in any text built around it, as the fallback builds its text around the message |
| Text.TrimStart | src/pages/navbar/ChatbotPage.tsx:545 | the result is a suffix of the input, everything removed before it is whitespace, and it does not start with whitespace |
| Text.TrimEnd | src/pages/navbar/ChatbotPage.tsx:545 | the result is a prefix of the input, everything removed after it is whitespace, and it does not end with whitespace |
| Text.IsJsWhitespace | src/pages/navbar/ChatbotPage.tsx:545 | the characters `trim` removes: ECMAScript WhiteSpace and LineTerminator, listed one by one |
| Text.Trim | src/pages/navbar/ChatbotPage.tsx:545 | `trim`: TrimEnd after TrimStart; its result is empty iff the input is blank (`TrimEmptyIffBlank`), which is the only use the page makes of it |
| Text.TrimStartBlank | src/pages/navbar/ChatbotPage.tsx:545 | trimming the start gives the empty string iff the input is all whitespace |
| Text.TrimEndBlank | src/pages/navbar/ChatbotPage.tsx:545 | trimming the end gives the empty string iff the input is all whitespace |
| Text.TrimEmptyIffBlank | src/pages/navbar/ChatbotPage.tsx:545 | `!inputMessage.trim()` holds exactly when the input is empty or all whitespace |
| Catalog.StepId | src/pages/navbar/ChatbotPage.tsx:225-279 | the n-th step id is "step" followed by the digit n |
| Catalog.StepIdInjective | src/pages/navbar/ChatbotPage.tsx:225-279 | different step numbers give different ids |
| Catalog.JavaScriptRoadmap | src/pages/navbar/ChatbotPage.tsx:215-288 | `roadmapTemplates.javascript`: id, title, total duration, difficulty and the seven steps with id, title, duration and difficulty; its properties are `JavaScriptTemplate` |
| Catalog.PythonRoadmap | src/pages/navbar/ChatbotPage.tsx:289-335 | `roadmapTemplates.python`: id, title, total duration, difficulty and the four steps; its properties are `PythonTemplate` |
| Catalog.NumberedStepsDistinct | src/pages/navbar/ChatbotPage.tsx:214-336 | steps numbered step1, step2, ... have pairwise distinct ids |
| Catalog.JavaScriptStepsNumbered | src/pages/navbar/ChatbotPage.tsx:215-288 | the JavaScript template has seven steps with ids step1..step7 in order |
| Catalog.JavaScriptStepsOrdered | src/pages/navbar/ChatbotPage.tsx:215-288 | the JavaScript template's difficulty never decreases from step to step, and no step is completed |
| Catalog.JavaScriptTemplate | src/pages/navbar/ChatbotPage.tsx:215-288 | JavaScript template: 7 steps, distinct ids, total "4-6 tháng", Beginner first, Advanced last, difficulty non-decreasing, nothing completed |
| Catalog.PythonStepsNumbered | src/pages/navbar/ChatbotPage.tsx:289-335 | the Python template has four steps with ids step1..step4 in order |
| Catalog.PythonStepsOrdered | src/pages/navbar/ChatbotPage.tsx:289-335 | the Python template's difficulty never decreases from step to step, and no step is completed |
| Catalog.PythonTemplate | src/pages/navbar/ChatbotPage.tsx:289-335 | Python template: 4 steps, distinct ids, total "3-5 tháng", Beginner first, Advanced last, difficulty non-decreasing, nothing completed |
| Catalog.CareerTrends | src/pages/navbar/ChatbotPage.tsx:341-373 | the career-trends answer has a text, four next steps and no roadmap |
| Catalog.ProgrammingLanguages | src/pages/navbar/ChatbotPage.tsx:375-409 | the programming-languages answer has a text, four next steps and no roadmap |
| Catalog.LearningResources | src/pages/navbar/ChatbotPage.tsx:411-449 | the learning-resources answer has a text, four next steps and no roadmap |
| Catalog.LearningPlan | src/pages/navbar/ChatbotPage.tsx:451-491 | the learning-plan answer has a text, four next steps and no roadmap |
| Catalog.JobOpportunities | src/pages/navbar/ChatbotPage.tsx:493-532 | the job-opportunities answer has a text, four next steps and no roadmap |
| Catalog.JavaScriptRoadmapAnswer | src/pages/navbar/ChatbotPage.tsx:582-601 | the JavaScript roadmap answer carries the JavaScript template and four next steps |
| Catalog.PythonRoadmapAnswer | src/pages/navbar/ChatbotPage.tsx:606-625 | the Python roadmap answer carries the Python template and four next steps |
| Catalog.RoadmapGuidance | src/pages/navbar/ChatbotPage.tsx:630-656 | the roadmap guidance has a text, four next steps and no roadmap |
| Catalog.Greeting | src/pages/navbar/ChatbotPage.tsx:661-671 | the greeting has a text and neither next steps nor a roadmap |
| Catalog.ReactAnswer | src/pages/navbar/ChatbotPage.tsx:701-728 | the React deep-dive has a text, four next steps and no roadmap |
| Catalog.PythonAnswer | src/pages/navbar/ChatbotPage.tsx:732-760 | the Python deep-dive has a text, four next steps and no roadmap |
| Catalog.FrontendAnswer | src/pages/navbar/ChatbotPage.tsx:764-808 | the frontend deep-dive has a text, four next steps and no roadmap |
| Catalog.BackendAnswer | src/pages/navbar/ChatbotPage.tsx:812-857 | the backend deep-dive has a text, four next steps and no roadmap |
| Catalog.AiMlAnswer | src/pages/navbar/ChatbotPage.tsx:862-908 | the AI/ML deep-dive has a text, four next steps and no roadmap |
| Catalog.DefaultOpening | src/pages/navbar/ChatbotPage.tsx:913 | the fallback text before the quoted message is non-empty |
| Catalog.DefaultClosing | src/pages/navbar/ChatbotPage.tsx:913 | the text right after the quoted message, up to the cut; `DefaultAnswer` places the message between opening and closing |
| Catalog.DefaultNextSteps | src/pages/navbar/ChatbotPage.tsx:938-943 | the fallback lists four next steps |
| Catalog.DefaultAnswer | src/pages/navbar/ChatbotPage.tsx:912-944 | the fallback quotes the original message verbatim, has its four next steps and no roadmap, recommendations or resources |
| Catalog.StandardTemplates | src/pages/navbar/ChatbotPage.tsx:214-336 | `roadmapTemplates` holds the JavaScript and the Python template |
| Catalog.StandardRoadmapAnswers | src/pages/navbar/ChatbotPage.tsx:580-657 | the two roadmap answers carry their templates, and all three roadmap answers have a text and four next steps |
| Catalog.StandardTopics | src/pages/navbar/ChatbotPage.tsx:339-533 | every `aiResponses` entry has a text, four next steps and no roadmap |
| Catalog.StandardTechAnswers | src/pages/navbar/ChatbotPage.tsx:700-909 | every deep-dive has a text, four next steps and no roadmap |
| Catalog.StandardFallback | src/pages/navbar/ChatbotPage.tsx:912-944 | the fallback has an opening text and four next steps |
| Catalog.Standard | src/pages/navbar/ChatbotPage.tsx:115-945 | the program's catalog (welcome, templates and all answers) is well-formed |
| Catalog.WelcomeText | src/pages/navbar/ChatbotPage.tsx:119 | the opening message's text is non-empty |
| Resolver.RoadmapTrigger | src/pages/navbar/ChatbotPage.tsx:580 | the condition of that line, one `Contains` per `includes` with the same literal: the trigger group shared by both technology roadmap rules: "lộ trình", "roadmap" or "tạo" |
| Resolver.NamesJavaScript | src/pages/navbar/ChatbotPage.tsx:581 | the condition of that line, one `Contains` per `includes` with the same literal: "javascript" or "js" |
| Resolver.NamesPython | src/pages/navbar/ChatbotPage.tsx:605 | the condition of that line, one `Contains` per `includes` with the same literal: "python", used both by the Python roadmap rule and by the Python deep-dive at line 731 |
| Resolver.GenericRoadmapWord | src/pages/navbar/ChatbotPage.tsx:629 | the condition of that line, one `Contains` per `includes` with the same literal: "lộ trình", "roadmap" or "kế hoạch học", without "tạo" |
| Resolver.GreetingWord | src/pages/navbar/ChatbotPage.tsx:660 | the condition of that line, one `Contains` per `includes` with the same literal: "xin chào", "hi", "hey" or "hello" |
| Resolver.CareerWord | src/pages/navbar/ChatbotPage.tsx:675 | the condition of that line, one `Contains` per `includes` with the same literal: "xu hướng", "nghề nghiệp", "career" or "trends" |
| Resolver.LanguagesWord | src/pages/navbar/ChatbotPage.tsx:680 | the condition of that line, one `Contains` per `includes` with the same literal: "ngôn ngữ lập trình", "nên học" or "programming language" |
| Resolver.ResourcesWord | src/pages/navbar/ChatbotPage.tsx:685 | the condition of that line, one `Contains` per `includes` with the same literal: "tài liệu", "học tập", "resources" or "đề xuất" |
| Resolver.PlanWord | src/pages/navbar/ChatbotPage.tsx:690 | the condition of that line, one `Contains` per `includes` with the same literal: "kế hoạch", "lộ trình", "plan" or "roadmap" |
| Resolver.JobWord | src/pages/navbar/ChatbotPage.tsx:695 | the condition of that line, one `Contains` per `includes` with the same literal: "việc làm", "cơ hội", "job" or "career opportunity" |
| Resolver.NamesReact | src/pages/navbar/ChatbotPage.tsx:700 | the condition of that line, one `Contains` per `includes` with the same literal: "react" |
| Resolver.FrontendWord | src/pages/navbar/ChatbotPage.tsx:763 | the condition of that line, one `Contains` per `includes` with the same literal: "frontend" or "front-end" |
| Resolver.BackendWord | src/pages/navbar/ChatbotPage.tsx:811 | the condition of that line, one `Contains` per `includes` with the same literal: "backend" or "back-end" |
| Resolver.AiMlWord | src/pages/navbar/ChatbotPage.tsx:861 | the condition of that line, one `Contains` per `includes` with the same literal: "ai", "machine learning", "ml" or "trí tuệ nhân tạo" |
| Resolver.Classify | src/pages/navbar/ChatbotPage.tsx:580-909 | which branch of the cascade answers the lowered message, tried in source order; pinned down by `ClassifyIsFirstMatch`/`ClassifyIsEarliest` against the rule table and by `PythonRoadmapIff`, `RoadmapGuideIff` and `GreetingIff` |
| Resolver.Answer | src/pages/navbar/ChatbotPage.tsx:580-944 | the payload each branch returns, read from the catalog, and for no match the fallback quoting the original message; its shape is `AnswerShape` |
| Resolver.GetBotResponse | src/pages/navbar/ChatbotPage.tsx:576-945 | total; over a well-formed catalog every answer has a non-empty text; an unmatched message is quoted verbatim with the fallback's next steps and no roadmap |
| Resolver.AnswerShape | src/pages/navbar/ChatbotPage.tsx:576-945 | an answer has a roadmap iff it is one of the two roadmap answers, and then it is the matching template; next steps are absent iff it is the greeting, and otherwise there are four |
| Resolver.Rules | src/pages/navbar/ChatbotPage.tsx:576-945 | the cascade has fourteen rules before the fallback |
| Resolver.FirstMatchIsEarliest | src/pages/navbar/ChatbotPage.tsx:576-945 | first-match semantics: the chosen rule fires, no earlier one does, and nothing is chosen iff no rule fires |
| Resolver.ClassifyIsFirstMatch | src/pages/navbar/ChatbotPage.tsx:576-945 | the if-cascade equals the first match over the ordered rule table |
| Resolver.ClassifyIsEarliest | src/pages/navbar/ChatbotPage.tsx:576-945 | the answering rule's condition holds and every earlier one's fails; the fallback is taken iff no condition holds |
| Resolver.JavaScriptRoadmapFirst | src/pages/navbar/ChatbotPage.tsx:580-602 | a trigger ("lộ trình", "roadmap" or "tạo") together with "javascript" or "js" yields the JavaScript roadmap answer and template, whatever else the message contains |
| Resolver.JsonCountsAsJavaScript | src/pages/navbar/ChatbotPage.tsx:580-581 | a trigger together with "json" yields the JavaScript roadmap, because "js" occurs in "json" |
| Resolver.PythonRoadmapIff | src/pages/navbar/ChatbotPage.tsx:604-605 | the Python roadmap is chosen iff a trigger and "python" occur and JavaScript is not named |
| Resolver.RoadmapGuideIff | src/pages/navbar/ChatbotPage.tsx:629 | the guidance is chosen iff "lộ trình", "roadmap" or "kế hoạch học" occurs and no technology roadmap rule fired; "tạo" alone never reaches it |
| Resolver.GreetingIff | src/pages/navbar/ChatbotPage.tsx:660 | the greeting is chosen iff a greeting word occurs and none of the three roadmap rules fired |
| Resolver.GreetingShadowsLongerKeywords | src/pages/navbar/ChatbotPage.tsx:660-862 | a message containing "machine learning" or "nghề nghiệp" is answered by a roadmap rule or the greeting, never by the AI/ML or the career rule |
| Resolver.CareerShadowsJobKeyword | src/pages/navbar/ChatbotPage.tsx:675-696 | a message containing "career opportunity" never gets the job answer |
| Resolver.LearningPlanKeywords | src/pages/navbar/ChatbotPage.tsx:690 | the learning-plan answer is reached only through "kế hoạch" or "plan", never with "lộ trình" or "roadmap" present |
| Resolver.PythonDeepDive | src/pages/navbar/ChatbotPage.tsx:731 | the Python deep-dive needs "python" with no trigger and no "react"; "python" with a trigger always gets a roadmap |
| Resolver.NoKeywordFallsBack | src/pages/navbar/ChatbotPage.tsx:912-944 | a message with no keyword of any rule gets the fallback, which quotes it |
| Resolver.KeywordFoundInAnyCase | src/pages/navbar/ChatbotPage.tsx:577 | a keyword w typed in any mix of cases (any v with Lower(v) == w) in the message is found in the lowered message |
| Resolver.ExampleCapitalKeyword | src/pages/navbar/ChatbotPage.tsx:577-581 | "Học JS" is lowered before the test, so its "JS" counts as the keyword "js" |
| Resolver.ExampleJavaScriptRoadmap | src/pages/navbar/ChatbotPage.tsx:580-602 | "Tạo lộ trình JavaScript" gets the JavaScript roadmap answer |
| Resolver.ExampleTriggerAlone | src/pages/navbar/ChatbotPage.tsx:580-944 | "tạo" alone matches no rule and gets the fallback quoting it |
| Chat.UserMessage | src/pages/navbar/ChatbotPage.tsx:547-552 | a user message carries the submitted text and no attachments |
| Chat.BotMessage | src/pages/navbar/ChatbotPage.tsx:561-570 | a bot message copies the answer's text, recommendations, resources, next steps and roadmap |
| Chat.Welcome | src/pages/navbar/ChatbotPage.tsx:115-122 | the opening message is a bot message with the welcome text and no attachments |
| Chat.Transcript | src/pages/navbar/ChatbotPage.tsx:543-573 | after n answered questions the conversation has 1 + 2n messages and starts with the welcome |
| Chat.TranscriptAt | src/pages/navbar/ChatbotPage.tsx:543-573 | question k and its answer sit at positions 1 + 2k and 2 + 2k |
| Chat.TranscriptExtends | src/pages/navbar/ChatbotPage.tsx:555-571 | one more answered question appends exactly its user message and bot message |
| Chat.TranscriptPrefix | src/pages/navbar/ChatbotPage.tsx:555-571 | the conversation is append-only: an earlier one is a prefix of every later one |
| Chat.RepliesAnswerQuestions | src/pages/navbar/ChatbotPage.tsx:559-572 | each bot reply is the resolver's answer to the user message right before it |
| Chat.TranscriptAlternates | src/pages/navbar/ChatbotPage.tsx:543-573 | after the welcome, user and bot messages alternate |
| Chat.TranscriptTexts | src/pages/navbar/ChatbotPage.tsx:543-573 | every bot message has a text and no user message is blank |
| Chat.Shown | src/pages/navbar/ChatbotPage.tsx:543-573 | the page shows the conversation and, while typing, the pending question after it |
| Chat.ShownShape | src/pages/navbar/ChatbotPage.tsx:543-573 | what the page shows alternates bot/user, has no empty bot message and no blank user message |
| Chat.ChatPage.constructor | src/pages/navbar/ChatbotPage.tsx:115-124 | the page starts with only the welcome message, an empty input and no typing indicator |
| Chat.ChatPage.SetInput | src/pages/navbar/ChatbotPage.tsx:947-949 | a suggestion click or keystroke sets the input and changes nothing else, even while typing |
| Chat.ChatPage.Submit | src/pages/navbar/ChatbotPage.tsx:543-557 | blank input changes nothing; otherwise exactly one user message with the input is appended, the input is cleared and typing starts |
| Chat.ChatPage.Deliver | src/pages/navbar/ChatbotPage.tsx:559-573 | exactly one bot message with the resolver's answer to the submitted text is appended, typing stops, the input is untouched |
| Chat.ShownConversation | src/pages/navbar/ChatbotPage.tsx:543-573 | on any reachable page, senders alternate, bot texts are non-empty, user messages are non-blank, and every reply answers the user message before it |

## Left out

- Display copy: each catalog text is cut to its heading line, and each recommendation section is cut to its title. The following are not modelled: the section items, resource descriptions, and template descriptions, prerequisites and career outcomes. So are the step descriptions, skills and resources. They are constants that no decision depends on, and their full text would dominate the cost of every proof about the catalog.
- Catalog.DefaultAnswer: the fallback text keeps its opening and the quote around the message and drops the list of example questions after it. Its contract is stated over the shortened text.
- Rendering: JSX, icons, theme, scrolling, and the splitting of texts into paragraphs are not modelled.
- The 1500 ms timer is not modelled. Delivery is the separate `Deliver` step, which may run only while the bot is typing.
- Message ids and timestamps are left out because they come from the clock.
- Text.LowerChar: lowercases ASCII, Latin-1 and the Vietnamese letters only. Other scripts pass through unchanged, which differs from the full Unicode `toLowerCase`. Every keyword is lowercase Vietnamese or ASCII.
- The step-completion button only writes to the console, so it has no model. `completed` is never set.
- Static display data with no logic is not modelled: the feature list, prompt categories, quick prompts, recommendation cards, FAQ and statistics.
- The form event (`preventDefault`) is not modelled.
