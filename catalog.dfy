/** The chatbot's response catalog: the record types an answer is made of,
    the two learning-roadmap templates, the canned topic answers, the
    answers written inline in the resolver, and the opening message of a
    conversation. All of it is constant: nothing in the program updates a
    template or a catalog entry after it is built.

    `Responses` gathers the answers into one value, `Standard()` is the
    program's own catalog, and `WellFormed` is what the resolver relies
    on. Display copy that no rule looks at (the body of each
    narrative text below its heading, section items, resource and step
    descriptions, skills, prerequisites, career outcomes) is not part of
    the model: each narrative text is the heading line of the program's
    text, and each recommendation section keeps its title only. Strings
    longer than sixteen characters are written as concatenations of
    pieces of at most sixteen, which keeps the verifier's work on them
    small; the pieces join to the program's own wording. */
module Catalog {
  import opened Text

  datatype Option<T> = None | Some(value: T)

  /** A titled block of recommendations (`RecommendationSection`). */
  datatype Section = Section(title: string)

  /** A link to further material (`Resource`). */
  datatype Resource = Resource(title: string, link: string)

  datatype Difficulty = Beginner | Intermediate | Advanced

  /** One stage of a roadmap (`RoadmapStep`); `completed` is optional in the
      program and no template sets it. */
  datatype Step = Step(
    id: string,
    title: string,
    duration: string,
    difficulty: Difficulty,
    completed: Option<bool>)

  /** A multi-stage curriculum (`LearningRoadmap`). */
  datatype Roadmap = Roadmap(
    id: string,
    title: string,
    totalDuration: string,
    difficulty: string,
    steps: seq<Step>)

  /** What the resolver returns (`AIResponse`): a narrative text and four
      optional parts. */
  datatype AIResponse = AIResponse(
    text: string,
    recommendations: Option<seq<Section>>,
    resources: Option<seq<Resource>>,
    nextSteps: Option<seq<string>>,
    roadmap: Option<Roadmap>)

  /** The answer lists exactly four next steps. */
  predicate FourNextSteps(r: AIResponse) {
    r.nextSteps.Some? && |r.nextSteps.value| == 4
  }

  /** A topic answer: non-empty text, four next steps, no roadmap. */
  predicate TopicAnswer(r: AIResponse) {
    |r.text| > 0 && FourNextSteps(r) && r.roadmap == None
  }

  // ---------------------------------------------------------------------
  // Roadmap templates (`roadmapTemplates`)

  /** The id of the n-th stage of a template: "step1", "step2", ... */
  function StepId(n: nat): (id: string)
    requires 1 <= n <= 9
    ensures |id| == 5 && id[..4] == "step" && id[4] == ('0' as int + n) as char
  {
    "step" + [('0' as int + n) as char]
  }

  /** Different stage numbers give different ids. */
  lemma StepIdInjective(m: nat, n: nat)
    requires 1 <= m <= 9 && 1 <= n <= 9
    ensures StepId(m) == StepId(n) <==> m == n
  {
    if m != n {
      assert StepId(m)[4] != StepId(n)[4];
    }
  }

  /** `roadmapTemplates.javascript` */
  function JavaScriptRoadmap(): Roadmap
  {
    Roadmap(
      "js-roadmap",
      "Lộ Trình Học " + "JavaScript Toàn " + "Diện",
      /* totalDuration */ "4-6 tháng",
      /* difficulty */ "Beginner to " + "Advanced",
      [
        Step(StepId(1), "Nền Tảng Web " + "Development", "2-3 tuần", Beginner, None),
        Step(StepId(2), "JavaScript Cơ " + "Bản", "3-4 tuần", Beginner, None),
        Step(StepId(3), "DOM " + "Manipulation & " + "Events", "2-3 tuần", Intermediate, None),
        Step(StepId(4), "ES6+ & Modern " + "JavaScript", "2-3 tuần", Intermediate, None),
        Step(StepId(5), "API & AJAX", "2 tuần", Intermediate, None),
        Step(StepId(6), "Framework " + "(React/Vue)", "4-6 tuần", Advanced, None),
        Step(StepId(7), "Tools & " + "Deployment", "2-3 tuần", Advanced, None)
      ])
  }

  /** `roadmapTemplates.python` */
  function PythonRoadmap(): Roadmap
  {
    Roadmap(
      "python-roadmap",
      "Lộ Trình Học " + "Python Toàn Diện",
      /* totalDuration */ "3-5 tháng",
      /* difficulty */ "Beginner to " + "Advanced",
      [
        Step(StepId(1), "Python Cơ Bản", "2-3 tuần", Beginner, None),
        Step(StepId(2), "OOP & Modules", "2-3 tuần", Intermediate, None),
        Step(StepId(3), "Libraries & " + "Frameworks", "4-6 tuần", Intermediate, None),
        Step(StepId(4), "Projects & " + "Portfolio", "3-4 tuần", Advanced, None)
      ])
  }

  /** A template's stages are numbered step1, step2, ... in order. */
  ghost predicate NumberedSteps(steps: seq<Step>) {
    |steps| <= 9 && forall i :: 0 <= i < |steps| ==> steps[i].id == StepId(i + 1)
  }

  /** No two stages share an id. */
  ghost predicate DistinctStepIds(steps: seq<Step>) {
    forall i, j :: 0 <= i < j < |steps| ==> steps[i].id != steps[j].id
  }

  function Rank(d: Difficulty): nat {
    match d
    case Beginner => 0
    case Intermediate => 1
    case Advanced => 2
  }

  /** Each stage is at least as hard as the one before it. */
  ghost predicate NonDecreasingDifficulty(steps: seq<Step>) {
    forall i :: 0 < i < |steps| ==> Rank(steps[i - 1].difficulty) <= Rank(steps[i].difficulty)
  }

  /** No stage of the template is marked completed. */
  ghost predicate FreshProgress(steps: seq<Step>) {
    forall i :: 0 <= i < |steps| ==> steps[i].completed == None
  }

  /** Numbered ids are distinct ids. */
  lemma NumberedStepsDistinct(steps: seq<Step>)
    requires NumberedSteps(steps)
    ensures DistinctStepIds(steps)
  {
    forall i, j | 0 <= i < j < |steps| ensures steps[i].id != steps[j].id {
      StepIdInjective(i + 1, j + 1);
    }
  }

  /** The stages of the JavaScript template are numbered step1..step7. */
  lemma JavaScriptStepsNumbered()
    ensures |JavaScriptRoadmap().steps| == 7 && NumberedSteps(JavaScriptRoadmap().steps)
  {
  }

  /** The stages of the JavaScript template get harder or stay level, and
      none is completed. */
  lemma JavaScriptStepsOrdered()
    ensures NonDecreasingDifficulty(JavaScriptRoadmap().steps) && FreshProgress(JavaScriptRoadmap().steps)
  {
  }

  /** The JavaScript template: seven stages step1..step7 with distinct ids,
      4-6 months in total, difficulty rising from Beginner to Advanced,
      nothing completed yet. */
  lemma JavaScriptTemplate()
    ensures var r := JavaScriptRoadmap();
      |r.steps| == 7 && NumberedSteps(r.steps) && DistinctStepIds(r.steps) &&
      r.totalDuration == "4-6 tháng" &&
      r.steps[0].difficulty == Beginner && r.steps[6].difficulty == Advanced &&
      NonDecreasingDifficulty(r.steps) && FreshProgress(r.steps)
  {
    JavaScriptStepsNumbered();
    JavaScriptStepsOrdered();
    NumberedStepsDistinct(JavaScriptRoadmap().steps);
  }

  /** The stages of the Python template are numbered step1..step4. */
  lemma PythonStepsNumbered()
    ensures |PythonRoadmap().steps| == 4 && NumberedSteps(PythonRoadmap().steps)
  {
  }

  /** The stages of the Python template get harder or stay level, and
      none is completed. */
  lemma PythonStepsOrdered()
    ensures NonDecreasingDifficulty(PythonRoadmap().steps) && FreshProgress(PythonRoadmap().steps)
  {
  }

  /** The Python template: four stages step1..step4 with distinct ids,
      3-5 months in total, difficulty rising from Beginner to Advanced,
      nothing completed yet. */
  lemma PythonTemplate()
    ensures var r := PythonRoadmap();
      |r.steps| == 4 && NumberedSteps(r.steps) && DistinctStepIds(r.steps) &&
      r.totalDuration == "3-5 tháng" &&
      r.steps[0].difficulty == Beginner && r.steps[3].difficulty == Advanced &&
      NonDecreasingDifficulty(r.steps) && FreshProgress(r.steps)
  {
    PythonStepsNumbered();
    PythonStepsOrdered();
    NumberedStepsDistinct(PythonRoadmap().steps);
  }

  // ---------------------------------------------------------------------
  // Canned topic answers (`aiResponses`)

  /** `aiResponses.careerTrends` */
  function CareerTrends(): (r: AIResponse)
    ensures TopicAnswer(r)
  {
    AIResponse(
      /* text */ "🚀 **Xu hướng " + "nghề nghiệp " + "công nghệ " + "2024:**",
      /* recommendations */ Some([Section("Lĩnh vực tăng " + "trưởng cao")]),
      /* resources */ None,
      /* nextSteps */ Some([
        "Làm bài kiểm " + "tra định hướng " + "nghề nghiệp",
        "Khám phá lộ " + "trình học chi " + "tiết cho từng " + "vai trò",
        "Tham gia cộng " + "đồng công nghệ",
        "Đặt lịch tư vấn " + "với chuyên gia " + "nghề nghiệp"
      ]),
      /* roadmap */ None)
  }

  /** `aiResponses.programmingLanguages` */
  function ProgrammingLanguages(): (r: AIResponse)
    ensures TopicAnswer(r)
  {
    AIResponse(
      /* text */ "💻 **Ngôn ngữ " + "lập trình nên " + "học 2024:**",
      /* recommendations */ Some([Section("Ngôn ngữ thiết " + "yếu")]),
      /* resources */ None,
      /* nextSteps */ Some([
        "Chọn ngôn ngữ " + "lập trình đầu " + "tiên",
        "Thiết lập môi " + "trường phát " + "triển",
        "Hoàn thành " + "tutorial cơ bản",
        "Xây dựng dự án " + "đầu tiên"
      ]),
      /* roadmap */ None)
  }

  /** `aiResponses.learningResources` */
  function LearningResources(): (r: AIResponse)
    ensures TopicAnswer(r)
  {
    AIResponse(
      /* text */ "📚 **Tài liệu " + "học tập được đề " + "xuất:**",
      /* recommendations */ None,
      /* resources */ Some([
        Resource("Khóa học lập " + "trình cơ bản", "/courses/program" + "ming-basics"),
        Resource("Lộ trình Web " + "Development", "/paths/web-devel" + "opment")
      ]),
      /* nextSteps */ Some([
        "Chọn nền tảng " + "học phù hợp",
        "Đăng ký khóa " + "học cơ bản",
        "Tham gia cộng " + "đồng học tập",
        "Thực hành hàng " + "ngày"
      ]),
      /* roadmap */ None)
  }

  /** `aiResponses.learningPlan` */
  function LearningPlan(): (r: AIResponse)
    ensures TopicAnswer(r)
  {
    AIResponse(
      /* text */ "📝 **Kế hoạch " + "học tập được cá " + "nhân hóa:**",
      /* recommendations */ Some([Section("Giai đoạn nền " + "tảng")]),
      /* resources */ None,
      /* nextSteps */ Some([
        "Hoàn thành đánh " + "giá kỹ năng",
        "Đặt mục tiêu " + "học tập",
        "Tạo lịch học",
        "Tham gia nhóm " + "học tập"
      ]),
      /* roadmap */ None)
  }

  /** `aiResponses.jobOpportunities` */
  function JobOpportunities(): (r: AIResponse)
    ensures TopicAnswer(r)
  {
    AIResponse(
      /* text */ "💼 **Cơ hội việc " + "làm phù hợp:**",
      /* recommendations */ Some([Section("Việc làm hot " + "nhất")]),
      /* resources */ None,
      /* nextSteps */ Some([
        "Cập nhật CV và " + "portfolio",
        "Luyện tập " + "coding interview",
        "Tìm hiểu về " + "công ty mục tiêu",
        "Chuẩn bị câu " + "hỏi phỏng vấn"
      ]),
      /* roadmap */ None)
  }

  // ---------------------------------------------------------------------
  // Answers written inline in the resolver

  /** The JavaScript roadmap answer: the JavaScript template and four first steps. */
  function JavaScriptRoadmapAnswer(): (r: AIResponse)
    ensures |r.text| > 0 && FourNextSteps(r) && r.roadmap == Some(JavaScriptRoadmap())
  {
    AIResponse(
      /* text */ "🗺️ **Lộ Trình " + "Học JavaScript " + "Toàn Diện**",
      /* recommendations */ None,
      /* resources */ None,
      /* nextSteps */ Some([
        "Bắt đầu với " + "Giai đoạn 1: " + "HTML/CSS",
        "Cài đặt VS Code " + "và browser",
        "Tham gia cộng " + "đồng JavaScript " + "Vietnam",
        "Đặt mục tiêu " + "học 1-2 giờ/ngày"
      ]),
      /* roadmap */ Some(JavaScriptRoadmap()))
  }

  /** The Python roadmap answer: the Python template and four first steps. */
  function PythonRoadmapAnswer(): (r: AIResponse)
    ensures |r.text| > 0 && FourNextSteps(r) && r.roadmap == Some(PythonRoadmap())
  {
    AIResponse(
      /* text */ "🐍 **Lộ Trình " + "Học Python Toàn " + "Diện**",
      /* recommendations */ None,
      /* resources */ None,
      /* nextSteps */ Some([
        "Cài đặt Python " + "và PyCharm/VS " + "Code",
        "Bắt đầu với " + "Python cơ bản",
        "Chọn hướng " + "chuyên sâu " + "(Web/Data/AI)",
        "Thực hành " + "coding hàng ngày"
      ]),
      /* roadmap */ Some(PythonRoadmap()))
  }

  /** The answer to a roadmap request naming no known technology. */
  function RoadmapGuidance(): (r: AIResponse)
    ensures TopicAnswer(r)
  {
    AIResponse(
      /* text */ "🗺️ **Tạo Lộ " + "Trình Học Cá " + "Nhân Hóa**",
      /* recommendations */ None,
      /* resources */ None,
      /* nextSteps */ Some([
        "Chọn ngôn ngữ " + "lập trình muốn " + "học",
        "Xác định mục " + "tiêu nghề nghiệp",
        "Đánh giá thời " + "gian có thể học",
        "Yêu cầu tạo lộ " + "trình cụ thể"
      ]),
      /* roadmap */ None)
  }

  /** The greeting: a text and nothing else. */
  function Greeting(): (r: AIResponse)
    ensures |r.text| > 0 && r.nextSteps == None && r.roadmap == None
    ensures r.recommendations == None && r.resources == None
  {
    AIResponse(
      /* text */ "Xin chào! 👋 Tôi " + "là trợ lý AI " + "của SkillVerse. ",
      /* recommendations */ None,
      /* resources */ None,
      /* nextSteps */ None,
      /* roadmap */ None)
  }

  function ReactAnswer(): (r: AIResponse)
    ensures TopicAnswer(r)
  {
    AIResponse(
      /* text */ "⚛️ **React - " + "Thư viện " + "Frontend hàng " + "đầu**",
      /* recommendations */ None,
      /* resources */ None,
      /* nextSteps */ Some([
        "Học JavaScript " + "ES6+ trước",
        "Bắt đầu với " + "Create React App",
        "Thực hành với " + "dự án nhỏ",
        "Tham gia cộng " + "đồng React " + "Vietnam"
      ]),
      /* roadmap */ None)
  }

  /** The Python deep-dive (not the Python roadmap). */
  function PythonAnswer(): (r: AIResponse)
    ensures TopicAnswer(r)
  {
    AIResponse(
      /* text */ "🐍 **Python - " + "Ngôn ngữ đa " + "năng số 1**",
      /* recommendations */ None,
      /* resources */ None,
      /* nextSteps */ Some([
        "Cài đặt Python " + "và IDE",
        "Học cú pháp cơ " + "bản",
        "Chọn lĩnh vực " + "chuyên sâu",
        "Xây dựng dự án " + "đầu tiên"
      ]),
      /* roadmap */ None)
  }

  function FrontendAnswer(): (r: AIResponse)
    ensures TopicAnswer(r)
  {
    AIResponse(
      /* text */ "🎨 **Frontend " + "Development - " + "Xây dựng giao " + "diện người " + "dùng**",
      /* recommendations */ Some([Section("Kỹ năng " + "Frontend thiết " + "yếu")]),
      /* resources */ None,
      /* nextSteps */ Some([
        "Học HTML, CSS " + "cơ bản",
        "Thành thạo " + "JavaScript",
        "Chọn React hoặc " + "Vue.js",
        "Xây dựng " + "portfolio"
      ]),
      /* roadmap */ None)
  }

  function BackendAnswer(): (r: AIResponse)
    ensures TopicAnswer(r)
  {
    AIResponse(
      /* text */ "⚙️ **Backend " + "Development - " + "Xây dựng logic " + "và cơ sở dữ " + "liệu**",
      /* recommendations */ Some([Section("Backend roadmap")]),
      /* resources */ None,
      /* nextSteps */ Some([
        "Chọn ngôn ngữ " + "backend",
        "Học SQL và " + "database",
        "Xây dựng API " + "đầu tiên",
        "Deploy lên cloud"
      ]),
      /* roadmap */ None)
  }

  function AiMlAnswer(): (r: AIResponse)
    ensures TopicAnswer(r)
  {
    AIResponse(
      /* text */ "🤖 **AI/Machine " + "Learning - Lĩnh " + "vực hot nhất**",
      /* recommendations */ Some([Section("Lộ trình AI/ML")]),
      /* resources */ None,
      /* nextSteps */ Some([
        "Học Python và " + "statistics",
        "Khóa học ML cơ " + "bản",
        "Thực hành với " + "datasets",
        "Xây dựng dự án " + "ML"
      ]),
      /* roadmap */ None)
  }

  /** The text of the fallback answer before the quoted message. */
  function DefaultOpening(): (r: string)
    ensures |r| > 0
  {
    "🤔 Tôi hiểu bạn " + "đang tìm kiếm " + "thông tin về \""
  }

  /** The text of the fallback answer after the quoted message. */
  function DefaultClosing(): string
  {
    "\". "
  }

  /** The next steps of the fallback answer. */
  function DefaultNextSteps(): (r: seq<string>)
    ensures |r| == 4
  {
    [
      "Hỏi về lĩnh vực " + "cụ thể bạn quan " + "tâm",
      "Chia sẻ mục " + "tiêu nghề " + "nghiệp của bạn",
      "Cho biết kinh " + "nghiệm hiện tại",
      "Sử dụng gợi ý " + "phía trên"
    ]
  }

  // ---------------------------------------------------------------------
  // The catalog as one value

  /** `roadmapTemplates` */
  datatype Templates = Templates(javascript: Roadmap, python: Roadmap)

  /** The three roadmap answers at the top of the cascade. */
  datatype RoadmapAnswers = RoadmapAnswers(javascript: AIResponse, python: AIResponse, guidance: AIResponse)

  /** `aiResponses` */
  datatype Topics = Topics(
    careerTrends: AIResponse,
    programmingLanguages: AIResponse,
    learningResources: AIResponse,
    learningPlan: AIResponse,
    jobOpportunities: AIResponse)

  /** The technology deep-dives written inline in the resolver. */
  datatype TechAnswers = TechAnswers(
    react: AIResponse,
    python: AIResponse,
    frontend: AIResponse,
    backend: AIResponse,
    aiMl: AIResponse)

  /** The fallback answer, kept as the text around the quoted message and
      its next steps. */
  datatype Fallback = Fallback(opening: string, closing: string, nextSteps: seq<string>)

  /** Every answer the resolver can give, and the text of the message a
      conversation opens with. */
  datatype Responses = Responses(
    welcome: string,
    templates: Templates,
    roadmaps: RoadmapAnswers,
    greeting: AIResponse,
    topics: Topics,
    tech: TechAnswers,
    fallback: Fallback)

  /** The two roadmap answers carry the two templates; all three answers
      have a text and four next steps. */
  predicate RoadmapAnswersWellFormed(a: RoadmapAnswers, t: Templates) {
    |a.javascript.text| > 0 && FourNextSteps(a.javascript) && a.javascript.roadmap == Some(t.javascript) &&
    |a.python.text| > 0 && FourNextSteps(a.python) && a.python.roadmap == Some(t.python) &&
    TopicAnswer(a.guidance)
  }

  predicate TopicsWellFormed(t: Topics) {
    TopicAnswer(t.careerTrends) && TopicAnswer(t.programmingLanguages) &&
    TopicAnswer(t.learningResources) && TopicAnswer(t.learningPlan) &&
    TopicAnswer(t.jobOpportunities)
  }

  predicate TechAnswersWellFormed(t: TechAnswers) {
    TopicAnswer(t.react) && TopicAnswer(t.python) && TopicAnswer(t.frontend) &&
    TopicAnswer(t.backend) && TopicAnswer(t.aiMl)
  }

  predicate FallbackWellFormed(f: Fallback) {
    |f.opening| > 0 && |f.nextSteps| == 4
  }

  /** What the program's catalog guarantees and the resolver and the chat
      page rely on: the welcome text and every answer's text are non-empty,
      every answer but the greeting has four next steps, exactly the two
      roadmap answers carry a roadmap, and they carry the two templates. */
  predicate WellFormed(c: Responses) {
    |c.welcome| > 0 &&
    RoadmapAnswersWellFormed(c.roadmaps, c.templates) &&
    |c.greeting.text| > 0 && c.greeting.nextSteps == None && c.greeting.roadmap == None &&
    TopicsWellFormed(c.topics) && TechAnswersWellFormed(c.tech) && FallbackWellFormed(c.fallback)
  }

  function StandardTemplates(): (t: Templates)
    ensures t.javascript == JavaScriptRoadmap() && t.python == PythonRoadmap()
  {
    Templates(JavaScriptRoadmap(), PythonRoadmap())
  }

  function StandardRoadmapAnswers(): (a: RoadmapAnswers)
    ensures RoadmapAnswersWellFormed(a, StandardTemplates())
  {
    RoadmapAnswers(JavaScriptRoadmapAnswer(), PythonRoadmapAnswer(), RoadmapGuidance())
  }

  function StandardTopics(): (t: Topics)
    ensures TopicsWellFormed(t)
  {
    Topics(CareerTrends(), ProgrammingLanguages(), LearningResources(), LearningPlan(), JobOpportunities())
  }

  function StandardTechAnswers(): (t: TechAnswers)
    ensures TechAnswersWellFormed(t)
  {
    TechAnswers(ReactAnswer(), PythonAnswer(), FrontendAnswer(), BackendAnswer(), AiMlAnswer())
  }

  function StandardFallback(): (f: Fallback)
    ensures FallbackWellFormed(f)
  {
    Fallback(DefaultOpening(), DefaultClosing(), DefaultNextSteps())
  }

  /** The catalog of the program: the opening message of the `messages`
      state, `roadmapTemplates`, `aiResponses` and the answers written
      inline in `getBotResponse`; it is well-formed. */
  function Standard(): (c: Responses)
    ensures WellFormed(c)
  {
    Responses(
      WelcomeText(),
      StandardTemplates(),
      StandardRoadmapAnswers(),
      Greeting(),
      StandardTopics(),
      StandardTechAnswers(),
      StandardFallback())
  }

  /** The fallback answer: the user's ORIGINAL message, not its lowered form,
      quoted verbatim between the opening and the closing text, with the
      fallback's next steps and nothing else. */
  function DefaultAnswer(f: Fallback, message: string): (r: AIResponse)
    ensures Contains(r.text, message)
    ensures |r.text| == |f.opening| + |message| + |f.closing|
    ensures r.nextSteps == Some(f.nextSteps)
    ensures r.roadmap == None && r.recommendations == None && r.resources == None
  {
    ContainsInContext(f.opening, message, f.closing);
    AIResponse(f.opening + message + f.closing, None, None, Some(f.nextSteps), None)
  }

  /** The text of the assistant message a conversation opens with. */
  function WelcomeText(): (r: string)
    ensures |r| > 0
  {
    "Xin chào! Tôi " +
    "là trợ lý AI " +
    "của SkillVerse. " +
    "Tôi có thể giúp " +
    "bạn:\n" +
    "• 🎯 Lập kế " +
    "hoạch nghề " +
    "nghiệp\n" +
    "• 📚 Tư vấn khóa " +
    "học phù hợp\n" +
    "• 💼 Phân tích " +
    "thị trường việc " +
    "làm\n" +
    "• �️ Tạo lộ " +
    "trình học tương " +
    "tác cho từng " +
    "ngôn ngữ lập " +
    "trình\n" +
    "• �🚀 Phát triển " +
    "kỹ năng\n" +
    "\n" +
    "Thử hỏi: \"Tạo " +
    "lộ trình học " +
    "JavaScript\" " +
    "hoặc \"Lộ trình " +
    "học Python\"!"
  }
}
