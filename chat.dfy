/** The chat page's conversation state and its event handlers: the list of
    messages, the text in the input field and the typing indicator.
    Submitting a non-blank input appends the user's message and starts
    the typing indicator; a timer later appends the bot's answer to the
    text that was submitted and stops the indicator.

    Message ids and timestamps, which come from the clock, are not part of
    the model; the timer is the separate step `Deliver`. */
module Chat {
  import opened Text
  import Catalog
  import Resolver

  datatype Sender = User | Bot

  /** A chat message: who sent it, its text, and the attachments a bot
      message copies from the answer it shows. */
  datatype Message = Message(
    sender: Sender,
    content: string,
    recommendations: Catalog.Option<seq<Catalog.Section>>,
    resources: Catalog.Option<seq<Catalog.Resource>>,
    nextSteps: Catalog.Option<seq<string>>,
    roadmap: Catalog.Option<Catalog.Roadmap>)

  function UserMessage(text: string): (m: Message)
    ensures m.sender == User && m.content == text
    ensures m.recommendations.None? && m.resources.None? && m.nextSteps.None? && m.roadmap.None?
  {
    Message(User, text, Catalog.None, Catalog.None, Catalog.None, Catalog.None)
  }

  /** The bot message showing answer r: its text as content and all of its
      attachments. */
  function BotMessage(r: Catalog.AIResponse): (m: Message)
    ensures m.sender == Bot && m.content == r.text
    ensures m.recommendations == r.recommendations && m.resources == r.resources
    ensures m.nextSteps == r.nextSteps && m.roadmap == r.roadmap
  {
    Message(Bot, r.text, r.recommendations, r.resources, r.nextSteps, r.roadmap)
  }

  /** The bot message the conversation starts with: the catalog's welcome
      text and no attachments. */
  function Welcome(c: Catalog.Responses): (m: Message)
    ensures m.sender == Bot && m.content == c.welcome
    ensures m.recommendations.None? && m.resources.None? && m.nextSteps.None? && m.roadmap.None?
  {
    Message(Bot, c.welcome, Catalog.None, Catalog.None, Catalog.None, Catalog.None)
  }

  /** One answered question: the text the user submitted and the answer
      shown for it. */
  datatype Exchange = Exchange(question: string, answer: Catalog.AIResponse)

  /** Every recorded answer is the resolver's answer to its question. */
  ghost predicate Answered(c: Catalog.Responses, xs: seq<Exchange>) {
    forall k :: 0 <= k < |xs| ==> xs[k].answer == Resolver.GetBotResponse(c, xs[k].question)
  }

  /** No recorded question is blank. */
  ghost predicate NonBlankQuestions(xs: seq<Exchange>) {
    forall k :: 0 <= k < |xs| ==> !IsBlank(xs[k].question)
  }

  /** The conversation after the exchanges xs: the welcome message, then for
      each exchange the user's message and the bot's answer. */
  function Transcript(c: Catalog.Responses, xs: seq<Exchange>): (ms: seq<Message>)
    ensures |ms| == 1 + 2 * |xs|
    ensures ms[0] == Welcome(c)
  {
    if xs == [] then [Welcome(c)]
    else
      var x := xs[|xs| - 1];
      Transcript(c, xs[..|xs| - 1]) + [UserMessage(x.question), BotMessage(x.answer)]
  }

  /** Exchange k sits at positions 1 + 2k and 2 + 2k. */
  lemma {:induction false} TranscriptAt(c: Catalog.Responses, xs: seq<Exchange>, k: nat)
    requires k < |xs|
    ensures Transcript(c, xs)[1 + 2 * k] == UserMessage(xs[k].question)
    ensures Transcript(c, xs)[2 + 2 * k] == BotMessage(xs[k].answer)
  {
    var init := xs[..|xs| - 1];
    if k < |xs| - 1 {
      TranscriptAt(c, init, k);
      assert Transcript(c, xs)[1 + 2 * k] == Transcript(c, init)[1 + 2 * k];
      assert Transcript(c, xs)[2 + 2 * k] == Transcript(c, init)[2 + 2 * k];
    }
  }

  /** One more exchange only appends to the conversation. */
  lemma TranscriptExtends(c: Catalog.Responses, xs: seq<Exchange>, x: Exchange)
    ensures Transcript(c, xs + [x]) ==
      Transcript(c, xs) + [UserMessage(x.question), BotMessage(x.answer)]
  {
    assert (xs + [x])[..|xs|] == xs;
  }

  /** The conversation is append-only: an earlier conversation is a prefix
      of every later one. */
  lemma TranscriptPrefix(c: Catalog.Responses, xs: seq<Exchange>, more: seq<Exchange>)
    ensures Transcript(c, xs) <= Transcript(c, xs + more)
  {
    var t0, t1 := Transcript(c, xs), Transcript(c, xs + more);
    forall k | 0 < k < |t0| ensures t0[k] == t1[k] {
      var j := (k - 1) / 2;
      TranscriptAt(c, xs, j);
      TranscriptAt(c, xs + more, j);
      assert (xs + more)[j] == xs[j];
      assert k == 1 + 2 * j || k == 2 + 2 * j;
    }
  }

  /** Each bot message after the welcome is the resolver's answer to the
      user message right before it. */
  lemma RepliesAnswerQuestions(c: Catalog.Responses, xs: seq<Exchange>)
    requires Answered(c, xs)
    ensures forall j :: 0 <= j < |xs| ==>
      Transcript(c, xs)[2 + 2 * j] ==
        BotMessage(Resolver.GetBotResponse(c, Transcript(c, xs)[1 + 2 * j].content))
  {
    forall j | 0 <= j < |xs|
      ensures Transcript(c, xs)[2 + 2 * j] ==
        BotMessage(Resolver.GetBotResponse(c, Transcript(c, xs)[1 + 2 * j].content))
    {
      TranscriptAt(c, xs, j);
    }
  }

  /** Senders alternate: the bot at even positions, the user at odd ones. */
  predicate Alternates(ms: seq<Message>) {
    forall k :: 0 <= k < |ms| ==> ms[k].sender == (if k % 2 == 0 then Bot else User)
  }

  lemma TranscriptAlternates(c: Catalog.Responses, xs: seq<Exchange>)
    ensures Alternates(Transcript(c, xs))
  {
    var ms := Transcript(c, xs);
    forall k | 0 < k < |ms| ensures ms[k].sender == (if k % 2 == 0 then Bot else User) {
      var j := (k - 1) / 2;
      TranscriptAt(c, xs, j);
      assert k == 1 + 2 * j || k == 2 + 2 * j;
    }
  }

  /** Over a well-formed catalog no bot message is empty, and no user
      message is blank when no question was. */
  lemma TranscriptTexts(c: Catalog.Responses, xs: seq<Exchange>)
    requires Catalog.WellFormed(c) && Answered(c, xs) && NonBlankQuestions(xs)
    ensures forall k :: 0 <= k < |Transcript(c, xs)| ==>
      var m := Transcript(c, xs)[k];
      (m.sender == Bot ==> |m.content| > 0) && (m.sender == User ==> !IsBlank(m.content))
  {
    var ms := Transcript(c, xs);
    forall k | 0 < k < |ms|
      ensures ms[k].sender == Bot ==> |ms[k].content| > 0
      ensures ms[k].sender == User ==> !IsBlank(ms[k].content)
    {
      var j := (k - 1) / 2;
      TranscriptAt(c, xs, j);
      assert xs[j].answer == Resolver.GetBotResponse(c, xs[j].question);
    }
  }

  /** What the page shows: the conversation so far and, while the bot is
      typing, the question it is answering. */
  function Shown(c: Catalog.Responses, xs: seq<Exchange>, typing: bool, pending: string): (ms: seq<Message>)
    ensures Transcript(c, xs) <= ms
    ensures |ms| == |Transcript(c, xs)| + (if typing then 1 else 0)
    ensures typing ==> ms[|ms| - 1] == UserMessage(pending)
  {
    Transcript(c, xs) + (if typing then [UserMessage(pending)] else [])
  }

  /** Senders alternate in what the page shows, every bot message has a
      text and no user message is blank. */
  lemma ShownShape(c: Catalog.Responses, xs: seq<Exchange>, typing: bool, pending: string)
    requires Catalog.WellFormed(c) && Answered(c, xs) && NonBlankQuestions(xs)
    requires typing ==> !IsBlank(pending)
    ensures Alternates(Shown(c, xs, typing, pending))
    ensures forall k :: 0 <= k < |Shown(c, xs, typing, pending)| ==>
      var m := Shown(c, xs, typing, pending)[k];
      (m.sender == Bot ==> |m.content| > 0) && (m.sender == User ==> !IsBlank(m.content))
  {
    var t, ms := Transcript(c, xs), Shown(c, xs, typing, pending);
    TranscriptAlternates(c, xs);
    TranscriptTexts(c, xs);
    forall k | 0 <= k < |ms|
      ensures ms[k].sender == (if k % 2 == 0 then Bot else User)
      ensures ms[k].sender == Bot ==> |ms[k].content| > 0
      ensures ms[k].sender == User ==> !IsBlank(ms[k].content)
    {
      if k < |t| { assert ms[k] == t[k]; }
    }
  }

  /** The state of `ChatbotPage`: `messages`, `inputMessage` and `isTyping`,
      plus `pending`, the input the scheduled reply will answer (the value
      the timer's closure captured when the message was submitted). */
  class ChatPage {
    const responses: Catalog.Responses
    var messages: seq<Message>
    var inputMessage: string
    var isTyping: bool
    var pending: string
    /** The questions submitted and answered so far, with their answers. */
    ghost var exchanges: seq<Exchange>

    /** The shown messages are the conversation over the answered
        questions, followed, while the bot is typing, by the question it
        is answering; every answer is the resolver's, and no submitted
        question is blank. */
    ghost predicate Valid()
      reads this
    {
      Catalog.WellFormed(responses) &&
      Answered(responses, exchanges) && NonBlankQuestions(exchanges) &&
      (isTyping ==> !IsBlank(pending)) &&
      messages == Shown(responses, exchanges, isTyping, pending)
    }

    /** The page as first shown: only the welcome message, an empty input
        and no typing indicator. */
    constructor(responses: Catalog.Responses)
      requires Catalog.WellFormed(responses)
      ensures Valid()
      ensures this.responses == responses
      ensures messages == [Welcome(responses)] && inputMessage == "" && !isTyping && exchanges == []
    {
      this.responses := responses;
      messages := [Welcome(responses)];
      inputMessage := "";
      isTyping := false;
      pending := "";
      exchanges := [];
    }

    /** Typing in the input field or clicking a suggested prompt: only the
        input changes. Suggestions stay clickable while the bot is typing. */
    method SetInput(text: string)
      requires Valid()
      modifies this
      ensures Valid()
      ensures inputMessage == text
      ensures messages == old(messages) && isTyping == old(isTyping)
      ensures pending == old(pending) && exchanges == old(exchanges)
    {
      inputMessage := text;
    }

    /** `handleSendMessage`: a blank input is ignored; otherwise the input
        is appended as the user's message, the field is cleared, the typing
        indicator starts and the reply to that input is scheduled. The form
        cannot be submitted while the bot is typing. */
    method Submit()
      requires Valid() && !isTyping
      modifies this
      ensures Valid()
      ensures IsBlank(old(inputMessage)) ==>
        messages == old(messages) && inputMessage == old(inputMessage) && !isTyping &&
        pending == old(pending)
      ensures !IsBlank(old(inputMessage)) ==>
        messages == old(messages) + [UserMessage(old(inputMessage))] &&
        inputMessage == "" && isTyping && pending == old(inputMessage)
      ensures exchanges == old(exchanges)
    {
      TrimEmptyIffBlank(inputMessage);
      if Trim(inputMessage) == [] {
        return;
      }
      messages := messages + [UserMessage(inputMessage)];
      pending := inputMessage;
      inputMessage := "";
      isTyping := true;
    }

    /** The timer firing: the bot's answer to the submitted input is
        appended and the typing indicator stops; the input field keeps
        whatever was typed meanwhile. */
    method Deliver()
      requires Valid() && isTyping
      modifies this
      ensures Valid()
      ensures messages == old(messages) + [BotMessage(Resolver.GetBotResponse(responses, old(pending)))]
      ensures !isTyping && inputMessage == old(inputMessage) && pending == old(pending)
      ensures exchanges == old(exchanges) + [Exchange(old(pending), Resolver.GetBotResponse(responses, old(pending)))]
    {
      var response := Resolver.GetBotResponse(responses, pending);
      var x := Exchange(pending, response);
      TranscriptExtends(responses, exchanges, x);
      messages := messages + [BotMessage(response)];
      isTyping := false;
      exchanges := exchanges + [x];
    }
  }

  /** What a valid page shows: senders alternate, every bot message has a
      text, no user message is blank, and every reply is the resolver's
      answer to the user message before it. */
  lemma ShownConversation(p: ChatPage)
    requires p.Valid()
    ensures Alternates(p.messages)
    ensures forall k :: 0 <= k < |p.messages| ==>
      (p.messages[k].sender == Bot ==> |p.messages[k].content| > 0) &&
      (p.messages[k].sender == User ==> !IsBlank(p.messages[k].content))
    ensures forall j :: 0 <= j && 2 + 2 * j < |p.messages| ==>
      p.messages[2 + 2 * j] == BotMessage(Resolver.GetBotResponse(p.responses, p.messages[1 + 2 * j].content))
  {
    ShownShape(p.responses, p.exchanges, p.isTyping, p.pending);
    RepliesAnswerQuestions(p.responses, p.exchanges);
    var t := Transcript(p.responses, p.exchanges);
    forall j | 0 <= j && 2 + 2 * j < |p.messages|
      ensures p.messages[2 + 2 * j] == BotMessage(Resolver.GetBotResponse(p.responses, p.messages[1 + 2 * j].content))
    {
      assert 2 + 2 * j < |t|;
      assert p.messages[2 + 2 * j] == t[2 + 2 * j] && p.messages[1 + 2 * j] == t[1 + 2 * j];
    }
  }
}
