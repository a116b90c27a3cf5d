/**
 * The floating assistant: the ordered keyword responder and the chat
 * transcript that a send appends to twice, once for the user's message and
 * once, when the simulated delay ends, for the reply.
 */
module AIAssistant {
  import opened Wrappers
  import opened Text

  datatype Message = Message(id: string, content: string, isBot: bool)

  const Greeting := Message("1",
    "Hi! I'm your AI assistant. I can help you create content, analyze campaigns, suggest influencers, and more. What would you like to do today?",
    true)

  // ---------------------------------------------------------------------------
  // getBotResponse

  /** The five canned answers, in the order their rules are tried. */
  datatype Reply = CampaignReply | CaptionReply | AnalyticsReply | CreatorReply | DefaultReply

  /** The text each answer shows. */
  function ReplyText(r: Reply): string {
    match r
    case CampaignReply => CampaignText
    case CaptionReply => CaptionText
    case AnalyticsReply => AnalyticsText
    case CreatorReply => CreatorText
    case DefaultReply => DefaultText
  }

  const CampaignText := "Based on your recent activity, I suggest creating a spring fashion campaign targeting Gen Z. The best performing creators in this niche are currently Sarah Johnson and Lisa Wang. Would you like me to help you set this up?"
  const CaptionText := "I can help you generate engaging captions! For best results, tell me: 1) What's the content about? 2) What's your brand tone? 3) Target audience? I'll create multiple options with relevant hashtags."
  const AnalyticsText := "Your current campaign performance looks great! Engagement is up 23% this month. Your top-performing content includes lifestyle posts and behind-the-scenes content. Should I create a detailed report?"
  const CreatorText := "I found 12 creators matching your criteria. Based on engagement rates and audience alignment, I recommend Sarah Johnson (Instagram, 125K followers, 4.2% engagement) and Mike Chen (TikTok, 89K followers, 6.8% engagement). Want to see their full profiles?"
  const DefaultText := "I can help you with content creation, campaign management, influencer discovery, analytics, and more. Could you be more specific about what you'd like assistance with?"

  /** The five texts are different, so the text shown tells which rule fired. */
  lemma ReplyTextsDistinct(a: Reply, b: Reply)
    ensures ReplyText(a) == ReplyText(b) ==> a == b
  {
    assert |ReplyText(CampaignReply)| == 221 && |ReplyText(CaptionReply)| == 198 && |ReplyText(AnalyticsReply)| == 198;
    assert |ReplyText(CreatorReply)| == 253 && |ReplyText(DefaultReply)| == 167;
    assert ReplyText(CaptionReply)[197] == '.' && ReplyText(AnalyticsReply)[197] == '?';
  }

  /** The five rules' conditions, each on the lower-cased input. */
  predicate AsksCampaign(lower: string) {
    Contains(lower, "campaign") && Contains(lower, "suggest")
  }

  predicate AsksCaption(lower: string) {
    Contains(lower, "caption") || Contains(lower, "content")
  }

  predicate AsksAnalytics(lower: string) {
    Contains(lower, "analytics") || Contains(lower, "performance")
  }

  predicate AsksCreator(lower: string) {
    Contains(lower, "influencer") || Contains(lower, "creator")
  }

  /** `getBotResponse`: the first rule whose keywords occur in the lower-cased input decides the answer. */
  function BotResponse(input: string): (r: Reply)
    ensures AsksCampaign(ToLower(input)) ==> r == CampaignReply
    ensures r == DefaultReply <==>
      !AsksCampaign(ToLower(input)) && !AsksCaption(ToLower(input)) && !AsksAnalytics(ToLower(input)) && !AsksCreator(ToLower(input))
  {
    var lower := ToLower(input);
    if AsksCampaign(lower) then CampaignReply
    else if AsksCaption(lower) then CaptionReply
    else if AsksAnalytics(lower) then AnalyticsReply
    else if AsksCreator(lower) then CreatorReply
    else DefaultReply
  }

  /**
   * Which answer comes back, rule by rule, in order: each rule answers exactly
   * when its keywords occur and no earlier rule's do.
   */
  lemma BotResponseRules(input: string)
    ensures var lower := ToLower(input);
      && (BotResponse(input) == CampaignReply <==> AsksCampaign(lower))
      && (BotResponse(input) == CaptionReply <==> !AsksCampaign(lower) && AsksCaption(lower))
      && (BotResponse(input) == AnalyticsReply <==> !AsksCampaign(lower) && !AsksCaption(lower) && AsksAnalytics(lower))
      && (BotResponse(input) == CreatorReply
          <==> !AsksCampaign(lower) && !AsksCaption(lower) && !AsksAnalytics(lower) && AsksCreator(lower))
      && (BotResponse(input) == DefaultReply
          <==> !AsksCampaign(lower) && !AsksCaption(lower) && !AsksAnalytics(lower) && !AsksCreator(lower))
  {
  }

  /** The answer does not depend on letter case: lower-casing the input first changes nothing. */
  lemma BotResponseIgnoresCase(input: string)
    ensures BotResponse(ToLower(input)) == BotResponse(input)
  {
    ToLowerIdempotent(input);
  }

  // ---------------------------------------------------------------------------
  // The chat state

  class AssistantPage {
    var isOpen: bool
    var isMinimized: bool
    var messages: seq<Message>
    var inputMessage: string
    var isTyping: bool

    constructor ()
      ensures !isOpen && !isMinimized && messages == [Greeting] && inputMessage == "" && !isTyping
    {
      isOpen, isMinimized, messages, inputMessage, isTyping := false, false, [Greeting], "", false;
    }

    /** The floating button opens the chat window. */
    method Open()
      modifies this
      ensures isOpen && isMinimized == old(isMinimized)
      ensures messages == old(messages) && inputMessage == old(inputMessage) && isTyping == old(isTyping)
    {
      isOpen := true;
    }

    /** The close button; the transcript is kept for the next opening. */
    method Close()
      modifies this
      ensures !isOpen && isMinimized == old(isMinimized)
      ensures messages == old(messages) && inputMessage == old(inputMessage) && isTyping == old(isTyping)
    {
      isOpen := false;
    }

    /** The minimise button flips between the full window and the title bar. */
    method ToggleMinimized()
      modifies this
      ensures isMinimized == !old(isMinimized) && isOpen == old(isOpen)
      ensures messages == old(messages) && inputMessage == old(inputMessage) && isTyping == old(isTyping)
    {
      isMinimized := !isMinimized;
    }

    /**
     * `sendMessage`: a blank input changes nothing; otherwise the user's
     * message is appended, the input cleared and the typing indicator set,
     * and the input is captured for the reply.
     */
    method SendMessage(id: string) returns (captured: Option<string>)
      modifies this
      ensures captured == if Trim(old(inputMessage)) == "" then None else Some(old(inputMessage))
      ensures captured.None? ==> messages == old(messages) && inputMessage == old(inputMessage) && isTyping == old(isTyping)
      ensures captured.Some? ==> messages == old(messages) + [Message(id, old(inputMessage), false)]
      ensures captured.Some? ==> inputMessage == "" && isTyping
      ensures isOpen == old(isOpen) && isMinimized == old(isMinimized)
    {
      if Trim(inputMessage) == "" {
        return None;
      }
      captured := Some(inputMessage);
      messages := messages + [Message(id, inputMessage, false)];
      inputMessage := "";
      isTyping := true;
    }

    /** The reply timer fires: one bot message answering the captured input is appended and the indicator cleared. */
    method ReceiveReply(captured: string, id: string)
      modifies this
      ensures messages == old(messages) + [Message(id, ReplyText(BotResponse(captured)), true)]
      ensures !isTyping
      ensures inputMessage == old(inputMessage) && isOpen == old(isOpen) && isMinimized == old(isMinimized)
    {
      messages := messages + [Message(id, ReplyText(BotResponse(captured)), true)];
      isTyping := false;
    }
  }

  /**
   * A whole exchange: sending a non-blank input and receiving the reply adds
   * exactly the user's message and the answer to it, in that order, and
   * leaves the input empty and the indicator off.
   */
  method Exchange(page: AssistantPage, id: string, replyId: string)
    requires Trim(page.inputMessage) != ""
    modifies page
    ensures page.messages == old(page.messages)
      + [Message(id, old(page.inputMessage), false), Message(replyId, ReplyText(BotResponse(old(page.inputMessage))), true)]
    ensures page.inputMessage == "" && !page.isTyping
  {
    var captured := page.SendMessage(id);
    page.ReceiveReply(captured.value, replyId);
  }
}
