/**
 * The Turn Dispatcher and Chat Turn Handler: which messages reach the model,
 * how its completion becomes an answer card or an error, which card-action
 * verb selects which handler, and what is said when members are added.
 */
module Routing {
  import opened Wrappers
  import opened Text
  import Escalation

  /** The reset command, matched case-insensitively at the start of the text. */
  const ResetCommand := "clear"

  /**
   * `on_message` asks the model only when the text is present, non-empty,
   * and does not begin with "clear" in any letter case.
   */
  predicate AsksModel(text: Option<string>)
    ensures AsksModel(text) <==>
      text.Some? && |text.value| > 0 && !(|text.value| >= 5 && Lower(text.value[..5]) == "clear")
  {
    text.Some? && text.value != [] &&
    (StartsWithIgnoreCaseIff(text.value, ResetCommand);
     assert Lower(ResetCommand) == "clear";
     !StartsWithIgnoreCase(text.value, ResetCommand))
  }

  /** "Clear history", "CLEAR", empty and absent text are not sent to the model. */
  lemma ResetTextsSkipModel()
    ensures !AsksModel(Some("Clear history"))
    ensures !AsksModel(Some("CLEAR"))
    ensures !AsksModel(Some("")) && !AsksModel(None)
  {
    assert "Clear history"[..5] == "Clear";
    assert Lower("Clear") == "clear";
  }

  /** The match is anchored: "unclear" and an ordinary question reach the model. */
  lemma QuestionsReachModel()
    ensures AsksModel(Some("unclear"))
    ensures AsksModel(Some("What are the office hours?"))
  {
    assert "unclear"[..5] == "uncle";
    assert Lower("uncle")[0] == 'u';
    assert "What are the office hours?"[..5] == "What ";
    assert Lower("What ")[0] == 'w';
  }

  /** The message of a completion. */
  datatype ChatMessage = ChatMessage(content: string)

  /** What `planner.complete_prompt` returns. */
  datatype Completion = Completion(status: string, message: Option<ChatMessage>, error: Option<string>)

  /** The exceptions `on_message` raises on a failed completion. */
  datatype TurnError = ModelError(detail: Option<string>) | MissingMessage

  /**
   * The text of the raised exception (`None` formats as "None"): an upstream
   * error's text carries its detail.
   */
  function ErrorText(e: TurnError): (r: string)
    ensures e.ModelError? && e.detail.Some? ==> Contains(r, e.detail.value)
    ensures e.MissingMessage? ==> r == "The response message is None"
  {
    match e
    case ModelError(detail) =>
      var prefix := "The request to OpenAI had the following error: ";
      var text := if detail.Some? then detail.value else "None";
      assert prefix + text == prefix + text + "";
      ContainsMiddle(prefix, text, "");
      prefix + text
    case MissingMessage => "The response message is None"
  }

  /** The answer card: the model's text and one "Talk to an Expert" action with verb "expert". */
  datatype AnswerCard = AnswerCard(text: string, actionTitle: string, actionVerb: string)

  /** The answer card shows the content unchanged and its action requests an expert. */
  function CreateAiResponseCard(content: string): (r: AnswerCard)
    ensures r.text == content && r.actionTitle == "Talk to an Expert"
    ensures ActionForVerb(r.actionVerb) == Some(TalkToAnExpert)
  {
    AnswerCard(content, "Talk to an Expert", "expert")
  }

  /**
   * The completion checks: a status other than "success" is an error
   * carrying the upstream detail, checked first; a missing message is an
   * error; otherwise the card carries the message content unchanged.
   */
  function HandleCompletion(c: Completion): (r: Result<AnswerCard, TurnError>)
    ensures r.Ok? <==> c.status == "success" && c.message.Some?
    ensures c.status != "success" ==> r == Err(ModelError(c.error))
    ensures c.status == "success" && c.message.None? ==> r == Err(MissingMessage)
    ensures r.Ok? ==> r.value.text == c.message.value.content && r.value.actionVerb == "expert"
  {
    if c.status != "success" then Err(ModelError(c.error))
    else if c.message.None? then Err(MissingMessage)
    else Ok(CreateAiResponseCard(c.message.value.content))
  }

  /** What a message turn produces. */
  datatype MessageOutcome = Ignored | Answered(card: AnswerCard) | Raised(error: TurnError)

  /**
   * `on_message`: the completion, an input standing for the model's answer,
   * is consulted only when the guard lets the text through.
   */
  function OnMessage(text: Option<string>, completion: Completion): (r: MessageOutcome)
    ensures r.Ignored? <==> !AsksModel(text)
    ensures r.Answered? <==> AsksModel(text) && HandleCompletion(completion).Ok?
    ensures r.Answered? ==> r.card == CreateAiResponseCard(completion.message.value.content)
    ensures r.Raised? ==> HandleCompletion(completion) == Err(r.error)
  {
    if !AsksModel(text) then Ignored
    else match HandleCompletion(completion)
      case Ok(card) => Answered(card)
      case Err(e) => Raised(e)
  }

  /** A question answered with "9-5" yields a card with that text and the escalation action. */
  lemma OnMessageAnswers()
    ensures OnMessage(Some("What are the office hours?"), Completion("success", Some(ChatMessage("9-5")), None))
         == Answered(AnswerCard("9-5", "Talk to an Expert", "expert"))
  {
    QuestionsReachModel();
  }

  /** A rate-limited completion raises with the upstream detail and sends no card. */
  lemma OnMessageRaises()
    ensures OnMessage(Some("What are the office hours?"), Completion("error", None, Some("rate limited")))
         == Raised(ModelError(Some("rate limited")))
    ensures Contains(ErrorText(ModelError(Some("rate limited"))), "rate limited")
  {
    QuestionsReachModel();
  }

  /** The card actions, by the handler they select. */
  datatype CardAction = TalkToAnExpert | ChatWithUser | CloseTicket

  /** The verb each handler is registered under. */
  function Verb(a: CardAction): string {
    match a
    case TalkToAnExpert => "expert"
    case ChatWithUser => "chat_with_user"
    case CloseTicket => "close_ticket"
  }

  /** Dispatch by verb: exactly the three registered verbs select a handler, each its own. */
  function ActionForVerb(verb: string): (r: Option<CardAction>)
    ensures r.Some? ==> Verb(r.value) == verb
    ensures r.None? ==> forall a: CardAction :: Verb(a) != verb
  {
    if verb == "expert" then Some(TalkToAnExpert)
    else if verb == "chat_with_user" then Some(ChatWithUser)
    else if verb == "close_ticket" then Some(CloseTicket)
    else None
  }

  /** Every handler is reached by its own verb. */
  lemma VerbRoundTrip(a: CardAction)
    ensures ActionForVerb(Verb(a)) == Some(a)
  {
  }

  const AddedToChannel := "The FAQ Bot has been added to this channel."

  const Welcome := "Welcome to the FAQ Bot ! I'm here to answer your queries. To clear the conversation history, type clear in the chat."

  /** A dictionary entry: missing, present but null, or holding a value. */
  datatype Entry<+T> = Missing | Null | Holds(value: T)

  /** The `selectedChannel` entry of the settings; `.get("id")` may find nothing. */
  datatype SelectedChannel = SelectedChannel(id: Option<string>)

  /** The `settings` entry of the channel data. */
  datatype Settings = Settings(selectedChannel: Entry<SelectedChannel>)

  /** The channel data of a membership event: its settings and its team, if any. */
  datatype ChannelData = ChannelData(settings: Entry<Settings>, team: Option<string>)

  /** The exceptions `on_member_added` can raise. */
  datatype GreetingError =
    | AttributeError  // `.get` on absent channel data or on a null entry
    | IndexError      // `members_added[0]` on an empty list

  /**
   * `channel_data.get("settings", {}).get("selectedChannel", {}).get("id")`:
   * a missing entry falls back to `{}` and yields no id; absent channel data
   * or a null entry on the way raises.
   */
  function SelectedChannelId(channelData: Option<ChannelData>): (r: Result<Option<string>, GreetingError>)
    ensures r.Err? <==> (channelData.None? || channelData.value.settings.Null? ||
      (channelData.value.settings.Holds? && channelData.value.settings.value.selectedChannel.Null?))
    ensures r.Ok? && r.value.Some? ==>
      channelData.value.settings.Holds? && channelData.value.settings.value.selectedChannel.Holds? &&
      channelData.value.settings.value.selectedChannel.value.id == r.value
    ensures (channelData.Some? && channelData.value.settings.Holds? &&
             channelData.value.settings.value.selectedChannel.Holds?) ==>
      r == Ok(channelData.value.settings.value.selectedChannel.value.id)
  {
    match channelData
    case None => Err(AttributeError)
    case Some(cd) =>
      match cd.settings
      case Missing => Ok(None)
      case Null => Err(AttributeError)
      case Holds(settings) =>
        match settings.selectedChannel
        case Missing => Ok(None)
        case Null => Err(AttributeError)
        case Holds(channel) => Ok(channel.id)
  }

  /** The first added member is the bot itself and the selected channel is the expert channel. */
  predicate BotAddedToExpertChannel(membersAdded: seq<string>, recipientId: string, channelData: Option<ChannelData>) {
    membersAdded != [] && membersAdded[0] == recipientId &&
    SelectedChannelId(channelData) == Ok(Some(Escalation.ExpertChannelId))
  }

  /**
   * `on_member_added`: reading the selected channel comes first and may
   * raise; then `members_added[0]` may raise; then the announcement when the
   * bot itself joins the expert channel, else the welcome when the event
   * carries no team, else nothing.
   */
  function Greeting(membersAdded: seq<string>, recipientId: string, channelData: Option<ChannelData>)
    : (r: Result<Option<string>, GreetingError>)
    ensures r == Err(AttributeError) <==> SelectedChannelId(channelData).Err?
    ensures r == Err(IndexError) <==> SelectedChannelId(channelData).Ok? && membersAdded == []
    ensures r == Ok(Some(AddedToChannel)) <==> BotAddedToExpertChannel(membersAdded, recipientId, channelData)
    ensures r == Ok(Some(Welcome)) <==>
      SelectedChannelId(channelData).Ok? && membersAdded != [] &&
      !BotAddedToExpertChannel(membersAdded, recipientId, channelData) && channelData.value.team.None?
    ensures r == Ok(None) <==>
      SelectedChannelId(channelData).Ok? && membersAdded != [] &&
      !BotAddedToExpertChannel(membersAdded, recipientId, channelData) && channelData.value.team.Some?
  {
    match SelectedChannelId(channelData)
    case Err(e) => Err(e)
    case Ok(channel) =>
      if membersAdded == [] then Err(IndexError)
      else if membersAdded[0] == recipientId && channel == Some(Escalation.ExpertChannelId) then Ok(Some(AddedToChannel))
      else if channelData.value.team.None? then Ok(Some(Welcome))
      else Ok(None)
  }
}
