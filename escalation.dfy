/**
 * The Escalation Coordinator: the ticket posted into the expert channel, the
 * correlation token written into the conversation id on the first claim or
 * close, and the lifecycle label each action renders.
 */
module Escalation {
  import opened Wrappers
  import opened Text
  import opened History

  /** The substring whose presence marks a conversation id as already correlated. */
  const Marker := "messageid"

  /** The expert channel every ticket conversation is created in. */
  const ExpertChannelId := "19:NbZrm0QGDBalb7yQtQ5uu_fKf5LRTJcILRxkarAVDs41@thread.tacv2"

  /** What the requester is told once the ticket is posted. */
  const Acknowledgement := "I'm connecting you to an expert. In the meantime, would you like to ask me anything else?"

  /** Lifecycle labels of the talk-to-expert card. */
  datatype Label = New | InProgress

  function LabelText(l: Label): string {
    match l
    case New => "New"
    case InProgress => "In progress"
  }

  /** The card shown for a ticket: the talk-to-expert card or the closed-request card. */
  datatype Card =
    | ExpertCard(principalName: Option<string>, userName: Option<string>, chatItems: Option<seq<ChatItem>>, lifecycle: Label)
    | ClosedCard(userName: Option<string>, chatItems: Option<seq<ChatItem>>)

  /** The fields a card action submits (`data.get(...)` may find nothing). */
  datatype ActionData = ActionData(userPrincipalName: Option<string>, userName: Option<string>, chatItems: Option<seq<ChatItem>>)

  /**
   * What a handler sends: the re-rendered card, replacing the activity
   * `activityId`, or a status line; each goes to the conversation id in
   * force when it is sent.
   */
  datatype Post =
    | CardUpdate(conversationId: string, activityId: string)
    | StatusLine(conversationId: string, text: string)

  /** A ticket as the coordinator sees it after each action. */
  datatype TicketState = TicketState(conversationId: string, card: Card, posted: seq<Post>)

  /** An agent's action on the ticket card, with the activity fields it reads. */
  datatype TicketEvent =
    | Claim(data: ActionData, channelId: string, replyToId: string, agentName: string)
    | Close(data: ActionData, channelId: string, replyToId: string, agentName: string)

  /**
   * The correlation token: the channel id, then `;messageid=`, then the
   * card's message id. Both ids read back from it, and it carries the
   * marker, so it is recognised as applied.
   */
  function Token(channelId: string, replyToId: string): (r: string)
    ensures |r| == |channelId| + 11 + |replyToId|
    ensures r[..|channelId|] == channelId
    ensures r[|channelId|..|channelId| + 11] == ";messageid="
    ensures r[|channelId| + 11..] == replyToId
    ensures Contains(r, Marker)
  {
    var r := channelId + ";messageid=" + replyToId;
    assert r == (channelId + ";") + Marker + ("=" + replyToId);
    ContainsMiddle(channelId + ";", Marker, "=" + replyToId);
    r
  }

  /**
   * The id rewrite of the claim and close handlers: an id without the marker
   * is replaced by the token, an id with it is kept. The result always
   * carries the marker.
   */
  function Correlate(conversationId: string, channelId: string, replyToId: string): (r: string)
    ensures Contains(r, Marker)
  {
    if Contains(conversationId, Marker) then conversationId else Token(channelId, replyToId)
  }

  /**
   * The rewrite is applied at most once: rewriting a rewritten id, with any
   * channel and message ids, leaves it as it is.
   */
  lemma CorrelateIdempotent(conversationId: string, c1: string, r1: string, c2: string, r2: string)
    ensures Correlate(Correlate(conversationId, c1, r1), c2, r2) == Correlate(conversationId, c1, r1)
  {
  }

  /** An uncorrelated id becomes exactly `channelId;messageid=replyToId`; a correlated one is kept. */
  lemma CorrelateCases(conversationId: string, channelId: string, replyToId: string)
    ensures !Contains(conversationId, Marker) ==> Correlate(conversationId, channelId, replyToId) == channelId + ";messageid=" + replyToId
    ensures Contains(conversationId, Marker) ==> Correlate(conversationId, channelId, replyToId) == conversationId
  {
  }

  /** The example of a first claim: "chan123" with message "msg456". */
  lemma CorrelateExample()
    ensures Correlate("chan123", "chan123", "msg456") == "chan123;messageid=msg456"
  {
    ShorterDoesNotContain("chan123", Marker);
  }

  /** The ticket as `on_talk_to_an_expert` posts it: label "New", nothing said yet. */
  function Opened(principalName: string, userName: string, chatItems: seq<ChatItem>, conversationId: string): TicketState {
    TicketState(conversationId, ExpertCard(Some(principalName), Some(userName), Some(chatItems), New), [])
  }

  /**
   * One agent action, exactly as the handlers perform it and with no guard on
   * the current card: the card is re-rendered from the action's data and sent
   * to the id as it was, then the id is correlated, then a status line goes to
   * the correlated id. The new stage depends on the action alone.
   */
  function Apply(s: TicketState, e: TicketEvent): (r: TicketState)
    ensures Stage(r.card) == ActionStage(e)
    ensures e.Claim? ==> r.card.ExpertCard? && LabelText(r.card.lifecycle) == "In progress"
    ensures r.conversationId == Correlate(s.conversationId, e.channelId, e.replyToId)
    ensures |r.posted| == |s.posted| + 2 && r.posted[..|s.posted|] == s.posted
    ensures r.posted[|s.posted|] == CardUpdate(s.conversationId, e.replyToId)
    ensures r.posted[|s.posted| + 1].StatusLine? && r.posted[|s.posted| + 1].conversationId == r.conversationId
  {
    var update := CardUpdate(s.conversationId, e.replyToId);
    var id := Correlate(s.conversationId, e.channelId, e.replyToId);
    match e
    case Claim(d, _, _, agent) =>
      TicketState(id, ExpertCard(d.userPrincipalName, d.userName, d.chatItems, InProgress),
                  s.posted + [update, StatusLine(id, agent + " is resolving the request.")])
    case Close(d, _, _, agent) =>
      TicketState(id, ClosedCard(d.userName, d.chatItems),
                  s.posted + [update, StatusLine(id, agent + " closed the request.")])
  }

  /**
   * The ticket after a sequence of actions, applied in order: two posts per
   * action appended to the earlier ones, and a correlated id once any action
   * has happened.
   */
  function ApplyAll(s: TicketState, es: seq<TicketEvent>): (r: TicketState)
    ensures |r.posted| == |s.posted| + 2 * |es| && r.posted[..|s.posted|] == s.posted
    ensures es != [] ==> Contains(r.conversationId, Marker)
    decreases |es|
  {
    if es == [] then s else Apply(ApplyAll(s, es[..|es| - 1]), es[|es| - 1])
  }

  /**
   * The first action fixes the conversation id for good: whatever follows, the
   * id is the one the first claim or close produced. Only the first card
   * update goes to the id as it was; every later post is addressed to the
   * correlated id.
   */
  lemma {:induction false} FirstActionFixesThread(s: TicketState, es: seq<TicketEvent>)
    requires |es| > 0
    ensures ApplyAll(s, es).conversationId == Correlate(s.conversationId, es[0].channelId, es[0].replyToId)
    ensures ApplyAll(s, es).posted[|s.posted|] == CardUpdate(s.conversationId, es[0].replyToId)
    ensures forall k :: |s.posted| < k < |ApplyAll(s, es).posted| ==>
      ApplyAll(s, es).posted[k].conversationId == Correlate(s.conversationId, es[0].channelId, es[0].replyToId)
    decreases |es|
  {
    var n := |es|;
    var id0 := Correlate(s.conversationId, es[0].channelId, es[0].replyToId);
    if n > 1 {
      var prefix := es[..n - 1];
      assert prefix[0] == es[0];
      FirstActionFixesThread(s, prefix);
      var before := ApplyAll(s, prefix);
      var after := ApplyAll(s, es);
      assert after == Apply(before, es[n - 1]);
      forall k | |s.posted| < k < |after.posted|
        ensures after.posted[k].conversationId == id0
      {
        if k < |before.posted| {
          assert after.posted[k] == after.posted[..|before.posted|][k];
        }
      }
    }
  }

  /** Lifecycle rank of a card: New 0, In progress 1, closed 2. */
  function Stage(c: Card): nat {
    match c
    case ExpertCard(_, _, _, New) => 0
    case ExpertCard(_, _, _, InProgress) => 1
    case ClosedCard(_, _) => 2
  }

  /** The rank an action renders: a claim gives In progress, a close gives closed. */
  function ActionStage(e: TicketEvent): nat {
    if e.Claim? then 1 else 2
  }

  /** The label after a sequence of actions is set by the last one alone. */
  lemma {:induction false} StageSetByLastAction(s: TicketState, es: seq<TicketEvent>)
    requires |es| > 0
    ensures Stage(ApplyAll(s, es).card) == ActionStage(es[|es| - 1])
  {
  }

  /** With no guard, claiming a closed ticket brings it back to "In progress". */
  lemma CloseThenClaimReopens(s: TicketState, close: TicketEvent, claim: TicketEvent)
    requires close.Close? && claim.Claim?
    ensures Stage(Apply(s, close).card) == 2
    ensures Stage(Apply(Apply(s, close), claim).card) == 1
  {
  }

  /** The intended order: once a close has happened, only closes follow. */
  ghost predicate IntendedOrder(es: seq<TicketEvent>) {
    forall i, j :: 0 <= i < j < |es| && es[i].Close? ==> es[j].Close?
  }

  /**
   * From a new ticket, actions in the intended order never make the label
   * regress: the stage after a longer prefix is at least the stage after a
   * shorter one.
   */
  lemma {:induction false} IntendedOrderIsMonotone(s: TicketState, es: seq<TicketEvent>, i: nat, j: nat)
    requires Stage(s.card) == 0
    requires IntendedOrder(es)
    requires i <= j <= |es|
    ensures Stage(ApplyAll(s, es[..i]).card) <= Stage(ApplyAll(s, es[..j]).card)
  {
    if 0 < i {
      StageSetByLastAction(s, es[..i]);
      StageSetByLastAction(s, es[..j]);
      assert es[..i][i - 1] == es[i - 1];
      assert es[..j][j - 1] == es[j - 1];
    } else {
      assert es[..0] == [];
    }
  }

  /** The ticket card and the id the coordinator updates in place. */
  class Ticket {
    var conversationId: string
    var card: Card
    var posted: seq<Post>

    function State(): TicketState
      reads this
    {
      TicketState(conversationId, card, posted)
    }

    /** The first post of a newly created expert-channel conversation. */
    constructor Open(principalName: string, userName: string, chatHistory: Option<seq<Turn>>, conversationId: string)
      ensures State() == Opened(principalName, userName, ChatItems(chatHistory), conversationId)
      ensures card.ExpertCard? && LabelText(card.lifecycle) == "New"
    {
      var chatItems := GetChatHistory(chatHistory);
      this.conversationId := conversationId;
      this.card := ExpertCard(Some(principalName), Some(userName), Some(chatItems), New);
      this.posted := [];
    }

    /** `on_chat_with_user`: render "In progress", correlate the id, announce the agent. */
    method ChatWithUser(data: ActionData, channelId: string, replyToId: string, agentName: string)
      modifies this
      ensures State() == Apply(old(State()), Claim(data, channelId, replyToId, agentName))
    {
      card := ExpertCard(data.userPrincipalName, data.userName, data.chatItems, InProgress);
      posted := posted + [CardUpdate(conversationId, replyToId)];
      if !Contains(conversationId, Marker) {
        conversationId := channelId + ";messageid=" + replyToId;
      }
      posted := posted + [StatusLine(conversationId, agentName + " is resolving the request.")];
    }

    /** `on_close_ticket`: render the closed card, correlate the id, announce the closer. */
    method CloseTicket(data: ActionData, channelId: string, replyToId: string, agentName: string)
      modifies this
      ensures State() == Apply(old(State()), Close(data, channelId, replyToId, agentName))
    {
      card := ClosedCard(data.userName, data.chatItems);
      posted := posted + [CardUpdate(conversationId, replyToId)];
      if !Contains(conversationId, Marker) {
        conversationId := channelId + ";messageid=" + replyToId;
      }
      posted := posted + [StatusLine(conversationId, agentName + " closed the request.")];
    }
  }

  /** Why a request for an expert fails. */
  datatype RequestError = DirectoryLookupFailed | ConversationNotCreated

  /**
   * `on_talk_to_an_expert`: look up the requester's principal name, post a
   * "New" ticket with the last ten turns into a new expert-channel
   * conversation, then acknowledge to the requester. The lookup result and the
   * id of the created conversation come from the platform; either failing
   * fails the whole action and nothing is acknowledged.
   */
  method OnTalkToAnExpert(member: Option<string>, userName: string, chatHistory: Option<seq<Turn>>,
                          createdConversation: Option<string>)
    returns (outcome: Result<Ticket, RequestError>, replies: seq<string>)
    ensures member.None? ==> outcome == Err(DirectoryLookupFailed) && replies == []
    ensures member.Some? && createdConversation.None? ==> outcome == Err(ConversationNotCreated) && replies == []
    ensures member.Some? && createdConversation.Some? ==>
      outcome.Ok? && fresh(outcome.value) && replies == [Acknowledgement] &&
      outcome.value.State() == Opened(member.value, userName, ChatItems(chatHistory), createdConversation.value)
  {
    if member.None? {
      return Err(DirectoryLookupFailed), [];
    }
    if createdConversation.None? {
      return Err(ConversationNotCreated), [];
    }
    var ticket := new Ticket.Open(member.value, userName, chatHistory, createdConversation.value);
    outcome := Ok(ticket);
    replies := [Acknowledgement];
  }

  /**
   * Claim then close on a new ticket: the claim's token is the only one
   * applied, whatever ids the close carries; the first card update goes to
   * the original id and the other three posts to the token; the card ends
   * closed. The whole new state is the two actions applied in order.
   */
  method ClaimThenClose(t: Ticket, claimData: ActionData, channelId: string, replyToId: string, agent: string,
                        closeData: ActionData, closeChannelId: string, closeReplyToId: string, closer: string)
    requires Stage(t.card) == 0 && !Contains(t.conversationId, Marker)
    modifies t
    ensures t.conversationId == Token(channelId, replyToId)
    ensures Stage(t.card) == 2
    ensures |t.posted| == |old(t.posted)| + 4
    ensures t.posted[|old(t.posted)|] == CardUpdate(old(t.conversationId), replyToId)
    ensures forall k :: |old(t.posted)| < k < |t.posted| ==> t.posted[k].conversationId == Token(channelId, replyToId)
    ensures t.State() == ApplyAll(old(t.State()), [Claim(claimData, channelId, replyToId, agent),
                                                    Close(closeData, closeChannelId, closeReplyToId, closer)])
  {
    ghost var s0 := t.State();
    ghost var e1 := Claim(claimData, channelId, replyToId, agent);
    ghost var e2 := Close(closeData, closeChannelId, closeReplyToId, closer);
    t.ChatWithUser(claimData, channelId, replyToId, agent);
    assert Stage(t.card) == 1;
    assert [e1, e2][..1] == [e1] && [e1][..0] == [];
    assert ApplyAll(s0, [e1]) == Apply(s0, e1);
    ghost var afterClaim := t.posted;
    t.CloseTicket(closeData, closeChannelId, closeReplyToId, closer);
    assert t.posted[..|afterClaim|] == afterClaim;
  }
}
