# FAQ Plus bot: escalation bookkeeping in Dafny

This project models the deterministic core of the FAQ Plus Teams bot (`src/bot.py`).
The bot answers questions with a language model. When the answer is not enough, it
escalates the conversation to a human expert in a dedicated channel. The model
covers the bookkeeping around that escalation:

- rendering the chat history onto the ticket card (`get_chat_history`): at most the ten latest turns, oldest first, each as `"Role: content"`;
- the correlation token that the claim and close handlers write into the conversation id (`channelId;messageid=replyToId`), applied only when the id does not yet contain `messageid`;
- the ticket lifecycle labels each card action renders: "New" on request, "In progress" on claim, the closed card on close, with no guard on the current state, as in the source;
- the message guard (no empty text, nothing starting with "clear" in any case), the completion checks, the card-action verb dispatch and the greeting on `membersAdded`.

Modules:

- `Wrappers` (wrappers.dfy): `Option` and `Result`.
- `Text` (text.dfy): ASCII `lower`/`capitalize`, the substring test and an anchored case-insensitive prefix match.
- `History` (history.dfy): turns, the loop that renders them, and the conversation state that `on_clear` drops.
- `Escalation` (escalation.dfy): the token rewrite, the `Ticket` class whose `ChatWithUser` and `CloseTicket` methods update the conversation id and card in place, the same actions as pure functions over `TicketState`, and lemmas about sequences of actions.
- `Routing` (routing.dfy): `on_message`, verb dispatch and `on_member_added`.

Platform calls are inputs or outputs of the model. The directory lookup result and the id of the created conversation are `Option` parameters of `OnTalkToAnExpert`. The model's completion is a `Completion` parameter of `OnMessage`. What the claim and close handlers send is recorded as `Post`s. The card update goes to the conversation id as it arrived, before the rewrite. The status line goes to the id after the rewrite.

The actions have no guard on the current state, so the lifecycle is monotone only when actions arrive in the intended order (claims, then closes). `IntendedOrderIsMonotone` proves that. `CloseThenClaimReopens` shows that a claim after a close brings the card back to "In progress".

## Model

| member | source | states |
|---|---|---|
| `Text.Lower` | src/bot.py:153 | lower-casing keeps the length and lower-cases each character in place |
| `Text.Capitalize` | src/bot.py:153 | `str.capitalize`: same length, first character upper-cased, every later character lower-cased |
| `Text.CapitalizeIdempotent` | src/bot.py:153 | capitalizing a capitalized role changes nothing |
| `Text.ContainsMiddle` | src/bot.py:210 | Python's `t in s` (`Text.Contains`: `t` occurs in `s` as a contiguous slice) holds for any string built around `t` |
| `Text.ShorterDoesNotContain` | src/bot.py:224 | `t in s` fails whenever `s` is shorter than `t` |
| `Text.StartsWithIgnoreCase` | src/bot.py:122 | `re.match` of a literal pattern with `IGNORECASE`: when it holds, the text is at least as long as the pattern and agrees with it character by character, letter case ignored |
| `Text.StartsWithIgnoreCaseIff` | src/bot.py:122 | the anchored case-insensitive match holds exactly when the first `len(p)` characters, lower-cased, equal the pattern lower-cased |
| `History.DisplayLine` | src/bot.py:153-158 | a display line reads back as the capitalized role, then `": "`, then the content unchanged |
| `History.Window` | src/bot.py:148-150 | the rendered turns are the last `min(len(h), 10)` turns of the history, a suffix of it; absent history gives none |
| `History.ChatItems` | src/bot.py:148-162 | the rendering has `min(len(h), 10)` items and item `i` is the display line of turn `len(h)-k+i`, so the history's order is kept |
| `History.GetChatHistory` | src/bot.py:145-164 | the append loop returns `min(len(h), 10)` items and equals `ChatItems`; empty or absent history gives `[]` |
| `History.LongHistoryDropsOldest` | src/bot.py:150 | once ten turns are stored, appending one drops the oldest rendered item and adds the new turn last |
| `History.Conversation.OnClear` | src/bot.py:136-143 | the reset drops the stored history and replies with the fixed confirmation |
| `History.ClearThenRender` | src/bot.py:136-150 | after a reset, rendering the conversation's history yields an empty list |
| `Escalation.Token` | src/bot.py:211 | the token is the channel id, `;messageid=`, then the reply-to id, both ids reading back from it, and it contains `messageid` |
| `Escalation.Correlate` | src/bot.py:210-212 | the rewritten conversation id always contains `messageid` |
| `Escalation.CorrelateCases` | src/bot.py:224-226 | an id without `messageid` becomes exactly `channelId + ";messageid=" + replyToId`; an id with it is kept |
| `Escalation.CorrelateIdempotent` | src/bot.py:210-226 | rewriting an already rewritten id, with any channel and message ids, leaves it unchanged |
| `Escalation.CorrelateExample` | src/bot.py:210-212 | `"chan123"` with message id `"msg456"` becomes `"chan123;messageid=msg456"` |
| `Escalation.Apply` | src/bot.py:202-227 | one claim or close, with no guard: the new stage depends on the action alone (a claim renders the label "In progress"), the id is correlated, the card update goes to the id as it was and the status line to the correlated id, earlier posts kept |
| `Escalation.ApplyAll` | src/bot.py:202-227 | a sequence of actions appends two posts per action to the earlier ones, and after any action the id carries `messageid` |
| `Escalation.FirstActionFixesThread` | src/bot.py:202-227 | after any non-empty sequence of claims and closes the id is the one the first action produced; only the first card update goes to the original id, every later post to the correlated one |
| `Escalation.StageSetByLastAction` | src/bot.py:205-221 | the lifecycle stage after a sequence of actions is set by the last action alone: claim gives In progress, close gives closed |
| `Escalation.CloseThenClaimReopens` | src/bot.py:205-221 | with no guard, a claim after a close renders "In progress" again |
| `Escalation.IntendedOrderIsMonotone` | src/bot.py:184-221 | from a "New" ticket, actions in the intended order (no claim after a close) never make the stage regress |
| `Escalation.Ticket.Open` | src/bot.py:181-190 | the posted ticket carries the principal name, the requester's name, the rendered last ten turns and the label "New", with nothing posted yet |
| `Escalation.Ticket.ChatWithUser` | src/bot.py:202-215 | the card becomes "In progress" with the action's fields and is sent to the id as it was; then the id is correlated and "<agent> is resolving the request." goes to the new id |
| `Escalation.Ticket.CloseTicket` | src/bot.py:218-227 | the card becomes the closed card with the action's fields and is sent to the id as it was; then the id is correlated and "<agent> closed the request." goes to the new id |
| `Escalation.OnTalkToAnExpert` | src/bot.py:175-199 | a failed directory lookup or conversation creation fails the action with nothing acknowledged; otherwise a fresh "New" ticket is posted and the requester gets the acknowledgement |
| `Escalation.ClaimThenClose` | src/bot.py:202-227 | on a new ticket, a claim then a close carrying its own, possibly different, ids leaves the claim's token as the id; the close applies no token; four posts, all but the first card update addressed to that token; the card ends closed; the whole new state is the fold of the two actions, so earlier posts, the closed card's fields and both status texts are fixed |
| `Routing.AsksModel` | src/bot.py:122 | the model is asked exactly when the text is present, non-empty, and its first five characters, lower-cased, are not "clear" |
| `Routing.ResetTextsSkipModel` | src/bot.py:122 | "Clear history", "CLEAR", empty and absent text do not reach the model |
| `Routing.QuestionsReachModel` | src/bot.py:122 | the match is anchored: "unclear" and an ordinary question reach the model |
| `Routing.ErrorText` | src/bot.py:125-128 | the raised text of an upstream error carries its detail; a missing message raises "The response message is None" |
| `Routing.CreateAiResponseCard` | src/cards/ai_response_card.py:10-41 | the answer card shows the content unchanged and its one action, "Talk to an Expert", carries the verb that selects the talk-to-an-expert handler |
| `Routing.HandleCompletion` | src/bot.py:125-130 | a status other than "success" is an error with the upstream detail (checked first); a missing message is an error; otherwise the card carries exactly the message content and the "expert" action |
| `Routing.OnMessage` | src/bot.py:119-133 | a message is ignored exactly when the guard rejects it; otherwise it is answered exactly when the completion is valid, and raises the completion's error otherwise |
| `Routing.OnMessageAnswers` | src/bot.py:122-131 | the question "What are the office hours?" answered "9-5" gives a card with "9-5" and the "Talk to an Expert" action |
| `Routing.OnMessageRaises` | src/bot.py:122-126 | a completion with status "error" and detail "rate limited" raises with that detail in its text and sends no card |
| `Routing.ActionForVerb` | src/bot.py:175-218 | a verb selects a handler only if it is that handler's registered verb, and the unregistered verbs select none |
| `Routing.VerbRoundTrip` | src/bot.py:175-218 | each of the three handlers is selected by its own verb |
| `Routing.SelectedChannelId` | src/bot.py:102 | the chained `.get` lookup raises exactly when the channel data is absent or a `settings` or `selectedChannel` entry is null; when both entries hold values the result is exactly the stored id (found iff stored) |
| `Routing.Greeting` | src/bot.py:99-116 | the channel lookup raises first, then an empty member list raises; otherwise the announcement exactly when the bot itself joins the expert channel, else the welcome exactly when there is no team, else nothing |

## Left out

- Model and prompt setup (Azure OpenAI credentials, `OpenAIModel`, `PromptManager`, `ActionPlanner`, `read_database`): configuration and foreign library objects; the planner's answer is the `Completion` input of `Routing.OnMessage`.
- Appending turns to the chat history: done inside the planner library, which is not part of this model; the history is an input.
- `MemoryStorage`, `Application` and `turn_state_factory`: state-store plumbing; the conversation state is the `History.Conversation` object.
- `TeamsInfo.get_member`, `create_conversation` (its parameters: expert channel, group flag, the card as first activity), `do_nothing`, `create_teams_channel_data`: asynchronous platform calls; the lookup and creation results are the `Option` inputs of `Escalation.OnTalkToAnExpert`.
- `update_activity` and `send_activity`: assumed to succeed everywhere (`Escalation.Apply`, `Escalation.Ticket.ChatWithUser`, `Escalation.Ticket.CloseTicket`, `Routing.OnMessage`, `History.Conversation.OnClear`, `Routing.Greeting`); what they send is recorded as outputs (`Post`, replies). In the source a failing call raises to `on_error`; a failing `update_activity` (src/bot.py:207, 222) ends the turn before the id is rewritten and before the status line is sent, which the model does not represent.
- `on_error`: logging and a fixed reply.
- Which handler fires when both the `message` handler and the `clear` handler match: decided by the library's router, which is not part of this model; only the explicit guard in `on_message` is modelled.
- The talk-to-expert and closed-request card templates are not part of this model; `Escalation.Card` records the fields handed to them.
- Races between agents acting on the same ticket: the model is sequential.
- Escalation.Ticket: the source rewrites the id only on the incoming activity of the current turn (src/bot.py:212, 226); nothing stores it, and the next claim or close arrives with whatever id the platform supplies. The model carries the rewritten id into the next action, so `FirstActionFixesThread` and `ClaimThenClose` hold only if the platform sends the rewritten id back. Within one action the order is modelled: the card update goes to the id before the rewrite, the status line to the id after it.
- Text.Capitalize: maps ASCII letters only; Python's `str.capitalize` also maps non-ASCII letters and title-cases the first character.
- Text.Lower: maps ASCII letters only; for the pattern "clear" the case-insensitive match is still exact.
- Escalation.Correlate: the channel id and reply-to id are plain strings; a missing `channel` entry (which raises in the source) and a `None` reply-to id (formatted as "None") are not modelled.
- Routing.HandleCompletion: a message whose content is `None` is not modelled; the content is a string.
- Routing.Greeting: a `settings` or `selectedChannel` entry holding something other than a dictionary or null is not modelled.
