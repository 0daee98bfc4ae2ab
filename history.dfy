/**
 * The History Tracker: the per-conversation log of (role, content) turns and
 * its rendering, for the ticket card, as at most the ten most recent turns,
 * one "Role: content" text block each.
 */
module History {
  import opened Wrappers
  import opened Text

  /** One exchanged message; `role` is "user" or "assistant". */
  datatype Turn = Turn(role: string, content: string)

  /** An Adaptive Card text block as the bot builds it. */
  datatype ChatItem = ChatItem(kind: string, text: string, wrap: bool, spacing: string)

  /** Only this many of the most recent turns are rendered. */
  const HistoryLimit: nat := 10

  /** The fixed text block carrying one display line. */
  function TextBlock(text: string): ChatItem {
    ChatItem("TextBlock", text, true, "small")
  }

  /**
   * The display line of a turn: it reads back as the capitalized role,
   * then ": ", then the content exactly as stored.
   */
  function DisplayLine(t: Turn): (r: string)
    ensures |r| == |t.role| + 2 + |t.content|
    ensures r[..|t.role|] == Capitalize(t.role)
    ensures r[|t.role|..|t.role| + 2] == ": "
    ensures r[|t.role| + 2..] == t.content
  {
    Capitalize(t.role) + ": " + t.content
  }

  /** The stored turns; an absent history is an empty one. */
  function Turns(history: Option<seq<Turn>>): seq<Turn> {
    if history.Some? then history.value else []
  }

  function Min(a: nat, b: nat): nat {
    if a < b then a else b
  }

  /** The turns that are rendered: the last `HistoryLimit` of them, in order. */
  function Window(history: Option<seq<Turn>>): (w: seq<Turn>)
    ensures |w| == Min(|Turns(history)|, HistoryLimit)
    ensures w == Turns(history)[|Turns(history)| - |w|..]
  {
    var h := Turns(history);
    if |h| > HistoryLimit then h[|h| - HistoryLimit..] else h
  }

  /** One text block per turn, in order. */
  function Render(turns: seq<Turn>): seq<ChatItem> {
    seq(|turns|, i requires 0 <= i < |turns| => TextBlock(DisplayLine(turns[i])))
  }

  /**
   * The rendered chat items of a history: `min(|h|, 10)` of them, item `i`
   * the display line of turn `|h| - k + i`, so the history's order is kept.
   */
  function ChatItems(history: Option<seq<Turn>>): (r: seq<ChatItem>)
    ensures |r| == Min(|Turns(history)|, HistoryLimit)
    ensures forall i :: 0 <= i < |r| ==>
      r[i] == TextBlock(DisplayLine(Turns(history)[|Turns(history)| - |r| + i]))
  {
    Render(Window(history))
  }

  /**
   * `get_chat_history`: the loop builds exactly the specified rendering, at
   * most the ten latest turns; an empty or absent history renders to nothing.
   */
  method GetChatHistory(chatHistory: Option<seq<Turn>>) returns (chatItems: seq<ChatItem>)
    ensures |chatItems| == Min(|Turns(chatHistory)|, HistoryLimit)
    ensures chatItems == ChatItems(chatHistory)
  {
    chatItems := [];
    if chatHistory.Some? && chatHistory.value != [] {
      var h := chatHistory.value;
      var limitedHistory := if |h| > HistoryLimit then h[|h| - HistoryLimit..] else h;
      assert limitedHistory == Window(chatHistory);
      for j := 0 to |limitedHistory|
        invariant |chatItems| == j
        invariant forall i :: 0 <= i < j ==> chatItems[i] == TextBlock(DisplayLine(limitedHistory[i]))
      {
        var entry := limitedHistory[j];
        var role := Capitalize(entry.role);
        var content := entry.content;
        assert role + ": " + content == DisplayLine(entry);
        chatItems := chatItems + [TextBlock(role + ": " + content)];
      }
      assert chatItems == Render(limitedHistory);
      assert chatItems == ChatItems(chatHistory);
    } else {
      assert Turns(chatHistory) == [];
    }
  }

  /** Turns appended beyond the limit push the oldest ones out of the rendering. */
  lemma {:induction false} LongHistoryDropsOldest(h: seq<Turn>, t: Turn)
    requires |h| >= HistoryLimit
    ensures ChatItems(Some(h + [t])) == ChatItems(Some(h))[1..] + [TextBlock(DisplayLine(t))]
  {
    var w, w' := Window(Some(h)), Window(Some(h + [t]));
    assert w' == w[1..] + [t];
  }

  /** The confirmation the bot sends after a reset. */
  const ResetConfirmation := "New chat session started: Previous messages won't be used as context for new queries."

  /** The conversation-scoped state the bot keeps per user conversation. */
  class Conversation {
    /** The `chat_history` entry of the conversation state, if any. */
    var chatHistory: Option<seq<Turn>>

    constructor (chatHistory: Option<seq<Turn>>)
      ensures this.chatHistory == chatHistory
    {
      this.chatHistory := chatHistory;
    }

    /** `on_clear`: drops the conversation state and confirms the reset. */
    method OnClear() returns (reply: string)
      modifies this
      ensures chatHistory == None
      ensures reply == ResetConfirmation
    {
      chatHistory := None;
      reply := ResetConfirmation;
    }
  }

  /** After a reset, the next rendering of the conversation's history is empty. */
  method ClearThenRender(c: Conversation) returns (reply: string, chatItems: seq<ChatItem>)
    modifies c
    ensures c.chatHistory == None
    ensures reply == ResetConfirmation && chatItems == []
  {
    reply := c.OnClear();
    chatItems := GetChatHistory(c.chatHistory);
  }
}
