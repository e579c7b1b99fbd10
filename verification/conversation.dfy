/**
 * The recent-conversation text both Streamlit pages send to the advisor:
 * the last turns of the chat, one "Role: content" line each.
 */
module Conversation {
  import opened Text

  /** A chat message as the pages store it: its role and its text. */
  datatype Message = Message(role: string, content: string)

  const DefaultMaxTurns := 6
  const NoPriorMessages := "No prior messages."

  /**
   * Where Python's `messages[-maxTurns:]` starts: the last `maxTurns` for a
   * positive count; for zero, `-0` is `0` and the slice is the whole list;
   * for a negative count the slice drops its first `-maxTurns` messages.
   */
  function WindowStart(n: nat, maxTurns: int): (start: nat)
    ensures start <= n
  {
    if maxTurns > 0 then (if maxTurns <= n then n - maxTurns else 0)
    else if -maxTurns <= n then -maxTurns
    else n
  }

  function Window(messages: seq<Message>, maxTurns: int): seq<Message> {
    messages[WindowStart(|messages|, maxTurns)..]
  }

  function RoleLabel(role: string): string {
    if role == "user" then "User" else "Assistant"
  }

  function Line(m: Message): string {
    RoleLabel(m.role) + ": " + m.content
  }

  function Lines(messages: seq<Message>): (r: seq<string>)
    ensures |r| == |messages|
    ensures forall j :: 0 <= j < |messages| ==> r[j] == Line(messages[j])
  {
    if messages == [] then [] else [Line(messages[0])] + Lines(messages[1..])
  }

  /** The context text: the window's lines joined by newlines, or the placeholder when it is empty. */
  function ConversationContext(messages: seq<Message>, maxTurns: int): string {
    var window := Window(messages, maxTurns);
    if window == [] then NoPriorMessages else Join(Lines(window), "\n")
  }

  /**
   * build_conversation_context: one line per message of the window,
   * appended in order.
   */
  method BuildConversationContext(messages: seq<Message>, maxTurns: int) returns (r: string)
    ensures r == ConversationContext(messages, maxTurns)
  {
    var window := messages[WindowStart(|messages|, maxTurns)..];
    var lines: seq<string> := [];
    var i := 0;
    while i < |window|
      invariant 0 <= i <= |window|
      invariant lines == Lines(window[..i])
    {
      var msg := window[i];
      var role := if msg.role == "user" then "User" else "Assistant";
      assert role + ": " + msg.content == Line(msg);
      lines := lines + [role + ": " + msg.content];
      LinesOfLongerPrefix(window, i);
      i := i + 1;
    }
    assert window[..i] == window;
    r := if lines != [] then Join(lines, "\n") else NoPriorMessages;
  }

  /** One more message of the prefix adds its line at the end. */
  lemma LinesOfLongerPrefix(messages: seq<Message>, i: nat)
    requires i < |messages|
    ensures Lines(messages[..i + 1]) == Lines(messages[..i]) + [Line(messages[i])]
  {
    assert messages[..i + 1] == messages[..i] + [messages[i]];
    LinesAppend(messages[..i], messages[i]);
  }

  lemma LinesAppend(messages: seq<Message>, m: Message)
    ensures Lines(messages + [m]) == Lines(messages) + [Line(m)]
  {
  }

  // ---------------------------------------------------------------------------
  // The window

  /** A positive count keeps the last min(n, maxTurns) messages. */
  lemma WindowIsLastTurns(messages: seq<Message>, maxTurns: int)
    requires maxTurns >= 1
    ensures |Window(messages, maxTurns)| == if |messages| < maxTurns then |messages| else maxTurns
    ensures Window(messages, maxTurns) == messages[|messages| - |Window(messages, maxTurns)|..]
  {
  }

  /** A count of zero keeps every message. */
  lemma ZeroTurnsKeepEverything(messages: seq<Message>)
    ensures Window(messages, 0) == messages
  {
  }

  // ---------------------------------------------------------------------------
  // The text

  /** The placeholder appears exactly when the window is empty: every line starts with a role label. */
  lemma PlaceholderIffEmpty(messages: seq<Message>, maxTurns: int)
    ensures ConversationContext(messages, maxTurns) == NoPriorMessages <==> Window(messages, maxTurns) == []
  {
    var window := Window(messages, maxTurns);
    if window != [] {
      var lines := Lines(window);
      JoinStartsWithFirst(lines, "\n");
      assert Join(lines, "\n")[0] == lines[0][0];
      assert RoleLabel(window[0].role)[0] in "UA";
      assert NoPriorMessages[0] == 'N';
    }
  }

  /** No messages at all give the placeholder, whatever the count. */
  lemma NoMessagesGivePlaceholder(maxTurns: int)
    ensures ConversationContext([], maxTurns) == NoPriorMessages
  {
  }

  /** Only the role "user" is labelled "User"; every other role is the assistant. */
  lemma LabelIsUserIff(m: Message)
    ensures Line(m)[..6] == "User: " <==> m.role == "user"
  {
    if m.role != "user" {
      assert Line(m)[0] == 'A';
    }
  }

  /** Messages without newlines can be read back line by line, one per message of the window. */
  lemma {:induction false} ContextSplitsIntoLines(messages: seq<Message>, maxTurns: int)
    requires Window(messages, maxTurns) != []
    requires forall j :: 0 <= j < |messages| ==> '\n' !in messages[j].content
    ensures Split(ConversationContext(messages, maxTurns), '\n') == Lines(Window(messages, maxTurns))
  {
    var window := Window(messages, maxTurns);
    var lines := Lines(window);
    forall j | 0 <= j < |lines|
      ensures '\n' !in lines[j]
    {
      assert window[j] == messages[WindowStart(|messages|, maxTurns) + j];
      assert '\n' !in RoleLabel(window[j].role);
    }
    SplitJoin(lines, '\n');
  }
}
