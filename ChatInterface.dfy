/**
 * The local group chat window (`ChatInterface`): an append-only message list
 * seeded with two messages, a draft that is sent only when it is not blank,
 * and a minimize/restore toggle that leaves messages and draft alone.
 */
module Chat {
  import opened Text

  /** One chat message; `isSystem` and `isMe` are false where the component leaves them undefined. */
  datatype Message = Message(id: int, sender: string, text: string, isSystem: bool, isMe: bool)

  /** The two messages the window opens with: a system welcome naming the group, then one from Ana. */
  function InitialMessages(groupName: string): seq<Message> {
    [ Message(1, "Sistema", "Bienvenido al grupo " + groupName, true, false),
      Message(2, "Ana", "Hola a todos! ¿A qué hora nos encontramos?", false, false) ]
  }

  /** The welcome message is a system message whose text contains the group's name. */
  lemma WelcomeNamesGroup(groupName: string)
    ensures |InitialMessages(groupName)| == 2
    ensures InitialMessages(groupName)[0].isSystem
    ensures Includes(InitialMessages(groupName)[0].text, groupName)
  {
    assert "Bienvenido al grupo " + groupName == "Bienvenido al grupo " + groupName + "";
    IncludesPiece("Bienvenido al grupo ", groupName, "");
  }

  /** `!newMessage.trim()`: the send guard's rejection, and the send button's disabled rule. */
  predicate DraftBlank(draft: string) {
    Trim(draft) == ""
  }

  /** The message a send creates: the draft as written (not trimmed), from "Tú", marked as one's own. */
  function OwnMessage(id: int, draft: string): (m: Message)
    ensures m.text == draft && m.sender == "Tú" && m.isMe && !m.isSystem && m.id == id
  {
    Message(id, "Tú", draft, false, true)
  }

  /** The window's state. */
  datatype ChatState = ChatState(isMinimized: bool, messages: seq<Message>, newMessage: string)

  /** The state when the chat opens. */
  function InitialState(groupName: string): ChatState {
    ChatState(false, InitialMessages(groupName), "")
  }

  /**
   * What the user can do. The input and the send button exist only in the expanded
   * window; `Enviar(now)` carries the `Date.now()` value used as the new message's id.
   */
  datatype ChatEvento = Escribe(v: string) | Enviar(now: int) | Minimizar | Restaurar

  /**
   * `handleSendMessage`: a blank draft changes nothing; otherwise exactly one own
   * message carrying the draft is appended at the end and the draft is cleared.
   */
  function Send(s: ChatState, now: int): (r: ChatState)
    ensures DraftBlank(s.newMessage) ==> r == s
    ensures !DraftBlank(s.newMessage) ==>
      r.messages == s.messages + [OwnMessage(now, s.newMessage)] && r.newMessage == "" && r.isMinimized == s.isMinimized
  {
    if DraftBlank(s.newMessage) then s
    else s.(messages := s.messages + [OwnMessage(now, s.newMessage)], newMessage := "")
  }

  /** An empty or whitespace-only draft is never sent. */
  lemma BlankDraftNotSent(s: ChatState, now: int)
    requires IsBlank(s.newMessage)
    ensures Send(s, now) == s
  {
    TrimEmptyIffBlank(s.newMessage);
  }

  /** One event on the window; an event whose element is not rendered changes nothing. */
  function Step(s: ChatState, e: ChatEvento): ChatState {
    match e
    case Escribe(v) => if !s.isMinimized then s.(newMessage := v) else s
    case Enviar(now) => if !s.isMinimized then Send(s, now) else s
    case Minimizar => s.(isMinimized := true)
    case Restaurar => s.(isMinimized := false)
  }

  /** A sequence of events, applied in order. */
  function Run(s: ChatState, es: seq<ChatEvento>): ChatState
    decreases |es|
  {
    if es == [] then s else Run(Step(s, es[0]), es[1..])
  }

  /** Every message past the first `n` is one of the user's own, with non-blank text. */
  predicate OwnFrom(ms: seq<Message>, n: nat) {
    forall i :: n <= i < |ms| ==> ms[i].isMe && !ms[i].isSystem && ms[i].sender == "Tú" && !DraftBlank(ms[i].text)
  }

  /**
   * The message list is append-only: whatever happens, the earlier messages stay as
   * they were, in order, and everything after them is a non-blank message typed here.
   */
  lemma {:induction false} RunAppendOnly(s: ChatState, es: seq<ChatEvento>)
    ensures s.messages <= Run(s, es).messages
    ensures OwnFrom(Run(s, es).messages, |s.messages|)
    decreases |es|
  {
    if es != [] {
      var t := Step(s, es[0]);
      RunAppendOnly(t, es[1..]);
      var r := Run(t, es[1..]).messages;
      assert s.messages <= t.messages;
      assert OwnFrom(t.messages, |s.messages|);
      forall i | |s.messages| <= i < |r|
        ensures r[i].isMe && !r[i].isSystem && r[i].sender == "Tú" && !DraftBlank(r[i].text)
      {
        if i < |t.messages| {
          assert r[i] == t.messages[i];
        }
      }
    }
  }

  /** Minimizing and restoring touch only the presentation flag. */
  lemma ToggleKeepsContent(s: ChatState)
    ensures Step(s, Minimizar) == s.(isMinimized := true)
    ensures Step(s, Restaurar) == s.(isMinimized := false)
    ensures Run(s, [Minimizar, Restaurar]) == s.(isMinimized := false)
  {
    assert [Minimizar, Restaurar][1..] == [Restaurar];
  }

  /** A prefix of a list is still a prefix after one more message is appended. */
  lemma PrefixExtends(p: seq<Message>, ms: seq<Message>, m: Message)
    requires p <= ms
    ensures p <= ms + [m]
  {
    assert (ms + [m])[..|ms|] == ms;
  }

  /** The chat window for one group. */
  class ChatInterface {
    const groupName: string
    var isMinimized: bool
    var messages: seq<Message>
    var newMessage: string

    function State(): ChatState
      reads this
    {
      ChatState(isMinimized, messages, newMessage)
    }

    /** The two initial messages always head the list. */
    predicate Valid()
      reads this
    {
      InitialMessages(groupName) <= messages
    }

    /** Opening the window: expanded, the two initial messages, an empty draft. */
    constructor (groupName: string)
      ensures this.groupName == groupName
      ensures State() == InitialState(groupName)
      ensures Valid()
    {
      this.groupName := groupName;
      isMinimized := false;
      messages := InitialMessages(groupName);
      newMessage := "";
    }

    /** Typing in the input. */
    method SetNewMessage(v: string)
      requires Valid() && !isMinimized
      modifies this`newMessage
      ensures Valid()
      ensures newMessage == v
      ensures State() == Step(old(State()), Escribe(v))
    {
      newMessage := v;
    }

    /**
     * `handleSendMessage`, with `now` standing for `Date.now()`. The list changes
     * exactly when the send button is enabled.
     */
    method HandleSendMessage(now: int)
      requires Valid() && !isMinimized
      modifies this`messages, this`newMessage
      ensures Valid()
      ensures State() == Send(old(State()), now)
      ensures State() == Step(old(State()), Enviar(now))
      ensures DraftBlank(old(newMessage)) <==> messages == old(messages)
      ensures DraftBlank(old(newMessage)) ==> newMessage == old(newMessage)
      ensures !DraftBlank(old(newMessage)) ==> messages == old(messages) + [OwnMessage(now, old(newMessage))] && newMessage == ""
    {
      ghost var s := State();
      if DraftBlank(newMessage) {
        return;
      }
      var message := Message(now, "Tú", newMessage, false, true);
      PrefixExtends(InitialMessages(groupName), messages, message);
      messages := messages + [message];
      newMessage := "";
      assert |messages| != |s.messages|;
    }

    /** The header click and the minimize button, both in the expanded window. */
    method Minimize()
      requires Valid() && !isMinimized
      modifies this`isMinimized
      ensures Valid()
      ensures isMinimized
      ensures State() == Step(old(State()), Minimizar)
    {
      isMinimized := true;
    }

    /** The bubble shown while minimized. */
    method Restore()
      requires Valid() && isMinimized
      modifies this`isMinimized
      ensures Valid()
      ensures !isMinimized
      ensures State() == Step(old(State()), Restaurar)
    {
      isMinimized := false;
    }
  }
}
