/** The room view: the composer (draft text, local typing flag and the calls
    it hands to the library client) and the pure rendering rules for
    messages and the typing indicator. */
module ChatRoom {
  import opened Messages
  import opened Text

  /** A call of `client.sendMessage`: a chat body with its client-side
      timestamp, or a typing presence update. */
  datatype Call = ChatCall(body: string, timestamp: int) | TypingCall(typing: bool)

  /** The room view's own state. */
  datatype ComposerState = ComposerState(newMessage: string, isTyping: bool)

  /** Which `sendMessage` call of a send, if any, throws. */
  datatype SendFault = NoFault | ChatThrows | PresenceThrows

  /** The result of a composer step: the new state, the calls handed to the
      library (in order, including one that threw) and the notices shown. */
  datatype Effect = Effect(next: ComposerState, calls: seq<Call>, notices: seq<Notice>)

  /** The composer when the room view mounts. */
  function InitialComposer(): ComposerState {
    ComposerState("", false)
  }

  // ---------------------------------------------------------------------
  // Composer steps

  /** `sendMessage`, with `now` standing for `Date.now()`. A blank draft
      does nothing. Otherwise the untrimmed draft is sent; if that call
      throws, the draft and the typing flag are kept and no presence update
      follows. If it returns, the draft is cleared, the flag reset and a
      typing=false update sent (clearing stands even if that update throws).
      The source's test `!newMessage.trim()` is `IsBlank` (`TrimmedEmpty`). */
  function Send(c: ComposerState, now: int, fault: SendFault): (r: Effect)
    ensures IsBlank(c.newMessage) ==> r == Effect(c, [], [])
    ensures !IsBlank(c.newMessage) && fault == NoFault ==>
      r == Effect(ComposerState("", false), [ChatCall(c.newMessage, now), TypingCall(false)], [])
    ensures !IsBlank(c.newMessage) && fault == ChatThrows ==>
      r == Effect(c, [ChatCall(c.newMessage, now)], [SendFailedNotice])
    ensures !IsBlank(c.newMessage) && fault == PresenceThrows ==>
      r == Effect(ComposerState("", false), [ChatCall(c.newMessage, now), TypingCall(false)], [SendFailedNotice])
  {
    if IsBlank(c.newMessage) then Effect(c, [], [])
    else if fault == ChatThrows then Effect(c, [ChatCall(c.newMessage, now)], [SendFailedNotice])
    else
      Effect(ComposerState("", false),
             [ChatCall(c.newMessage, now), TypingCall(false)],
             if fault == PresenceThrows then [SendFailedNotice] else [])
  }

  /** `handleTyping`: the first keystroke after the flag was cleared sets it
      and sends typing=true; later keystrokes send nothing. A throwing call
      is only written to the console, so `throws` changes nothing. */
  function NotifyTyping(c: ComposerState, throws: bool): (r: Effect)
    ensures r.next.isTyping && r.next.newMessage == c.newMessage
    ensures r.calls == [] || r.calls == [TypingCall(true)]
    ensures |r.calls| == 1 <==> !c.isTyping
    ensures r.notices == []
  {
    if !c.isTyping then Effect(c.(isTyping := true), [TypingCall(true)], [])
    else Effect(c, [], [])
  }

  /** The input's key-press handler: `handleTyping` first, then, for the
      Enter key, `sendMessage`. */
  function KeyPress(c: ComposerState, key: string, now: int, throws: bool, fault: SendFault): (r: Effect)
    ensures key != "Enter" || IsBlank(c.newMessage) ==> r == NotifyTyping(c, throws)
    ensures (|r.calls| > 0 && r.calls[0] == TypingCall(true)) <==> !c.isTyping
    ensures key == "Enter" && !IsBlank(c.newMessage) ==>
      r.calls == (if c.isTyping then [] else [TypingCall(true)]) + [ChatCall(c.newMessage, now)] +
                 (if fault == ChatThrows then [] else [TypingCall(false)])
    ensures key == "Enter" && !IsBlank(c.newMessage) ==>
      r.notices == (if fault == NoFault then [] else [SendFailedNotice])
    ensures !r.next.isTyping <==> key == "Enter" && !IsBlank(c.newMessage) && fault != ChatThrows
    ensures r.next.newMessage ==
      (if key == "Enter" && !IsBlank(c.newMessage) && fault != ChatThrows then "" else c.newMessage)
  {
    var t := NotifyTyping(c, throws);
    if key == "Enter" then
      var s := Send(t.next, now, fault);
      Effect(s.next, t.calls + s.calls, t.notices + s.notices)
    else t
  }

  // ---------------------------------------------------------------------
  // Composer properties

  /** Two keystrokes in a row send at most one typing=true update, and
      exactly one when the flag started cleared. */
  lemma TypingTwiceSendsOnce(c: ComposerState, throws1: bool, throws2: bool)
    ensures var e1 := NotifyTyping(c, throws1);
            var e2 := NotifyTyping(e1.next, throws2);
            e1.calls + e2.calls == (if c.isTyping then [] else [TypingCall(true)]) &&
            e2.next == e1.next
  {
  }

  /** Enter on a non-blank draft with the flag cleared sends typing=true,
      the chat body and typing=false, in that order, and ends with an empty
      draft and the flag cleared. */
  lemma EnterSendsInOrder(c: ComposerState, now: int, throws: bool)
    requires !c.isTyping && !IsBlank(c.newMessage)
    ensures KeyPress(c, "Enter", now, throws, NoFault) ==
      Effect(ComposerState("", false),
             [TypingCall(true), ChatCall(c.newMessage, now), TypingCall(false)], [])
  {
  }

  /** The usual Enter: earlier keystrokes have already set the flag, so the
      key press is exactly `sendMessage`, with no typing=true update first. */
  lemma EnterWhileTypingIsSend(c: ComposerState, now: int, throws: bool, fault: SendFault)
    requires c.isTyping
    ensures KeyPress(c, "Enter", now, throws, fault) == Send(c, now, fault)
  {
  }

  /** Enter on a blank draft sends at most the typing=true update and
      keeps the draft. */
  lemma EnterOnBlankSendsNoChat(c: ComposerState, now: int, throws: bool, fault: SendFault)
    requires IsBlank(c.newMessage)
    ensures var r := KeyPress(c, "Enter", now, throws, fault);
            r.next == c.(isTyping := true) && r.calls == (if c.isTyping then [] else [TypingCall(true)])
  {
  }

  /** A failed chat call is never followed by a typing=false update, and
      a send that clears the flag lets the next keystroke announce typing
      again. */
  lemma SendFailureAndRestart(c: ComposerState, now: int, fault: SendFault, throws: bool)
    requires !IsBlank(c.newMessage)
    ensures fault == ChatThrows ==> TypingCall(false) !in Send(c, now, fault).calls
    ensures fault != ChatThrows ==>
      NotifyTyping(Send(c, now, fault).next, throws).calls == [TypingCall(true)]
  {
  }

  // ---------------------------------------------------------------------
  // Message rendering

  /** Horizontal placement of a message row. */
  datatype Alignment = AlignStart | AlignEnd

  /** Colour scheme of a message bubble. */
  datatype Bubble = SystemBubble | SelfBubble | OtherBubble

  /** The sender header: the avatar and the name, each when present. */
  datatype Header = Header(icon: Option<string>, name: Option<string>)

  /** What the view shows for one message. */
  datatype MessageView = MessageView(alignment: Alignment, bubble: Bubble, header: Option<Header>,
                                     body: string, timestamp: int)

  /** A JavaScript-truthy optional string: present and non-empty. */
  predicate Truthy(o: Option<string>) {
    o.Some? && o.value != ""
  }

  function AlignmentOf(msg: ChatMessage, nickname: string): (a: Alignment)
    ensures a == AlignEnd <==> msg.userNickname == Some(nickname)
  {
    if msg.userNickname == Some(nickname) then AlignEnd else AlignStart
  }

  function BubbleOf(msg: ChatMessage, nickname: string): (b: Bubble)
    ensures b == SystemBubble <==> msg.isSystemMessage
    ensures b == SelfBubble <==> !msg.isSystemMessage && msg.userNickname == Some(nickname)
    ensures b == OtherBubble <==> !msg.isSystemMessage && msg.userNickname != Some(nickname)
  {
    if msg.isSystemMessage then SystemBubble
    else if msg.userNickname == Some(nickname) then SelfBubble
    else OtherBubble
  }

  /** System messages have no sender header; otherwise the avatar and the
      name are shown when they are truthy. */
  function HeaderOf(msg: ChatMessage): (h: Option<Header>)
    ensures h.Some? <==> !msg.isSystemMessage
    ensures h.Some? ==> (h.value.icon.Some? <==> Truthy(msg.userIcon))
    ensures h.Some? ==> (h.value.name.Some? <==> Truthy(msg.userNickname))
    ensures h.Some? && h.value.icon.Some? ==> h.value.icon == msg.userIcon
    ensures h.Some? && h.value.name.Some? ==> h.value.name == msg.userNickname
  {
    if msg.isSystemMessage then None
    else Some(Header(if Truthy(msg.userIcon) then msg.userIcon else None,
                     if Truthy(msg.userNickname) then msg.userNickname else None))
  }

  /** One message as shown: its body and time verbatim, the own-message
      style only on the right, and a header exactly when it is not a system
      message. */
  function RenderMessage(msg: ChatMessage, nickname: string): (r: MessageView)
    ensures r.body == msg.body && r.timestamp == msg.timestamp
    ensures r.bubble == SelfBubble ==> r.alignment == AlignEnd
    ensures r.header.None? <==> r.bubble == SystemBubble
  {
    MessageView(AlignmentOf(msg, nickname), BubbleOf(msg, nickname), HeaderOf(msg),
                msg.body, msg.timestamp)
  }

  /** The message list, one view per message, in arrival order. */
  function RenderMessages(messages: seq<ChatMessage>, nickname: string): (r: seq<MessageView>)
    ensures |r| == |messages|
    ensures forall i :: 0 <= i < |messages| ==> r[i] == RenderMessage(messages[i], nickname)
    decreases |messages|
  {
    if messages == [] then []
    else [RenderMessage(messages[0], nickname)] + RenderMessages(messages[1..], nickname)
  }

  /** For a user's message, self styling and right alignment coincide;
      a system message carrying the local nickname is right-aligned but
      keeps the system style. */
  lemma StyleMatchesAlignment(msg: ChatMessage, nickname: string)
    ensures !msg.isSystemMessage ==>
      (BubbleOf(msg, nickname) == SelfBubble <==> AlignmentOf(msg, nickname) == AlignEnd)
    ensures msg.isSystemMessage && msg.userNickname == Some(nickname) ==>
      RenderMessage(msg, nickname).alignment == AlignEnd &&
      RenderMessage(msg, nickname).bubble == SystemBubble &&
      RenderMessage(msg, nickname).header == None
  {
  }

  // ---------------------------------------------------------------------
  // Typing indicator

  /** The typing line under the messages, or `None` when it is hidden. Only
      the first name of the roster is compared with the local nickname. */
  function TypingIndicator(usersTyping: seq<string>, nickname: string): (r: Option<string>)
    ensures r.Some? <==> |usersTyping| > 0 && usersTyping[0] != nickname
    ensures r.Some? && |usersTyping| == 1 ==> r.value == usersTyping[0] + " is typing..."
    ensures r.Some? && |usersTyping| > 1 ==> r.value == Join(usersTyping, ", ") + " are typing..."
  {
    if |usersTyping| > 0 && usersTyping[0] != nickname then
      Some(Join(usersTyping, ", ") + " " + (if |usersTyping| == 1 then "is" else "are") + " typing...")
    else None
  }

  /** The local user is hidden from the indicator only when listed first:
      listed later, the line shows and names them too. */
  lemma IndicatorChecksOnlyFirst()
    ensures TypingIndicator(["Ann", "Bob"], "Ann") == None
    ensures TypingIndicator(["Bob", "Ann"], "Ann") == Some("Bob, Ann are typing...")
  {
    var names := ["Bob", "Ann"];
    assert names[1..] == ["Ann"];
    assert Join(names, ", ") == "Bob" + ", " + "Ann";
    assert "Bob" + ", " + "Ann" + " are typing..." == "Bob, Ann are typing...";
  }

  /** One more typing user adds ", " and their name before the verb, which
      is "are" from two names on. */
  lemma IndicatorWithOneMore(usersTyping: seq<string>, name: string, nickname: string)
    requires |usersTyping| > 0 && usersTyping[0] != nickname
    ensures TypingIndicator(usersTyping + [name], nickname) ==
      Some(Join(usersTyping, ", ") + ", " + name + " are typing...")
  {
    JoinSnoc(usersTyping, name, ", ");
    assert (usersTyping + [name])[0] == usersTyping[0];
  }

  // ---------------------------------------------------------------------
  // The room view's state, updated in place

  class Composer {
    var newMessage: string
    var isTyping: bool
    /** The calls handed to `client.sendMessage` so far. */
    ghost var outbound: seq<Call>
    /** The toasts shown so far. */
    ghost var notices: seq<Notice>

    function State(): ComposerState
      reads this
    {
      ComposerState(newMessage, isTyping)
    }

    constructor ()
      ensures State() == InitialComposer() && outbound == [] && notices == []
    {
      newMessage, isTyping := "", false;
      outbound, notices := [], [];
    }

    /** The input's change handler. */
    method Edit(text: string)
      modifies this
      ensures State() == old(State()).(newMessage := text)
      ensures outbound == old(outbound) && notices == old(notices)
    {
      newMessage := text;
    }

    method SendMessage(now: int, fault: SendFault)
      modifies this
      ensures State() == Send(old(State()), now, fault).next
      ensures outbound == old(outbound) + Send(old(State()), now, fault).calls
      ensures notices == old(notices) + Send(old(State()), now, fault).notices
    {
      var blank := TrimmedEmpty(newMessage);
      if blank {
        return;
      }
      outbound := outbound + [ChatCall(newMessage, now)];
      if fault == ChatThrows {
        notices := notices + [SendFailedNotice];
        return;
      }
      newMessage := "";
      isTyping := false;
      outbound := outbound + [TypingCall(false)];
      if fault == PresenceThrows {
        notices := notices + [SendFailedNotice];
      }
    }

    method HandleTyping(throws: bool)
      modifies this
      ensures State() == NotifyTyping(old(State()), throws).next
      ensures outbound == old(outbound) + NotifyTyping(old(State()), throws).calls
      ensures notices == old(notices)
    {
      if !isTyping {
        isTyping := true;
        outbound := outbound + [TypingCall(true)];
      }
    }

    method OnKeyPress(key: string, now: int, throws: bool, fault: SendFault)
      modifies this
      ensures State() == KeyPress(old(State()), key, now, throws, fault).next
      ensures outbound == old(outbound) + KeyPress(old(State()), key, now, throws, fault).calls
      ensures notices == old(notices) + KeyPress(old(State()), key, now, throws, fault).notices
    {
      ghost var sent, shown := outbound, notices;
      ghost var t := NotifyTyping(State(), throws);
      ghost var k := KeyPress(State(), key, now, throws, fault);
      HandleTyping(throws);
      if key == "Enter" {
        ghost var e := Send(t.next, now, fault);
        assert k == Effect(e.next, t.calls + e.calls, t.notices + e.notices);
        SendMessage(now, fault);
        assert outbound == sent + (t.calls + e.calls);
        assert notices == shown + (t.notices + e.notices);
      } else {
        assert k == t;
      }
      assert State() == k.next && outbound == sent + k.calls && notices == shown + k.notices;
    }
  }
}
