/** A walk through one session: connect, create a room as "Ann", receive a
    message and a typing update from "Bob", send a message, leave. */
module Scenario {
  import opened Messages
  import opened Text
  import opened App
  import opened ChatRoom

  /** The message "hi" from Bob. */
  const Hi := ChatMessage(false, None, Some("Bob"), "hi", "u2", 1000, None)

  /** On values: after creating room "R1" as Ann the list is empty; Bob's
      message is then the whole list, and his typing update shows
      "Bob is typing..." on the room screen. */
  lemma CreateReceiveAndIndicate()
    ensures var s0 := Ready(Initial().(clientPresent := true)).next.(nickname := "Ann");
            var s1 := CreateRoom(s0, Resolved("R1")).next;
            var s2 := Dispatch(s1, ChatEvent(Hi));
            var s3 := Dispatch(s2, TypingPresenceEvent(true, ["Bob"]));
            s1.roomId == "R1" && s1.messages == [] && s1.hasJoinedRoom &&
            s2.messages == [Hi] && s3.usersTyping == ["Bob"] &&
            SelectScreen(s3) == RoomScreen &&
            TypingIndicator(s3.usersTyping, s3.nickname) == Some("Bob is typing...")
  {
    assert "Bob" + " is typing..." == "Bob is typing...";
  }

  /** The same session driven through the `Session` class. */
  method SessionWalkThrough() {
    var session := new Session();
    assert SelectScreen(session.State()) == ConnectingScreen;
    session.SetupClient();
    session.OnConnectionReady();
    session.EditNickname("Ann");
    assert SelectScreen(session.State()) == LobbyScreen && !SubmitDisabled(session.State());
    session.HandleCreateRoom(Resolved("R1"));
    assert session.roomId == "R1" && session.messages == [] && session.hasJoinedRoom;
    assert session.requests == [CreateRequest("Ann", DefaultIcons[0])];
    session.OnMessage(ChatEvent(Hi));
    session.OnMessage(TypingPresenceEvent(true, ["Bob"]));
    assert session.messages == [Hi] && session.usersTyping == ["Bob"];

    session.HandleDisconnect();
    assert session.messages == [] && session.usersTyping == [] && session.nickname == "";
    assert SelectScreen(session.State()) == RoomScreen;
    // With the nickname cleared, submitting again asks the library nothing.
    session.HandleCreateRoom(Rejected);
    assert session.requests == [CreateRequest("Ann", DefaultIcons[0])];
  }

  /** Ann types "hello" and presses Enter, through the `Composer` class. */
  method ComposerWalkThrough() {
    var composer := new Composer();
    composer.Edit("hello");
    assert !IsBlank(composer.newMessage) by {
      assert !IsWhiteSpace(composer.newMessage[0]);
    }
    composer.OnKeyPress("Enter", 2000, false, NoFault);
    assert composer.outbound == [TypingCall(true), ChatCall("hello", 2000), TypingCall(false)];
    assert composer.newMessage == "" && !composer.isTyping;
  }
}
