/** The root component's session state: connection status, room identity,
    nickname and avatar, the accumulated message list and the typing roster,
    with the library callbacks and user handlers that update them. Each
    handler is one atomic step; the pure functions below say what a step
    does to a `SessionState` value, and the `Session` class performs the
    same steps on its fields. */
module App {
  import opened Messages
  import opened Text

  /** The built-in avatars; the first is the default. */
  const DefaultIcons: seq<string> := [
    "https://api.multiavatar.com/johndoe.svg",
    "https://api.multiavatar.com/Starcrasher.png",
    "https://api.multiavatar.com/BinxBond.png"
  ]

  /** Largest accepted avatar upload, in bytes (5 MiB). */
  const MaxUploadBytes: nat := 5 * 1024 * 1024

  /** The lobby form's mode: create a new room or join an existing one. */
  datatype JoinMode = Creating | Joining

  /** The three screens the root component renders. */
  datatype Screen = ConnectingScreen | RoomScreen | LobbyScreen

  /** All of the root component's state. `clientPresent` says whether the
      library client has been constructed (it is null on the first render). */
  datatype SessionState = SessionState(
    clientPresent: bool,
    isConnected: bool,
    roomId: string,
    nickname: string,
    selectedIcon: string,
    joinMode: JoinMode,
    messages: seq<ChatMessage>,
    usersTyping: seq<string>,
    hasJoinedRoom: bool)

  /** A request the front-end makes of the library and awaits: create a
      room, or join one, with the arguments it passes. */
  datatype Request =
    | CreateRequest(nickname: string, icon: string)
    | JoinRequest(nickname: string, roomId: string, icon: string)

  /** The result of a step: the new state, the notices shown and the
      requests made of the library. */
  datatype Step = Step(next: SessionState, notices: seq<Notice>, requests: seq<Request>)

  /** The file chosen in the avatar upload input. */
  datatype UploadFile = UploadFile(mimeType: string, size: nat)

  /** The state of the first render. */
  function Initial(): SessionState {
    SessionState(false, false, "", "", DefaultIcons[0], Creating, [], [], false)
  }

  /** Being connected or having joined a room is only possible once the
      client exists: the callbacks belong to it and create/join need it. */
  predicate Consistent(s: SessionState) {
    (s.isConnected || s.hasJoinedRoom) ==> s.clientPresent
  }

  // ---------------------------------------------------------------------
  // Library callbacks

  /** `onMessage`: a chat event appends its message at the end, a typing
      presence event replaces the roster wholesale, anything else is
      ignored. Chat messages are appended whether or not a room is joined. */
  function Dispatch(s: SessionState, m: SocketMessage): (r: SessionState)
    ensures m.ChatEvent? ==>
      |r.messages| == |s.messages| + 1 &&
      r.messages[..|s.messages|] == s.messages &&
      r.messages[|s.messages|] == m.chat &&
      r.(messages := s.messages) == s
    ensures m.TypingPresenceEvent? ==>
      r.usersTyping == m.usersTyping && r.(usersTyping := s.usersTyping) == s
    ensures m.OtherEvent? ==> r == s
  {
    match m
    case ChatEvent(chat) => s.(messages := s.messages + [chat])
    case TypingPresenceEvent(_, users) => s.(usersTyping := users)
    case OtherEvent(_) => s
  }

  /** `onClose`: the connection is marked lost; nothing else changes. */
  function Closed(s: SessionState): (r: Step)
    ensures !r.next.isConnected && r.next.(isConnected := s.isConnected) == s
    ensures r.notices == [ConnectionLostNotice] && r.requests == []
  {
    Step(s.(isConnected := false), [ConnectionLostNotice], [])
  }

  /** `onConnectionReady`: the connection is marked ready; nothing else
      changes. */
  function Ready(s: SessionState): (r: Step)
    ensures r.next.isConnected && r.next.(isConnected := s.isConnected) == s
    ensures r.notices == [ConnectedNotice] && r.requests == []
    ensures s.clientPresent ==> Consistent(r.next)
  {
    Step(s.(isConnected := true), [ConnectedNotice], [])
  }

  // ---------------------------------------------------------------------
  // Room lifecycle

  /** The guard of `handleCreateRoom`: a client and a non-empty nickname. */
  predicate CanCreate(s: SessionState) {
    s.clientPresent && s.nickname != ""
  }

  /** The guard of `handleJoinRoom`: a client, a room id and a nickname. */
  predicate CanJoin(s: SessionState) {
    s.clientPresent && s.roomId != "" && s.nickname != ""
  }

  /** `handleCreateRoom`, given how `createChatRoom` settled. Outside the
      guard nothing happens and the library is not asked; inside it, one
      request carries the current nickname and avatar. */
  function CreateRoom(s: SessionState, reply: Reply<string>): (r: Step)
    ensures !CanCreate(s) ==> r == Step(s, [], [])
    ensures CanCreate(s) ==> r.requests == [CreateRequest(s.nickname, s.selectedIcon)]
    ensures CanCreate(s) && reply.Resolved? ==>
      r.next.roomId == reply.value && r.next.messages == [] && r.next.hasJoinedRoom &&
      r.next.(roomId := s.roomId, messages := s.messages, hasJoinedRoom := s.hasJoinedRoom) == s &&
      r.notices == [RoomCreatedNotice]
    ensures CanCreate(s) && reply.Rejected? ==> r.next == s && r.notices == [CreateFailedNotice]
    ensures Consistent(s) ==> Consistent(r.next)
  {
    if !CanCreate(s) then Step(s, [], [])
    else
      var request := [CreateRequest(s.nickname, s.selectedIcon)];
      match reply
      case Resolved(id) =>
        Step(s.(roomId := id, messages := [], hasJoinedRoom := true), [RoomCreatedNotice], request)
      case Rejected => Step(s, [CreateFailedNotice], request)
  }

  /** `handleJoinRoom`, given how `joinChatRoom` settled. The history the
      library returns replaces the message list (an empty list when the
      reply is not well-formed); a rejected join clears only the room id.
      Outside the guard the library is not asked; inside it, one request
      carries the current nickname, room id and avatar. */
  function JoinRoom(s: SessionState, reply: Reply<MessageList>): (r: Step)
    ensures !CanJoin(s) ==> r == Step(s, [], [])
    ensures CanJoin(s) ==> r.requests == [JoinRequest(s.nickname, s.roomId, s.selectedIcon)]
    ensures CanJoin(s) && reply.Resolved? ==>
      r.next.messages == (if reply.value.WellFormed? then reply.value.messages else []) &&
      r.next.hasJoinedRoom &&
      r.next.(messages := s.messages, hasJoinedRoom := s.hasJoinedRoom) == s &&
      r.notices == [RoomJoinedNotice]
    ensures CanJoin(s) && reply.Rejected? ==>
      r.next.roomId == "" && r.next.(roomId := s.roomId) == s && r.notices == [JoinFailedNotice]
    ensures Consistent(s) ==> Consistent(r.next)
  {
    if !CanJoin(s) then Step(s, [], [])
    else
      var request := [JoinRequest(s.nickname, s.roomId, s.selectedIcon)];
      match reply
      case Resolved(list) =>
        var history := match list
          case WellFormed(ms) => ms
          case Malformed => [];
        Step(s.(messages := history, hasJoinedRoom := true), [RoomJoinedNotice], request)
      case Rejected => Step(s.(roomId := ""), [JoinFailedNotice], request)
  }

  /** `handleDisconnect` (the "Leave Room" button): clears the room id, the
      nickname, the messages and the typing roster. It neither tells the
      library nor resets `hasJoinedRoom`. */
  function Leave(s: SessionState): (r: SessionState)
    ensures r.roomId == "" && r.nickname == "" && r.messages == [] && r.usersTyping == []
    ensures r.hasJoinedRoom == s.hasJoinedRoom && r.isConnected == s.isConnected
    ensures r.selectedIcon == s.selectedIcon && r.clientPresent == s.clientPresent
    ensures r.joinMode == s.joinMode
  {
    s.(roomId := "", nickname := "", messages := [], usersTyping := [])
  }

  // ---------------------------------------------------------------------
  // Avatar

  /** The two checks of `handleImageUpload`: an image MIME type and a size
      of at most 5 MiB. */
  predicate AcceptsUpload(f: UploadFile)
    ensures AcceptsUpload(f) <==>
      |f.mimeType| >= 6 && f.mimeType[..6] == "image/" && f.size <= 5 * 1024 * 1024
  {
    StartsWith(f.mimeType, "image/") && f.size <= MaxUploadBytes
  }

  /** `handleImageUpload`, given the chosen file (none when the picker was
      dismissed) and how reading it as a data URL settled. Only an accepted
      file that was read successfully changes the avatar. */
  function Upload(s: SessionState, file: Option<UploadFile>, read: Reply<string>): (r: Step)
    ensures r.next.(selectedIcon := s.selectedIcon) == s
    ensures file.None? ==> r == Step(s, [], [])
    ensures file.Some? && !StartsWith(file.value.mimeType, "image/") ==>
      r == Step(s, [NotAnImageNotice], [])
    ensures file.Some? && StartsWith(file.value.mimeType, "image/") && file.value.size > MaxUploadBytes ==>
      r == Step(s, [ImageTooLargeNotice], [])
    ensures file.Some? && AcceptsUpload(file.value) && read.Resolved? ==>
      r == Step(s.(selectedIcon := read.value), [], [])
    ensures file.Some? && AcceptsUpload(file.value) && read.Rejected? ==>
      r == Step(s, [ReadFailedNotice], [])
  {
    match file
    case None => Step(s, [], [])
    case Some(f) =>
      if !StartsWith(f.mimeType, "image/") then Step(s, [NotAnImageNotice], [])
      else if f.size > MaxUploadBytes then Step(s, [ImageTooLargeNotice], [])
      else match read
        case Resolved(dataUrl) => Step(s.(selectedIcon := dataUrl), [], [])
        case Rejected => Step(s, [ReadFailedNotice], [])
  }

  /** `resetToDefaultIcon`. */
  function ResetIcon(s: SessionState): (r: SessionState)
    ensures r.selectedIcon == DefaultIcons[0]
    ensures r.(selectedIcon := s.selectedIcon) == s
  {
    s.(selectedIcon := DefaultIcons[0])
  }

  // ---------------------------------------------------------------------
  // Rendering decisions

  /** Which screen the root component renders. */
  function SelectScreen(s: SessionState): (r: Screen)
    ensures r == ConnectingScreen <==> !s.isConnected
    ensures r == RoomScreen <==> s.isConnected && s.hasJoinedRoom && s.clientPresent
    ensures r == LobbyScreen <==> s.isConnected && !(s.hasJoinedRoom && s.clientPresent)
  {
    if !s.isConnected then ConnectingScreen
    else if s.hasJoinedRoom && s.clientPresent then RoomScreen
    else LobbyScreen
  }

  /** Whether the lobby's submit button is disabled. */
  predicate SubmitDisabled(s: SessionState)
    ensures s.joinMode == Creating ==> (SubmitDisabled(s) <==> s.nickname == "")
    ensures s.joinMode == Joining ==> (SubmitDisabled(s) <==> s.nickname == "" || s.roomId == "")
  {
    s.nickname == "" || (s.joinMode == Joining && s.roomId == "")
  }

  // ---------------------------------------------------------------------
  // Properties relating several steps

  /** With a client in place, the submit button is enabled exactly when the
      handler it triggers gets past its guard. */
  lemma SubmitEnabledIffGuardPasses(s: SessionState)
    requires s.clientPresent
    ensures !SubmitDisabled(s) <==> (if s.joinMode == Creating then CanCreate(s) else CanJoin(s))
  {
  }

  /** When the state is consistent, the client check of the screen branch
      never fails: connected and joined means the room screen. */
  lemma JoinedShowsRoom(s: SessionState)
    requires Consistent(s) && s.isConnected && s.hasJoinedRoom
    ensures SelectScreen(s) == RoomScreen
  {
  }

  /** A closed connection always shows the connecting screen, whatever
      else was true. */
  lemma ClosedShowsConnecting(s: SessionState)
    ensures SelectScreen(Closed(s).next) == ConnectingScreen
    ensures SelectScreen(Ready(Closed(s).next).next) == SelectScreen(Ready(s).next)
  {
  }

  /** Leaving does not leave the room screen: `hasJoinedRoom` stays true, so
      the room view stays up with an empty room id and nickname, and from
      there neither create nor join can run (their guards need a
      nickname). */
  lemma LeaveStaysOnScreen(s: SessionState, created: Reply<string>, joined: Reply<MessageList>)
    ensures SelectScreen(Leave(s)) == SelectScreen(s)
    ensures SubmitDisabled(Leave(s))
    ensures CreateRoom(Leave(s), created) == Step(Leave(s), [], [])
    ensures JoinRoom(Leave(s), joined) == Step(Leave(s), [], [])
  {
  }

  /** Every step keeps the state consistent (`Ready` whenever the client
      exists, which is the only time the library can call it). */
  lemma StepsPreserveConsistency(s: SessionState, m: SocketMessage, created: Reply<string>,
                                 joined: Reply<MessageList>, file: Option<UploadFile>, read: Reply<string>)
    requires Consistent(s)
    ensures Consistent(Dispatch(s, m)) && Consistent(Closed(s).next)
    ensures s.clientPresent ==> Consistent(Ready(s).next)
    ensures Consistent(CreateRoom(s, created).next) && Consistent(JoinRoom(s, joined).next)
    ensures Consistent(Leave(s)) && Consistent(Upload(s, file, read).next) && Consistent(ResetIcon(s))
  {
    var u := Upload(s, file, read).next;
    assert u.(selectedIcon := s.selectedIcon) == s;
  }

  /** An upload is accepted exactly when its MIME type is "image/" followed
      by anything and it is at most 5 * 1024 * 1024 bytes. */
  lemma AcceptsUploadIff(f: UploadFile)
    ensures AcceptsUpload(f) <==>
      (exists subtype :: f.mimeType == "image/" + subtype) && f.size <= 5 * 1024 * 1024
  {
    StartsWithIffConcat(f.mimeType, "image/");
  }

  /** The size limit is inclusive: exactly 5 MiB is accepted, one byte more
      is not. */
  lemma UploadLimitInclusive(mime: string)
    requires StartsWith(mime, "image/")
    ensures AcceptsUpload(UploadFile(mime, 5242880))
    ensures !AcceptsUpload(UploadFile(mime, 5242881))
  {
  }

  /** Resetting restores the avatar of the first render; a rejected upload
      leaves the avatar as it was. */
  lemma ResetRestoresDefault(s: SessionState, f: UploadFile, read: Reply<string>)
    ensures ResetIcon(s).selectedIcon == Initial().selectedIcon == DefaultIcons[0]
    ensures ResetIcon(s).(selectedIcon := s.selectedIcon) == s
    ensures !AcceptsUpload(f) ==> Upload(s, Some(f), read).next == s
  {
  }

  /** The states reached by delivering `events` to `onMessage` in order. */
  function DispatchAll(s: SessionState, events: seq<SocketMessage>): SessionState
    decreases |events|
  {
    if events == [] then s
    else Dispatch(DispatchAll(s, events[..|events| - 1]), events[|events| - 1])
  }

  /** The chat messages carried by `events`, in order. */
  function ChatPayloads(events: seq<SocketMessage>): seq<ChatMessage>
    decreases |events|
  {
    if events == [] then []
    else
      var last := events[|events| - 1];
      ChatPayloads(events[..|events| - 1]) + (if last.ChatEvent? then [last.chat] else [])
  }

  /** Whatever events interleave, the message list ends up as the old list
      followed by exactly the delivered chat messages in arrival order, and
      nothing but the messages and the typing roster changes. */
  lemma {:induction false} DispatchAllAppendsInOrder(s: SessionState, events: seq<SocketMessage>)
    ensures DispatchAll(s, events).messages == s.messages + ChatPayloads(events)
    ensures DispatchAll(s, events).(messages := s.messages, usersTyping := s.usersTyping) == s
    decreases |events|
  {
    if events != [] {
      var init := events[..|events| - 1];
      DispatchAllAppendsInOrder(s, init);
      assert DispatchAll(s, events) == Dispatch(DispatchAll(s, init), events[|events| - 1]);
    }
  }

  // ---------------------------------------------------------------------
  // The root component's state, updated in place

  class Session {
    var clientPresent: bool
    var isConnected: bool
    var roomId: string
    var nickname: string
    var selectedIcon: string
    var joinMode: JoinMode
    var messages: seq<ChatMessage>
    var usersTyping: seq<string>
    var hasJoinedRoom: bool
    /** The toasts shown so far. */
    ghost var notices: seq<Notice>
    /** The create and join requests made of the library so far. */
    ghost var requests: seq<Request>

    /** The current field values as one value. */
    function State(): SessionState
      reads this
    {
      SessionState(clientPresent, isConnected, roomId, nickname, selectedIcon,
                   joinMode, messages, usersTyping, hasJoinedRoom)
    }

    ghost predicate Valid()
      reads this
    {
      Consistent(State())
    }

    /** The first render. */
    constructor ()
      ensures Valid() && State() == Initial() && notices == [] && requests == []
    {
      clientPresent, isConnected := false, false;
      roomId, nickname := "", "";
      selectedIcon := DefaultIcons[0];
      joinMode := Creating;
      messages, usersTyping := [], [];
      hasJoinedRoom := false;
      notices := [];
      requests := [];
    }

    /** The mount effect: constructs the client with the four callbacks. */
    method SetupClient()
      requires Valid()
      modifies this
      ensures Valid() && State() == old(State()).(clientPresent := true) && notices == old(notices)
      ensures requests == old(requests)
    {
      clientPresent := true;
    }

    method OnMessage(m: SocketMessage)
      requires Valid()
      modifies this
      ensures Valid() && State() == Dispatch(old(State()), m) && notices == old(notices)
      ensures requests == old(requests)
    {
      match m
      case ChatEvent(chat) =>
        messages := messages + [chat];
      case TypingPresenceEvent(_, users) =>
        usersTyping := users;
      case OtherEvent(_) =>
    }

    method OnClose()
      requires Valid()
      modifies this
      ensures Valid() && State() == Closed(old(State())).next
      ensures notices == old(notices) + Closed(old(State())).notices
      ensures requests == old(requests)
    {
      isConnected := false;
      notices := notices + [ConnectionLostNotice];
    }

    /** `onError` only reports the error. */
    method OnError(message: string)
      requires Valid()
      modifies this
      ensures Valid() && State() == old(State()) && notices == old(notices) + [SocketErrorNotice(message)]
      ensures requests == old(requests)
    {
      notices := notices + [SocketErrorNotice(message)];
    }

    /** Fires only on the client `SetupClient` constructed. */
    method OnConnectionReady()
      requires Valid() && clientPresent
      modifies this
      ensures Valid() && State() == Ready(old(State())).next
      ensures notices == old(notices) + Ready(old(State())).notices
      ensures requests == old(requests)
    {
      isConnected := true;
      notices := notices + [ConnectedNotice];
    }

    method HandleCreateRoom(reply: Reply<string>)
      requires Valid()
      modifies this
      ensures Valid() && State() == CreateRoom(old(State()), reply).next
      ensures notices == old(notices) + CreateRoom(old(State()), reply).notices
      ensures requests == old(requests) + CreateRoom(old(State()), reply).requests
    {
      if !clientPresent || nickname == "" {
        return;
      }
      requests := requests + [CreateRequest(nickname, selectedIcon)];
      match reply
      case Resolved(response) =>
        roomId := response;
        messages := [];
        hasJoinedRoom := true;
        notices := notices + [RoomCreatedNotice];
      case Rejected =>
        notices := notices + [CreateFailedNotice];
    }

    method HandleJoinRoom(reply: Reply<MessageList>)
      requires Valid()
      modifies this
      ensures Valid() && State() == JoinRoom(old(State()), reply).next
      ensures notices == old(notices) + JoinRoom(old(State()), reply).notices
      ensures requests == old(requests) + JoinRoom(old(State()), reply).requests
    {
      if !clientPresent || roomId == "" || nickname == "" {
        return;
      }
      requests := requests + [JoinRequest(nickname, roomId, selectedIcon)];
      match reply
      case Resolved(list) =>
        if list.WellFormed? {
          messages := list.messages;
        } else {
          messages := [];
        }
        hasJoinedRoom := true;
        notices := notices + [RoomJoinedNotice];
      case Rejected =>
        notices := notices + [JoinFailedNotice];
        roomId := "";
    }

    method HandleDisconnect()
      requires Valid()
      modifies this
      ensures Valid() && State() == Leave(old(State())) && notices == old(notices)
      ensures requests == old(requests)
    {
      roomId := "";
      nickname := "";
      messages := [];
      usersTyping := [];
    }

    method HandleImageUpload(file: Option<UploadFile>, read: Reply<string>)
      requires Valid()
      modifies this
      ensures Valid() && State() == Upload(old(State()), file, read).next
      ensures notices == old(notices) + Upload(old(State()), file, read).notices
      ensures requests == old(requests)
    {
      if file.None? {
        return;
      }
      if !StartsWith(file.value.mimeType, "image/") {
        notices := notices + [NotAnImageNotice];
        return;
      }
      if file.value.size > MaxUploadBytes {
        notices := notices + [ImageTooLargeNotice];
        return;
      }
      match read
      case Resolved(dataUrl) =>
        selectedIcon := dataUrl;
      case Rejected =>
        notices := notices + [ReadFailedNotice];
    }

    method ResetToDefaultIcon()
      requires Valid()
      modifies this
      ensures Valid() && State() == ResetIcon(old(State())) && notices == old(notices)
      ensures requests == old(requests)
    {
      selectedIcon := DefaultIcons[0];
    }

    /** The nickname input's change handler. */
    method EditNickname(value: string)
      requires Valid()
      modifies this
      ensures Valid() && State() == old(State()).(nickname := value) && notices == old(notices)
      ensures requests == old(requests)
    {
      nickname := value;
    }

    /** The room id input's change handler. */
    method EditRoomId(value: string)
      requires Valid()
      modifies this
      ensures Valid() && State() == old(State()).(roomId := value) && notices == old(notices)
      ensures requests == old(requests)
    {
      roomId := value;
    }

    /** The "Create Room" / "Join Room" mode buttons. */
    method SelectJoinMode(mode: JoinMode)
      requires Valid()
      modifies this
      ensures Valid() && State() == old(State()).(joinMode := mode) && notices == old(notices)
      ensures requests == old(requests)
    {
      joinMode := mode;
    }
  }
}
