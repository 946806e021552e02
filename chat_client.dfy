/** The chat panel of one booking (frontend/src/components/Chat.tsx): the list of
    messages shown, the input box, the connection status set by socket events,
    and the single "currently sending" flag that decides whether an incoming
    message is the echo of one's own. */
module ChatClient {
  import opened Types
  import opened Text

  datatype ConnectionStatus = Connecting | Connected | Disconnected | Failed

  /** The socket events the panel listens to for its status. */
  datatype SocketEvent = Connect | Disconnect | ConnectError

  datatype Message = Message(id: string, senderId: string, content: string, timestamp: int, userType: Role)

  /** `user.role || 'student'` */
  function EffectiveRole(u: User): (r: Role)
    ensures u.role.None? ==> r == Student
  {
    u.role.GetOr(Student)
  }

  /** The connection query the panel opens its socket with. */
  datatype Query = Query(bookingId: string, userId: string, userType: Role)

  /** The part of the panel's state that its handlers change. */
  datatype ChatView = ChatView(messages: seq<Message>, input: string, status: ConnectionStatus, sending: bool)

  /** The guard of `handleSendMessage`: a non-blank input, a user and a socket.
      The connection status is not part of it. */
  predicate CanSend(v: ChatView, user: Option<User>, socketOpen: bool)
  {
    Trim(v.input) != "" && user.Some? && socketOpen
  }

  /** The message `handleSendMessage` appends locally and emits. */
  function Outgoing(v: ChatView, u: User, freshId: string, now: int): Message
  {
    Message(freshId, u.id, Trim(v.input), now, EffectiveRole(u))
  }

  /** `handleSendMessage`: set the flag, append optimistically, clear the input. */
  function SendStep(v: ChatView, user: Option<User>, socketOpen: bool, freshId: string, now: int): ChatView
  {
    if !CanSend(v, user, socketOpen) then v
    else v.(messages := v.messages + [Outgoing(v, user.value, freshId, now)], input := "", sending := true)
  }

  /** The `chat-message` listener: append unless the flag is set; clear the flag. */
  function ReceiveStep(v: ChatView, m: Message): ChatView
  {
    v.(messages := if v.sending then v.messages else v.messages + [m], sending := false)
  }

  /** The status each socket event sets, whatever the status was. */
  function StatusAfter(e: SocketEvent): ConnectionStatus
  {
    match e
    case Connect => Connected
    case Disconnect => Disconnected
    case ConnectError => Failed
  }

  /** The input box is enabled only while connected. */
  predicate InputEnabled(v: ChatView)
  {
    v.status == Connected
  }

  /** The send button is enabled only while connected and with a non-blank input. */
  predicate SendButtonEnabled(v: ChatView)
  {
    v.status == Connected && Trim(v.input) != ""
  }

  /** Send does nothing when the input is blank, nobody is signed in or there is
      no socket; otherwise it appends exactly one message, the trimmed input
      sent as the user, clears the input and sets the flag. */
  lemma SendEffect(v: ChatView, user: Option<User>, socketOpen: bool, freshId: string, now: int)
    ensures !CanSend(v, user, socketOpen) ==> SendStep(v, user, socketOpen, freshId, now) == v
    ensures CanSend(v, user, socketOpen) ==>
              var r := SendStep(v, user, socketOpen, freshId, now);
              && |r.messages| == |v.messages| + 1 && r.messages[..|v.messages|] == v.messages
              && r.messages[|v.messages|].content == Trim(v.input) && r.messages[|v.messages|].content != ""
              && r.messages[|v.messages|].senderId == user.value.id
              && r.input == "" && r.sending && r.status == v.status
  {
    if CanSend(v, user, socketOpen) {
      var r := SendStep(v, user, socketOpen, freshId, now);
      assert r.messages[..|v.messages|] == v.messages;
    }
  }

  /** The send button is a stricter gate than the handler's own guard. */
  lemma SendButtonImpliesGuard(v: ChatView, user: Option<User>, socketOpen: bool)
    requires SendButtonEnabled(v) && user.Some? && socketOpen
    ensures CanSend(v, user, socketOpen) && InputEnabled(v)
  {
  }

  /** An incoming message is appended iff the flag is clear, and the flag is
      clear afterwards either way. */
  lemma ReceiveEffect(v: ChatView, m: Message)
    ensures var r := ReceiveStep(v, m);
            && !r.sending && r.input == v.input && r.status == v.status
            && (r.messages == v.messages + [m] <==> !v.sending)
            && (v.sending ==> r.messages == v.messages)
  {
    if v.sending {
      assert |v.messages + [m]| != |v.messages|;
    }
  }

  /** In the intended case the echo of one's own message is dropped once, so
      the message shows once. */
  lemma OwnEchoShownOnce(v: ChatView, u: User, socketOpen: bool, freshId: string, now: int, echo: Message)
    requires CanSend(v, Some(u), socketOpen)
    ensures var sent := SendStep(v, Some(u), socketOpen, freshId, now);
            ReceiveStep(sent, echo).messages == v.messages + [Outgoing(v, u, freshId, now)]
  {
  }

  /** The race of the single flag: after one send, the NEXT incoming message is
      dropped whoever sent it. If another member's message arrives before the
      echo, that message is lost and the echo is appended next to the
      optimistic copy, so the sender's message shows twice. */
  lemma ForeignMessageBeforeEchoIsLost(v: ChatView, u: User, socketOpen: bool, freshId: string, now: int,
                                       foreign: Message, echo: Message)
    requires CanSend(v, Some(u), socketOpen)
    ensures var sent := SendStep(v, Some(u), socketOpen, freshId, now);
            var afterForeign := ReceiveStep(sent, foreign);
            && afterForeign.messages == sent.messages
            && ReceiveStep(afterForeign, echo).messages == v.messages + [Outgoing(v, u, freshId, now), echo]
  {
  }

  /** Two quick sends set the flag once: the first echo is dropped, the second
      is appended, and the second message shows twice. */
  lemma TwoSendsOneSuppression(v: ChatView, u: User, id1: string, t1: int, next: string, id2: string, t2: int,
                               echo1: Message, echo2: Message)
    requires CanSend(v, Some(u), true) && Trim(next) != ""
    ensures var s1 := SendStep(v, Some(u), true, id1, t1);
            var s2 := SendStep(s1.(input := next), Some(u), true, id2, t2);
            ReceiveStep(ReceiveStep(s2, echo1), echo2).messages == s2.messages + [echo2]
  {
  }

  /** What the history request can come back with: the booking's messages
      (status 200), the relay's `{ error }` body (status 500, which `fetch`
      resolves and `res.json()` parses like any other body), or a network
      failure, the only case that reaches `.catch`. */
  datatype HistoryReply = Fetched(list: seq<Message>) | ErrorBody | NetworkFailure

  class Chat {
    const bookingId: string
    const user: Option<User>
    var messages: seq<Message>
    var messageInput: string
    var connectionStatus: ConnectionStatus
    var isSending: bool
    /** Whether `socketRef.current` holds a socket. */
    var socketOpen: bool
    /** Whether `messages` holds a non-array value, on which the next render's
        `messages.map` throws. */
    var broken: bool

    function View(): ChatView
      reads this
    {
      ChatView(messages, messageInput, connectionStatus, isSending)
    }

    constructor (bookingId: string, user: Option<User>)
      ensures this.bookingId == bookingId && this.user == user
      ensures View() == ChatView([], "", Connecting, false) && !socketOpen && !broken
    {
      this.bookingId, this.user := bookingId, user;
      messages, messageInput, connectionStatus := [], "", Connecting;
      isSending, socketOpen, broken := false, false, false;
    }

    /** The mount effect: with a user, open the socket with the booking, the
        user's id and role (`student` by default); history arrives later. */
    method Mount() returns (query: Option<Query>)
      modifies this`socketOpen
      ensures user.None? ==> query.None? && socketOpen == old(socketOpen)
      ensures user.Some? ==> socketOpen && query == Some(Query(bookingId, user.value.id, EffectiveRole(user.value)))
    {
      if user.None? {
        return None;
      }
      socketOpen := true;
      query := Some(Query(bookingId, user.value.id, EffectiveRole(user.value)));
    }

    /** The history response replaces the list wholesale. The error body is
        stored as the list too; the model records that the list is broken. A
        network failure changes nothing. */
    method LoadHistory(reply: HistoryReply)
      modifies this`messages, this`broken
      ensures reply.Fetched? ==> messages == reply.list && broken == old(broken)
      ensures reply.ErrorBody? ==> broken && messages == old(messages)
      ensures reply.NetworkFailure? ==> messages == old(messages) && broken == old(broken)
    {
      match reply {
        case Fetched(list) => messages := list;
        case ErrorBody => broken := true;
        case NetworkFailure =>
      }
    }

    /** `connect`, `disconnect` and `connect_error`. */
    method OnSocketEvent(e: SocketEvent)
      modifies this`connectionStatus
      ensures connectionStatus == StatusAfter(e)
    {
      match e {
        case Connect => connectionStatus := Connected;
        case Disconnect => connectionStatus := Disconnected;
        case ConnectError => connectionStatus := Failed;
      }
    }

    /** Typing into the box, which only an enabled input allows. */
    method OnInputChange(text: string)
      requires InputEnabled(View())
      modifies this`messageInput
      ensures messageInput == text
    {
      messageInput := text;
    }

    /** The `chat-message` listener. */
    method OnChatMessage(m: Message)
      modifies this`messages, this`isSending
      ensures View() == ReceiveStep(old(View()), m)
    {
      if !isSending {
        messages := messages + [m];
      }
      isSending := false;
    }

    /** `handleSendMessage`: returns the message emitted on the socket, if any. */
    method HandleSendMessage(freshId: string, now: int) returns (emitted: Option<Message>)
      modifies this`messages, this`messageInput, this`isSending
      ensures View() == SendStep(old(View()), user, socketOpen, freshId, now)
      ensures emitted == if CanSend(old(View()), user, socketOpen)
                         then Some(Outgoing(old(View()), user.value, freshId, now)) else None
    {
      var content := Trim(messageInput);
      if content == "" || user.None? || !socketOpen {
        return None;
      }
      var m := Message(freshId, user.value.id, content, now, user.value.role.GetOr(Student));
      isSending := true;
      messages := messages + [m];
      messageInput := "";
      emitted := Some(m);
    }
  }
}
