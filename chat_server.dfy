/** The chat relay (server/server.js), one event at a time: connections with
    their handshake parameters, rooms keyed by booking id, the durable message
    log, and what each connection has been sent. */
module ChatServer {
  import opened Types
  import opened Collections
  import opened Text

  /** A socket id. */
  type ConnId = string

  /** The handshake query; any parameter may be missing. */
  datatype Query = Query(bookingId: Option<string>, userId: Option<string>, userType: Option<string>)

  /** What a connection's handlers see of its handshake. */
  datatype Session = Session(bookingId: string, userId: string, userType: string)

  /** The destructuring of the query with defaults: a missing parameter takes
      its test value, a present one (even empty) is kept. */
  function SessionOf(q: Query): (s: Session)
    ensures q.bookingId.None? ==> s.bookingId == "test-booking"
    ensures q.userId.None? ==> s.userId == "test-user"
    ensures q.userType.None? ==> s.userType == "test"
    ensures q.bookingId.Some? ==> s.bookingId == q.bookingId.value
  {
    Session(q.bookingId.GetOr("test-booking"), q.userId.GetOr("test-user"), q.userType.GetOr("test"))
  }

  /** A `chat-message` payload as the client sends it; every field may be missing. */
  datatype Payload = Payload(
    id: Option<string>,
    bookingId: Option<string>,
    senderId: Option<string>,
    content: Option<string>,
    timestamp: Option<int>,
    userType: Option<string>)

  /** A document of the message collection. The schema has no `userType`, so
      the value passed for it is not stored. */
  datatype StoredMessage = StoredMessage(bookingId: string, senderId: string, content: string, timestamp: int)

  /** The events the relay emits. */
  datatype Event =
    | UserConnected(userId: string, userType: string)
    | ChatMessage(message: Payload)
    | Typing(userId: string, isTyping: bool)
    | UserDisconnected(userId: string)
    | Error(reason: string)

  const SendFailed: string := "Failed to send message"

  datatype RelayState = RelayState(
    sessions: map<ConnId, Session>,
    rooms: map<string, set<ConnId>>,
    log: seq<StoredMessage>,
    inboxes: map<ConnId, seq<Event>>)

  /** The members of a booking's room. */
  function Members(st: RelayState, b: string): set<ConnId>
  {
    if b in st.rooms then st.rooms[b] else {}
  }

  /** Every connection has an inbox and sits in the room of its booking, and
      every room member is a connection of that booking. */
  ghost predicate Valid(st: RelayState)
  {
    && (forall c :: c in st.sessions ==> c in st.inboxes && c in Members(st, st.sessions[c].bookingId))
    && (forall b, c :: b in st.rooms && c in st.rooms[b] ==> c in st.sessions && st.sessions[c].bookingId == b)
  }

  /** Emitting `e` to the connections in `targets`. */
  function Deliver(inboxes: map<ConnId, seq<Event>>, targets: set<ConnId>, e: Event): (r: map<ConnId, seq<Event>>)
    ensures r.Keys == inboxes.Keys
    ensures forall c :: c in inboxes && c in targets ==> r[c] == inboxes[c] + [e]
    ensures forall c :: c in inboxes && c !in targets ==> r[c] == inboxes[c]
  {
    map c | c in inboxes :: if c in targets then inboxes[c] + [e] else inboxes[c]
  }

  /** `connection`: join the booking's room, then tell the other members. */
  function ConnectStep(st: RelayState, c: ConnId, q: Query): RelayState
    requires c !in st.sessions && c !in st.inboxes
  {
    var s := SessionOf(q);
    var room := Members(st, s.bookingId) + {c};
    var st1 := RelayState(st.sessions[c := s], st.rooms[s.bookingId := room], st.log, st.inboxes[c := []]);
    st1.(inboxes := Deliver(st1.inboxes, room - {c}, UserConnected(s.userId, s.userType)))
  }

  /** Whether a payload passes the handler's validation. */
  predicate WellFormed(p: Payload)
  {
    Truthy(p.content) && Truthy(p.senderId)
  }

  /** The document saved for a valid payload: the connection's booking and the
      server's time. */
  function Stored(s: Session, p: Payload, now: int): StoredMessage
    requires WellFormed(p)
  {
    StoredMessage(s.bookingId, p.senderId.value, p.content.value, now)
  }

  /** `chat-message`: validate, save, then broadcast to the whole room with the
      server's timestamp; on a validation or save failure only the sender gets
      an `error`. */
  function MessageStep(st: RelayState, c: ConnId, p: Payload, now: int, saveOk: bool): RelayState
    requires c in st.sessions
  {
    var s := st.sessions[c];
    if !WellFormed(p) || !saveOk then
      st.(inboxes := Deliver(st.inboxes, {c}, Error(SendFailed)))
    else
      st.(log := st.log + [Stored(s, p, now)],
          inboxes := Deliver(st.inboxes, Members(st, s.bookingId), ChatMessage(p.(timestamp := Some(now)))))
  }

  /** `typing`: relayed to the other members of the room. */
  function TypingStep(st: RelayState, c: ConnId, isTyping: bool): RelayState
    requires c in st.sessions
  {
    var s := st.sessions[c];
    st.(inboxes := Deliver(st.inboxes, Members(st, s.bookingId) - {c}, Typing(s.userId, isTyping)))
  }

  /** `disconnect`: the connection leaves its room (an empty room is dropped)
      and the remaining members are told. */
  function DisconnectStep(st: RelayState, c: ConnId): RelayState
    requires c in st.sessions
  {
    var s := st.sessions[c];
    var rest := Members(st, s.bookingId) - {c};
    RelayState(st.sessions - {c},
               if rest == {} then st.rooms - {s.bookingId} else st.rooms[s.bookingId := rest],
               st.log,
               Deliver(st.inboxes, rest, UserDisconnected(s.userId)))
  }

  lemma ConnectKeepsValid(st: RelayState, c: ConnId, q: Query)
    requires Valid(st) && c !in st.sessions && c !in st.inboxes
    ensures Valid(ConnectStep(st, c, q))
  {
  }

  lemma MessageKeepsValid(st: RelayState, c: ConnId, p: Payload, now: int, saveOk: bool)
    requires Valid(st) && c in st.sessions
    ensures Valid(MessageStep(st, c, p, now, saveOk))
  {
  }

  lemma TypingKeepsValid(st: RelayState, c: ConnId, isTyping: bool)
    requires Valid(st) && c in st.sessions
    ensures Valid(TypingStep(st, c, isTyping))
  {
  }

  lemma DisconnectKeepsValid(st: RelayState, c: ConnId)
    requires Valid(st) && c in st.sessions
    ensures Valid(DisconnectStep(st, c))
  {
    var r := DisconnectStep(st, c);
    var b := st.sessions[c].bookingId;
    forall d | d in r.sessions
      ensures d in r.inboxes && d in Members(r, r.sessions[d].bookingId)
    {
      assert d in st.sessions && d != c;
    }
  }

  /** A valid message that is saved is logged once, under the sender's
      connection's booking whatever the payload says, with the server's time;
      every member of that room, the sender included, receives it with the
      server's timestamp; no other connection receives anything. */
  lemma DeliveredMessage(st: RelayState, c: ConnId, p: Payload, now: int)
    requires Valid(st) && c in st.sessions && WellFormed(p)
    ensures var r := MessageStep(st, c, p, now, true);
            var b := st.sessions[c].bookingId;
            var e := ChatMessage(p.(timestamp := Some(now)));
            && r.log == st.log + [StoredMessage(b, p.senderId.value, p.content.value, now)]
            && r.sessions == st.sessions && r.rooms == st.rooms
            && r.inboxes[c] == st.inboxes[c] + [e]
            && (forall d :: d in st.sessions && st.sessions[d].bookingId == b ==> r.inboxes[d] == st.inboxes[d] + [e])
            && (forall d :: d in st.inboxes && (d !in st.sessions || st.sessions[d].bookingId != b) ==> r.inboxes[d] == st.inboxes[d])
  {
  }

  /** A payload with a falsy `content` or `senderId`, or one whose save fails,
      logs nothing and broadcasts nothing: the sender alone gets `error`. */
  lemma RejectedMessage(st: RelayState, c: ConnId, p: Payload, now: int, saveOk: bool)
    requires Valid(st) && c in st.sessions && (!WellFormed(p) || !saveOk)
    ensures var r := MessageStep(st, c, p, now, saveOk);
            && r.log == st.log && r.sessions == st.sessions && r.rooms == st.rooms
            && r.inboxes[c] == st.inboxes[c] + [Error(SendFailed)]
            && (forall d :: d in st.inboxes && d != c ==> r.inboxes[d] == st.inboxes[d])
  {
  }

  /** `typing` reaches the other members of the room and nobody else; the
      typist receives nothing. */
  lemma TypingReachesOthersOnly(st: RelayState, c: ConnId, isTyping: bool)
    requires Valid(st) && c in st.sessions
    ensures var r := TypingStep(st, c, isTyping);
            var s := st.sessions[c];
            && r.inboxes[c] == st.inboxes[c]
            && (forall d :: d in st.sessions && d != c && st.sessions[d].bookingId == s.bookingId
                  ==> r.inboxes[d] == st.inboxes[d] + [Typing(s.userId, isTyping)])
            && (forall d :: d in st.inboxes && (d !in st.sessions || st.sessions[d].bookingId != s.bookingId)
                  ==> r.inboxes[d] == st.inboxes[d])
  {
  }

  /** `user-connected` reaches the members already in the room, not the newcomer. */
  lemma ConnectNotifiesOthersOnly(st: RelayState, c: ConnId, q: Query)
    requires Valid(st) && c !in st.sessions && c !in st.inboxes
    ensures var r := ConnectStep(st, c, q);
            var s := SessionOf(q);
            && r.inboxes[c] == []
            && c in Members(r, s.bookingId)
            && (forall d :: d in st.sessions && st.sessions[d].bookingId == s.bookingId
                  ==> r.inboxes[d] == st.inboxes[d] + [UserConnected(s.userId, s.userType)])
            && (forall d :: d in st.inboxes && (d !in st.sessions || st.sessions[d].bookingId != s.bookingId)
                  ==> r.inboxes[d] == st.inboxes[d])
  {
  }

  /** `user-disconnected` reaches the remaining members only. */
  lemma DisconnectNotifiesOthersOnly(st: RelayState, c: ConnId)
    requires Valid(st) && c in st.sessions
    ensures var r := DisconnectStep(st, c);
            var s := st.sessions[c];
            && c !in r.sessions && c !in Members(r, s.bookingId)
            && r.inboxes[c] == st.inboxes[c]
            && (forall d :: d in st.sessions && d != c && st.sessions[d].bookingId == s.bookingId
                  ==> r.inboxes[d] == st.inboxes[d] + [UserDisconnected(s.userId)])
            && (forall d :: d in st.inboxes && (d !in st.sessions || st.sessions[d].bookingId != s.bookingId)
                  ==> r.inboxes[d] == st.inboxes[d])
  {
  }

  /** Two clients join booking `B123`; A sends "hello". B has received exactly
      one event: that message with the server's timestamp. A received B's
      arrival and its own echo. */
  lemma TwoClientScenario(a: ConnId, b: ConnId, ua: string, ub: string, now: int)
    requires a != b && ua != ""
    ensures var st0 := RelayState(map[], map[], [], map[]);
            var st1 := ConnectStep(st0, a, Query(Some("B123"), Some(ua), Some("student")));
            var st2 := ConnectStep(st1, b, Query(Some("B123"), Some(ub), Some("mentor")));
            var p := Payload(Some("m1"), None, Some(ua), Some("hello"), Some(0), Some("student"));
            var st3 := MessageStep(st2, a, p, now, true);
            && st3.inboxes[b] == [ChatMessage(p.(timestamp := Some(now)))]
            && st3.inboxes[a] == [UserConnected(ub, "mentor"), ChatMessage(p.(timestamp := Some(now)))]
            && st3.log == [StoredMessage("B123", ua, "hello", now)]
  {
    var st0 := RelayState(map[], map[], [], map[]);
    var st1 := ConnectStep(st0, a, Query(Some("B123"), Some(ua), Some("student")));
    assert Members(st1, "B123") == {a};
    assert st1.inboxes[a] == [];
    var st2 := ConnectStep(st1, b, Query(Some("B123"), Some(ub), Some("mentor")));
    assert Members(st2, "B123") == {a, b};
    assert st2.inboxes[a] == [UserConnected(ub, "mentor")];
    assert st2.inboxes[b] == [];
    assert st2.sessions[a].bookingId == "B123";
    var p := Payload(Some("m1"), None, Some(ua), Some("hello"), Some(0), Some("student"));
    var st3 := MessageStep(st2, a, p, now, true);
  }

  predicate SortedByTime(ms: seq<StoredMessage>)
  {
    forall i, j :: 0 <= i < j < |ms| ==> ms[i].timestamp <= ms[j].timestamp
  }

  /** Insert after every message with an equal or earlier timestamp. */
  function InsertByTime(m: StoredMessage, s: seq<StoredMessage>): (r: seq<StoredMessage>)
    ensures |r| == |s| + 1
  {
    if s == [] then [m]
    else if m.timestamp < s[0].timestamp then [m] + s
    else [s[0]] + InsertByTime(m, s[1..])
  }

  lemma {:induction false} InsertKeepsMessages(m: StoredMessage, s: seq<StoredMessage>)
    ensures multiset(InsertByTime(m, s)) == multiset(s) + multiset{m}
  {
    if s != [] && m.timestamp >= s[0].timestamp {
      InsertKeepsMessages(m, s[1..]);
      assert s == [s[0]] + s[1..];
    }
  }

  lemma {:induction false} InsertKeepsSorted(m: StoredMessage, s: seq<StoredMessage>)
    requires SortedByTime(s)
    ensures SortedByTime(InsertByTime(m, s))
  {
    if s != [] && m.timestamp >= s[0].timestamp {
      var rest := InsertByTime(m, s[1..]);
      InsertKeepsSorted(m, s[1..]);
      InsertKeepsMessages(m, s[1..]);
      forall k | 0 <= k < |rest|
        ensures s[0].timestamp <= rest[k].timestamp
      {
        assert rest[k] in multiset(rest);
        assert rest[k] == m || rest[k] in multiset(s[1..]);
      }
      var r := [s[0]] + rest;
      forall i, j | 0 <= i < j < |r|
        ensures r[i].timestamp <= r[j].timestamp
      {
        if i > 0 {
          assert r[i] == rest[i - 1] && r[j] == rest[j - 1];
        } else {
          assert r[j] == rest[j - 1];
        }
      }
    }
  }

  /** `.sort({ timestamp: 1 })`; equal timestamps keep the log's order. */
  function SortByTime(ms: seq<StoredMessage>): (r: seq<StoredMessage>)
    ensures SortedByTime(r)
    ensures multiset(r) == multiset(ms)
  {
    if ms == [] then []
    else
      var init := ms[..|ms| - 1];
      assert ms == init + [ms[|ms| - 1]];
      InsertKeepsSorted(ms[|ms| - 1], SortByTime(init));
      InsertKeepsMessages(ms[|ms| - 1], SortByTime(init));
      InsertByTime(ms[|ms| - 1], SortByTime(init))
  }

  /** `Message.find({ bookingId }).sort({ timestamp: 1 })` */
  function History(log: seq<StoredMessage>, b: string): (r: seq<StoredMessage>)
    ensures SortedByTime(r)
    ensures forall m :: m in r ==> m.bookingId == b
    ensures multiset(r) == multiset(Filter(log, (m: StoredMessage) => m.bookingId == b))
  {
    var mine := Filter(log, (m: StoredMessage) => m.bookingId == b);
    var r := SortByTime(mine);
    assert forall m :: m in r ==> m in multiset(mine);
    r
  }

  /** Every message logged for the booking is in its history. */
  lemma HistoryHasAll(log: seq<StoredMessage>, b: string, m: StoredMessage)
    requires m in log && m.bookingId == b
    ensures m in History(log, b)
  {
    FilterMembership(log, (x: StoredMessage) => x.bookingId == b, m);
    assert m in multiset(History(log, b));
  }

  /** The answer of `GET /messages/:bookingId`. */
  datatype Response = Ok(messages: seq<StoredMessage>) | ServerError

  class Relay {
    var sessions: map<ConnId, Session>
    var rooms: map<string, set<ConnId>>
    var log: seq<StoredMessage>
    var inboxes: map<ConnId, seq<Event>>

    function State(): RelayState
      reads this
    {
      RelayState(sessions, rooms, log, inboxes)
    }

    constructor ()
      ensures State() == RelayState(map[], map[], [], map[]) && Valid(State())
    {
      sessions, rooms, log, inboxes := map[], map[], [], map[];
    }

    /** `emit` to a set of connections, one at a time. */
    method Emit(targets: set<ConnId>, e: Event)
      modifies this`inboxes
      ensures inboxes == Deliver(old(inboxes), targets, e)
    {
      var rest := targets;
      while rest != {}
        invariant rest <= targets
        invariant inboxes == Deliver(old(inboxes), targets - rest, e)
        decreases rest
      {
        var t :| t in rest;
        if t in inboxes {
          inboxes := inboxes[t := inboxes[t] + [e]];
        }
        rest := rest - {t};
      }
    }

    method OnConnection(c: ConnId, q: Query)
      requires Valid(State()) && c !in sessions && c !in inboxes
      modifies this`sessions, this`rooms, this`inboxes
      ensures State() == ConnectStep(old(State()), c, q)
      ensures Valid(State())
    {
      ConnectKeepsValid(State(), c, q);
      var s := SessionOf(q);
      sessions := sessions[c := s];
      var room := (if s.bookingId in rooms then rooms[s.bookingId] else {}) + {c};
      rooms := rooms[s.bookingId := room];
      inboxes := inboxes[c := []];
      Emit(room - {c}, UserConnected(s.userId, s.userType));
    }

    method OnChatMessage(c: ConnId, p: Payload, now: int, saveOk: bool)
      requires Valid(State()) && c in sessions
      modifies this`log, this`inboxes
      ensures State() == MessageStep(old(State()), c, p, now, saveOk)
      ensures Valid(State())
    {
      MessageKeepsValid(State(), c, p, now, saveOk);
      var s := sessions[c];
      if !Truthy(p.content) || !Truthy(p.senderId) {
        Emit({c}, Error(SendFailed));
        return;
      }
      var doc := StoredMessage(s.bookingId, p.senderId.value, p.content.value, now);
      if !saveOk {
        Emit({c}, Error(SendFailed));
        return;
      }
      log := log + [doc];
      Emit(if s.bookingId in rooms then rooms[s.bookingId] else {}, ChatMessage(p.(timestamp := Some(now))));
    }

    method OnTyping(c: ConnId, isTyping: bool)
      requires Valid(State()) && c in sessions
      modifies this`inboxes
      ensures State() == TypingStep(old(State()), c, isTyping)
      ensures Valid(State())
    {
      TypingKeepsValid(State(), c, isTyping);
      var s := sessions[c];
      Emit((if s.bookingId in rooms then rooms[s.bookingId] else {}) - {c}, Typing(s.userId, isTyping));
    }

    method OnDisconnect(c: ConnId)
      requires Valid(State()) && c in sessions
      modifies this`sessions, this`rooms, this`inboxes
      ensures State() == DisconnectStep(old(State()), c)
      ensures Valid(State())
    {
      DisconnectKeepsValid(State(), c);
      var s := sessions[c];
      var rest := (if s.bookingId in rooms then rooms[s.bookingId] else {}) - {c};
      sessions := sessions - {c};
      if rest == {} {
        rooms := rooms - {s.bookingId};
      } else {
        rooms := rooms[s.bookingId := rest];
      }
      Emit(rest, UserDisconnected(s.userId));
    }

    /** `GET /messages/:bookingId`: the booking's messages in ascending
        timestamp order, or a 500 when the query fails. */
    method GetMessages(bookingId: string, queryOk: bool) returns (r: Response)
      ensures r.ServerError? <==> !queryOk
      ensures r.Ok? ==> SortedByTime(r.messages) && (forall m :: m in r.messages ==> m.bookingId == bookingId)
      ensures r.Ok? ==> forall m :: m in log && m.bookingId == bookingId ==> m in r.messages
      ensures r.Ok? ==> multiset(r.messages) == multiset(Filter(log, (m: StoredMessage) => m.bookingId == bookingId))
    {
      if !queryOk {
        return ServerError;
      }
      var found := History(log, bookingId);
      forall m | m in log && m.bookingId == bookingId
        ensures m in found
      {
        HistoryHasAll(log, bookingId, m);
      }
      return Ok(found);
    }
  }
}
