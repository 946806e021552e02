/** The booking dashboard (frontend/src/pages/BookingDashboard.tsx): which
    bookings the signed-in user sees on each tab, the status change a button
    performs, and which buttons are offered. The status change itself checks
    nothing; the lifecycle exists only in the conditions that show the buttons,
    so the two are modelled apart and related by lemmas. */
module BookingDashboard {
  import opened Types
  import opened Collections
  import opened LocalStorage

  /** `booking.learnerId === user?.id || booking.teacherId === user?.id`. With
      nobody signed in `user?.id` is undefined and equals no id. */
  predicate InvolvesUser(b: Booking, uid: Option<string>)
  {
    uid.Some? && Involves(b, uid.value)
  }

  /** `userBookings` */
  function UserBookings(bookings: seq<Booking>, uid: Option<string>): (r: seq<Booking>)
    ensures forall b :: b in r <==> b in bookings && InvolvesUser(b, uid)
    ensures uid.None? ==> r == []
  {
    FilterContents(bookings, (b: Booking) => InvolvesUser(b, uid));
    FilterEmpty(bookings, (b: Booking) => InvolvesUser(b, uid));
    Filter(bookings, (b: Booking) => InvolvesUser(b, uid))
  }

  predicate IsUpcoming(b: Booking, now: int)
  {
    b.date >= now && b.status != Completed
  }

  predicate IsPast(b: Booking, now: int)
  {
    b.date < now || b.status == Completed
  }

  /** `upcomingBookings` */
  function Upcoming(userBookings: seq<Booking>, now: int): seq<Booking>
  {
    Filter(userBookings, (b: Booking) => IsUpcoming(b, now))
  }

  /** `pastBookings` */
  function Past(userBookings: seq<Booking>, now: int): seq<Booking>
  {
    Filter(userBookings, (b: Booking) => IsPast(b, now))
  }

  /** With integer dates the two tabs split the user's bookings: together they
      hold each booking as often as the user's list does, and each booking of the
      list is on exactly one tab. */
  lemma UpcomingPastPartition(userBookings: seq<Booking>, now: int)
    ensures multiset(Upcoming(userBookings, now)) + multiset(Past(userBookings, now)) == multiset(userBookings)
    ensures forall b :: b in userBookings ==> (b in Upcoming(userBookings, now) <==> b !in Past(userBookings, now))
  {
    FilterSplit(userBookings, (b: Booking) => IsUpcoming(b, now), (b: Booking) => IsPast(b, now));
    FilterContents(userBookings, (b: Booking) => IsUpcoming(b, now));
    FilterContents(userBookings, (b: Booking) => IsPast(b, now));
  }

  /** A completed booking is never upcoming; a cancelled one dated now or later
      still is. */
  lemma CompletedAndCancelledTabs(userBookings: seq<Booking>, now: int, b: Booking)
    requires b in userBookings
    ensures b.status == Completed ==> b !in Upcoming(userBookings, now) && b in Past(userBookings, now)
    ensures b.status == Cancelled && b.date >= now ==> b in Upcoming(userBookings, now) && b !in Past(userBookings, now)
  {
    FilterMembership(userBookings, (x: Booking) => IsUpcoming(x, now), b);
    FilterMembership(userBookings, (x: Booking) => IsPast(x, now), b);
  }

  /** `getOtherUserDetails`: the teacher when the signed-in user is the learner,
      the learner otherwise, looked up by id. */
  function OtherUserDetails(users: seq<User>, b: Booking, uid: Option<string>): (r: Option<User>)
    ensures var other := if uid == Some(b.learnerId) then b.teacherId else b.learnerId;
            && (r.Some? ==> r.value in users && r.value.id == other)
            && (r.None? <==> forall i :: 0 <= i < |users| ==> users[i].id != other)
  {
    var other := if uid == Some(b.learnerId) then b.teacherId else b.learnerId;
    Find(users, (u: User) => u.id == other)
  }

  /** The `updates` object `handleBookingAction` builds. The parameter's type
      admits every status but `pending`. */
  function ActionPatch(target: Status, now: int): (p: BookingPatch)
    requires target != Pending
  {
    BookingPatch(None, None, None, None, None, Some(target),
                 if target == Ongoing then Some(now) else None,
                 if target == Completed then Some(now) else None)
  }

  /** The effect of an action on one booking: the status becomes the target,
      whatever it was; `startTime` is set only by `ongoing`, `endTime` only by
      `completed`; no other field changes. */
  lemma ActionEffect(b: Booking, target: Status, now: int)
    requires target != Pending
    ensures var r := ApplyBookingPatch(b, ActionPatch(target, now));
            && r.status == target
            && r.startTime == (if target == Ongoing then Some(now) else b.startTime)
            && r.endTime == (if target == Completed then Some(now) else b.endTime)
            && r.(status := b.status, startTime := b.startTime, endTime := b.endTime) == b
  {
  }

  /** `handleBookingAction`: one unchecked merge into the bookings collection. */
  method HandleBookingAction(store: Store, bookingId: string, target: Status, now: int)
    requires target != Pending
    modifies store`bookings
    ensures store.bookings == Some(UpdateBookings(old(store.GetBookings()), bookingId, ActionPatch(target, now)))
  {
    var updates := BookingPatch(None, None, None, None, None, Some(target), None, None);
    if target == Ongoing {
      updates := updates.(startTime := Some(now));
    } else if target == Completed {
      updates := updates.(endTime := Some(now));
    }
    store.UpdateBooking(bookingId, updates);
  }

  const DefaultBadge: string := "bg-gray-100 text-gray-800"

  /** `getStatusBadgeColor` */
  function StatusBadgeColor(s: Status): (c: string)
    ensures c == DefaultBadge <==> s == Confirmed
  {
    match s
    case Pending => "bg-yellow-100 text-yellow-800"
    case Ongoing => "bg-blue-100 text-blue-800"
    case Completed => "bg-green-100 text-green-800"
    case Cancelled => "bg-red-100 text-red-800"
    case Confirmed => DefaultBadge
  }

  /** The four statuses with a badge of their own have four different badges. */
  lemma BadgeColorsDistinct(s: Status, t: Status)
    requires s != t && s != Confirmed && t != Confirmed
    ensures StatusBadgeColor(s) != StatusBadgeColor(t)
  {
  }

  datatype Tab = UpcomingTab | PastTab

  /** The targets of the status buttons on a card of the given tab: none on
      the past tab; confirm and cancel only for the teacher of a pending
      booking; start for a confirmed one and complete for an ongoing one,
      whoever views the card. Which cards are drawn at all, and for whom, is
      `ShownActions`. */
  function OfferedActions(tab: Tab, b: Booking, uid: Option<string>): (r: set<Status>)
    ensures Pending !in r
    ensures tab == PastTab ==> r == {}
  {
    if tab == PastTab then {}
    else
      (if uid == Some(b.teacherId) && b.status == Pending then {Confirmed, Cancelled} else {})
      + (if b.status == Confirmed then {Ongoing} else {})
      + (if b.status == Ongoing then {Completed} else {})
  }

  /** The status buttons a render made at `now` draws for a booking: a card
      exists only for a booking of `userBookings`, and it is listed on the
      upcoming tab exactly when it is upcoming at `now`. */
  function ShownActions(b: Booking, uid: Option<string>, now: int): (r: set<Status>)
    ensures r != {} ==> InvolvesUser(b, uid) && IsUpcoming(b, now)
    ensures InvolvesUser(b, uid) && IsUpcoming(b, now) ==> r == OfferedActions(UpcomingTab, b, uid)
  {
    if InvolvesUser(b, uid) then OfferedActions(if IsUpcoming(b, now) then UpcomingTab else PastTab, b, uid)
    else {}
  }

  /** A render made after a booking's date, or of a completed booking, draws
      no status button for it, whatever its status. */
  lemma StaleBookingShowsNoButton(b: Booking, uid: Option<string>, now: int)
    requires b.date < now || b.status == Completed
    ensures ShownActions(b, uid, now) == {}
  {
  }

  /** The four edges of the lifecycle. */
  predicate LegalEdge(from: Status, to: Status)
  {
    || (from == Pending && to == Confirmed)
    || (from == Pending && to == Cancelled)
    || (from == Confirmed && to == Ongoing)
    || (from == Ongoing && to == Completed)
  }

  /** The gate offers only the four lifecycle edges, only on the upcoming tab,
      and confirm and cancel only to the teacher. */
  lemma OfferedAreLegalEdges(tab: Tab, b: Booking, uid: Option<string>, t: Status)
    requires t in OfferedActions(tab, b, uid)
    ensures tab == UpcomingTab && LegalEdge(b.status, t) && t != Pending
    ensures b.status == Pending ==> uid == Some(b.teacherId)
  {
  }

  /** Every lifecycle edge is offered to the teacher on the upcoming tab, and
      nothing leads out of `completed` or `cancelled`. */
  lemma LegalEdgesAreOffered(b: Booking, t: Status)
    ensures LegalEdge(b.status, t) ==> t in OfferedActions(UpcomingTab, b, Some(b.teacherId))
    ensures b.status == Completed || b.status == Cancelled ==>
              forall tab, uid :: OfferedActions(tab, b, uid) == {}
  {
  }

  /** The timestamp invariant: `startTime` is present exactly in `ongoing` and
      `completed`, `endTime` exactly in `completed`. */
  predicate TimesConsistent(b: Booking)
  {
    && (b.startTime.Some? <==> b.status == Ongoing || b.status == Completed)
    && (b.endTime.Some? <==> b.status == Completed)
  }

  /** A press on a freshly rendered card keeps the timestamp invariant. */
  lemma GatedActionKeepsTimes(tab: Tab, b: Booking, uid: Option<string>, t: Status, now: int)
    requires TimesConsistent(b) && t in OfferedActions(tab, b, uid)
    ensures TimesConsistent(ApplyBookingPatch(b, ActionPatch(t, now)))
  {
    OfferedAreLegalEdges(tab, b, uid, t);
  }

  /** The unchecked transition breaks it: completing a pending booking directly
      gives an `endTime` without a `startTime`. */
  lemma UncheckedActionBreaksTimes(b: Booking, now: int)
    requires b.status == Pending && TimesConsistent(b)
    ensures !TimesConsistent(ApplyBookingPatch(b, ActionPatch(Completed, now)))
  {
  }

  /** The statuses `handleBookingAction` accepts. */
  type Action = s: Status | s != Pending witness Confirmed

  /** What happens on the booking page. A render reads the bookings and the
      clock and draws the cards; nothing in a press makes the page render
      again, so a press runs a button of the card as it was last drawn, on the
      booking as it is stored now. */
  datatype PageEvent = Render(at: int) | Press(target: Action, at: int)

  /** The card of a booking as last drawn: the booking as read by that render,
      and the time of the render. */
  datatype Card = Card(shown: Booking, renderedAt: int)

  /** The stored booking after the events: each press merges its patch, a
      render changes nothing. */
  function RunEvents(b: Booking, events: seq<PageEvent>): Booking
    decreases |events|
  {
    if events == [] then b
    else match events[0]
      case Render(_) => RunEvents(b, events[1..])
      case Press(target, t) => RunEvents(ApplyBookingPatch(b, ActionPatch(target, t)), events[1..])
  }

  /** Every press of the events is a button of the card as last drawn before
      it; `card` is the card on screen before the first event, `None` before
      the page has rendered. */
  predicate GatedRun(b: Booking, card: Option<Card>, events: seq<PageEvent>, uid: Option<string>)
    decreases |events|
  {
    if events == [] then true
    else match events[0]
      case Render(t) => GatedRun(b, Some(Card(b, t)), events[1..], uid)
      case Press(target, t) =>
        && card.Some? && target in ShownActions(card.value.shown, uid, card.value.renderedAt)
        && GatedRun(ApplyBookingPatch(b, ActionPatch(target, t)), card, events[1..], uid)
  }

  /** Since the card was drawn, the stored booking has kept the status drawn
      or moved to one of the card's buttons. */
  predicate CardAgrees(b: Booking, card: Option<Card>, uid: Option<string>)
  {
    card.Some? ==>
      b.status == card.value.shown.status || b.status in OfferedActions(UpcomingTab, card.value.shown, uid)
  }

  /** A press on a card drawn earlier keeps the timestamp invariant and the
      agreement with the card, whatever presses came between. */
  lemma StaleCardActionKeepsTimes(b: Booking, card: Card, uid: Option<string>, target: Status, now: int)
    requires TimesConsistent(b) && CardAgrees(b, Some(card), uid)
    requires target in OfferedActions(UpcomingTab, card.shown, uid)
    ensures TimesConsistent(ApplyBookingPatch(b, ActionPatch(target, now)))
    ensures CardAgrees(ApplyBookingPatch(b, ActionPatch(target, now)), Some(card), uid)
  {
    OfferedAreLegalEdges(UpcomingTab, card.shown, uid, target);
  }

  /** Whatever buttons are pressed, on fresh cards or on cards left on screen,
      the timestamp invariant holds at the end: a booking has a `startTime`
      iff it is ongoing or completed, and an `endTime` iff it is completed. */
  lemma {:induction false} GatedRunKeepsTimes(b: Booking, card: Option<Card>, events: seq<PageEvent>, uid: Option<string>)
    requires TimesConsistent(b) && CardAgrees(b, card, uid) && GatedRun(b, card, events, uid)
    ensures TimesConsistent(RunEvents(b, events))
    decreases |events|
  {
    if events != [] {
      match events[0]
      case Render(t) =>
        GatedRunKeepsTimes(b, Some(Card(b, t)), events[1..], uid);
      case Press(target, t) =>
        StaleCardActionKeepsTimes(b, card.value, uid, target, t);
        GatedRunKeepsTimes(ApplyBookingPatch(b, ActionPatch(target, t)), card, events[1..], uid);
    }
  }

  /** A page whose every render is made after the booking's date, and whose
      card on screen (if any) was too, never changes the booking: no card it
      draws has a status button. */
  lemma {:induction false} LateRendersMoveNothing(b: Booking, card: Option<Card>, events: seq<PageEvent>, uid: Option<string>)
    requires GatedRun(b, card, events, uid)
    requires card.Some? ==> card.value.shown.date < card.value.renderedAt
    requires forall i :: 0 <= i < |events| && events[i].Render? ==> b.date < events[i].at
    ensures RunEvents(b, events) == b
    decreases |events|
  {
    if events != [] {
      assert forall i :: 0 <= i < |events[1..]| ==> events[1..][i] == events[i + 1];
      match events[0]
      case Render(t) =>
        LateRendersMoveNothing(b, Some(Card(b, t)), events[1..], uid);
      case Press(_, _) =>
        assert false;
    }
  }

  /** A card drawn before the booking's date still starts the session after
      it: the date is checked at the render, not at the press. */
  lemma LateStartFromEarlierRender(b: Booking, uid: Option<string>, r: int, t: int)
    requires b.status == Confirmed && InvolvesUser(b, uid) && r <= b.date < t
    ensures var events := [Render(r), Press(Ongoing, t)];
            && GatedRun(b, None, events, uid)
            && RunEvents(b, events) == b.(status := Ongoing, startTime := Some(t))
  {
    var b1 := ApplyBookingPatch(b, ActionPatch(Ongoing, t));
    var events := [Render(r), Press(Ongoing, t)];
    assert events[1..][1..] == [];
    assert GatedRun(b1, Some(Card(b, r)), [], uid);
    assert GatedRun(b, Some(Card(b, r)), events[1..], uid);
    assert RunEvents(b, events[1..]) == RunEvents(b1, []);
  }

  /** On a pending card left on screen the teacher can cancel the booking and
      then confirm it: the cancelled booking comes back as confirmed. */
  lemma StaleCardRevivesCancelled(b: Booking, r: int, t1: int, t2: int)
    requires b.status == Pending && r <= b.date
    ensures var events := [Render(r), Press(Cancelled, t1), Press(Confirmed, t2)];
            && GatedRun(b, None, events, Some(b.teacherId))
            && RunEvents(b, events[..2]).status == Cancelled
            && RunEvents(b, events) == b.(status := Confirmed)
  {
    var uid := Some(b.teacherId);
    var card := Some(Card(b, r));
    var b1 := ApplyBookingPatch(b, ActionPatch(Cancelled, t1));
    var b2 := ApplyBookingPatch(b1, ActionPatch(Confirmed, t2));
    var events := [Render(r), Press(Cancelled, t1), Press(Confirmed, t2)];
    assert events[1..] == [Press(Cancelled, t1), Press(Confirmed, t2)];
    assert events[1..][1..] == [Press(Confirmed, t2)] && events[1..][1..][1..] == [];
    assert GatedRun(b2, card, [], uid);
    assert GatedRun(b1, card, events[1..][1..], uid);
    assert GatedRun(b, card, events[1..], uid);
    assert RunEvents(b, events) == RunEvents(b1, events[1..][1..]) == RunEvents(b2, []);
    assert events[..2] == [Render(r), Press(Cancelled, t1)] && events[..2][1..][1..] == [];
    assert RunEvents(b, events[..2]) == RunEvents(b1, []);
  }
}
