/** The notification context (frontend/src/context/NotificationContext.tsx): the
    signed-in user's notification list held in memory, copies of lists under the
    `notifications_{userId}` keys, and the set of booking ids already seen by
    the booking poll. */
module Notifications {
  import opened Types
  import opened Collections
  import opened Text
  import opened LocalStorage
  import opened Auth

  /** The guard of `addNotification`: a truthy booking id that some entry of the
      in-memory list already carries. */
  function IsDuplicate(list: seq<Notification>, bookingId: Option<string>): (r: bool)
    ensures r <==> Truthy(bookingId) && exists i :: 0 <= i < |list| && list[i].bookingId == bookingId
  {
    Truthy(bookingId) && Any(list, (n: Notification) => n.bookingId == bookingId)
  }

  /** The list `addNotification` builds and stores. */
  function AddStep(list: seq<Notification>, userId: string, message: string,
                   bookingId: Option<string>, freshId: string, now: int): seq<Notification>
  {
    if IsDuplicate(list, bookingId) then list
    else list + [Notification(freshId, userId, message, false, now, bookingId)]
  }

  /** `notifications.filter(n => !n.read).length` */
  function CountUnread(list: seq<Notification>): (n: nat)
    ensures n <= |list|
    ensures n == 0 <==> forall i :: 0 <= i < |list| ==> list[i].read
  {
    FilterEmpty(list, (x: Notification) => !x.read);
    |Filter(list, (x: Notification) => !x.read)|
  }

  /** The list `markAsRead` builds: the entry with that id is marked read. */
  function MarkRead(list: seq<Notification>, id: string): (r: seq<Notification>)
    ensures |r| == |list|
    ensures forall i :: 0 <= i < |list| && list[i].id == id ==> r[i] == list[i].(read := true)
    ensures forall i :: 0 <= i < |list| && list[i].id != id ==> r[i] == list[i]
  {
    Update(list, (n: Notification) => n.id == id, (n: Notification) => n.(read := true))
  }

  /** The ids of the bookings that involve `uid`. */
  function RelevantIds(bookings: seq<Booking>, uid: string): (ids: set<string>)
    ensures forall b :: b in bookings && Involves(b, uid) ==> b.id in ids
  {
    set b | b in bookings && Involves(b, uid) :: b.id
  }

  /** A duplicate booking id makes `addNotification` a no-op. */
  lemma AddDuplicateIsNoop(list: seq<Notification>, userId: string, message: string,
                           b: string, freshId: string, now: int, k: nat)
    requires b != "" && k < |list| && list[k].bookingId == Some(b)
    ensures AddStep(list, userId, message, Some(b), freshId, now) == list
  {
  }

  /** Without a truthy booking id, `addNotification` always appends one unread
      entry, last, and leaves the existing entries as they were. */
  lemma AddWithoutBookingAppends(list: seq<Notification>, userId: string, message: string,
                                 bookingId: Option<string>, freshId: string, now: int)
    requires !Truthy(bookingId)
    ensures var r := AddStep(list, userId, message, bookingId, freshId, now);
            && |r| == |list| + 1 && r[..|list|] == list
            && r[|list|] == Notification(freshId, userId, message, false, now, bookingId)
  {
  }

  /** Adding raises the unread count by one exactly when it appends. */
  lemma {:induction false} AddCountsUnread(list: seq<Notification>, userId: string, message: string,
                                           bookingId: Option<string>, freshId: string, now: int)
    ensures CountUnread(AddStep(list, userId, message, bookingId, freshId, now))
            == CountUnread(list) + if IsDuplicate(list, bookingId) then 0 else 1
  {
    if !IsDuplicate(list, bookingId) {
      var n := Notification(freshId, userId, message, false, now, bookingId);
      FilterConcat(list, [n], (x: Notification) => !x.read);
    }
  }

  /** Marking read keeps the length, never raises the unread count, and lowers
      it when the id names an unread entry. */
  lemma {:induction false} MarkReadCountsUnread(list: seq<Notification>, id: string)
    ensures CountUnread(MarkRead(list, id)) <= CountUnread(list)
    ensures (exists i :: 0 <= i < |list| && list[i].id == id && !list[i].read)
            ==> CountUnread(MarkRead(list, id)) < CountUnread(list)
  {
    if list != [] {
      MarkReadCountsUnread(list[1..], id);
      assert MarkRead(list, id)[1..] == MarkRead(list[1..], id);
      if exists i :: 0 <= i < |list| && list[i].id == id && !list[i].read {
        var i :| 0 <= i < |list| && list[i].id == id && !list[i].read;
        if i > 0 {
          assert list[1..][i - 1] == list[i];
        }
      }
    }
  }

  /** Marking the same id read twice is marking it once. */
  lemma MarkReadIdempotent(list: seq<Notification>, id: string)
    ensures MarkRead(MarkRead(list, id), id) == MarkRead(list, id)
  {
  }

  /** `addNotification` stores under the recipient's key the CURRENT user's list
      plus the new entry: whatever the recipient had stored and the current list
      lacks is overwritten. */
  lemma AddOverwritesRecipientList(stored: map<string, seq<Notification>>, list: seq<Notification>,
                                   recipient: string, message: string, bookingId: Option<string>,
                                   freshId: string, now: int, lost: Notification)
    requires !IsDuplicate(list, bookingId)
    requires recipient in stored && lost in stored[recipient] && lost !in list && lost.id != freshId
    ensures lost !in stored[recipient := AddStep(list, recipient, message, bookingId, freshId, now)][recipient]
  {
  }

  class NotificationContext {
    var notifications: seq<Notification>
    var processedBookings: set<string>
    const auth: AuthContext
    const store: Store

    constructor (auth: AuthContext, store: Store)
      ensures this.auth == auth && this.store == store
      ensures notifications == [] && processedBookings == {}
    {
      this.auth := auth;
      this.store := store;
      notifications := [];
      processedBookings := {};
    }

    /** The effect run when the user changes: load that user's stored list. */
    method LoadForUser()
      modifies this`notifications
      ensures auth.user.Some? ==> notifications == store.GetNotifications(auth.user.value.id)
      ensures auth.user.None? ==> notifications == old(notifications)
    {
      if auth.user.Some? {
        notifications := store.GetNotifications(auth.user.value.id);
      }
    }

    /** One run of `checkNewBookings` (the poll's interval is left out): every
        booking that involves the user is marked seen; the set only grows. */
    method CheckNewBookings()
      modifies this`processedBookings
      ensures old(processedBookings) <= processedBookings
      ensures auth.user.None? ==> processedBookings == old(processedBookings)
      ensures auth.user.Some? ==>
                processedBookings == old(processedBookings) + RelevantIds(store.GetBookings(), auth.user.value.id)
    {
      if auth.user.None? {
        return;
      }
      var uid := auth.user.value.id;
      var bookings := store.GetBookings();
      var seen := processedBookings;
      var relevant := Filter(bookings, (b: Booking) => Involves(b, uid) && b.id !in seen);
      var i := 0;
      while i < |relevant|
        invariant 0 <= i <= |relevant|
        invariant processedBookings == seen + set k | 0 <= k < i :: relevant[k].id
      {
        if relevant[i].id !in processedBookings {
          processedBookings := processedBookings + {relevant[i].id};
        }
        i := i + 1;
      }
      forall x | x in RelevantIds(bookings, uid) && x !in seen
        ensures x in processedBookings
      {
        var b :| b in bookings && Involves(b, uid) && b.id == x;
        FilterMembership(bookings, (b: Booking) => Involves(b, uid) && b.id !in seen, b);
        var k :| 0 <= k < |relevant| && relevant[k] == b;
      }
      forall k | 0 <= k < |relevant|
        ensures relevant[k].id in RelevantIds(bookings, uid)
      {
        FilterMembership(bookings, (b: Booking) => Involves(b, uid) && b.id !in seen, relevant[k]);
      }
    }

    /** `addNotification`: dedup against the in-memory list; otherwise replace the
        in-memory list and write it under the RECIPIENT's key. */
    method AddNotification(userId: string, message: string, bookingId: Option<string>,
                           freshId: string, now: int)
      modifies this`notifications, store`notifications
      ensures notifications == AddStep(old(notifications), userId, message, bookingId, freshId, now)
      ensures IsDuplicate(old(notifications), bookingId) ==> store.notifications == old(store.notifications)
      ensures !IsDuplicate(old(notifications), bookingId) ==>
                store.notifications == old(store.notifications)[userId := notifications]
    {
      if Truthy(bookingId) && Any(notifications, (n: Notification) => n.bookingId == bookingId) {
        return;
      }
      var n := Notification(freshId, userId, message, false, now, bookingId);
      var updated := notifications + [n];
      notifications := updated;
      store.SetNotifications(userId, updated);
    }

    /** `markAsRead`: the in-memory list always, the user's key only when signed in. */
    method MarkAsRead(id: string)
      modifies this`notifications, store`notifications
      ensures notifications == MarkRead(old(notifications), id)
      ensures auth.user.Some? ==> store.notifications == old(store.notifications)[auth.user.value.id := notifications]
      ensures auth.user.None? ==> store.notifications == old(store.notifications)
    {
      var updated := MarkRead(notifications, id);
      notifications := updated;
      if auth.user.Some? {
        store.SetNotifications(auth.user.value.id, updated);
      }
    }

    /** `clearAllNotifications`: only when a user is signed in. */
    method ClearAllNotifications()
      modifies this`notifications, store`notifications
      ensures auth.user.Some? ==> notifications == [] && store.notifications == old(store.notifications)[auth.user.value.id := []]
      ensures auth.user.None? ==> notifications == old(notifications) && store.notifications == old(store.notifications)
    {
      if auth.user.Some? {
        notifications := [];
        store.SetNotifications(auth.user.value.id, []);
      }
    }

    /** `unreadCount` */
    function UnreadCount(): (n: nat)
      reads this
      ensures n <= |notifications|
      ensures n == 0 <==> forall i :: 0 <= i < |notifications| ==> notifications[i].read
    {
      CountUnread(notifications)
    }
  }
}
