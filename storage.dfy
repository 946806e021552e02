/** The browser store (frontend/src/utils/localStorage.ts): named collections of
    records kept under fixed keys. JSON encoding is the identity here, so each key
    holds its records directly; a key that was never written is `None`. */
module LocalStorage {
  import opened Types
  import opened Collections

  /** `Partial<Skill>`: each present field overrides the record's own. */
  datatype SkillPatch = SkillPatch(
    id: Option<string>,
    userId: Option<string>,
    title: Option<string>,
    description: Option<string>,
    rate: Option<int>,
    category: Option<SkillCategory>)

  /** `Partial<Booking>`. A `startTime` or `endTime` of `None` means the key is
      absent from the update, so the record's value survives. */
  datatype BookingPatch = BookingPatch(
    id: Option<string>,
    skillId: Option<string>,
    learnerId: Option<string>,
    teacherId: Option<string>,
    date: Option<int>,
    status: Option<Status>,
    startTime: Option<int>,
    endTime: Option<int>)

  /** `{ ...skill, ...updates }` */
  function ApplySkillPatch(s: Skill, p: SkillPatch): Skill
  {
    Skill(p.id.GetOr(s.id), p.userId.GetOr(s.userId), p.title.GetOr(s.title),
          p.description.GetOr(s.description), p.rate.GetOr(s.rate), p.category.GetOr(s.category))
  }

  /** `{ ...booking, ...updates }` */
  function ApplyBookingPatch(b: Booking, p: BookingPatch): Booking
  {
    Booking(p.id.GetOr(b.id), p.skillId.GetOr(b.skillId), p.learnerId.GetOr(b.learnerId),
            p.teacherId.GetOr(b.teacherId), p.date.GetOr(b.date), p.status.GetOr(b.status),
            if p.startTime.Some? then p.startTime else b.startTime,
            if p.endTime.Some? then p.endTime else b.endTime)
  }

  /** The merge performed by `updateSkill`: every skill whose id matches is
      overwritten field by field, every other skill is kept as it is. */
  function UpdateSkills(skills: seq<Skill>, skillId: string, p: SkillPatch): (r: seq<Skill>)
    ensures |r| == |skills|
    ensures forall i :: 0 <= i < |skills| && skills[i].id == skillId ==> r[i] == ApplySkillPatch(skills[i], p)
    ensures forall i :: 0 <= i < |skills| && skills[i].id != skillId ==> r[i] == skills[i]
  {
    Update(skills, (s: Skill) => s.id == skillId, (s: Skill) => ApplySkillPatch(s, p))
  }

  /** The merge performed by `updateBooking`. */
  function UpdateBookings(bookings: seq<Booking>, bookingId: string, p: BookingPatch): (r: seq<Booking>)
    ensures |r| == |bookings|
    ensures forall i :: 0 <= i < |bookings| && bookings[i].id == bookingId ==> r[i] == ApplyBookingPatch(bookings[i], p)
    ensures forall i :: 0 <= i < |bookings| && bookings[i].id != bookingId ==> r[i] == bookings[i]
  {
    Update(bookings, (b: Booking) => b.id == bookingId, (b: Booking) => ApplyBookingPatch(b, p))
  }

  /** The ids of a collection, in order. */
  function SkillIds(skills: seq<Skill>): seq<string>
  {
    MapSeq(skills, (s: Skill) => s.id)
  }

  function BookingIds(bookings: seq<Booking>): seq<string>
  {
    MapSeq(bookings, (b: Booking) => b.id)
  }

  /** An update that does not name `id` keeps the length and the order of ids. */
  lemma UpdateSkillsKeepsIds(skills: seq<Skill>, skillId: string, p: SkillPatch)
    requires p.id.None?
    ensures SkillIds(UpdateSkills(skills, skillId, p)) == SkillIds(skills)
  {
  }

  lemma UpdateBookingsKeepsIds(bookings: seq<Booking>, bookingId: string, p: BookingPatch)
    requires p.id.None?
    ensures BookingIds(UpdateBookings(bookings, bookingId, p)) == BookingIds(bookings)
  {
  }

  /** An update for an id that no record has leaves the collection identical. */
  lemma UpdateSkillsAbsentId(skills: seq<Skill>, skillId: string, p: SkillPatch)
    requires skillId !in SkillIds(skills)
    ensures UpdateSkills(skills, skillId, p) == skills
  {
    assert forall i :: 0 <= i < |skills| ==> skills[i].id != skillId by {
      forall i | 0 <= i < |skills| ensures skills[i].id != skillId {
        assert SkillIds(skills)[i] == skills[i].id;
      }
    }
  }

  lemma UpdateBookingsAbsentId(bookings: seq<Booking>, bookingId: string, p: BookingPatch)
    requires bookingId !in BookingIds(bookings)
    ensures UpdateBookings(bookings, bookingId, p) == bookings
  {
    assert forall i :: 0 <= i < |bookings| ==> bookings[i].id != bookingId by {
      forall i | 0 <= i < |bookings| ensures bookings[i].id != bookingId {
        assert BookingIds(bookings)[i] == bookings[i].id;
      }
    }
  }

  /** Applying the same updates twice gives the result of applying them once. */
  lemma UpdateSkillsIdempotent(skills: seq<Skill>, skillId: string, p: SkillPatch)
    ensures UpdateSkills(UpdateSkills(skills, skillId, p), skillId, p) == UpdateSkills(skills, skillId, p)
  {
    UpdateIdempotent(skills, (s: Skill) => s.id == skillId, (s: Skill) => ApplySkillPatch(s, p));
  }

  lemma UpdateBookingsIdempotent(bookings: seq<Booking>, bookingId: string, p: BookingPatch)
    ensures UpdateBookings(UpdateBookings(bookings, bookingId, p), bookingId, p) == UpdateBookings(bookings, bookingId, p)
  {
    UpdateIdempotent(bookings, (b: Booking) => b.id == bookingId, (b: Booking) => ApplyBookingPatch(b, p));
  }

  /** The store: one field per key (`users`, `skills`, `bookings`,
      `notifications_{userId}` as a map from user id, and `currentUser`). A
      method's frame names the keys it writes; every other key is unchanged. */
  class Store {
    var users: Option<seq<User>>
    var skills: Option<seq<Skill>>
    var bookings: Option<seq<Booking>>
    var notifications: map<string, seq<Notification>>
    var currentUser: Option<User>

    /** An empty browser store. */
    constructor ()
      ensures users == None && skills == None && bookings == None
      ensures notifications == map[] && currentUser == None
    {
      users, skills, bookings := None, None, None;
      notifications, currentUser := map[], None;
    }

    /** `getUsers`: an absent key reads as the empty collection. */
    function GetUsers(): (r: seq<User>)
      reads this
      ensures users.None? ==> r == []
    {
      users.GetOr([])
    }

    function GetSkills(): (r: seq<Skill>)
      reads this
      ensures skills.None? ==> r == []
    {
      skills.GetOr([])
    }

    function GetBookings(): (r: seq<Booking>)
      reads this
      ensures bookings.None? ==> r == []
    {
      bookings.GetOr([])
    }

    /** The list under `notifications_{userId}`, empty when the key is absent. */
    function GetNotifications(userId: string): (r: seq<Notification>)
      reads this
      ensures userId !in notifications ==> r == []
    {
      if userId in notifications then notifications[userId] else []
    }

    /** `saveUser`: read the collection, push one record, write it back. */
    method SaveUser(u: User)
      modifies this`users
      ensures users == Some(old(GetUsers()) + [u])
    {
      var all := GetUsers();
      all := all + [u];
      users := Some(all);
    }

    method SaveSkill(s: Skill)
      modifies this`skills
      ensures skills == Some(old(GetSkills()) + [s])
    {
      var all := GetSkills();
      all := all + [s];
      skills := Some(all);
    }

    method SaveBooking(b: Booking)
      modifies this`bookings
      ensures bookings == Some(old(GetBookings()) + [b])
    {
      var all := GetBookings();
      all := all + [b];
      bookings := Some(all);
    }

    /** `updateSkill`: one merge over the collection, one write. */
    method UpdateSkill(skillId: string, p: SkillPatch)
      modifies this`skills
      ensures skills == Some(UpdateSkills(old(GetSkills()), skillId, p))
    {
      skills := Some(UpdateSkills(GetSkills(), skillId, p));
    }

    method UpdateBooking(bookingId: string, p: BookingPatch)
      modifies this`bookings
      ensures bookings == Some(UpdateBookings(old(GetBookings()), bookingId, p))
    {
      bookings := Some(UpdateBookings(GetBookings(), bookingId, p));
    }

    /** A raw `setItem('skills', …)`. */
    method SetSkills(all: seq<Skill>)
      modifies this`skills
      ensures skills == Some(all)
    {
      skills := Some(all);
    }

    /** A raw `setItem('notifications_' + userId, …)`. */
    method SetNotifications(userId: string, list: seq<Notification>)
      modifies this`notifications
      ensures notifications == old(notifications)[userId := list]
    {
      notifications := notifications[userId := list];
    }

    /** `setItem('currentUser', …)` for `Some`, `removeItem('currentUser')` for `None`. */
    method SetCurrentUser(u: Option<User>)
      modifies this`currentUser
      ensures currentUser == u
    {
      currentUser := u;
    }
  }
}
