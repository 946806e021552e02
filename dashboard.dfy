/** The skills dashboard (frontend/src/pages/Dashboard.tsx): the signed-in user's
    own skills, everybody else's skills with a search and a category filter,
    and the handlers that add, edit and delete skills and book a session. */
module Dashboard {
  import opened Types
  import opened Collections
  import opened Text
  import opened LocalStorage
  import opened Auth
  import opened Notifications
  import opened BookingDashboard

  /** `skill.userId === user?.id`; with nobody signed in no skill is owned. */
  predicate OwnedBy(s: Skill, uid: Option<string>)
  {
    uid == Some(s.userId)
  }

  /** `userSkills` */
  function UserSkills(skills: seq<Skill>, uid: Option<string>): seq<Skill>
  {
    Filter(skills, (s: Skill) => OwnedBy(s, uid))
  }

  /** `otherSkills` */
  function OtherSkills(skills: seq<Skill>, uid: Option<string>): seq<Skill>
  {
    Filter(skills, (s: Skill) => !OwnedBy(s, uid))
  }

  /** The two lists split the skills by owner. */
  lemma SkillsPartition(skills: seq<Skill>, uid: Option<string>)
    ensures multiset(UserSkills(skills, uid)) + multiset(OtherSkills(skills, uid)) == multiset(skills)
    ensures forall s :: s in UserSkills(skills, uid) <==> s in skills && OwnedBy(s, uid)
    ensures forall s :: s in OtherSkills(skills, uid) <==> s in skills && !OwnedBy(s, uid)
  {
    FilterSplit(skills, (s: Skill) => OwnedBy(s, uid), (s: Skill) => !OwnedBy(s, uid));
    FilterContents(skills, (s: Skill) => OwnedBy(s, uid));
    FilterContents(skills, (s: Skill) => !OwnedBy(s, uid));
  }

  /** The category select: `'all'` or one category. */
  datatype CategoryChoice = AllCategories | Only(category: SkillCategory)

  predicate MatchesSearch(s: Skill, query: string)
  {
    Includes(Lower(s.title), Lower(query)) || Includes(Lower(s.description), Lower(query))
  }

  predicate MatchesCategory(s: Skill, choice: CategoryChoice)
  {
    choice == AllCategories || choice == Only(s.category)
  }

  /** `filteredSkills` */
  function FilteredSkills(other: seq<Skill>, query: string, choice: CategoryChoice): (r: seq<Skill>)
    ensures forall s :: s in r <==> s in other && MatchesSearch(s, query) && MatchesCategory(s, choice)
  {
    FilterContents(other, (s: Skill) => MatchesSearch(s, query) && MatchesCategory(s, choice));
    Filter(other, (s: Skill) => MatchesSearch(s, query) && MatchesCategory(s, choice))
  }

  /** An empty search over all categories shows every other user's skill. */
  lemma EmptySearchShowsAll(other: seq<Skill>)
    ensures FilteredSkills(other, "", AllCategories) == other
  {
    forall i | 0 <= i < |other|
      ensures MatchesSearch(other[i], "") && MatchesCategory(other[i], AllCategories)
    {
      IncludesEmpty(Lower(other[i].title));
    }
    FilterAll(other, (s: Skill) => MatchesSearch(s, "") && MatchesCategory(s, AllCategories));
  }

  const UnknownAuthor: string := "Unknown Author"

  /** `getAuthorName`: `author?.name || 'Unknown Author'`. The author is the
      first user with the id; an empty name falls back as well. */
  function AuthorName(users: seq<User>, userId: string): (name: string)
    ensures (forall i :: 0 <= i < |users| ==> users[i].id != userId) ==> name == UnknownAuthor
    ensures forall k :: 0 <= k < |users| && users[k].id == userId && (forall j :: 0 <= j < k ==> users[j].id != userId)
                        ==> name == if users[k].name != "" then users[k].name else UnknownAuthor
    ensures name != UnknownAuthor ==> exists i :: 0 <= i < |users| && users[i].id == userId && users[i].name == name
  {
    var author := Find(users, (u: User) => u.id == userId);
    assert forall k :: 0 <= k < |users| && users[k].id == userId && (forall j :: 0 <= j < k ==> users[j].id != userId)
                       ==> author == Some(users[k]) by {
      forall k | 0 <= k < |users| && users[k].id == userId && (forall j :: 0 <= j < k ==> users[j].id != userId)
        ensures author == Some(users[k])
      {
        FindFirst(users, (u: User) => u.id == userId, k);
      }
    }
    if author.Some? && author.value.name != "" then author.value.name else UnknownAuthor
  }

  /** The record `confirmBooking` saves. */
  function NewBooking(id: string, skill: Skill, learnerId: string, date: int): Booking
  {
    Booking(id, skill.id, learnerId, skill.userId, date, Pending, None, None)
  }

  /** A new booking is pending, belongs to the learner, the skill and the
      skill's owner, has no timestamps, and satisfies the timestamp invariant. */
  lemma NewBookingIsPending(id: string, skill: Skill, learnerId: string, date: int)
    ensures var b := NewBooking(id, skill, learnerId, date);
            && b.status == Pending && b.learnerId == learnerId && b.teacherId == skill.userId
            && b.skillId == skill.id && b.startTime.None? && b.endTime.None? && TimesConsistent(b)
  {
  }

  /** A skill reached through the filtered list is never the learner's own, so
      a booking made from it never has the learner as its teacher. */
  lemma BookedSkillNeverSelf(skills: seq<Skill>, uid: string, query: string, choice: CategoryChoice,
                             skill: Skill, id: string, date: int)
    requires skill in FilteredSkills(OtherSkills(skills, Some(uid)), query, choice)
    ensures NewBooking(id, skill, uid, date).learnerId != NewBooking(id, skill, uid, date).teacherId
  {
    SkillsPartition(skills, Some(uid));
  }

  /** The lifecycle scenario: a new booking confirmed, started and completed by
      its teacher, the page rendered before each press and no later than the
      booking's date, goes through drawn buttons only, and gets its `startTime`
      when started and its `endTime` when completed. */
  lemma LifecycleScenario(id: string, skill: Skill, learnerId: string, date: int, t1: int, t2: int, t3: int)
    requires t1 <= date && t2 <= date && t3 <= date
    ensures var b0 := NewBooking(id, skill, learnerId, date);
            var events := [Render(t1), Press(Confirmed, t1), Render(t2), Press(Ongoing, t2),
                           Render(t3), Press(Completed, t3)];
            && GatedRun(b0, None, events, Some(skill.userId))
            && RunEvents(b0, events[..2]) == b0.(status := Confirmed)
            && RunEvents(b0, events[..4]) == b0.(status := Ongoing, startTime := Some(t2))
            && RunEvents(b0, events) == b0.(status := Completed, startTime := Some(t2), endTime := Some(t3))
  {
    var b0 := NewBooking(id, skill, learnerId, date);
    var uid := Some(skill.userId);
    var b1 := ApplyBookingPatch(b0, ActionPatch(Confirmed, t1));
    var b2 := ApplyBookingPatch(b1, ActionPatch(Ongoing, t2));
    var b3 := ApplyBookingPatch(b2, ActionPatch(Completed, t3));
    var e5: seq<PageEvent> := [Press(Completed, t3)];
    var e4 := [Render(t3)] + e5;
    var e3 := [Press(Ongoing, t2)] + e4;
    var e2 := [Render(t2)] + e3;
    var e1 := [Press(Confirmed, t1)] + e2;
    var events := [Render(t1)] + e1;
    assert events == [Render(t1), Press(Confirmed, t1), Render(t2), Press(Ongoing, t2),
                      Render(t3), Press(Completed, t3)];
    assert e5[1..] == [] && e4[1..] == e5 && e3[1..] == e4 && e2[1..] == e3 && e1[1..] == e2 && events[1..] == e1;
    assert GatedRun(b3, Some(Card(b2, t3)), [], uid);
    assert GatedRun(b2, Some(Card(b1, t2)), e4, uid);
    assert GatedRun(b1, Some(Card(b0, t1)), e2, uid);
    assert GatedRun(b0, None, events, uid);
    assert RunEvents(b0, events) == b3 by {
      assert RunEvents(b2, e4) == RunEvents(b2, e5) == RunEvents(b3, []);
      assert RunEvents(b1, e2) == RunEvents(b1, e3) == RunEvents(b2, e4);
      assert RunEvents(b0, events) == RunEvents(b0, e1) == RunEvents(b1, e2);
    }
    var p4 := events[..4];
    assert p4[1..] == [Press(Confirmed, t1), Render(t2), Press(Ongoing, t2)];
    assert p4[1..][1..] == [Render(t2), Press(Ongoing, t2)] && p4[1..][1..][1..] == [Press(Ongoing, t2)];
    assert RunEvents(b0, p4) == b2 by {
      assert RunEvents(b1, p4[1..][1..]) == RunEvents(b1, [Press(Ongoing, t2)]) == RunEvents(b2, []);
    }
    var p2 := events[..2];
    assert p2[1..] == [Press(Confirmed, t1)] && p2[1..][1..] == [];
    assert RunEvents(b0, p2) == RunEvents(b0, p2[1..]) == RunEvents(b1, []);
  }

  /** The `updates` of `handleEditSkill`: title, description, rate and category. */
  function EditPatch(e: Skill): SkillPatch
  {
    SkillPatch(None, None, Some(e.title), Some(e.description), Some(e.rate), Some(e.category))
  }

  /** Editing takes the four edited fields and never touches `id` or `userId`. */
  lemma EditKeepsIdentity(s: Skill, e: Skill)
    ensures ApplySkillPatch(s, EditPatch(e))
            == Skill(s.id, s.userId, e.title, e.description, e.rate, e.category)
  {
  }

  /** The collection `handleDeleteSkill` writes. */
  function DeleteSkill(skills: seq<Skill>, skillId: string): seq<Skill>
  {
    Filter(skills, (s: Skill) => s.id != skillId)
  }

  /** Deleting removes every skill with the id, keeps every other skill, and
      keeps their order (deleting from a concatenation deletes from each part). */
  lemma DeleteSkillSpec(skills: seq<Skill>, more: seq<Skill>, skillId: string)
    ensures forall s :: s in DeleteSkill(skills, skillId) <==> s in skills && s.id != skillId
    ensures DeleteSkill(skills + more, skillId) == DeleteSkill(skills, skillId) + DeleteSkill(more, skillId)
    ensures skillId !in SkillIds(skills) ==> DeleteSkill(skills, skillId) == skills
  {
    FilterContents(skills, (s: Skill) => s.id != skillId);
    FilterConcat(skills, more, (s: Skill) => s.id != skillId);
    if skillId !in SkillIds(skills) {
      forall i | 0 <= i < |skills| ensures skills[i].id != skillId {
        assert SkillIds(skills)[i] == skills[i].id;
      }
      FilterAll(skills, (s: Skill) => s.id != skillId);
    }
  }

  /** The add-skill form. */
  datatype SkillForm = SkillForm(title: string, description: string, rate: int, category: SkillCategory)

  const EmptyForm: SkillForm := SkillForm("", "", 0, Other)

  const BookingRequestMessage: string := "New booking request for your session"

  /** The page's own state (the form fields and modals the handlers reset) and
      the contexts it uses. */
  class DashboardPage {
    const auth: AuthContext
    const notifs: NotificationContext
    const store: Store
    var showAddSkill: bool
    var newSkill: SkillForm
    var editingSkill: Option<Skill>
    var showMySkillModal: bool
    var selectedDetailSkill: Option<Skill>
    var showDetailModal: bool
    var selectedSkill: Option<Skill>
    /** The date input; `None` is the empty string. */
    var bookingDate: Option<int>
    var showBookingModal: bool
    var searchQuery: string
    var selectedCategory: CategoryChoice

    /** The page, the contexts and the store all share one store. */
    predicate Wired()
    {
      notifs.store == store && notifs.auth == auth && auth.store == store
    }

    constructor (auth: AuthContext, notifs: NotificationContext, store: Store)
      requires notifs.store == store && notifs.auth == auth && auth.store == store
      ensures this.auth == auth && this.notifs == notifs && this.store == store && Wired()
      ensures !showAddSkill && newSkill == EmptyForm && editingSkill.None? && !showMySkillModal
      ensures selectedDetailSkill.None? && !showDetailModal && selectedSkill.None?
      ensures bookingDate.None? && !showBookingModal && searchQuery == "" && selectedCategory == AllCategories
    {
      this.auth, this.notifs, this.store := auth, notifs, store;
      showAddSkill, newSkill, editingSkill, showMySkillModal := false, EmptyForm, None, false;
      selectedDetailSkill, showDetailModal, selectedSkill := None, false, None;
      bookingDate, showBookingModal, searchQuery, selectedCategory := None, false, "", AllCategories;
    }

    function UserId(): Option<string>
      reads auth
    {
      if auth.user.Some? then Some(auth.user.value.id) else None
    }

    /** The skills shown under "Browse": `filteredSkills`. */
    function VisibleSkills(): (r: seq<Skill>)
      reads this, auth, store
      ensures forall s :: s in r ==> s in store.GetSkills() && !OwnedBy(s, UserId())
    {
      SkillsPartition(store.GetSkills(), UserId());
      FilteredSkills(OtherSkills(store.GetSkills(), UserId()), searchQuery, selectedCategory)
    }

    /** `handleAddSkill`: with a user signed in, append a skill owned by that
        user and reset the form. */
    method HandleAddSkill(freshId: string)
      modifies store`skills, this`showAddSkill, this`newSkill
      ensures auth.user.Some? ==>
                && store.skills == Some(old(store.GetSkills()) + [Skill(freshId, auth.user.value.id,
                     old(newSkill).title, old(newSkill).description, old(newSkill).rate, old(newSkill).category)])
                && !showAddSkill && newSkill == EmptyForm
      ensures auth.user.None? ==>
                store.skills == old(store.skills) && showAddSkill == old(showAddSkill) && newSkill == old(newSkill)
    {
      if auth.user.Some? {
        var skill := Skill(freshId, auth.user.value.id, newSkill.title, newSkill.description, newSkill.rate, newSkill.category);
        store.SaveSkill(skill);
        showAddSkill := false;
        newSkill := EmptyForm;
      }
    }

    /** `handleEditSkill`: write the edited fields of the skill being edited. */
    method HandleEditSkill()
      modifies store`skills, this`editingSkill, this`showMySkillModal
      ensures old(editingSkill).Some? ==>
                && store.skills == Some(UpdateSkills(old(store.GetSkills()), old(editingSkill).value.id, EditPatch(old(editingSkill).value)))
                && editingSkill.None? && !showMySkillModal
      ensures old(editingSkill).None? ==>
                store.skills == old(store.skills) && editingSkill == old(editingSkill) && showMySkillModal == old(showMySkillModal)
    {
      if editingSkill.Some? {
        var e := editingSkill.value;
        store.UpdateSkill(e.id, SkillPatch(None, None, Some(e.title), Some(e.description), Some(e.rate), Some(e.category)));
        editingSkill := None;
        showMySkillModal := false;
      }
    }

    /** `handleSkillClick`, called on a card of the filtered list. */
    method HandleSkillClick(skill: Skill)
      requires skill in VisibleSkills()
      modifies this`selectedDetailSkill, this`showDetailModal
      ensures selectedDetailSkill == Some(skill) && showDetailModal
      ensures !OwnedBy(skill, UserId())
    {
      selectedDetailSkill := Some(skill);
      showDetailModal := true;
    }

    /** "Book Now" in the detail modal, which is rendered only with a skill:
        `handleBookSession(selectedDetailSkill)` and close the modal. */
    method BookNow()
      requires showDetailModal && selectedDetailSkill.Some?
      modifies this`selectedSkill, this`showBookingModal, this`showDetailModal
      ensures selectedSkill == selectedDetailSkill && showBookingModal && !showDetailModal
    {
      selectedSkill := selectedDetailSkill;
      showBookingModal := true;
      showDetailModal := false;
    }

    /** `confirmBooking`: with a user, a selected skill and a date, save a
        pending booking of that skill and notify its owner; otherwise nothing. */
    method ConfirmBooking(freshId: string, notificationId: string, now: int)
      requires Wired()
      modifies store`bookings, store`notifications, notifs`notifications
      modifies this`showBookingModal, this`selectedSkill, this`bookingDate
      ensures var go := auth.user.Some? && old(selectedSkill).Some? && old(bookingDate).Some?;
              && (go ==>
                    var b := NewBooking(freshId, old(selectedSkill).value, auth.user.value.id, old(bookingDate).value);
                    && store.bookings == Some(old(store.GetBookings()) + [b])
                    && notifs.notifications == AddStep(old(notifs.notifications), b.teacherId,
                                                       BookingRequestMessage, Some(b.id), notificationId, now)
                    && (!IsDuplicate(old(notifs.notifications), Some(b.id)) ==>
                          store.notifications == old(store.notifications)[b.teacherId := notifs.notifications])
                    && (IsDuplicate(old(notifs.notifications), Some(b.id)) ==>
                          store.notifications == old(store.notifications))
                    && !showBookingModal && selectedSkill.None? && bookingDate.None?)
              && (!go ==>
                    && store.bookings == old(store.bookings) && store.notifications == old(store.notifications)
                    && notifs.notifications == old(notifs.notifications)
                    && showBookingModal == old(showBookingModal) && selectedSkill == old(selectedSkill)
                    && bookingDate == old(bookingDate))
    {
      if auth.user.Some? && selectedSkill.Some? && bookingDate.Some? {
        var skill := selectedSkill.value;
        var booking := Booking(freshId, skill.id, auth.user.value.id, skill.userId, bookingDate.value, Pending, None, None);
        store.SaveBooking(booking);
        notifs.AddNotification(skill.userId, BookingRequestMessage, Some(booking.id), notificationId, now);
        showBookingModal := false;
        selectedSkill := None;
        bookingDate := None;
      }
    }

    /** `handleDeleteSkill`: write back the skills without that id. */
    method HandleDeleteSkill(skillId: string)
      modifies store`skills, this`editingSkill, this`showMySkillModal
      ensures store.skills == Some(DeleteSkill(old(store.GetSkills()), skillId))
      ensures editingSkill.None? && !showMySkillModal
    {
      var skills := store.GetSkills();
      var updated := Filter(skills, (s: Skill) => s.id != skillId);
      store.SetSkills(updated);
      editingSkill := None;
      showMySkillModal := false;
    }
  }
}
