/** Entities of the marketplace, as declared in frontend/src/types/index.ts (plus
    the `Notification` record of the notification context). Every record is a
    value: the application stores and copies them, never updates one in place. */
module Types {

  /** An optional value: a TypeScript optional field, `T | null` or `T | undefined`. */
  datatype Option<T> = None | Some(value: T) {
    function GetOr(default: T): T
    {
      if Some? then value else default
    }
  }

  /** The role a user may carry. `register` creates users without one, which is
      why `User.role` is optional in this model. */
  datatype Role = Mentor | Student

  /** The twelve skill categories. */
  datatype SkillCategory =
    | SoftwareDevelopment | Design | Music | Language | Sports | Arts
    | Literature | Mathematics | Science | Business | SocialSkills | Other

  /** `SKILL_CATEGORIES`, in declaration order (the options of the category selects). */
  const SkillCategories: seq<SkillCategory> :=
    [SoftwareDevelopment, Design, Music, Language, Sports, Arts,
     Literature, Mathematics, Science, Business, SocialSkills, Other]

  /** The position of a category in `SkillCategories`. */
  function CategoryIndex(c: SkillCategory): (i: nat)
    ensures i < |SkillCategories| && SkillCategories[i] == c
  {
    match c
    case SoftwareDevelopment => 0
    case Design => 1
    case Music => 2
    case Language => 3
    case Sports => 4
    case Arts => 5
    case Literature => 6
    case Mathematics => 7
    case Science => 8
    case Business => 9
    case SocialSkills => 10
    case Other => 11
  }

  lemma SkillCategoriesListsEachOnce()
    ensures |SkillCategories| == 12
    ensures forall c: SkillCategory :: c in SkillCategories
    ensures forall i, j :: 0 <= i < j < |SkillCategories| ==> SkillCategories[i] != SkillCategories[j]
  {
    forall c: SkillCategory
      ensures c in SkillCategories
    {
      assert SkillCategories[CategoryIndex(c)] == c;
    }
  }

  /** Booking status. The type declares four values; the booking dashboard also
      writes and reads `confirmed`, so the model has five. */
  datatype Status = Pending | Confirmed | Ongoing | Completed | Cancelled

  datatype Skill = Skill(
    id: string,
    userId: string,
    title: string,
    description: string,
    rate: int,
    category: SkillCategory)

  datatype User = User(
    id: string,
    name: string,
    email: string,
    password: string,
    skills: seq<Skill>,
    role: Option<Role>)

  /** `date`, `startTime` and `endTime` are instants, modelled as integers. */
  datatype Booking = Booking(
    id: string,
    skillId: string,
    learnerId: string,
    teacherId: string,
    date: int,
    status: Status,
    startTime: Option<int>,
    endTime: Option<int>)

  /** A booking involves a user who teaches or learns in it. */
  predicate Involves(b: Booking, uid: string)
  {
    b.teacherId == uid || b.learnerId == uid
  }

  datatype Notification = Notification(
    id: string,
    userId: string,
    message: string,
    read: bool,
    createdAt: int,
    bookingId: Option<string>)
}
