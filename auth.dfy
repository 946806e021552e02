/** The authentication context (frontend/src/context/AuthContext.tsx): a users
    collection in the store, the signed-in user held in memory, and a copy of it
    under the `currentUser` key. */
module Auth {
  import opened Types
  import opened Collections
  import opened LocalStorage

  /** bcrypt, abstracted: `hash` stands for `hashSync(password, 10)` and
      `verify` for `compareSync(password, stored)`. */
  datatype Hasher = Hasher(hash: string -> string, verify: (string, string) -> bool)

  /** The one property of bcrypt the application relies on: a password verifies
      against its own hash. */
  ghost predicate Sound(h: Hasher)
  {
    forall p :: h.verify(p, h.hash(p))
  }

  /** `users.some(u => u.email === email)` */
  function EmailTaken(users: seq<User>, email: string): (r: bool)
    ensures r <==> exists i :: 0 <= i < |users| && users[i].email == email
  {
    Any(users, (u: User) => u.email == email)
  }

  ghost predicate EmailsUnique(users: seq<User>)
  {
    forall i, j :: 0 <= i < j < |users| ==> users[i].email != users[j].email
  }

  /** `users.find(u => u.email === email)` */
  function FindByEmail(users: seq<User>, email: string): (r: Option<User>)
    ensures r.Some? ==> r.value in users && r.value.email == email
    ensures r.None? <==> !EmailTaken(users, email)
  {
    Find(users, (u: User) => u.email == email)
  }

  /** The record `register` stores: a hashed password, no skills and no role. */
  function NewUser(id: string, name: string, email: string, password: string, h: Hasher): User
  {
    User(id, name, email, h.hash(password), [], None)
  }

  /** The user `login` signs in, if any: the first user with the email, provided
      the password verifies against that user's stored hash. */
  function LoginLookup(users: seq<User>, email: string, password: string, h: Hasher): (r: Option<User>)
    ensures r.Some? ==> r.value in users && r.value.email == email && h.verify(password, r.value.password)
    ensures !EmailTaken(users, email) ==> r.None?
  {
    match FindByEmail(users, email)
    case None => None
    case Some(u) => if h.verify(password, u.password) then Some(u) else None
  }

  /** With unique emails, `login` looks at the one user who has the email. */
  lemma LoginFindsTheOwner(users: seq<User>, k: nat, password: string, h: Hasher)
    requires EmailsUnique(users) && k < |users|
    ensures LoginLookup(users, users[k].email, password, h)
            == if h.verify(password, users[k].password) then Some(users[k]) else None
  {
    FindFirst(users, (u: User) => u.email == users[k].email, k);
  }

  /** A registration that passed the duplicate check keeps emails unique. */
  lemma RegisterKeepsEmailsUnique(users: seq<User>, u: User)
    requires EmailsUnique(users) && !EmailTaken(users, u.email)
    ensures EmailsUnique(users + [u])
  {
  }

  /** Round trip: right after registering, the same email and password log in,
      and as the new user. */
  lemma RegisterThenLogin(users: seq<User>, id: string, name: string, email: string, password: string, h: Hasher)
    requires Sound(h) && !EmailTaken(users, email)
    ensures LoginLookup(users + [NewUser(id, name, email, password, h)], email, password, h)
            == Some(NewUser(id, name, email, password, h))
  {
    var all := users + [NewUser(id, name, email, password, h)];
    FindFirst(all, (u: User) => u.email == email, |users|);
    assert h.verify(password, h.hash(password));
  }

  class AuthContext {
    var user: Option<User>
    var loading: bool
    const store: Store
    const hasher: Hasher

    constructor (store: Store, hasher: Hasher)
      ensures this.store == store && this.hasher == hasher
      ensures user == None && loading
    {
      this.store := store;
      this.hasher := hasher;
      user := None;
      loading := true;
    }

    /** The mount effect: restore the user saved under `currentUser`, then stop loading. */
    method Restore()
      modifies this`user, this`loading
      ensures user == if store.currentUser.Some? then store.currentUser else old(user)
      ensures !loading
    {
      if store.currentUser.Some? {
        user := store.currentUser;
      }
      loading := false;
    }

    /** `login`: on success the user becomes current, in memory and in the store;
        on failure nothing changes. */
    method Login(email: string, password: string) returns (ok: bool)
      modifies this`user, store`currentUser
      ensures ok <==> LoginLookup(store.GetUsers(), email, password, hasher).Some?
      ensures ok ==> user == LoginLookup(store.GetUsers(), email, password, hasher) && store.currentUser == user
      ensures !ok ==> user == old(user) && store.currentUser == old(store.currentUser)
    {
      var users := store.GetUsers();
      var found := FindByEmail(users, email);
      if found.Some? && hasher.verify(password, found.value.password) {
        user := found;
        store.SetCurrentUser(found);
        return true;
      }
      return false;
    }

    /** `logout` */
    method Logout()
      modifies this`user, store`currentUser
      ensures user == None && store.currentUser == None
    {
      user := None;
      store.SetCurrentUser(None);
    }

    /** `register`: refuse a taken email; otherwise append the new user to the
        users collection and make it current. */
    method Register(name: string, email: string, password: string, freshId: string) returns (ok: bool)
      modifies this`user, store`users, store`currentUser
      ensures ok <==> !EmailTaken(old(store.GetUsers()), email)
      ensures ok ==> var u := NewUser(freshId, name, email, password, hasher);
                     && store.users == Some(old(store.GetUsers()) + [u])
                     && user == Some(u) && store.currentUser == Some(u)
      ensures !ok ==> store.users == old(store.users) && user == old(user)
                      && store.currentUser == old(store.currentUser)
      ensures EmailsUnique(old(store.GetUsers())) ==> EmailsUnique(store.GetUsers())
    {
      var users := store.GetUsers();
      if EmailTaken(users, email) {
        return false;
      }
      var hashed := hasher.hash(password);
      var newUser := User(freshId, name, email, hashed, [], None);
      store.SaveUser(newUser);
      user := Some(newUser);
      store.SetCurrentUser(Some(newUser));
      if EmailsUnique(users) {
        RegisterKeepsEmailsUnique(users, newUser);
      }
      return true;
    }
  }
}
