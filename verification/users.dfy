/** The user directory: `UserService` over a user repository keyed by email. */
module Users {
  import opened Wrappers
  import opened Exceptions

  /** The `User` entity: its email and whether the account is active. */
  datatype User = User(email: string, active: bool)

  const AlreadyRegisteredMessage: string := "Already user registered"
  const UserNotFoundMessage: string := "User not found"

  /** The store invariant: every user is filed under its own email, so no
      two stored users share an email. */
  ghost predicate EmailKeyed(users: map<string, User>) {
    forall e :: e in users ==> users[e].email == e
  }

  /** The store after the user filed under `email` has had its flag set to
      `active` and been saved again. */
  function WithActive(users: map<string, User>, email: string, active: bool): (r: map<string, User>)
    requires email in users
    ensures r.Keys == users.Keys
    ensures r[email] == users[email].(active := active)
    ensures forall e :: e in users && e != email ==> r[e] == users[e]
  {
    users[email := users[email].(active := active)]
  }

  /** Under the invariant, a stored user is identified by its email: two
      keys whose users share an email are the same key. */
  lemma AtMostOneUserPerEmail(users: map<string, User>, e1: string, e2: string)
    requires EmailKeyed(users)
    requires e1 in users && e2 in users && users[e1].email == users[e2].email
    ensures e1 == e2
  {
  }

  /** Setting the flag keeps every user filed under its own email. */
  lemma WithActiveKeepsEmailKeyed(users: map<string, User>, email: string, active: bool)
    requires EmailKeyed(users) && email in users
    ensures EmailKeyed(WithActive(users, email, active))
  {
  }

  /** Activating (or deactivating) twice leaves the store as doing it once. */
  lemma WithActiveIdempotent(users: map<string, User>, email: string, active: bool)
    requires email in users
    ensures WithActive(WithActive(users, email, active), email, active) == WithActive(users, email, active)
  {
  }

  /** Activating a user that is already active changes nothing. */
  lemma WithActiveUnchangedWhenSet(users: map<string, User>, email: string, active: bool)
    requires email in users && users[email].active == active
    ensures WithActive(users, email, active) == users
  {
  }

  class UserService {
    /** The user repository: find by email and save. */
    var users: map<string, User>

    ghost predicate Valid()
      reads this
    {
      EmailKeyed(users)
    }

    constructor ()
      ensures Valid() && users == map[]
    {
      users := map[];
    }

    /** `getUserByEmail`: the user stored under exactly this email, or none. */
    method GetUserByEmail(email: string) returns (u: Option<User>)
      requires Valid()
      ensures u.Some? <==> email in users
      ensures u.Some? ==> u.value == users[email] && u.value.email == email
    {
      if email in users {
        u := Some(users[email]);
      } else {
        u := None;
      }
    }

    /** `registerUser`: a new email is saved as an active user and returned;
        an email already present throws and nothing is saved. */
    method RegisterUser(email: string) returns (r: Result<User, Thrown>)
      requires Valid()
      modifies this
      ensures Valid()
      ensures email in old(users) ==>
                r == Failure(UserAlreadyRegistered(AlreadyRegisteredMessage)) && users == old(users)
      ensures email !in old(users) ==>
                && r == Success(User(email, true))
                && users == old(users)[email := r.value]
                && users.Keys == old(users).Keys + {email}
                && |users| == |old(users)| + 1
    {
      var existing := GetUserByEmail(email);
      if existing.Some? {
        return Failure(UserAlreadyRegistered(AlreadyRegisteredMessage));
      }
      var user := User(email, true);
      users := users[email := user];
      r := Success(user);
    }

    /** `activateUser`: the user's flag becomes true, nothing else changes;
        an unknown email throws and nothing is saved. */
    method ActivateUser(email: string) returns (r: Outcome<Thrown>)
      requires Valid()
      modifies this
      ensures Valid()
      ensures email in old(users) ==> r == Pass && users == WithActive(old(users), email, true)
      ensures email !in old(users) ==> r == Fail(Runtime(UserNotFoundMessage)) && users == old(users)
    {
      var user := GetUserByEmail(email);
      if user.None? {
        return Fail(Runtime(UserNotFoundMessage));
      }
      WithActiveKeepsEmailKeyed(users, email, true);
      users := users[email := user.value.(active := true)];
      r := Pass;
    }

    /** `deactivateUser`: the user's flag becomes false, nothing else
        changes; an unknown email throws and nothing is saved. */
    method DeactivateUser(email: string) returns (r: Outcome<Thrown>)
      requires Valid()
      modifies this
      ensures Valid()
      ensures email in old(users) ==> r == Pass && users == WithActive(old(users), email, false)
      ensures email !in old(users) ==> r == Fail(Runtime(UserNotFoundMessage)) && users == old(users)
    {
      var user := GetUserByEmail(email);
      if user.None? {
        return Fail(Runtime(UserNotFoundMessage));
      }
      WithActiveKeepsEmailKeyed(users, email, false);
      users := users[email := user.value.(active := false)];
      r := Pass;
    }
  }
}
