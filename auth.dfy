/** Sign-up and log-in. Password hashing is a foreign call: sign-up receives the hash
    that `generate_password_hash` made of the password, and log-in receives the
    `check_password_hash` predicate. */
module Auth {
  import opened Base
  import opened LeadStore

  datatype SignupOutcome = MissingFields | AlreadyRegistered | Created

  /** The decision of `signup` on a submitted form (an absent field reads as ""). */
  function SignupDecision(users: seq<User>, email: string, password: string): (o: SignupOutcome)
    ensures o == MissingFields <==> email == "" || password == ""
    ensures o == AlreadyRegistered <==> email != "" && password != "" && HasEmail(users, email)
    ensures o == Created <==> email != "" && password != "" && !HasEmail(users, email)
  {
    if email == "" || password == "" then MissingFields
    else if FindUser(users, email).Some? then AlreadyRegistered
    else Created
  }

  /** `signup` (POST): creates exactly one user when the decision is Created, and no user
      otherwise; a store whose emails are unique keeps them unique. */
  method Signup(store: Store, email: string, password: string, passwordHash: string)
    returns (o: SignupOutcome)
    requires store.Valid()
    modifies store
    ensures store.Valid()
    ensures o == SignupDecision(old(store.users), email, password)
    ensures store.users == AfterSignup(old(store.users), email, password, passwordHash, old(store.nextUserId))
    ensures store.nextUserId == old(store.nextUserId) + (if o == Created then 1 else 0)
    ensures store.leads == old(store.leads) && store.nextLeadId == old(store.nextLeadId)
    ensures EmailsUnique(old(store.users)) ==> EmailsUnique(store.users)
  {
    if email == "" || password == "" {
      return MissingFields;
    }
    var existing := store.GetUserByEmail(email);
    if existing.Some? {
      return AlreadyRegistered;
    }
    ghost var before := store.users;
    store.CreateUser(email, passwordHash);
    if EmailsUnique(before) {
      SignupKeepsEmailsUnique(before, email, password, passwordHash, old(store.nextUserId));
    }
    o := Created;
  }

  /** The users after a sign-up: one user appended, with the next id, exactly when the
      decision is Created. */
  function AfterSignup(users: seq<User>, email: string, password: string, passwordHash: string, id: nat): seq<User> {
    if SignupDecision(users, email, password) == Created then users + [User(id, email, passwordHash)]
    else users
  }

  lemma SignupKeepsEmailsUnique(users: seq<User>, email: string, password: string, passwordHash: string, id: nat)
    requires EmailsUnique(users)
    ensures EmailsUnique(AfterSignup(users, email, password, passwordHash, id))
  {
  }

  /** A second sign-up with an email that the first one registered never creates a user. */
  lemma SecondSignupRejected(users: seq<User>, email: string, password: string, password2: string,
                             passwordHash: string, id: nat)
    requires SignupDecision(users, email, password) == Created
    ensures SignupDecision(users + [User(id, email, passwordHash)], email, password2) != Created
    ensures password2 != "" ==>
              SignupDecision(users + [User(id, email, passwordHash)], email, password2) == AlreadyRegistered
  {
    var after := users + [User(id, email, passwordHash)];
    assert after[|users|].email == email;
  }

  datatype LoginOutcome = LoggedIn(userId: nat) | WrongCredentials

  /** `login` (POST): the session gets the id of the first user with this email when the
      password checks against that user's hash; an unknown email and a wrong password
      give the same answer. */
  method Login(store: Store, email: string, password: string, checkHash: (string, string) -> bool)
    returns (o: LoginOutcome)
    ensures o.LoggedIn? <==> FindUser(store.users, email).Some? &&
                             checkHash(FindUser(store.users, email).value.passwordHash, password)
    ensures o.LoggedIn? ==> o.userId == FindUser(store.users, email).value.id
    ensures o.LoggedIn? ==> exists u :: u in store.users && u.id == o.userId && u.email == email &&
                                        checkHash(u.passwordHash, password)
    ensures !HasEmail(store.users, email) ==> o == WrongCredentials
  {
    var user := store.GetUserByEmail(email);
    if user.Some? && checkHash(user.value.passwordHash, password) {
      return LoggedIn(user.value.id);
    }
    return WrongCredentials;
  }

  /** After a successful sign-up, the new user is the one log-in finds by that email,
      so log-in with the same password establishes a session with the new user's id. */
  lemma {:induction false} LoginFindsNewUser(users: seq<User>, email: string, password: string,
                                             passwordHash: string, id: nat)
    requires SignupDecision(users, email, password) == Created
    ensures FindUser(users + [User(id, email, passwordHash)], email) == Some(User(id, email, passwordHash))
  {
    FindUserAfterAppend(users, User(id, email, passwordHash), email);
  }
}
