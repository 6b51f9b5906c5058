/** The `users` and `leads` tables and the four helpers that the routes use on them.
    The database is an in-memory store whose ids are assigned in increasing order,
    as the tables' auto-increment keys are. */
module LeadStore {
  import opened Base

  /** Every lead ingested by the webhook belongs to this user (the owner). */
  const OwnerId: nat := 1
  /** A new lead is not handled yet. */
  const Unhandled: int := 0

  datatype User = User(id: nat, email: string, passwordHash: string)

  datatype Lead = Lead(
    id: nat,
    userId: nat,
    phone: Option<string>,  // the message's `from`, absent when the payload has none
    name: string,
    message: string,
    timestamp: string,
    handled: int)

  predicate UserIdsAscending(us: seq<User>) {
    forall i, j :: 0 <= i < j < |us| ==> us[i].id < us[j].id
  }

  predicate LeadIdsAscending(ls: seq<Lead>) {
    forall i, j :: 0 <= i < j < |ls| ==> ls[i].id < ls[j].id
  }

  predicate LeadIdsDescending(ls: seq<Lead>) {
    forall i, j :: 0 <= i < j < |ls| ==> ls[i].id > ls[j].id
  }

  predicate EmailsUnique(us: seq<User>) {
    forall i, j :: 0 <= i < j < |us| ==> us[i].email != us[j].email
  }

  predicate HasEmail(us: seq<User>, email: string) {
    exists i :: 0 <= i < |us| && us[i].email == email
  }

  /** The position of the first user with this email, if any. */
  function FirstIndexWithEmail(us: seq<User>, email: string): (r: Option<nat>)
    ensures r.Some? ==> r.value < |us| && us[r.value].email == email
    ensures r.Some? ==> forall k :: 0 <= k < r.value ==> us[k].email != email
    ensures r.None? <==> !HasEmail(us, email)
  {
    if us == [] then None
    else if us[0].email == email then Some(0)
    else
      match FirstIndexWithEmail(us[1..], email)
      case None =>
        assert forall i :: 1 <= i < |us| ==> us[i] == us[1..][i - 1];
        None
      case Some(i) => Some(i + 1)
  }

  /** What `get_user_by_email` returns: the first matching row, or none. */
  function FindUser(us: seq<User>, email: string): (r: Option<User>)
    ensures r.Some? ==> r.value in us && r.value.email == email
    ensures r.None? <==> !HasEmail(us, email)
  {
    match FirstIndexWithEmail(us, email)
    case None => None
    case Some(i) => Some(us[i])
  }

  /** A user appended behind every earlier match is not found by its email;
      appended with a fresh email, it is. */
  lemma {:induction false} FindUserAfterAppend(us: seq<User>, u: User, email: string)
    ensures HasEmail(us, email) ==> FindUser(us + [u], email) == FindUser(us, email)
    ensures !HasEmail(us, email) && u.email == email ==> FindUser(us + [u], email) == Some(u)
    ensures !HasEmail(us, email) && u.email != email ==> FindUser(us + [u], email).None?
    decreases |us|
  {
    var s := us + [u];
    if us != [] {
      assert s[1..] == us[1..] + [u];
      assert s[0] == us[0];
      FindUserAfterAppend(us[1..], u, email);
      if us[0].email != email {
        assert HasEmail(us, email) ==> HasEmail(us[1..], email) by {
          if HasEmail(us, email) {
            var i :| 0 <= i < |us| && us[i].email == email;
            assert us[1..][i - 1] == us[i];
          }
        }
        assert !HasEmail(us, email) ==> !HasEmail(us[1..], email) by {
          if HasEmail(us[1..], email) {
            var i :| 0 <= i < |us[1..]| && us[1..][i].email == email;
            assert us[i + 1] == us[1..][i];
          }
        }
      }
    } else {
      assert s == [u];
      if u.email == email {
        assert FirstIndexWithEmail(s, email) == Some(0);
      }
    }
  }

  /** What `get_leads(u)` returns: the leads of user `u`, newest (highest id) first. */
  function NewestFirst(ls: seq<Lead>, u: nat): (r: seq<Lead>)
    ensures forall l :: l in r <==> l in ls && l.userId == u
    ensures LeadIdsAscending(ls) ==> LeadIdsDescending(r)
    decreases |ls|
  {
    if ls == [] then []
    else
      var older := NewestFirst(ls[1..], u);
      assert forall l :: l in ls <==> l == ls[0] || l in ls[1..];
      assert LeadIdsAscending(ls) ==> LeadIdsAscending(ls[1..]) && forall l :: l in ls[1..] ==> ls[0].id < l.id;
      older + (if ls[0].userId == u then [ls[0]] else [])
  }

  /** In an id-descending listing the head has the highest id, and the rest of the
      listing is everything but the head. */
  lemma DescendingHead(a: seq<Lead>, l: Lead)
    requires LeadIdsDescending(a) && l in a
    ensures a[0].id >= l.id
    ensures l.id == a[0].id ==> l == a[0]
    ensures l in a[1..] <==> l != a[0]
  {
  }

  /** Two id-descending listings of the same leads are the same listing: NewestFirst is
      the one and only answer to "the user's leads ordered by id descending". */
  lemma {:induction false} ListingIsUnique(a: seq<Lead>, b: seq<Lead>)
    requires LeadIdsDescending(a) && LeadIdsDescending(b)
    requires forall l :: l in a <==> l in b
    ensures a == b
    decreases |a|
  {
    assert forall i :: 0 <= i < |a| ==> a[i] in b;
    assert forall i :: 0 <= i < |b| ==> b[i] in a;
    if a != [] && b != [] {
      assert a[0] in a && b[0] in b;
      DescendingHead(a, b[0]);
      DescendingHead(b, a[0]);
      forall l ensures l in a[1..] <==> l in b[1..] {
        if l in a {
          DescendingHead(a, l);
          DescendingHead(b, l);
        } else {
          assert l !in a[1..] && l !in b[1..];
        }
      }
      ListingIsUnique(a[1..], b[1..]);
    }
  }

  /** The two tables. Ids are handed out from `nextUserId` and `nextLeadId`. */
  class Store {
    var users: seq<User>
    var leads: seq<Lead>
    var nextUserId: nat
    var nextLeadId: nat

    /** Rows are stored in insertion order, so in increasing id order, and every id is
        below the next one to be handed out. */
    ghost predicate Valid()
      reads this
    {
      && UserIdsAscending(users) && (forall i :: 0 <= i < |users| ==> users[i].id < nextUserId)
      && LeadIdsAscending(leads) && (forall i :: 0 <= i < |leads| ==> leads[i].id < nextLeadId)
    }

    /** Empty tables whose ids start at 1. */
    constructor ()
      ensures Valid()
      ensures users == [] && leads == [] && nextUserId == 1 && nextLeadId == 1
    {
      users, leads := [], [];
      nextUserId, nextLeadId := 1, 1;
    }

    /** `create_user`: insert a row; the table itself does not check the email. */
    method CreateUser(email: string, passwordHash: string)
      requires Valid()
      modifies this
      ensures Valid()
      ensures users == old(users) + [User(old(nextUserId), email, passwordHash)]
      ensures nextUserId == old(nextUserId) + 1
      ensures leads == old(leads) && nextLeadId == old(nextLeadId)
    {
      users := users + [User(nextUserId, email, passwordHash)];
      nextUserId := nextUserId + 1;
    }

    /** `get_user_by_email`: the first user with this email, or none. */
    method GetUserByEmail(email: string) returns (r: Option<User>)
      ensures r.Some? ==> r.value in users && r.value.email == email
      ensures r.None? <==> !HasEmail(users, email)
      ensures r == FindUser(users, email)
    {
      r := FindUser(users, email);
    }

    /** `insert_lead`: append an unhandled lead stamped with `timestamp`. */
    method InsertLead(userId: nat, phone: Option<string>, name: string, message: string, timestamp: string)
      requires Valid()
      modifies this
      ensures Valid()
      ensures leads == old(leads) + [Lead(old(nextLeadId), userId, phone, name, message, timestamp, Unhandled)]
      ensures nextLeadId == old(nextLeadId) + 1
      ensures users == old(users) && nextUserId == old(nextUserId)
    {
      leads := leads + [Lead(nextLeadId, userId, phone, name, message, timestamp, Unhandled)];
      nextLeadId := nextLeadId + 1;
    }

    /** `get_leads`: exactly the leads of `userId`, ordered by id descending. */
    method GetLeads(userId: nat) returns (r: seq<Lead>)
      requires Valid()
      ensures forall l :: l in r <==> l in leads && l.userId == userId
      ensures LeadIdsDescending(r)
      ensures r == NewestFirst(leads, userId)
    {
      r := NewestFirst(leads, userId);
    }
  }
}
