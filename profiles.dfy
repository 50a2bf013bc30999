/**
 * The `user_profiles` table as an in-memory map from profile id to row, and the
 * row updates the entitlement write paths perform on it.
 */
module Profiles {
  import opened Wrappers
  import opened Subscription

  /** One row of `user_profiles` (timestamps are the epoch seconds their ISO strings encode). */
  datatype Profile = Profile(
    email: string,
    role: string,
    subscriptionStatus: string,
    subscriptionStart: Option<int>,
    subscriptionEnd: Option<int>,
    isBlocked: bool)

  /** The three columns every entitlement write overwrites together. */
  datatype Entitlement = Entitlement(status: string, start: Option<int>, end: Option<int>)

  /** Postgres's unique-violation error code. */
  const UNIQUE_VIOLATION := "23505"

  /** A freshly inserted row: the table's column defaults for everything not supplied. */
  function NewProfile(email: string, role: string): Profile {
    Profile(email, role, FREE, None, None, false)
  }

  function EntitlementOf(p: Profile): Entitlement {
    Entitlement(p.subscriptionStatus, p.subscriptionStart, p.subscriptionEnd)
  }

  function WithEntitlement(p: Profile, e: Entitlement): (q: Profile)
    ensures EntitlementOf(q) == e
    ensures q.email == p.email && q.role == p.role && q.isBlocked == p.isBlocked
  {
    p.(subscriptionStatus := e.status, subscriptionStart := e.start, subscriptionEnd := e.end)
  }

  /** What `isPremium` is asked about a stored profile. */
  function PremiumQueryOf(p: Profile): PremiumQuery {
    ProfileLike(Some(p.role), Some(p.subscriptionStatus))
  }

  /** A stored profile is premium iff it is an admin or its status is premium; the end date and the block flag play no part. */
  lemma ProfilePremiumIff(p: Profile, end: Option<int>, blocked: bool)
    ensures IsPremium(PremiumQueryOf(p)) <==> p.role == "admin" || p.subscriptionStatus == "premium"
    ensures IsPremium(PremiumQueryOf(p.(subscriptionEnd := end, isBlocked := blocked)))
            == IsPremium(PremiumQueryOf(p))
  {
  }

  /** The ids of the rows holding `email`. */
  function IdsWithEmail(rows: map<string, Profile>, email: string): set<string> {
    set k | k in rows && rows[k].email == email
  }

  /** The table's unique constraint on `email`. */
  ghost predicate EmailsUnique(rows: map<string, Profile>) {
    forall j, k :: j in rows && k in rows && rows[j].email == rows[k].email ==> j == k
  }

  /** `.update(e).eq("id", id)`: the row with key `id`, if any, gets the entitlement `e`. */
  function SetEntitlement(rows: map<string, Profile>, id: string, e: Entitlement): (r: map<string, Profile>)
    ensures r.Keys == rows.Keys
    ensures forall k :: k in rows && k != id ==> r[k] == rows[k]
    ensures id in rows ==> r[id] == WithEntitlement(rows[id], e)
  {
    if id in rows then rows[id := WithEntitlement(rows[id], e)] else rows
  }

  /** `.update(e).eq("email", email)`: every row holding `email` gets the entitlement `e`. */
  function SetEntitlementByEmail(rows: map<string, Profile>, email: string, e: Entitlement): (r: map<string, Profile>)
    ensures r.Keys == rows.Keys
    ensures forall k :: k in rows && rows[k].email != email ==> r[k] == rows[k]
    ensures forall k :: k in rows && rows[k].email == email ==> r[k] == WithEntitlement(rows[k], e)
  {
    map k | k in rows :: if rows[k].email == email then WithEntitlement(rows[k], e) else rows[k]
  }

  /** A row update one of the write paths decides on. */
  datatype Write =
    | NoWrite
    | UpdateById(id: string, e: Entitlement)
    | UpdateByEmail(email: string, e: Entitlement)

  function Apply(rows: map<string, Profile>, w: Write): map<string, Profile> {
    match w
    case NoWrite => rows
    case UpdateById(id, e) => SetEntitlement(rows, id, e)
    case UpdateByEmail(email, e) => SetEntitlementByEmail(rows, email, e)
  }

  /** An entitlement write overwrites with fixed values, so applying it twice is applying it once. */
  lemma {:induction false} ApplyIdempotent(rows: map<string, Profile>, w: Write)
    ensures Apply(Apply(rows, w), w) == Apply(rows, w)
  {
    var once := Apply(rows, w);
    var twice := Apply(once, w);
    match w
    case NoWrite =>
    case UpdateById(id, e) =>
      if id in rows {
        assert twice[id] == once[id];
      }
    case UpdateByEmail(email, e) =>
      forall k | k in rows
        ensures twice[k] == once[k]
      {
        if rows[k].email == email {
          assert once[k].email == email;
        }
      }
  }

  /** An entitlement write keeps the set of rows, every email and every role, and so the unique constraint. */
  lemma {:induction false} ApplyKeepsIdentity(rows: map<string, Profile>, w: Write)
    ensures Apply(rows, w).Keys == rows.Keys
    ensures forall k :: k in rows ==> Apply(rows, w)[k].email == rows[k].email
    ensures forall k :: k in rows ==> Apply(rows, w)[k].role == rows[k].role
    ensures EmailsUnique(rows) ==> EmailsUnique(Apply(rows, w))
  {
    var r := Apply(rows, w);
    match w
    case NoWrite =>
    case UpdateById(id, e) =>
    case UpdateByEmail(email, e) =>
  }

  /** The profile table: the state every write path reads and overwrites. */
  class ProfileTable {
    var rows: map<string, Profile>

    ghost predicate Valid()
      reads this
    {
      EmailsUnique(rows)
    }

    constructor ()
      ensures Valid() && rows == map[]
    {
      rows := map[];
    }

    /** `.select(...).eq("id", id).single()`. */
    method SelectById(id: string) returns (r: Option<Profile>)
      ensures r.Some? <==> id in rows
      ensures r.Some? ==> r.value == rows[id]
    {
      r := if id in rows then Some(rows[id]) else None;
    }

    /** `.select("id, role").eq("email", email).single()`: the id of the one row holding `email`; none when zero or several match. */
    method SelectSingleByEmail(email: string) returns (r: Option<string>)
      ensures r.Some? <==> |IdsWithEmail(rows, email)| == 1
      ensures r.Some? ==> r.value in rows && rows[r.value].email == email
    {
      var ids := IdsWithEmail(rows, email);
      if |ids| == 1 {
        var k :| k in ids;
        r := Some(k);
      } else {
        r := None;
      }
    }

    /** `.insert({id, email, role})`: fails with a unique violation when the id or the email is taken. */
    method Insert(id: string, email: string, role: string) returns (err: Option<string>)
      modifies this
      ensures err.Some? <==> id in old(rows) || IdsWithEmail(old(rows), email) != {}
      ensures err.Some? ==> err.value == UNIQUE_VIOLATION && rows == old(rows)
      ensures err.None? ==> rows == old(rows)[id := NewProfile(email, role)]
      ensures old(Valid()) ==> Valid()
    {
      if id in rows || IdsWithEmail(rows, email) != {} {
        err := Some(UNIQUE_VIOLATION);
      } else {
        ghost var before := rows;
        rows := rows[id := NewProfile(email, role)];
        err := None;
        if EmailsUnique(before) {
          forall j, k | j in rows && k in rows && rows[j].email == rows[k].email
            ensures j == k
          {
            if j != id { assert j !in IdsWithEmail(before, email); }
            if k != id { assert k !in IdsWithEmail(before, email); }
          }
        }
      }
    }

    /** `.update({ role }).eq("id", id)`. */
    method UpdateRoleById(id: string, role: string)
      modifies this
      ensures id in old(rows) ==> rows == old(rows)[id := old(rows)[id].(role := role)]
      ensures id !in old(rows) ==> rows == old(rows)
      ensures old(Valid()) ==> Valid()
    {
      if id in rows {
        ghost var before := rows;
        rows := rows[id := rows[id].(role := role)];
        if EmailsUnique(before) {
          forall j, k | j in rows && k in rows && rows[j].email == rows[k].email
            ensures j == k
          {
            assert rows[j].email == before[j].email && rows[k].email == before[k].email;
          }
        }
      }
    }

    /** `.update({ subscription_status, subscription_start, subscription_end }).eq("id", id)`. */
    method UpdateEntitlementById(id: string, e: Entitlement)
      modifies this
      ensures rows == Apply(old(rows), UpdateById(id, e))
      ensures old(Valid()) ==> Valid()
    {
      ApplyKeepsIdentity(rows, UpdateById(id, e));
      rows := SetEntitlement(rows, id, e);
    }

    /** The same update keyed by `.eq("email", email)`. */
    method UpdateEntitlementByEmail(email: string, e: Entitlement)
      modifies this
      ensures rows == Apply(old(rows), UpdateByEmail(email, e))
      ensures old(Valid()) ==> Valid()
    {
      ApplyKeepsIdentity(rows, UpdateByEmail(email, e));
      rows := SetEntitlementByEmail(rows, email, e);
    }
  }

  /** Under the unique constraint, at most one row holds a given email. */
  lemma {:induction false} UniqueEmailAtMostOne(rows: map<string, Profile>, email: string)
    requires EmailsUnique(rows)
    ensures |IdsWithEmail(rows, email)| <= 1
    ensures IdsWithEmail(rows, email) != {} ==> |IdsWithEmail(rows, email)| == 1
  {
    var ids := IdsWithEmail(rows, email);
    if ids != {} {
      var k :| k in ids;
      assert ids == {k};
    }
  }
}
