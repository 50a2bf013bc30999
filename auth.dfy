/**
 * Sign-in and session enrichment (src/lib/auth.ts): the admin allow-list, the
 * credentials check, profile provisioning on sign-in, and the `session`/`jwt`
 * callbacks that copy the stored entitlement onto the session.
 */
module Auth {
  import opened Wrappers
  import opened Strings
  import opened Subscription
  import opened Profiles

  const DEFAULT_ADMIN_EMAIL := "admin@example.com"

  /** `e.trim().toLowerCase()`. */
  function NormalizeEmail(e: string): string {
    ToLower(Trim(e))
  }

  /** `.map((e) => e.trim().toLowerCase()).filter(Boolean)` over the comma-separated parts. */
  function NormalizeParts(parts: seq<string>): (r: seq<string>)
    ensures forall i :: 0 <= i < |r| ==> r[i] != ""
    ensures |r| <= |parts|
  {
    if parts == [] then []
    else
      var e := NormalizeEmail(parts[0]);
      (if e == "" then [] else [e]) + NormalizeParts(parts[1..])
  }

  /** `ADMIN_EMAILS`: `ADMIN_EMAIL` (default `admin@example.com`) split on commas, trimmed, lower-cased, empty parts dropped. */
  function AdminEmails(adminEnv: Option<string>): seq<string> {
    NormalizeParts(Split(Or(adminEnv, DEFAULT_ADMIN_EMAIL), ','))
  }

  lemma {:induction false} NormalizePartsMembership(parts: seq<string>, x: string)
    ensures x in NormalizeParts(parts) <==> x != "" && exists p :: p in parts && NormalizeEmail(p) == x
  {
    if parts != [] {
      NormalizePartsMembership(parts[1..], x);
      if x != "" && NormalizeEmail(parts[0]) != x && x in NormalizeParts(parts) {
        assert x in NormalizeParts(parts[1..]);
      }
      if x in NormalizeParts(parts[1..]) {
        var p :| p in parts[1..] && NormalizeEmail(p) == x;
        assert p in parts;
      }
      forall p | p in parts && NormalizeEmail(p) == x && x != ""
        ensures x in NormalizeParts(parts)
      {
        if p != parts[0] {
          assert p in parts[1..];
        }
      }
    }
  }

  /** An address is on the admin list iff it is the trimmed, lower-cased form of some non-blank comma-separated part. */
  lemma AdminEmailsMembership(adminEnv: Option<string>, x: string)
    ensures x in AdminEmails(adminEnv) <==>
              x != "" && exists p :: p in Split(Or(adminEnv, DEFAULT_ADMIN_EMAIL), ',') && NormalizeEmail(p) == x
  {
    NormalizePartsMembership(Split(Or(adminEnv, DEFAULT_ADMIN_EMAIL), ','), x);
  }

  /** With `ADMIN_EMAIL` unset (or empty) the only admin is `admin@example.com`. */
  lemma DefaultAdminList()
    ensures AdminEmails(None) == ["admin@example.com"]
    ensures AdminEmails(Some("")) == ["admin@example.com"]
  {
    DefaultIsNormal();
    DefaultHasNoComma();
    SingleNormalPart(DEFAULT_ADMIN_EMAIL);
  }

  lemma DefaultIsNormal()
    ensures NormalizeEmail(DEFAULT_ADMIN_EMAIL) == DEFAULT_ADMIN_EMAIL
  {
    DefaultIsTrimmed();
    DefaultIsLower();
  }

  lemma DefaultIsTrimmed()
    ensures Trim(DEFAULT_ADMIN_EMAIL) == DEFAULT_ADMIN_EMAIL
  {
    assert NoSpaceAtEnds(DEFAULT_ADMIN_EMAIL);
  }

  lemma DefaultIsLower()
    ensures ToLower(DEFAULT_ADMIN_EMAIL) == DEFAULT_ADMIN_EMAIL
  {
    var d := DEFAULT_ADMIN_EMAIL;
    assert forall i :: 0 <= i < |d| ==> LowerChar(d[i]) == d[i];
  }

  lemma DefaultHasNoComma()
    ensures Split(DEFAULT_ADMIN_EMAIL, ',') == [DEFAULT_ADMIN_EMAIL]
  {
    assert ',' !in DEFAULT_ADMIN_EMAIL;
    assert IndexOf(DEFAULT_ADMIN_EMAIL, ',').None?;
  }

  lemma SingleNormalPart(d: string)
    requires NormalizeEmail(d) == d && d != ""
    ensures NormalizeParts([d]) == [d]
  {
    assert [d][1..] == [];
  }

  /** The submitted credentials; each field may be missing. */
  datatype Credentials = Credentials(email: Option<string>, password: Option<string>)

  /** The identity provider's user: an id and possibly an email. */
  datatype ProviderUser = ProviderUser(id: string, email: Option<string>)

  /** The user `authorize` hands to the session. */
  datatype AuthorizedUser = AuthorizedUser(id: string, email: string)

  /**
   * `authorize`: `signInWithPassword` is the identity provider's password check, given as a
   * function from (email, password) to the user it signs in, or `None` on an error.
   */
  function Authorize(creds: Option<Credentials>, signInWithPassword: (string, string) -> Option<ProviderUser>)
    : (r: Option<AuthorizedUser>)
    ensures creds.None? || !Truthy(creds.value.email) || !Truthy(creds.value.password) ==> r.None?
    ensures r.Some? ==>
              var email := NormalizeEmail(creds.value.email.value);
              var u := signInWithPassword(email, creds.value.password.value);
              u.Some? && r.value == AuthorizedUser(u.value.id, u.value.email.GetOr(email))
    ensures (creds.Some? && Truthy(creds.value.email) && Truthy(creds.value.password)
             && signInWithPassword(NormalizeEmail(creds.value.email.value), creds.value.password.value).Some?) ==> r.Some?
  {
    if creds.None? || !Truthy(creds.value.email) || !Truthy(creds.value.password) then None
    else
      var email := NormalizeEmail(creds.value.email.value);
      match signInWithPassword(email, creds.value.password.value)
      case None => None
      case Some(u) => Some(AuthorizedUser(u.id, u.email.GetOr(email)))
  }

  /** The user NextAuth passes to `signIn`. */
  datatype SignInUser = SignInUser(id: Option<string>, email: Option<string>)

  /** The role a first sign-in provisions: admin iff the lower-cased email is on the list. */
  function ProvisionedRole(email: string, admins: seq<string>): (role: string)
    ensures role == "admin" <==> ToLower(email) in admins
    ensures role == "admin" || role == "user"
  {
    if ToLower(email) in admins then ADMIN_ROLE else USER_ROLE
  }

  /** The table after `signIn`; the lookup is `.eq("email", user.email).single()`, so it finds a row only when exactly one matches. */
  function SignInEffect(rows: map<string, Profile>, user: SignInUser, admins: seq<string>): map<string, Profile> {
    if !Truthy(user.email) then rows
    else
      var email := user.email.value;
      var ids := IdsWithEmail(rows, email);
      if |ids| != 1 then
        // no single existing row: insert, which the table refuses on a taken id or email (the error is ignored)
        if user.id.None? || user.id.value in rows || ids != {} then rows
        else rows[user.id.value := NewProfile(email, ProvisionedRole(email, admins))]
      else if ProvisionedRole(email, admins) == ADMIN_ROLE then
        map k | k in rows :: if k in ids then rows[k].(role := ADMIN_ROLE) else rows[k]
      else rows
  }

  /** A first sign-in inserts exactly one row, keyed by the user's id, admin iff listed and otherwise user, with the default free entitlement. */
  lemma FirstSignInInsertsOne(rows: map<string, Profile>, user: SignInUser, admins: seq<string>)
    requires Truthy(user.email) && user.id.Some? && user.id.value !in rows
    requires IdsWithEmail(rows, user.email.value) == {}
    ensures var r := SignInEffect(rows, user, admins);
            && r.Keys == rows.Keys + {user.id.value}
            && |r| == |rows| + 1
            && r[user.id.value] == Profile(user.email.value, if ToLower(user.email.value) in admins then "admin" else "user",
                                           "free", None, None, false)
            && forall k :: k in rows ==> r[k] == rows[k]
  {
  }

  /** Sign-in never removes a row, never demotes an admin, and changes an existing row at most by promoting it to admin, which happens only for a listed email. */
  lemma {:induction false} SignInNeverDemotes(rows: map<string, Profile>, user: SignInUser, admins: seq<string>)
    ensures var r := SignInEffect(rows, user, admins);
            && rows.Keys <= r.Keys
            && forall k :: k in rows ==>
                 || r[k] == rows[k]
                 || (r[k] == rows[k].(role := "admin") && Truthy(user.email) && ToLower(user.email.value) in admins
                     && rows[k].email == user.email.value)
  {
  }

  /** An existing non-admin row whose email is listed becomes admin and keeps everything else. */
  lemma ListedUserPromoted(rows: map<string, Profile>, user: SignInUser, admins: seq<string>, k: string)
    requires Truthy(user.email) && k in rows && IdsWithEmail(rows, user.email.value) == {k}
    requires ToLower(user.email.value) in admins
    ensures SignInEffect(rows, user, admins) == rows[k := rows[k].(role := "admin")]
  {
    var r := SignInEffect(rows, user, admins);
    assert |IdsWithEmail(rows, user.email.value)| == 1;
    assert r.Keys == rows.Keys;
  }

  /** The `signIn` callback: false without an email; otherwise provisions or promotes, then true. */
  method SignIn(table: ProfileTable, user: SignInUser, adminEnv: Option<string>) returns (ok: bool)
    modifies table
    ensures ok <==> Truthy(user.email)
    ensures table.rows == SignInEffect(old(table.rows), user, AdminEmails(adminEnv))
    ensures old(table.Valid()) ==> table.Valid()
  {
    if !Truthy(user.email) {
      return false;
    }
    var email := user.email.value;
    var admins := AdminEmails(adminEnv);
    var isAdmin := ToLower(email) in admins;
    ghost var before := table.rows;
    var existing := table.SelectSingleByEmail(email);
    if existing.None? {
      NoSingleRowEffect(before, user, admins);
      if user.id.Some? {
        var _ := table.Insert(user.id.value, email, if isAdmin then ADMIN_ROLE else USER_ROLE);
      }
    } else {
      SingleId(IdsWithEmail(before, email), existing.value);
      ExistingRowEffect(before, user, admins, existing.value);
      if isAdmin && table.rows[existing.value].role != ADMIN_ROLE {
        table.UpdateRoleById(existing.value, ADMIN_ROLE);
      }
    }
    return true;
  }

  /** Without a single row for the email, sign-in inserts one unless the id is missing or the id or email is taken. */
  lemma NoSingleRowEffect(rows: map<string, Profile>, user: SignInUser, admins: seq<string>)
    requires Truthy(user.email) && |IdsWithEmail(rows, user.email.value)| != 1
    ensures var email := user.email.value;
            SignInEffect(rows, user, admins) ==
              if user.id.None? || user.id.value in rows || IdsWithEmail(rows, email) != {} then rows
              else rows[user.id.value := NewProfile(email, if ToLower(email) in admins then "admin" else "user")]
  {
  }

  /** What sign-in does to a single existing row: promote it iff listed and not yet admin. */
  lemma ExistingRowEffect(rows: map<string, Profile>, user: SignInUser, admins: seq<string>, k: string)
    requires Truthy(user.email) && k in rows && IdsWithEmail(rows, user.email.value) == {k}
    ensures SignInEffect(rows, user, admins) ==
              if ToLower(user.email.value) in admins && rows[k].role != "admin" then rows[k := rows[k].(role := "admin")]
              else rows
  {
    var r := SignInEffect(rows, user, admins);
    assert |IdsWithEmail(rows, user.email.value)| == 1;
    if ToLower(user.email.value) in admins {
      assert r.Keys == rows.Keys;
      if rows[k].role == "admin" {
        assert rows[k].(role := "admin") == rows[k];
      }
    }
  }

  lemma SingleId(ids: set<string>, x: string)
    requires |ids| == 1 && x in ids
    ensures ids == {x}
  {
    var rest := ids - {x};
    assert |rest| == 0;
  }

  /** The JWT: `sub` is the user id the session is keyed by. */
  class Token {
    var sub: Option<string>

    constructor (sub: Option<string>)
      ensures this.sub == sub
    {
      this.sub := sub;
    }
  }

  /** The user NextAuth passes to `jwt` on sign-in; its id may be missing. */
  datatype JwtUser = JwtUser(id: Option<string>)

  /** The `jwt` callback: on sign-in `token.sub` becomes the user's id; otherwise the token is untouched. */
  method Jwt(token: Token, user: Option<JwtUser>) returns (r: Token)
    modifies token
    ensures r == token
    ensures user.Some? ==> token.sub == user.value.id
    ensures user.None? ==> token.sub == old(token.sub)
  {
    if user.Some? {
      token.sub := user.value.id;
    }
    return token;
  }

  /** `session.user`, whose fields the `session` callback fills in place. `subscriptionEnd` is `Some(None)` once set to `null`. */
  class SessionUser {
    var id: Option<string>
    var subscriptionStatus: Option<string>
    var subscriptionEnd: Option<Option<int>>
    var role: Option<string>

    constructor ()
      ensures id.None? && subscriptionStatus.None? && subscriptionEnd.None? && role.None?
    {
      id, subscriptionStatus, subscriptionEnd, role := None, None, None, None;
    }
  }

  /** The session object; `error` is set to `"Blocked"` for a blocked profile. */
  datatype AppSession = AppSession(user: Option<SessionUser>, error: Option<string>)

  /**
   * The `session` callback. It reads the profile keyed by `token.sub`; a blocked profile
   * yields `{ ...session, error: "Blocked" }` with only `user.id` set; otherwise the stored
   * status, end and role are copied, defaulting to `"free"`, `null` and `"user"` when no row exists.
   */
  method EnrichSession(table: ProfileTable, session: AppSession, token: Token) returns (r: AppSession)
    modifies if session.user.Some? then {session.user.value} else {}
    ensures session.user.None? ==> r == session
    ensures session.user.Some? ==>
              var u := session.user.value;
              var data := if token.sub.Some? && token.sub.value in table.rows then Some(table.rows[token.sub.value]) else None;
              && u.id == token.sub
              && (data.Some? && data.value.isBlocked ==>
                    && r == AppSession(session.user, Some("Blocked"))
                    && u.subscriptionStatus == old(u.subscriptionStatus)
                    && u.subscriptionEnd == old(u.subscriptionEnd)
                    && u.role == old(u.role))
              && (!(data.Some? && data.value.isBlocked) ==>
                    && r == session
                    && u.subscriptionStatus == Some(if data.Some? then data.value.subscriptionStatus else "free")
                    && u.subscriptionEnd == Some(if data.Some? then data.value.subscriptionEnd else None)
                    && u.role == Some(if data.Some? then data.value.role else "user"))
  {
    if session.user.None? {
      return session;
    }
    var u := session.user.value;
    u.id := token.sub;
    var data: Option<Profile> := None;
    if token.sub.Some? {
      data := table.SelectById(token.sub.value);
    }
    if data.Some? && data.value.isBlocked {
      return AppSession(session.user, Some("Blocked"));
    }
    u.subscriptionStatus := Some(if data.Some? then data.value.subscriptionStatus else FREE);
    u.subscriptionEnd := Some(if data.Some? then data.value.subscriptionEnd else None);
    u.role := Some(if data.Some? then data.value.role else USER_ROLE);
    return session;
  }
}
