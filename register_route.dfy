/**
 * Email/password registration (src/app/api/register/route.ts): `GET` refuses, `POST`
 * validates the email against `^[^\s@]+@[^\s@]+\.[^\s@]+$` and the password length,
 * creates the account, then inserts the profile row with its role.
 * The validation and error mapping are shared with src/app/register/actions.ts.
 */
module RegisterRoute {
  import opened Wrappers
  import opened Strings
  import opened Profiles

  const DEFAULT_ADMIN_EMAIL := "admin@example.com"
  const MIN_PASSWORD_LENGTH := 8

  /** A request field: absent, a string, or some other JSON value. */
  datatype Field = Absent | Text(s: string) | NonText

  /** `typeof raw === "string" ? raw.trim().toLowerCase() : ""`. */
  function NormalizeEmailField(raw: Field): string {
    if raw.Text? then ToLower(Trim(raw.s)) else ""
  }

  /** `[^\s@]+` without the `+`: no white space and no `@`. */
  predicate Plain(t: string) {
    forall i :: 0 <= i < |t| ==> !IsSpace(t[i]) && t[i] != '@'
  }

  /** `EMAIL_REGEX.test(s)`, written out: a plain local part, `@`, a plain domain with a `.` neither first nor last. */
  ghost predicate MatchesEmailRegex(s: string) {
    exists at, dot ::
      && 0 < at && at + 1 < dot && dot + 1 < |s|
      && s[at] == '@' && s[dot] == '.'
      && Plain(s[..at]) && Plain(s[at + 1..dot]) && Plain(s[dot + 1..])
  }

  /** The test as computed: split at the first `@`, then look for a `.` strictly inside the domain. */
  predicate IsValidEmail(s: string) {
    match IndexOf(s, '@')
    case None => false
    case Some(at) =>
      var domain := s[at + 1..];
      at > 0 && Plain(s[..at]) && Plain(domain) && |domain| >= 3 && '.' in domain[1..|domain| - 1]
  }

  lemma PlainSlice(t: string, i: nat, j: nat)
    requires Plain(t) && i <= j <= |t|
    ensures Plain(t[i..j])
  {
    assert forall k :: 0 <= k < j - i ==> t[i..j][k] == t[i + k];
  }

  lemma ValidEmailMatches(s: string)
    requires IsValidEmail(s)
    ensures MatchesEmailRegex(s)
  {
    var at := IndexOf(s, '@').value;
    var domain := s[at + 1..];
    var inner := domain[1..|domain| - 1];
    var k :| 0 <= k < |inner| && inner[k] == '.';
    var dot := at + 2 + k;
    assert s[dot] == '.';
    PlainSlice(domain, 0, k + 1);
    assert s[at + 1..dot] == domain[..k + 1];
    PlainSlice(domain, k + 2, |domain|);
    assert s[dot + 1..] == domain[k + 2..];
    assert 0 < at && at + 1 < dot && dot + 1 < |s|;
    assert s[at] == '@' && Plain(s[..at]) && Plain(s[at + 1..dot]) && Plain(s[dot + 1..]);
  }

  lemma FirstAt(s: string, at: nat)
    requires at < |s| && s[at] == '@' && Plain(s[..at])
    ensures IndexOf(s, '@') == Some(at)
  {
    assert '@' !in s[..at] by {
      assert forall i :: 0 <= i < at ==> s[..at][i] != '@';
    }
    assert '@' in s;
  }

  lemma PlainJoin(s: string, lo: nat, dot: nat)
    requires lo <= dot < |s| && s[dot] == '.'
    requires Plain(s[lo..dot]) && Plain(s[dot + 1..])
    ensures Plain(s[lo..])
  {
    forall i | 0 <= i < |s| - lo
      ensures !IsSpace(s[lo..][i]) && s[lo..][i] != '@'
    {
      if lo + i < dot {
        assert s[lo..][i] == s[lo..dot][i];
      } else if lo + i > dot {
        assert s[lo..][i] == s[dot + 1..][i - (dot + 1 - lo)];
      }
    }
  }

  lemma MatchIsValidEmail(s: string)
    requires MatchesEmailRegex(s)
    ensures IsValidEmail(s)
  {
    var at, dot :| && 0 < at && at + 1 < dot && dot + 1 < |s|
                   && s[at] == '@' && s[dot] == '.'
                   && Plain(s[..at]) && Plain(s[at + 1..dot]) && Plain(s[dot + 1..]);
    WitnessIsValidEmail(s, at, dot);
  }

  lemma WitnessIsValidEmail(s: string, at: nat, dot: nat)
    requires 0 < at && at + 1 < dot && dot + 1 < |s| && s[at] == '@' && s[dot] == '.'
    requires Plain(s[..at]) && Plain(s[at + 1..dot]) && Plain(s[dot + 1..])
    ensures IsValidEmail(s)
  {
    FirstAt(s, at);
    PlainJoin(s, at + 1, dot);
    var domain := s[at + 1..];
    var inner := domain[1..|domain| - 1];
    assert inner[dot - at - 2] == '.';
    assert '.' in inner;
  }

  /** The computed check accepts exactly the strings the regular expression matches. */
  lemma EmailRegexIff(s: string)
    ensures IsValidEmail(s) <==> MatchesEmailRegex(s)
  {
    if IsValidEmail(s) {
      ValidEmailMatches(s);
    }
    if MatchesEmailRegex(s) {
      MatchIsValidEmail(s);
    }
  }

  /** `password.length`: the string's length in UTF-16 code units. */
  function Utf16Length(s: string): (n: nat)
    ensures n >= |s|
  {
    if s == [] then 0 else (if s[0] as int > 0xFFFF then 2 else 1) + Utf16Length(s[1..])
  }

  /** `typeof password === "string" && password.length >= 8`. */
  predicate PasswordOk(password: Field) {
    password.Text? && Utf16Length(password.s) >= MIN_PASSWORD_LENGTH
  }

  datatype Validation = Valid(email: string, password: string) | BadEmail | BadPassword

  /** The two checks, email first: a bad email is reported whatever the password. */
  function Validate(rawEmail: Field, password: Field): (v: Validation)
    ensures v.BadEmail? <==> !IsValidEmail(NormalizeEmailField(rawEmail))
    ensures v.BadPassword? <==> IsValidEmail(NormalizeEmailField(rawEmail)) && !PasswordOk(password)
    ensures v.Valid? ==> v.email == NormalizeEmailField(rawEmail) && v.email != "" && password == Text(v.password)
  {
    var email := NormalizeEmailField(rawEmail);
    if email == "" || !IsValidEmail(email) then BadEmail
    else if !PasswordOk(password) then BadPassword
    else Valid(email, password.s)
  }

  /** The sign-up call's outcome: an error with its optional message, or the created user's optional id. */
  datatype SignUpOutcome = SignUpError(message: Option<string>) | SignedUp(userId: Option<string>)

  /** `message?.includes("already registered") || message?.toLowerCase().includes("already exists")`. */
  predicate IsDuplicateSignUp(message: Option<string>) {
    message.Some? && (Contains(message.value, "already registered") || Contains(ToLower(message.value), "already exists"))
  }

  /** `email === ADMIN_EMAIL.toLowerCase() ? "admin" : "user"`: the whole variable, not a comma-separated list. */
  function RegisterRole(email: string, adminEnv: Option<string>): (role: string)
    ensures role == "admin" <==> email == ToLower(Or(adminEnv, DEFAULT_ADMIN_EMAIL))
    ensures role == "admin" || role == "user"
  {
    if email == ToLower(Or(adminEnv, DEFAULT_ADMIN_EMAIL)) then "admin" else "user"
  }

  datatype RegisterReply =
    | MethodNotAllowed405
    | InvalidEmail400
    | ShortPassword400
    | AlreadyRegistered409
    | ServerError500(error: string)
    | Registered                       // `{ ok: true }`

  /** `GET`. */
  function RegisterGet(): (r: RegisterReply)
    ensures r == MethodNotAllowed405
  {
    MethodNotAllowed405
  }

  /** The two fields of the parsed body, or the error `request.json()` (or destructuring a `null` body) throws. */
  datatype RequestBody = Unreadable(error: string) | RegisterBody(email: Field, password: Field)

  /** What happens after the checks: a reply, or the profile row to insert. */
  datatype Step = Reply(reply: RegisterReply) | InsertRow(id: string, email: string, role: string)

  /** The decision up to the insert, given the sign-up's outcome. */
  function PostStep(body: RequestBody, adminEnv: Option<string>, signUp: SignUpOutcome): (st: Step)
    requires body.RegisterBody?
    ensures !IsValidEmail(NormalizeEmailField(body.email)) ==> st == Reply(InvalidEmail400)
    ensures IsValidEmail(NormalizeEmailField(body.email)) && !PasswordOk(body.password) ==> st == Reply(ShortPassword400)
    ensures st.InsertRow? ==>
              && Validate(body.email, body.password).Valid?
              && st.email == Validate(body.email, body.password).email
              && signUp == SignedUp(Some(st.id)) && st.id != ""
              && st.role == RegisterRole(st.email, adminEnv)
    ensures Validate(body.email, body.password).Valid? && signUp.SignUpError? ==>
              st == Reply(if IsDuplicateSignUp(signUp.message) then AlreadyRegistered409
                          else ServerError500(Or(signUp.message, "Ошибка создания пользователя.")))
    ensures Validate(body.email, body.password).Valid? && signUp.SignedUp? && !Truthy(signUp.userId) ==>
              st == Reply(ServerError500("Не удалось создать пользователя."))
    ensures Validate(body.email, body.password).Valid? && signUp.SignedUp? && Truthy(signUp.userId) ==> st.InsertRow?
  {
    match Validate(body.email, body.password)
    case BadEmail => Reply(InvalidEmail400)
    case BadPassword => Reply(ShortPassword400)
    case Valid(email, _) =>
      match signUp
      case SignUpError(message) =>
        if IsDuplicateSignUp(message) then Reply(AlreadyRegistered409)
        else Reply(ServerError500(Or(message, "Ошибка создания пользователя.")))
      case SignedUp(id) =>
        if !Truthy(id) then Reply(ServerError500("Не удалось создать пользователя."))
        else InsertRow(id.value, email, RegisterRole(email, adminEnv))
  }

  /**
   * `POST`. `signUp` is what the account service answers, `insertFault` the message of an
   * insert failure other than a unique violation (`Some("")` for one without a message).
   * Also returns the sign-up request made, if any.
   */
  method RegisterPost(table: ProfileTable, body: RequestBody, adminEnv: Option<string>,
                      signUp: SignUpOutcome, insertFault: Option<string>)
    returns (reply: RegisterReply, request: Option<(string, string)>)
    modifies table
    ensures body.Unreadable? ==> reply == ServerError500(body.error) && request.None? && table.rows == old(table.rows)
    ensures body.RegisterBody? ==> (request.Some? <==> Validate(body.email, body.password).Valid?)
    ensures request.Some? ==> request.value == (Validate(body.email, body.password).email,
                                                Validate(body.email, body.password).password)
    ensures body.RegisterBody? && PostStep(body, adminEnv, signUp).Reply? ==>
              reply == PostStep(body, adminEnv, signUp).reply && table.rows == old(table.rows)
    ensures body.RegisterBody? && PostStep(body, adminEnv, signUp).InsertRow? ==>
              var st := PostStep(body, adminEnv, signUp);
              if insertFault.Some? then
                reply == ServerError500(Or(insertFault, "Ошибка создания профиля.")) && table.rows == old(table.rows)
              else
                && reply == Registered
                && (st.id in old(table.rows) || IdsWithEmail(old(table.rows), st.email) != {} ==> table.rows == old(table.rows))
                && (st.id !in old(table.rows) && IdsWithEmail(old(table.rows), st.email) == {} ==>
                      table.rows == old(table.rows)[st.id := NewProfile(st.email, st.role)])
    ensures old(table.Valid()) ==> table.Valid()
  {
    request := None;
    if body.Unreadable? {
      return ServerError500(body.error), None;
    }
    var email, pw;
    match Validate(body.email, body.password) {
      case BadEmail => return InvalidEmail400, None;
      case BadPassword => return ShortPassword400, None;
      case Valid(e, p) => email, pw := e, p;
    }
    request := Some((email, pw));
    if signUp.SignUpError? {
      if IsDuplicateSignUp(signUp.message) {
        return AlreadyRegistered409, request;
      }
      return ServerError500(Or(signUp.message, "Ошибка создания пользователя.")), request;
    }
    var id := signUp.userId;
    if !Truthy(id) {
      return ServerError500("Не удалось создать пользователя."), request;
    }
    var role := RegisterRole(email, adminEnv);
    if insertFault.Some? {
      return ServerError500(Or(insertFault, "Ошибка создания профиля.")), request;
    }
    // a unique violation (`23505`) answers `{ ok: true }` like a fresh insert
    InsertProfile(table, id.value, email, role);
    return Registered, request;
  }

  /** The profile insert; a row that already exists (a unique violation) leaves the table as it was. */
  method InsertProfile(table: ProfileTable, id: string, email: string, role: string)
    modifies table
    ensures id in old(table.rows) || IdsWithEmail(old(table.rows), email) != {} ==> table.rows == old(table.rows)
    ensures id !in old(table.rows) && IdsWithEmail(old(table.rows), email) == {} ==>
              table.rows == old(table.rows)[id := NewProfile(email, role)]
    ensures old(table.Valid()) ==> table.Valid()
  {
    var err := table.Insert(id, email, role);
  }
}
