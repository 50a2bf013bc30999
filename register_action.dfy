/**
 * The registration server action (src/app/register/actions.ts): the same validation,
 * sign-up and profile insert as the route, answered as `{ ok }` results.
 */
module RegisterAction {
  import opened Wrappers
  import opened Strings
  import opened Profiles
  import opened RegisterRoute

  /** `RegisterResult`. */
  datatype RegisterResult = Ok | Failed(error: string)

  const INVALID_EMAIL_ERROR := "Введите корректный email."
  const DUPLICATE_ERROR := "Пользователь с таким email уже зарегистрирован."

  /**
   * `registerUser`. `rawEmail`/`password` are the form's fields, `signUp` the account
   * service's answer, `insertFault` an insert failure other than a unique violation.
   * Also returns the sign-up request made, if any.
   */
  method RegisterUser(table: ProfileTable, rawEmail: Field, password: Field, adminEnv: Option<string>,
                      signUp: SignUpOutcome, insertFault: Option<string>)
    returns (result: RegisterResult, request: Option<(string, string)>)
    modifies table
    ensures Validate(rawEmail, password).BadEmail? ==> result == Failed(INVALID_EMAIL_ERROR)
    ensures !Validate(rawEmail, password).Valid? ==> result.Failed? && request.None? && table.rows == old(table.rows)
    ensures Validate(rawEmail, password).Valid? ==>
              request == Some((Validate(rawEmail, password).email, Validate(rawEmail, password).password))
    ensures Validate(rawEmail, password).Valid? && signUp.SignUpError? ==>
              && result == Failed(if IsDuplicateSignUp(signUp.message) then DUPLICATE_ERROR
                                  else Or(signUp.message, "Ошибка создания пользователя."))
              && table.rows == old(table.rows)
    ensures result == Ok <==>
              && Validate(rawEmail, password).Valid?
              && signUp.SignedUp? && Truthy(signUp.userId)
              && insertFault.None?
    ensures result == Ok ==>
              var id := signUp.userId.value;
              var email := Validate(rawEmail, password).email;
              && (id !in old(table.rows) && IdsWithEmail(old(table.rows), email) == {} ==>
                    table.rows == old(table.rows)[id := NewProfile(email, RegisterRole(email, adminEnv))])
              && (id in old(table.rows) || IdsWithEmail(old(table.rows), email) != {} ==> table.rows == old(table.rows))
    ensures result != Ok ==> table.rows == old(table.rows)
    ensures old(table.Valid()) ==> table.Valid()
  {
    request := None;
    var email, pw;
    match Validate(rawEmail, password) {
      case BadEmail => return Failed(INVALID_EMAIL_ERROR), None;
      case BadPassword => return Failed("Пароль должен быть не менее 8 символов."), None;
      case Valid(e, p) => email, pw := e, p;
    }
    request := Some((email, pw));
    if signUp.SignUpError? {
      if IsDuplicateSignUp(signUp.message) {
        return Failed(DUPLICATE_ERROR), request;
      }
      return Failed(Or(signUp.message, "Ошибка создания пользователя.")), request;
    }
    var id := signUp.userId;
    if !Truthy(id) {
      return Failed("Не удалось создать пользователя."), request;
    }
    var role := RegisterRole(email, adminEnv);
    if insertFault.Some? {
      return Failed(Or(insertFault, "Ошибка создания профиля.")), request;
    }
    // `profileError.code === "23505"`: the row already exists, which counts as success
    InsertProfile(table, id.value, email, role);
    return Ok, request;
  }

  /** The action and the route agree: the action succeeds exactly when the route answers `{ ok: true }`. */
  lemma ActionAgreesWithRoute(rawEmail: Field, password: Field, adminEnv: Option<string>,
                              signUp: SignUpOutcome, insertFault: Option<string>)
    ensures var st := PostStep(RegisterBody(rawEmail, password), adminEnv, signUp);
            (Validate(rawEmail, password).Valid? && signUp.SignedUp? && Truthy(signUp.userId) && insertFault.None?)
            <==> (st.InsertRow? && insertFault.None?)
  {
  }
}
