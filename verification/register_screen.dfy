/** The registration form: the e-mail pattern, the order in which the inputs
    are checked, the messages shown for sign-up errors, and the two documents
    written for a new account. */
module RegisterScreen {
  import opened Common
  import opened Text
  import opened Store
  import UserService
  import opened Images

  // ---- validateEmail: /^[^\s@]+@[^\s@]+\.[^\s@]+$/ ----

  /** A character of the class `[^\s@]`. */
  predicate Plain(c: char) {
    !IsSpace(c) && c != '@'
  }

  /** What the pattern describes: one `@` after a non-empty prefix, a `.` in the
      part after it with at least one character on each side, and otherwise
      only characters of `[^\s@]`. */
  ghost predicate EmailShape(s: string) {
    exists at, dot | 0 < at && at + 1 < dot < |s| - 1 ::
      s[at] == '@' && s[dot] == '.' && forall k | 0 <= k < |s| && k != at :: Plain(s[k])
  }

  /** The position of the first `c` in `s`. */
  function IndexOf(s: string, c: char): (r: Option<nat>)
    ensures r.None? <==> c !in s
    ensures r.Some? ==> r.value < |s| && s[r.value] == c && c !in s[..r.value]
  {
    if s == [] then None
    else if s[0] == c then Some(0)
    else
      match IndexOf(s[1..], c)
      case None => None
      case Some(i) =>
        assert s[..i + 1] == [s[0]] + s[1..][..i];
        Some(i + 1)
  }

  /** `validateEmail`: the pattern matcher, scanning for the first `@`. */
  function ValidateEmail(s: string): bool {
    match IndexOf(s, '@')
    case None => false
    case Some(at) =>
      && 0 < at && at + 4 <= |s|
      && (forall k | 0 <= k < |s| && k != at :: Plain(s[k]))
      && '.' in s[at + 2..|s| - 1]
  }

  /** The matcher accepts exactly the strings of the pattern. */
  lemma ValidateEmailSound(s: string)
    ensures ValidateEmail(s) <==> EmailShape(s)
  {
    if ValidateEmail(s) {
      var at := IndexOf(s, '@').value;
      var j :| 0 <= j < |s[at + 2..|s| - 1]| && s[at + 2..|s| - 1][j] == '.';
      assert s[at + 2 + j] == '.';
    }
    if EmailShape(s) {
      var at, dot :| 0 < at && at + 1 < dot < |s| - 1 &&
        s[at] == '@' && s[dot] == '.' && forall k | 0 <= k < |s| && k != at :: Plain(s[k]);
      assert '@' in s;
      var first := IndexOf(s, '@').value;
      assert first == at;
      assert s[at + 2..|s| - 1][dot - at - 2] == '.';
    }
  }

  /** Examples of the pattern at its edges. */
  lemma ValidateEmailExamples()
    ensures ValidateEmail("a@b.c")
    ensures !ValidateEmail("a@b.")
    ensures !ValidateEmail("a b@c.d")
  {
    assert IndexOf("a@b.c", '@') == Some(1) by {
      assert "a@b.c"[1..] == "@b.c";
    }
    assert "a@b.c"[3..4] == ".";
    assert !Plain("a b@c.d"[1]);
  }

  // ---- getErrorMessage ----

  const GenericError := "An error occurred. Please try again"

  function GetErrorMessage(code: string): (msg: string)
    ensures code == "auth/invalid-email" ==> msg == "Invalid email address"
    ensures code == "auth/email-already-in-use" ==> msg == "An account with this email already exists"
    ensures code == "auth/weak-password" ==> msg == "Password is too weak. Please use at least 6 characters"
    ensures code == "auth/network-request-failed" ==> msg == "Network error. Please check your connection"
    ensures msg == GenericError <==>
      code !in {"auth/invalid-email", "auth/email-already-in-use", "auth/weak-password", "auth/network-request-failed"}
  {
    match code
    case "auth/invalid-email" => "Invalid email address"
    case "auth/email-already-in-use" => "An account with this email already exists"
    case "auth/weak-password" => "Password is too weak. Please use at least 6 characters"
    case "auth/network-request-failed" => "Network error. Please check your connection"
    case _ => GenericError
  }

  /** The message for a caught error: `getErrorMessage(error.code || 'auth/unknown-error')`. */
  function ErrorMessageOf(e: StoreError): string {
    GetErrorMessage(OrElse(e.code, "auth/unknown-error"))
  }

  /** An error without a code, and any error of the document store, shows the generic message. */
  lemma MissingCodeIsGeneric(e: StoreError)
    ensures e.code == "" ==> ErrorMessageOf(e) == GenericError
    ensures e.code == "permission-denied" || e.code == "not-found" || e.code == "invalid-argument" ==>
      ErrorMessageOf(e) == GenericError
  {
  }

  // ---- the validation chain of handleRegister ----

  datatype RegisterInput = RegisterInput(fullName: string, email: string, password: string, confirmPassword: string)

  /** The five checks of `handleRegister`, in the order they run. */
  datatype Check = FieldsMissing | NameTooShort | EmailInvalid | PasswordTooShort | PasswordsDiffer

  function Message(c: Check): string {
    match c
    case FieldsMissing => "Please fill in all fields"
    case NameTooShort => "Please enter your full name"
    case EmailInvalid => "Please enter a valid email address"
    case PasswordTooShort => "Password must be at least 6 characters"
    case PasswordsDiffer => "Passwords do not match"
  }

  /** The first check that fails; `None` when all pass. */
  function ValidationError(in_: RegisterInput): Option<Check> {
    if in_.fullName == "" || in_.email == "" || in_.password == "" || in_.confirmPassword == "" then
      Some(FieldsMissing)
    else if |Trim(in_.fullName)| < 2 then Some(NameTooShort)
    else if !ValidateEmail(in_.email) then Some(EmailInvalid)
    else if |in_.password| < 6 then Some(PasswordTooShort)
    else if in_.password != in_.confirmPassword then Some(PasswordsDiffer)
    else None
  }

  ghost predicate FieldsFilled(in_: RegisterInput) {
    in_.fullName != "" && in_.email != "" && in_.password != "" && in_.confirmPassword != ""
  }

  /** Each check fails exactly when every earlier check passes and its own
      condition is violated; the form passes exactly when all five hold. */
  lemma ValidationOrder(in_: RegisterInput)
    ensures ValidationError(in_) == Some(FieldsMissing) <==> !FieldsFilled(in_)
    ensures ValidationError(in_) == Some(NameTooShort) <==>
      FieldsFilled(in_) && |Trim(in_.fullName)| < 2
    ensures ValidationError(in_) == Some(EmailInvalid) <==>
      FieldsFilled(in_) && |Trim(in_.fullName)| >= 2 && !EmailShape(in_.email)
    ensures ValidationError(in_) == Some(PasswordTooShort) <==>
      FieldsFilled(in_) && |Trim(in_.fullName)| >= 2 && EmailShape(in_.email) && |in_.password| < 6
    ensures ValidationError(in_) == Some(PasswordsDiffer) <==>
      FieldsFilled(in_) && |Trim(in_.fullName)| >= 2 && EmailShape(in_.email) && |in_.password| >= 6 &&
      in_.password != in_.confirmPassword
    ensures ValidationError(in_) == None <==>
      FieldsFilled(in_) && |Trim(in_.fullName)| >= 2 && EmailShape(in_.email) && |in_.password| >= 6 &&
      in_.password == in_.confirmPassword
  {
    ValidateEmailSound(in_.email);
  }

  /** A name of blanks passes the first check and fails the second. */
  lemma BlankNameRejected(email: string, password: string)
    requires email != "" && password != ""
    ensures ValidationError(RegisterInput("   ", email, password, password)) == Some(NameTooShort)
  {
    assert Blank("   ");
  }

  // ---- the documents written for a new account ----

  /** The account Firebase Auth creates: its uid and the e-mail it stored. */
  datatype Account = Account(uid: string, email: Option<string>)

  function NewUserDoc(a: Account, fullName: string, role: Role, createdAt: string): (d: UserDoc)
    ensures d.id == a.uid && d.email == a.email && d.role == role && d.createdAt == createdAt
    ensures d.fullName == Trim(fullName) && Trimmed(d.fullName)
    ensures d.isPublic && d.avatar == DefaultAvatarUrl(a.uid)
  {
    UserDoc(a.uid, a.email, Trim(fullName), role, createdAt, true, DefaultAvatarUrl(a.uid))
  }

  function NewRoleDoc(role: Role): (d: RoleDoc)
    ensures d.bio == "" && d.skills == [] && d.location == "" && d.experience == "" && d.education == ""
    ensures d.languages == [] && d.availability == "anytime"
    ensures d.hourlyRate.Some? <==> role == Mentor
    ensures d.hourlyRate.Some? ==> d.hourlyRate.value == 0
  {
    RoleDoc("", [], "", "", "", [], if role == Mentor then Some(0) else None, "anytime")
  }

  /** The whole of `handleRegister` on values: the new store, the error shown
      and the navigation performed. */
  function RegisterF(in_: RegisterInput, role: Role, s: DbState, f: Faults,
                     auth: Result<Account>, createdAt: string): (DbState, Option<string>, seq<Effect>) {
    match ValidationError(in_)
    case Some(c) => (s, Some(Message(c)), [])
    case None =>
      match auth
      case Err(e) => (s, Some(ErrorMessageOf(e)), [])
      case Ok(a) => SignedUpF(in_.fullName, role, s, f, a, createdAt)
  }

  /** The part of `handleRegister` after the account exists: both documents, then Main. */
  function SignedUpF(fullName: string, role: Role, s: DbState, f: Faults,
                     a: Account, createdAt: string): (DbState, Option<string>, seq<Effect>) {
    var (s1, st) := UserService.CreateUserDocumentsF(s, f, a.uid, NewUserDoc(a, fullName, role, createdAt), NewRoleDoc(role));
    if st.Thrown? then (s1, Some(ErrorMessageOf(st.error)), []) else (s1, None, [Replace("Main")])
  }

  /** The writes of `handleRegister` once the account exists. */
  method SignUp(db: Firestore, fullName: string, role: Role, a: Account, createdAt: string)
    returns (err: Option<string>, fx: seq<Effect>)
    modifies db
    ensures (db.State(), err, fx) == SignedUpF(fullName, role, old(db.State()), db.faults, a, createdAt)
  {
    var st := UserService.CreateUserDocuments(db, a.uid, NewUserDoc(a, fullName, role, createdAt), NewRoleDoc(role));
    if st.Thrown? {
      err, fx := Some(ErrorMessageOf(st.error)), [];
    } else {
      err, fx := None, [Replace("Main")];
    }
  }

  /** The state of the registration form. */
  class RegisterForm {
    /** The four input hooks of the screen, held together. */
    var inputs: RegisterInput
    var error: Option<string>
    var isLoading: bool
    var effects: seq<Effect>
    const role: Role

    /** The route parameter `role`, `'mentee'` when none is given; all inputs empty. */
    constructor(roleParam: Option<Role>)
      ensures role == (if roleParam.Some? then roleParam.value else Mentee)
      ensures inputs == RegisterInput("", "", "", "")
      ensures error == None && !isLoading && effects == []
    {
      role := if roleParam.Some? then roleParam.value else Mentee;
      inputs := RegisterInput("", "", "", "");
      error, isLoading, effects := None, false, [];
    }

    /** `handleRegister`. `auth` is what `createUserWithEmailAndPassword(email.trim(), password)`
        answers and `createdAt` is `new Date().toISOString()`. */
    method HandleRegister(db: Firestore, auth: Result<Account>, createdAt: string)
      modifies this, db
      ensures inputs == old(inputs)
      ensures var (s1, err, fx) := RegisterF(old(inputs), role, old(db.State()), db.faults, auth, createdAt);
              db.State() == s1 && error == err && effects == old(effects) + fx
      ensures isLoading == (if ValidationError(old(inputs)).Some? then old(isLoading) else false)
    {
      var input := inputs;
      error := None;
      var v := ValidationError(input);
      if v.Some? {
        error := Some(Message(v.value));
        return;
      }
      isLoading := true;
      if auth.Err? {
        error := Some(ErrorMessageOf(auth.error));
        isLoading := false;
        return;
      }
      var a := auth.value;
      var err, fx := SignUp(db, input.fullName, role, a, createdAt);
      error := err;
      effects := effects + fx;
      isLoading := false;
    }
  }

  /** A form that fails a check writes nothing, shows that check's message and does not navigate. */
  lemma RejectedFormWritesNothing(in_: RegisterInput, role: Role, s: DbState, f: Faults,
                                  auth: Result<Account>, createdAt: string)
    requires ValidationError(in_).Some?
    ensures RegisterF(in_, role, s, f, auth, createdAt) == (s, Some(Message(ValidationError(in_).value)), [])
  {
  }

  /** With both writes allowed, a valid form stores the profile under the new uid,
      the empty role document in the collection of its role, and goes to Main. */
  lemma RegisterSucceeds(in_: RegisterInput, role: Role, s: DbState, f: Faults, a: Account, createdAt: string)
    requires ValidationError(in_).None?
    requires UserService.UserWrite(s, a.uid) !in f && UserService.RoleWrite(s, role, a.uid) !in f
    ensures var (s1, err, fx) := RegisterF(in_, role, s, f, Ok(a), createdAt);
            && err.None? && fx == [Replace("Main")]
            && s1.users == s.users[a.uid := NewUserDoc(a, in_.fullName, role, createdAt)]
            && RoleDocs(s1, role) == RoleDocs(s, role)[a.uid := NewRoleDoc(role)]
            && RoleDocs(s1, UserService.OppositeOf(role)) == RoleDocs(s, UserService.OppositeOf(role))
  {
    UserService.CreateUserDocumentsSpec(s, f, a.uid, NewUserDoc(a, in_.fullName, role, createdAt), NewRoleDoc(role));
  }

  /** A refused sign-up writes nothing and shows the message for its code. */
  lemma SignUpFailureWritesNothing(in_: RegisterInput, role: Role, s: DbState, f: Faults, e: StoreError, createdAt: string)
    requires ValidationError(in_).None?
    ensures RegisterF(in_, role, s, f, Err(e), createdAt) == (s, Some(ErrorMessageOf(e)), [])
  {
  }
}
