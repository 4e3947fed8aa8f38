/** The user schemas' validation rules: the role enumeration, the password
    rule and the length bounds of the create and update payloads. E-mail
    syntax is a parameter (`IsEmail`). */
module UserModel {
  import opened Common

  /** `UserRole`: role-based access control. */
  datatype UserRole = Admin | Doctor | Nurse | Receptionist

  /** The value each role is stored and sent as. */
  function RoleValue(r: UserRole): string {
    match r
    case Admin => "admin"
    case Doctor => "doctor"
    case Nurse => "nurse"
    case Receptionist => "receptionist"
  }

  /** `UserRole(s)`: the role with that value, if any. */
  function ParseRole(s: string): (r: Option<UserRole>)
    ensures r.Some? ==> RoleValue(r.value) == s
  {
    if s == "admin" then Some(Admin)
    else if s == "doctor" then Some(Doctor)
    else if s == "nurse" then Some(Nurse)
    else if s == "receptionist" then Some(Receptionist)
    else None
  }

  /** Every role reads back from its value, so the four values are
      distinct and they are the only ones accepted. */
  lemma RoleValuesRoundTrip(r: UserRole)
    ensures ParseRole(RoleValue(r)) == Some(r)
  {
    match r
    case Admin =>
    case Doctor =>
      assert RoleValue(r)[0] != "admin"[0];
    case Nurse =>
      assert RoleValue(r)[0] != "admin"[0] && RoleValue(r)[0] != "doctor"[0];
    case Receptionist =>
      assert RoleValue(r)[0] != "admin"[0] && RoleValue(r)[0] != "doctor"[0] && RoleValue(r)[0] != "nurse"[0];
  }

  /** New users are doctors unless a role is given. */
  const DefaultRole: UserRole := Doctor

  const DigitMessage: string := "Password must contain at least one digit"
  const UpperMessage: string := "Password must contain at least one uppercase letter"
  const LowerMessage: string := "Password must contain at least one lowercase letter"

  predicate HasDigit(v: string) { exists i | 0 <= i < |v| :: IsDigitChar(v[i]) }
  predicate HasUpper(v: string) { exists i | 0 <= i < |v| :: IsUpperChar(v[i]) }
  predicate HasLower(v: string) { exists i | 0 <= i < |v| :: IsLowerChar(v[i]) }

  /** `UserCreate.validate_password`: the digit check first, then the
      upper-case check, then the lower-case check; a password passing all
      three is returned unchanged. */
  function ValidatePassword(v: string): (r: Result<string>)
    ensures r.Ok? <==> HasDigit(v) && HasUpper(v) && HasLower(v)
    ensures r.Ok? ==> r.value == v
    ensures !HasDigit(v) ==> r == Err(DigitMessage)
    ensures HasDigit(v) && !HasUpper(v) ==> r == Err(UpperMessage)
    ensures HasDigit(v) && HasUpper(v) && !HasLower(v) ==> r == Err(LowerMessage)
  {
    if !HasDigit(v) then Err(DigitMessage)
    else if !HasUpper(v) then Err(UpperMessage)
    else if !HasLower(v) then Err(LowerMessage)
    else Ok(v)
  }

  /** Adding characters never makes a valid password invalid. */
  lemma ValidPasswordExtends(v: string, w: string)
    requires ValidatePassword(v).Ok?
    ensures ValidatePassword(v + w).Ok? && ValidatePassword(w + v).Ok?
  {
    var a :| 0 <= a < |v| && IsDigitChar(v[a]);
    var b :| 0 <= b < |v| && IsUpperChar(v[b]);
    var c :| 0 <= c < |v| && IsLowerChar(v[c]);
    assert (v + w)[a] == v[a] && (v + w)[b] == v[b] && (v + w)[c] == v[c];
    assert (w + v)[|w| + a] == v[a] && (w + v)[|w| + b] == v[b] && (w + v)[|w| + c] == v[c];
  }

  /** A password of letters only fails on the digit rule, whatever its
      case. */
  lemma LettersOnlyFailOnDigit(v: string)
    requires forall i :: 0 <= i < |v| ==> IsLetter(v[i])
    ensures ValidatePassword(v) == Err(DigitMessage)
  {
  }

  /** The reasons a payload is rejected. */
  datatype FieldError =
    | UsernameLength
    | InvalidEmail
    | FullNameLength
    | PasswordLength
    | PasswordRule(message: string)

  const MinUsername: nat := 3
  const MaxUsername: nat := 50
  const MaxFullName: nat := 100
  const MinPassword: nat := 8
  const MaxPassword: nat := 100

  /** E-mail address syntax, as `EmailStr` checks it. */
  type IsEmail = string -> bool

  /** The errors validating a `UserCreate` payload reports, field by field
      in declaration order. The password rule only runs once the length
      constraint holds. */
  function UserCreateErrors(username: string, email: string, fullName: Option<string>, password: string, isEmail: IsEmail): (errs: seq<FieldError>)
    ensures errs == [] <==>
      MinUsername <= |username| <= MaxUsername && isEmail(email) &&
      (fullName.None? || |fullName.value| <= MaxFullName) &&
      MinPassword <= |password| <= MaxPassword &&
      HasDigit(password) && HasUpper(password) && HasLower(password)
  {
    (if MinUsername <= |username| <= MaxUsername then [] else [UsernameLength]) +
    (if isEmail(email) then [] else [InvalidEmail]) +
    (if fullName.None? || |fullName.value| <= MaxFullName then [] else [FullNameLength]) +
    (if !(MinPassword <= |password| <= MaxPassword) then [PasswordLength]
     else match ValidatePassword(password)
          case Ok(_) => []
          case Err(m) => [PasswordRule(m)])
  }

  /** A password outside 8..100 characters is reported for its length,
      never for its content. */
  lemma PasswordLengthFirst(username: string, email: string, fullName: Option<string>, password: string, isEmail: IsEmail)
    requires |password| < MinPassword || |password| > MaxPassword
    ensures PasswordLength in UserCreateErrors(username, email, fullName, password, isEmail)
    ensures forall m :: PasswordRule(m) !in UserCreateErrors(username, email, fullName, password, isEmail)
  {
  }

  /** The errors validating a `UserUpdate` payload reports: every field is
      optional, but a given full name must have 1..100 characters. */
  function UserUpdateErrors(email: Option<string>, fullName: Option<string>, isEmail: IsEmail): (errs: seq<FieldError>)
    ensures errs == [] <==>
      (email.None? || isEmail(email.value)) &&
      (fullName.None? || 1 <= |fullName.value| <= MaxFullName)
  {
    (if email.None? || isEmail(email.value) then [] else [InvalidEmail]) +
    (if fullName.None? || 1 <= |fullName.value| <= MaxFullName then [] else [FullNameLength])
  }

  /** An empty full name is accepted when creating a user but rejected when
      updating one. */
  lemma EmptyFullNameOnlyOnCreate(username: string, email: string, password: string, isEmail: IsEmail)
    requires UserCreateErrors(username, email, None, password, isEmail) == []
    ensures UserCreateErrors(username, email, Some(""), password, isEmail) == []
    ensures FullNameLength in UserUpdateErrors(None, Some(""), isEmail)
  {
  }
}
