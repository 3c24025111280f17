/**
 * The sign-up form: its validation (a chain of checks of which the first
 * failing one is reported), the `userData` it submits, and the way
 * `registerUser` and `authAPI.signUp` then build the request body.
 */
module SignUpScreen {
  import opened Wrappers
  import opened Ascii
  import DrugSpeakApi
  import AuthSlice

  datatype SignUpForm = SignUpForm(username: string, email: string, password: string, gender: string)

  /** The error reported by an alert, in the order the checks run. */
  datatype SignUpError = UsernameEmpty | EmailEmpty | EmailInvalid | PasswordEmpty | PasswordShort | GenderMissing

  function Message(e: SignUpError): string {
    match e
    case UsernameEmpty => "Username should not be empty"
    case EmailEmpty => "Email should not be empty"
    case EmailInvalid => "Please enter a valid email address"
    case PasswordEmpty => "Password should not be empty"
    case PasswordShort => "Password must be at least 6 characters"
    case GenderMissing => "Please select a gender"
  }

  /** Every check alerts with its own message, so the user can tell which one failed. */
  lemma MessagesIdentifyChecks(e1: SignUpError, e2: SignUpError)
    requires e1 != e2
    ensures Message(e1) != Message(e2)
  {
  }

  const MinPasswordLength := 6

  /** Characters of the class `[^\s@]`. */
  predicate PlainRun(s: string) {
    forall k | 0 <= k < |s| :: !IsSpace(s[k]) && s[k] != '@'
  }

  /** `/^[^\s@]+@[^\s@]+\.[^\s@]+$/.test(s)`: three non-empty plain runs around an `@` and a `.`. */
  predicate MatchesEmailPattern(s: string) {
    exists i, j | 0 < i < |s| && i + 1 < j < |s| - 1 ::
      s[i] == '@' && s[j] == '.' && PlainRun(s[..i]) && PlainRun(s[i + 1..j]) && PlainRun(s[j + 1..])
  }

  /** The shape the pattern accepts, said without the pattern. */
  predicate EmailShaped(s: string) {
    && (forall k | 0 <= k < |s| :: !IsSpace(s[k]))
    && exists i | 0 < i < |s| ::
         && s[i] == '@'
         && (forall k | 0 <= k < |s| && k != i :: s[k] != '@')
         && exists j | i + 1 < j < |s| - 1 :: s[j] == '.'
  }

  /**
   * Accepted e-mails have no white space, exactly one `@` after a non-empty
   * local part, and a `.` in the domain that is neither its first nor its last
   * character; and every such string is accepted.
   */
  lemma EmailPatternShape(s: string)
    ensures MatchesEmailPattern(s) <==> EmailShaped(s)
  {
    if MatchesEmailPattern(s) {
      PatternHasShape(s);
    }
    if EmailShaped(s) {
      ShapeMatchesPattern(s);
    }
  }

  lemma PatternHasShape(s: string)
    requires MatchesEmailPattern(s)
    ensures EmailShaped(s)
  {
    var i, j :| 0 < i < |s| && i + 1 < j < |s| - 1 && s[i] == '@' && s[j] == '.'
      && PlainRun(s[..i]) && PlainRun(s[i + 1..j]) && PlainRun(s[j + 1..]);
    forall k | 0 <= k < |s| && k != i ensures !IsSpace(s[k]) && s[k] != '@' {
      if k < i {
        assert s[..i][k] == s[k];
      } else if k < j {
        assert s[i + 1..j][k - i - 1] == s[k];
      } else if k > j {
        assert s[j + 1..][k - j - 1] == s[k];
      }
    }
  }

  lemma ShapeMatchesPattern(s: string)
    requires EmailShaped(s)
    ensures MatchesEmailPattern(s)
  {
    var i :| 0 < i < |s| && s[i] == '@' && (forall k | 0 <= k < |s| && k != i :: s[k] != '@')
      && exists j | i + 1 < j < |s| - 1 :: s[j] == '.';
    var j :| i + 1 < j < |s| - 1 && s[j] == '.';
    PlainSlice(s, 0, i);
    PlainSlice(s, i + 1, j);
    PlainSlice(s, j + 1, |s|);
  }

  lemma PlainSlice(s: string, a: int, b: int)
    requires 0 <= a <= b <= |s|
    requires forall k | a <= k < b :: !IsSpace(s[k]) && s[k] != '@'
    ensures PlainRun(s[a..b])
  {
  }

  datatype Validation = Valid | Invalid(error: SignUpError)

  /** `validateForm`: the checks in source order; the first that fails is the one reported. */
  function ValidateForm(f: SignUpForm): Validation {
    if Trim(f.username) == "" then Invalid(UsernameEmpty)
    else if Trim(f.email) == "" then Invalid(EmailEmpty)
    else if !MatchesEmailPattern(Trim(f.email)) then Invalid(EmailInvalid)
    else if f.password == "" then Invalid(PasswordEmpty)
    else if |f.password| < MinPasswordLength then Invalid(PasswordShort)
    else if f.gender == "" then Invalid(GenderMissing)
    else Valid
  }

  /** Each error is reported exactly when all earlier checks pass and its own fails; valid means all six pass. */
  lemma ChecksRunInOrder(f: SignUpForm)
    ensures var r := ValidateForm(f);
      && (r == Invalid(UsernameEmpty) <==> Trim(f.username) == "")
      && (r == Invalid(EmailEmpty) <==> Trim(f.username) != "" && Trim(f.email) == "")
      && (r == Invalid(EmailInvalid) <==>
            Trim(f.username) != "" && Trim(f.email) != "" && !MatchesEmailPattern(Trim(f.email)))
      && (r == Invalid(PasswordEmpty) <==>
            Trim(f.username) != "" && MatchesEmailPattern(Trim(f.email)) && f.password == "")
      && (r == Invalid(PasswordShort) <==>
            Trim(f.username) != "" && MatchesEmailPattern(Trim(f.email)) && 0 < |f.password| < MinPasswordLength)
      && (r == Invalid(GenderMissing) <==>
            Trim(f.username) != "" && MatchesEmailPattern(Trim(f.email))
            && |f.password| >= MinPasswordLength && f.gender == "")
      && (r == Valid <==>
            Trim(f.username) != "" && Trim(f.email) != "" && MatchesEmailPattern(Trim(f.email))
            && f.password != "" && |f.password| >= MinPasswordLength && f.gender != "")
  {
    if Trim(f.email) == "" {
      assert !MatchesEmailPattern(Trim(f.email));
    }
  }

  /**
   * The password is not trimmed: a password of six or more spaces, which
   * `trim` would reduce to nothing, passes both password checks.
   */
  lemma SpacesArePassword(f: SignUpForm)
    requires AllSpace(f.password) && |f.password| >= MinPasswordLength
    ensures Trim(f.password) == ""
    ensures ValidateForm(f) != Invalid(PasswordEmpty) && ValidateForm(f) != Invalid(PasswordShort)
    ensures ValidateForm(f) == Valid <==> Trim(f.username) != "" && MatchesEmailPattern(Trim(f.email)) && f.gender != ""
  {
    ChecksRunInOrder(f);
  }

  /** `userData` of `handleSubmit`. */
  datatype UserData = UserData(username: string, email: string, password: string, gender: string)

  /** `handleSubmit`: nothing is dispatched when validation fails. */
  function Submit(f: SignUpForm): (r: Option<UserData>)
    ensures r.None? <==> ValidateForm(f) != Valid
    ensures r.Some? ==> && r.value.username == Trim(f.username) && Trimmed(r.value.username)
                        && r.value.email == NormalizeEmail(f.email)
                        && r.value.password == f.password && r.value.gender == f.gender
  {
    if ValidateForm(f) != Valid then None
    else Some(UserData(Trim(f.username), NormalizeEmail(f.email), f.password, f.gender))
  }

  /** The body posted to `/users` for a submitted form. */
  function PostedBody(d: UserData): DrugSpeakApi.SignUpBody {
    DrugSpeakApi.SignUpPayload(AuthSlice.RegisterRequest(d.username, d.email, d.password, Some(d.gender)))
  }

  /**
   * Along the whole sign-up path the e-mail is trimmed and lower-cased twice,
   * which equals doing it once; the gender is never defaulted, since a valid
   * form has one; the password arrives as typed.
   */
  lemma SignUpPathNormalisesOnce(f: SignUpForm)
    requires Submit(f).Some?
    ensures var b := PostedBody(Submit(f).value);
      && b.username == Trim(f.username)
      && b.email == NormalizeEmail(f.email)
      && b.password == f.password
      && b.gender == f.gender
  {
    ChecksRunInOrder(f);
    TrimIdempotent(f.username);
    NormalizeEmailIdempotent(f.email);
  }

  /** `handleClear` sets all four fields to "". */
  const ClearedForm := SignUpForm("", "", "", "")

  /** A cleared form is rejected at the first check, so it cannot be submitted. */
  lemma ClearedFormIsRejected()
    ensures ValidateForm(ClearedForm) == Invalid(UsernameEmpty)
    ensures Submit(ClearedForm) == None
  {
    assert ValidateForm(ClearedForm) == Invalid(UsernameEmpty);
  }
}
