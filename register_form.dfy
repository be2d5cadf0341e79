/**
 * The donor app's two-step registration form: the checks of each step,
 * the step change and the guard in front of the registration call.
 */
module RegisterFormPage {
  import opened Common
  import opened Text

  datatype RegisterForm = RegisterForm(name: string, email: string, phone: string, password: string,
                                       confirmPassword: string, role: string,
                                       organizationName: string, organizationType: string)

  // ---------------------------------------------------------------- email pattern

  /** What `/\S+@\S+\.\S+/.test(s)` asks, written out: somewhere in `s` an
      `@` at `a` with a non-space before it, and a `.` at `b` past it, with
      only non-space from `a` to one past `b`, and something between. */
  predicate EmailWitness(s: string, a: int, b: int) {
    && 1 <= a && a + 1 < b && b + 1 < |s|
    && s[a] == '@' && s[b] == '.'
    && !IsWhitespace(s[a - 1]) && !IsWhitespace(s[b + 1])
    && forall i :: a < i < b ==> !IsWhitespace(s[i])
  }

  ghost predicate EmailPattern(s: string) {
    exists a, b :: EmailWitness(s, a, b)
  }

  /** The length of the run of non-space characters of `s` from `i`. */
  function RunLength(s: string, i: nat): (n: nat)
    requires i <= |s|
    ensures i + n <= |s|
    ensures forall k :: i <= k < i + n ==> !IsWhitespace(s[k])
    ensures i + n == |s| || IsWhitespace(s[i + n])
    decreases |s| - i
  {
    if i < |s| && !IsWhitespace(s[i]) then 1 + RunLength(s, i + 1) else 0
  }

  /** The pattern matches with its `@` at `a`: the run after the `@` holds a
      `.` that is neither its first nor its last character. */
  predicate MatchAt(s: string, a: nat) {
    && 1 <= a < |s| && s[a] == '@' && !IsWhitespace(s[a - 1])
    && RunLength(s, a + 1) >= 2
    && '.' in s[a + 2 .. a + RunLength(s, a + 1)]
  }

  /** The pattern tried at each position from `a` on, as a regular
      expression engine does. */
  predicate EmailScan(s: string, a: nat)
    decreases |s| - a
  {
    a < |s| && (MatchAt(s, a) || EmailScan(s, a + 1))
  }

  lemma MatchAtIff(s: string, a: nat)
    ensures MatchAt(s, a) <==> exists b :: EmailWitness(s, a, b)
  {
    if MatchAt(s, a) {
      var n := RunLength(s, a + 1);
      var j :| 0 <= j < |s[a + 2 .. a + n]| && s[a + 2 .. a + n][j] == '.';
      assert s[a + 2 + j] == '.';
      assert EmailWitness(s, a, a + 2 + j);
    }
    if b :| EmailWitness(s, a, b) {
      var n := RunLength(s, a + 1);
      assert s[a + 2 .. a + n][b - a - 2] == '.';
    }
  }

  lemma {:induction false} EmailScanIff(s: string, a: nat)
    requires a >= 1
    ensures EmailScan(s, a) <==> exists i, b :: a <= i && EmailWitness(s, i, b)
    decreases |s| - a
  {
    if a < |s| {
      EmailScanIff(s, a + 1);
      MatchAtIff(s, a);
      if i, b :| a <= i && EmailWitness(s, i, b) {
        if i > a {
          assert a + 1 <= i && EmailWitness(s, i, b);
        }
      }
    }
  }

  /** The scan from the start decides the pattern, both ways. */
  lemma EmailCheckDecides(s: string)
    ensures EmailScan(s, 1) <==> EmailPattern(s)
  {
    EmailScanIff(s, 1);
  }

  // ---------------------------------------------------------------- steps

  /** `validateStep1`: the message of the first failing check, in order:
      name, email, email pattern, phone, phone length. Blankness is judged
      after trimming, the length on the phone as typed. */
  function Step1Error(f: RegisterForm): (e: Option<string>)
    ensures e == Some("Name is required") <==> Trim(f.name) == ""
    ensures e == Some("Email is required") <==> Trim(f.name) != "" && Trim(f.email) == ""
    ensures e == Some("Please enter a valid email") <==>
      Trim(f.name) != "" && Trim(f.email) != "" && !EmailPattern(f.email)
    ensures e == Some("Phone number is required") <==>
      Trim(f.name) != "" && Trim(f.email) != "" && EmailPattern(f.email) && Trim(f.phone) == ""
    ensures e == Some("Please enter a valid phone number") <==>
      Trim(f.name) != "" && Trim(f.email) != "" && EmailPattern(f.email) && Trim(f.phone) != "" && |f.phone| < 10
    ensures e.None? <==>
      Trim(f.name) != "" && Trim(f.email) != "" && EmailPattern(f.email) && Trim(f.phone) != "" && |f.phone| >= 10
  {
    EmailCheckDecides(f.email);
    if Trim(f.name) == "" then Some("Name is required")
    else if Trim(f.email) == "" then Some("Email is required")
    else if !EmailScan(f.email, 1) then Some("Please enter a valid email")
    else if Trim(f.phone) == "" then Some("Phone number is required")
    else if |f.phone| < 10 then Some("Please enter a valid phone number")
    else None
  }

  /** The length check counts the phone as typed: any phone that is not
      blank and has ten characters passes, surrounding spaces included. */
  lemma PhoneLengthUntrimmed(f: RegisterForm)
    requires Trim(f.name) != "" && Trim(f.email) != "" && EmailPattern(f.email)
    requires !IsBlank(f.phone) && |f.phone| >= 10
    ensures Step1Error(f).None?
  {
    TrimEmptyIffBlank(f.phone);
  }

  /** `validateStep2`: the length of the password is checked before the
      confirmation. */
  function Step2Error(f: RegisterForm): (e: Option<string>)
    ensures e == Some("Password must be at least 6 characters") <==> |f.password| < 6
    ensures e == Some("Passwords do not match") <==> |f.password| >= 6 && f.password != f.confirmPassword
    ensures e.None? <==> |f.password| >= 6 && f.password == f.confirmPassword
  {
    if |f.password| < 6 then Some("Password must be at least 6 characters")
    else if f.password != f.confirmPassword then Some("Passwords do not match")
    else None
  }

  /** The component's step and the error banner's text (empty when none). */
  datatype Screen = Screen(step: int, validationError: string)

  /** `handleNext`: step 1 moves to step 2 when its data is valid, and
      shows the first error otherwise; on any other step nothing happens. */
  function Next(sc: Screen, f: RegisterForm): (r: Screen)
    ensures r.step == 2 <==> (sc.step == 1 && Step1Error(f).None?) || sc.step == 2
    ensures sc.step != 1 ==> r == sc
    ensures sc.step == 1 && Step1Error(f).Some? ==> r == Screen(1, Step1Error(f).value)
  {
    if sc.step == 1 then
      match Step1Error(f)
      case None => sc.(step := 2)
      case Some(msg) => sc.(validationError := msg)
    else sc
  }

  /** What the submit handler passes to `registerUser`. */
  datatype RegisterRequest = RegisterRequest(email: string, password: string, name: string, phone: string,
                                             role: string, organizationName: string, organizationType: string)

  /** `handleSubmit`: registration is dispatched exactly when step 2 is
      valid, with the form's fields; otherwise the error is shown. */
  function Submit(sc: Screen, f: RegisterForm): (r: (Screen, Option<RegisterRequest>))
    ensures r.1.Some? <==> Step2Error(f).None?
    ensures r.1.Some? ==>
      && r.0 == sc && r.1.value.email == f.email && r.1.value.password == f.password
      && r.1.value.name == f.name && r.1.value.phone == f.phone && r.1.value.role == f.role
      && r.1.value.organizationName == f.organizationName && r.1.value.organizationType == f.organizationType
    ensures r.1.None? ==> r.0 == sc.(validationError := Step2Error(f).value)
  {
    match Step2Error(f)
    case Some(msg) => (sc.(validationError := msg), None)
    case None =>
      (sc, Some(RegisterRequest(f.email, f.password, f.name, f.phone, f.role,
                                f.organizationName, f.organizationType)))
  }

  /** Submit does not look at step 1: only `handleNext` does. */
  lemma SubmitIgnoresStep1(sc: Screen, f: RegisterForm)
    requires Step2Error(f).None? && Trim(f.name) == ""
    ensures Submit(sc, f).1.Some? && Step1Error(f).Some?
  {
  }
}
