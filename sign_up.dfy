/** The three-step registration wizard of `src/pages/SignUp/SignUp.jsx`:
    personal details, company, password. A visitor coming back from the
    Google consent screen starts on the step the callback chose, with the
    staged profile copied into the form and no password to set. */
module SignUp {
  import opened Js
  import opened Json
  import opened BrowserStorage
  import opened AuthContext

  const GoogleUserDataKey := "googleUserData"
  const FirstnameRequired := "First name is required"
  const LastnameRequired := "Last name is required"
  const EmailRequired := "Email is required"
  const EmailInvalid := "Email is invalid"
  const CompanyRequired := "Company name is required"
  const PasswordRequired := "Password is required"
  const PasswordTooShort := "Password must be at least 6 characters"
  const PasswordsDiffer := "Passwords do not match"
  const AccountCreatedMessage := "Account created successfully! Please verify your email."
  const MinPasswordLength := 6
  const MissingSetErrorMessage := "setError is not a function"

  /** The input names of the form. */
  datatype Field = Firstname | Lastname | Email | CompanyName | Password | ConfirmPassword

  datatype FormData = FormData(
    firstname: string,
    lastname: string,
    email: string,
    companyName: string,
    password: string,
    confirmPassword: string)

  const EmptyForm := FormData("", "", "", "", "", "")

  /** `formData[name]`. */
  function Value(form: FormData, f: Field): string {
    match f
    case Firstname => form.firstname
    case Lastname => form.lastname
    case Email => form.email
    case CompanyName => form.companyName
    case Password => form.password
    case ConfirmPassword => form.confirmPassword
  }

  /** `{...formData, [name]: value}`: only the named field takes the value. */
  function WithValue(form: FormData, f: Field, v: string): (r: FormData)
    ensures forall g :: Value(r, g) == if g == f then v else Value(form, g)
  {
    match f
    case Firstname => form.(firstname := v)
    case Lastname => form.(lastname := v)
    case Email => form.(email := v)
    case CompanyName => form.(companyName := v)
    case Password => form.(password := v)
    case ConfirmPassword => form.(confirmPassword := v)
  }

  // ---------------------------------------------------------------------
  // The e-mail pattern /\S+@\S+\.\S+/, searched anywhere in the text
  // ---------------------------------------------------------------------

  /** A match with its `@` at `a` and its `.` at `d`: a visible character
      before the `@`, visible characters (at least one) between the `@` and
      the `.`, and a visible character after the `.`. Longer runs around the
      match change nothing, so this is the pattern's whole condition. */
  predicate MatchAt(s: string, a: int, d: int) {
    0 < a && a + 1 < d && d + 1 < |s| && s[a] == '@' && s[d] == '.' &&
    !IsSpace(s[a - 1]) && !IsSpace(s[d + 1]) && forall k :: a < k < d ==> !IsSpace(s[k])
  }

  /** `/\S+@\S+\.\S+/.test(s)`. */
  ghost predicate EmailShaped(s: string) {
    exists a, d :: MatchAt(s, a, d)
  }

  /** A `.` at `e` that closes a run of visible characters started at
      `start`, with a visible character after it. */
  predicate DotAt(s: string, start: int, e: int) {
    0 <= start < e && e + 1 < |s| && s[e] == '.' && !IsSpace(s[e + 1]) &&
    forall k :: start <= k < e ==> !IsSpace(s[k])
  }

  /** Scans the visible run from `d` on for a closing `.`. */
  function DotScan(s: string, start: nat, d: nat): bool
    decreases |s| - d
  {
    if d >= |s| || IsSpace(s[d]) then false
    else if s[d] == '.' && start < d && d + 1 < |s| && !IsSpace(s[d + 1]) then true
    else DotScan(s, start, d + 1)
  }

  /** Tries every `@` from position `a` on. */
  function EmailScan(s: string, a: nat): bool
    decreases |s| - a
  {
    if a >= |s| then false
    else (s[a] == '@' && a >= 1 && !IsSpace(s[a - 1]) && DotScan(s, a + 1, a + 1)) || EmailScan(s, a + 1)
  }

  /** The scan from `d` finds a closing `.` exactly when one exists at or
      after `d`. */
  lemma {:induction false} DotScanFinds(s: string, start: nat, d: nat)
    requires start <= d <= |s|
    requires forall k :: start <= k < d ==> !IsSpace(s[k])
    ensures DotScan(s, start, d) <==> exists e :: d <= e && DotAt(s, start, e)
    decreases |s| - d
  {
    if d >= |s| {
      forall e | d <= e ensures !DotAt(s, start, e) { }
    } else if IsSpace(s[d]) {
      forall e | d <= e ensures !DotAt(s, start, e) {
        assert DotAt(s, start, e) ==> start <= d < e;
      }
    } else if s[d] == '.' && start < d && d + 1 < |s| && !IsSpace(s[d + 1]) {
      assert DotAt(s, start, d);
    } else {
      DotScanFinds(s, start, d + 1);
      assert !DotAt(s, start, d);
      forall e | d <= e && DotAt(s, start, e) ensures d + 1 <= e { }
    }
  }

  /** The scan from `a` finds a match exactly when one has its `@` at or
      after `a`. */
  lemma {:induction false} EmailScanFinds(s: string, a: nat)
    ensures EmailScan(s, a) <==> exists b, d :: a <= b && MatchAt(s, b, d)
    decreases |s| - a
  {
    if a < |s| {
      EmailScanFinds(s, a + 1);
      DotScanFinds(s, a + 1, a + 1);
      if s[a] == '@' && a >= 1 && !IsSpace(s[a - 1]) && DotScan(s, a + 1, a + 1) {
        var e :| a + 1 <= e && DotAt(s, a + 1, e);
        assert MatchAt(s, a, e);
      }
      forall b, d | a <= b && MatchAt(s, b, d) ensures (b == a && DotAt(s, a + 1, d)) || a + 1 <= b { }
    } else {
      forall b, d | a <= b ensures !MatchAt(s, b, d) { }
    }
  }

  /** The test of the pattern, computed by scanning. */
  function EmailMatches(s: string): (r: bool)
    ensures r <==> EmailShaped(s)
  {
    EmailScanFinds(s, 0);
    EmailScan(s, 0)
  }

  // ---------------------------------------------------------------------
  // The validators
  // ---------------------------------------------------------------------

  /** `validateStep1`: each of first name, last name and e-mail is required
      once trimmed; a non-blank e-mail must contain a match of the pattern. */
  function ValidateStep1(form: FormData): (errors: map<Field, string>)
    ensures errors.Keys <= {Firstname, Lastname, Email}
    ensures Firstname in errors <==> Trim(form.firstname) == ""
    ensures Lastname in errors <==> Trim(form.lastname) == ""
    ensures Email in errors <==> Trim(form.email) == "" || !EmailShaped(form.email)
    ensures Firstname in errors ==> errors[Firstname] == FirstnameRequired
    ensures Lastname in errors ==> errors[Lastname] == LastnameRequired
    ensures Email in errors ==> errors[Email] == if Trim(form.email) == "" then EmailRequired else EmailInvalid
  {
    var e1: map<Field, string> := if Trim(form.firstname) == "" then map[Firstname := FirstnameRequired] else map[];
    var e2 := if Trim(form.lastname) == "" then e1[Lastname := LastnameRequired] else e1;
    if Trim(form.email) == "" then e2[Email := EmailRequired]
    else if !EmailMatches(form.email) then e2[Email := EmailInvalid]
    else e2
  }

  /** `validateStep2`: the company name is required once trimmed. */
  function ValidateStep2(form: FormData): (errors: map<Field, string>)
    ensures errors.Keys <= {CompanyName}
    ensures CompanyName in errors <==> Trim(form.companyName) == ""
    ensures CompanyName in errors ==> errors[CompanyName] == CompanyRequired
  {
    if Trim(form.companyName) == "" then map[CompanyName := CompanyRequired] else map[]
  }

  /** `validateStep3`: nothing to check for a Google sign-up; otherwise a
      missing or short password, and independently a confirmation that
      differs, are reported. */
  function ValidateStep3(form: FormData, fromGoogle: bool): (errors: map<Field, string>)
    ensures errors.Keys <= {Password, ConfirmPassword}
    ensures fromGoogle ==> errors == map[]
    ensures !fromGoogle ==> (Password in errors <==> |form.password| < MinPasswordLength)
    ensures !fromGoogle ==> (ConfirmPassword in errors <==> form.password != form.confirmPassword)
    ensures Password in errors ==> errors[Password] == if form.password == "" then PasswordRequired else PasswordTooShort
    ensures ConfirmPassword in errors ==> errors[ConfirmPassword] == PasswordsDiffer
  {
    if fromGoogle then map[]
    else
      var e1: map<Field, string> :=
        if form.password == "" then map[Password := PasswordRequired]
        else if |form.password| < MinPasswordLength then map[Password := PasswordTooShort]
        else map[];
      if form.password != form.confirmPassword then e1[ConfirmPassword := PasswordsDiffer] else e1
  }

  /** Step 1 passes exactly when the three fields hold visible text and the
      e-mail has the pattern's shape. */
  lemma Step1Passes(form: FormData)
    ensures ValidateStep1(form) == map[] <==>
      !IsBlank(form.firstname) && !IsBlank(form.lastname) && !IsBlank(form.email) && EmailShaped(form.email)
  {
    TrimEmptyIffBlank(form.firstname);
    TrimEmptyIffBlank(form.lastname);
    TrimEmptyIffBlank(form.email);
    var errors := ValidateStep1(form);
    if errors == map[] {
      assert Firstname !in errors && Lastname !in errors && Email !in errors;
    } else {
      var f :| f in errors;
      assert f == Firstname || f == Lastname || f == Email;
    }
  }

  /** Step 3 passes a password form exactly when the password has at least
      six characters and the confirmation repeats it. */
  lemma Step3Passes(form: FormData, fromGoogle: bool)
    ensures ValidateStep3(form, fromGoogle) == map[] <==>
      fromGoogle || (|form.password| >= MinPasswordLength && form.password == form.confirmPassword)
  {
    var errors := ValidateStep3(form, fromGoogle);
    if errors != map[] {
      var f :| f in errors;
    }
  }

  /** `formErrors[name]` is truthy. */
  predicate HasError(errors: map<Field, string>, f: Field) {
    f in errors && Truthy(errors[f])
  }

  /** The step the page renders: unknown steps render the first. */
  function RenderedStep(step: int): (r: int)
    ensures 1 <= r <= 3
    ensures 1 <= step <= 3 ==> r == step
    ensures !(1 <= step <= 3) ==> r == 1
  {
    if step == 1 || step == 2 || step == 3 then step else 1
  }

  /** `location.state?.googleStep || 1`. */
  function InitialStep(googleStep: Option<int>): (r: int)
    ensures googleStep.Some? && googleStep.value != 0 ==> r == googleStep.value
    ensures googleStep.None? || googleStep == Some(0) ==> r == 1
  {
    if googleStep.Some? && googleStep.value != 0 then googleStep.value else 1
  }

  /** The body of `POST /api/auth/signup`: the form without the
      confirmation, with the Google additions when they apply (a `None`
      property is left out of the request). */
  datatype SignupPayload = SignupPayload(
    firstname: string,
    lastname: string,
    email: string,
    companyName: string,
    password: string,
    fromGoogle: Option<bool>,
    googleId: Option<string>,
    picture: Option<string>)

  /** The stored profile as `JSON.parse(localStorage.getItem(...))` reads
      it: an absent key parses as `null`. */
  function StoredGoogleUser(items: map<string, string>, json: JsonCodec): Parsed<GoogleUserData> {
    if GoogleUserDataKey in items then json.parseGoogle(items[GoogleUserDataKey]) else Falsy
  }

  /** The form without its confirmation. */
  function PasswordForm(form: FormData): (r: SignupPayload)
    ensures r.firstname == form.firstname && r.lastname == form.lastname && r.email == form.email
    ensures r.companyName == form.companyName && r.password == form.password
    ensures r.fromGoogle.None? && r.googleId.None? && r.picture.None?
  {
    SignupPayload(form.firstname, form.lastname, form.email, form.companyName, form.password, None, None, None)
  }

  /** The form as the Google prefill leaves it: the three personal fields from
      the profile, each defaulting to the empty text. */
  function Prefilled(form: FormData, g: GoogleUserData): (r: FormData)
    ensures g.firstname.Some? ==> r.firstname == g.firstname.value
    ensures g.lastname.Some? ==> r.lastname == g.lastname.value
    ensures g.email.Some? ==> r.email == g.email.value
    ensures g.firstname.None? ==> r.firstname == ""
    ensures g.lastname.None? ==> r.lastname == ""
    ensures g.email.None? ==> r.email == ""
    ensures r.companyName == form.companyName && r.password == form.password
    ensures r.confirmPassword == form.confirmPassword
  {
    form.(firstname := OrEmpty(g.firstname), lastname := OrEmpty(g.lastname), email := OrEmpty(g.email))
  }

  /** Where the page navigates after a successful sign-up. */
  datatype Navigation = ToSignin(message: string)

  /** What mounting the page ends in: the page stays on screen, or an effect
      threw and, with no error boundary above it, React removed the whole
      tree. */
  datatype MountOutcome = Mounted | TreeUnmounted(message: string)

  class SignUpPage {
    const auth: AuthSession
    const fromGoogle: bool
    var currentStep: int
    var formData: FormData
    var formErrors: map<Field, string>
    var isSubmitting: bool
    var navigation: Option<Navigation>

    /** The page as the router mounts it, with the navigation state's
        `googleStep` and `fromGoogle`. */
    constructor (auth: AuthSession, googleStep: Option<int>, fromGoogleState: Option<bool>)
      ensures this.auth == auth
      ensures currentStep == InitialStep(googleStep)
      ensures fromGoogle <==> fromGoogleState == Some(true)
      ensures formData == EmptyForm && formErrors == map[] && !isSubmitting && navigation == None
    {
      this.auth := auth;
      fromGoogle := fromGoogleState == Some(true);
      currentStep := InitialStep(googleStep);
      formData := EmptyForm;
      formErrors := map[];
      isSubmitting := false;
      navigation := None;
    }

    /** The reset effect as written: it calls `setError`, which the auth
        context does not provide, so the call throws before anything is
        cleared. The error is uncaught and the tree is lost; an error left by
        an earlier page stays in the session. */
    method MountEffectAsWritten() returns (outcome: MountOutcome)
      ensures outcome == TreeUnmounted(MissingSetErrorMessage)
      ensures unchanged(auth)
    {
      outcome := TreeUnmounted(MissingSetErrorMessage);
    }

    /** The reset effect with a working `setError`: the session's error from
        an earlier page is cleared and nothing else changes. */
    method MountEffect() returns (outcome: MountOutcome)
      modifies auth
      ensures outcome == Mounted && auth.error == None
      ensures auth.currentUser == old(auth.currentUser) && auth.isAuthenticated == old(auth.isAuthenticated)
      ensures auth.isLoading == old(auth.isLoading) && auth.meFetchPending == old(auth.meFetchPending)
      ensures auth.isInGoogleSignupFlow == old(auth.isInGoogleSignupFlow)
    {
      auth.error := None;
      outcome := Mounted;
    }

    /** The Google prefill effect: a stored profile that parses fills the
        personal fields; an absent, falsy or malformed one changes nothing. */
    method LoadGooglePrefill()
      modifies this
      ensures fromGoogle && StoredGoogleUser(auth.storage.items, auth.json).Value? ==>
        formData == Prefilled(old(formData), StoredGoogleUser(auth.storage.items, auth.json).value)
      ensures !(fromGoogle && StoredGoogleUser(auth.storage.items, auth.json).Value?) ==> formData == old(formData)
      ensures currentStep == old(currentStep) && formErrors == old(formErrors)
      ensures isSubmitting == old(isSubmitting) && navigation == old(navigation)
    {
      if fromGoogle {
        var parsed := StoredGoogleUser(auth.storage.items, auth.json);
        if parsed.Value? {
          formData := Prefilled(formData, parsed.value);
        }
      }
    }

    /** `handleChange`: the named field takes the value, and that field's
        error, if set, is emptied; every other field and error stays. */
    method HandleChange(name: Field, value: string)
      modifies this
      ensures formData == WithValue(old(formData), name, value)
      ensures HasError(old(formErrors), name) ==> formErrors == old(formErrors)[name := ""]
      ensures !HasError(old(formErrors), name) ==> formErrors == old(formErrors)
      ensures currentStep == old(currentStep) && isSubmitting == old(isSubmitting) && navigation == old(navigation)
    {
      formData := WithValue(formData, name, value);
      if HasError(formErrors, name) {
        formErrors := formErrors[name := ""];
      }
    }

    /** `handleNextStep`, the `Continue` button of the first two rendered
        steps: the current step's validation errors block the move and are
        shown; otherwise the step goes up by one and the errors are cleared. */
    method HandleNextStep()
      requires RenderedStep(currentStep) == 1 || RenderedStep(currentStep) == 2
      modifies this
      ensures var errors := if old(currentStep) == 1 then ValidateStep1(old(formData))
                            else if old(currentStep) == 2 then ValidateStep2(old(formData)) else map[];
        (errors != map[] ==> formErrors == errors && currentStep == old(currentStep)) &&
        (errors == map[] ==> formErrors == map[] && currentStep == old(currentStep) + 1)
      ensures formData == old(formData) && isSubmitting == old(isSubmitting) && navigation == old(navigation)
    {
      var errors: map<Field, string> := map[];
      if currentStep == 1 {
        errors := ValidateStep1(formData);
      } else if currentStep == 2 {
        errors := ValidateStep2(formData);
      }
      if |errors| > 0 {
        formErrors := errors;
        return;
      }
      currentStep := currentStep + 1;
      formErrors := map[];
    }

    /** `handlePrevStep`, the `Back` button of the last two rendered steps:
        one step back, without validation, errors cleared. */
    method HandlePrevStep()
      requires RenderedStep(currentStep) == 2 || RenderedStep(currentStep) == 3
      modifies this
      ensures currentStep == old(currentStep) - 1 && formErrors == map[]
      ensures formData == old(formData) && isSubmitting == old(isSubmitting) && navigation == old(navigation)
    {
      currentStep := currentStep - 1;
      formErrors := map[];
    }

    /** `handleSubmit`, the form's submission while no request is in flight.
        Step 3 errors stop it. Otherwise the payload is the form without the
        confirmation; a Google sign-up adds `fromGoogle`, the profile's `sub`
        and `picture` when a profile is stored, and removes the profile; a
        stored profile that does not parse ends the attempt before the request.
        `sent` is the request body posted, if any. */
    method HandleSubmit(outcome: SignUpOutcome) returns (sent: Option<SignupPayload>)
      requires !isSubmitting
      modifies this, auth, auth.storage
      ensures !isSubmitting && currentStep == old(currentStep) && formData == old(formData)
      ensures ValidateStep3(old(formData), fromGoogle) != map[] ==>
        formErrors == ValidateStep3(old(formData), fromGoogle) && sent == None &&
        navigation == old(navigation) && auth.storage.items == old(auth.storage.items) && auth.error == old(auth.error)
      ensures ValidateStep3(old(formData), fromGoogle) == map[] ==> formErrors == old(formErrors)
      ensures ValidateStep3(old(formData), fromGoogle) == map[] && fromGoogle &&
              StoredGoogleUser(old(auth.storage.items), auth.json).Threw? ==>
        sent == None && navigation == old(navigation) &&
        auth.storage.items == old(auth.storage.items) && auth.error == old(auth.error)
      ensures ValidateStep3(old(formData), fromGoogle) == map[] && !fromGoogle ==>
        sent == Some(PasswordForm(old(formData))) && auth.storage.items == old(auth.storage.items)
      ensures ValidateStep3(old(formData), fromGoogle) == map[] && fromGoogle &&
              !StoredGoogleUser(old(auth.storage.items), auth.json).Threw? ==>
        auth.storage.items == old(auth.storage.items) - {GoogleUserDataKey} &&
        sent == Some(
          var p := PasswordForm(old(formData)).(fromGoogle := Some(true));
          var g := StoredGoogleUser(old(auth.storage.items), auth.json);
          if g.Value? then p.(googleId := g.value.sub, picture := g.value.picture) else p)
      ensures sent.Some? ==>
        (outcome.SignUpOk? ==> navigation == Some(ToSignin(AccountCreatedMessage)) && auth.error == None) &&
        (outcome.SignUpFailed? ==>
          navigation == old(navigation) && auth.error == Some(OrDefault(outcome.message, SignupFailedMessage)))
      ensures auth.currentUser == old(auth.currentUser) && auth.isAuthenticated == old(auth.isAuthenticated)
      ensures auth.isLoading == old(auth.isLoading) && auth.meFetchPending == old(auth.meFetchPending)
    {
      sent := None;
      var errors := ValidateStep3(formData, fromGoogle);
      if |errors| > 0 {
        formErrors := errors;
        return;
      }
      var payload := PasswordForm(formData);
      if fromGoogle {
        payload := payload.(fromGoogle := Some(true));
        var googleUser := StoredGoogleUser(auth.storage.items, auth.json);
        if googleUser.Threw? {
          return;
        }
        if googleUser.Value? {
          payload := payload.(googleId := googleUser.value.sub, picture := googleUser.value.picture);
        }
        auth.storage.RemoveItem(GoogleUserDataKey);
      }
      sent := Some(payload);
      var ok := auth.SignUp(outcome);
      if ok {
        navigation := Some(ToSignin(AccountCreatedMessage));
      }
    }
  }

  /** A visit to the sign-up page after a failed sign-in: as written the
      page's own effect takes the tree down and the old error is kept, while
      the effect with `setError` in place mounts the page with the error
      cleared. */
  method MissingSetErrorBlocksMount() returns (asWritten: MountOutcome, corrected: MountOutcome, errorAfter: Option<string>)
    ensures asWritten.TreeUnmounted? && asWritten.message == MissingSetErrorMessage
    ensures corrected == Mounted && errorAfter == None
  {
    var json := JsonCodec(u => "{}", t => Threw, g => "{}", t => Threw);
    var storage1 := new LocalStorage(map[]);
    var session1 := new AuthSession(storage1, json);
    session1.error := Some(SigninFailedMessage);
    var page1 := new SignUpPage(session1, None, None);
    asWritten := page1.MountEffectAsWritten();

    var storage2 := new LocalStorage(map[]);
    var session2 := new AuthSession(storage2, json);
    session2.error := Some(SigninFailedMessage);
    var page2 := new SignUpPage(session2, None, None);
    corrected := page2.MountEffect();
    errorAfter := session2.error;
  }
}
