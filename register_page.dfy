/**
 * The two-step registration form (`src/pages/RegisterPage.tsx`): step 1 asks
 * for the credentials, step 2 for the profile, step 3 is the confirmation
 * screen. The sign-up call is a parameter (the error it reports, if any) and
 * the method returns the request it would send.
 */
module Register {
  import opened Wrappers
  import Text

  datatype FormData = FormData(
    email: string, password: string, confirmPassword: string,
    username: string, fullName: string, phone: string, country: string)

  /** The countries the country select offers, in order. */
  const Countries: seq<string> := ["Uganda", "Kenya", "Tanzania", "Rwanda", "Congo", "Burundi"]

  const InitialForm := FormData("", "", "", "", "", "", "Uganda")

  /** The keys `handleInputChange` is called with (`full_name` is `FullName`). */
  datatype Field = Email | Password | ConfirmPassword | Username | FullName | Phone | Country

  function Get(f: FormData, field: Field): string
  {
    match field
    case Email => f.email
    case Password => f.password
    case ConfirmPassword => f.confirmPassword
    case Username => f.username
    case FullName => f.fullName
    case Phone => f.phone
    case Country => f.country
  }

  /** `{ ...prev, [field]: value }`: the one field takes the value, the others keep theirs. */
  function With(f: FormData, field: Field, value: string): (r: FormData)
    ensures Get(r, field) == value
    ensures forall other :: other != field ==> Get(r, other) == Get(f, other)
  {
    match field
    case Email => f.(email := value)
    case Password => f.(password := value)
    case ConfirmPassword => f.(confirmPassword := value)
    case Username => f.(username := value)
    case FullName => f.(fullName := value)
    case Phone => f.(phone := value)
    case Country => f.(country := value)
  }

  /** The inputs each step renders; only these can fire `handleInputChange`. */
  function Shown(step: int): (r: set<Field>)
    ensures step == 1 ==> r == {Email, Password, ConfirmPassword}
    ensures step == 2 ==> r == {Username, FullName, Phone, Country}
    ensures step != 1 && step != 2 ==> r == {}
  {
    if step == 1 then {Email, Password, ConfirmPassword}
    else if step == 2 then {Username, FullName, Phone, Country}
    else {}
  }

  const FillInAllFields := "Please fill in all fields"
  const PasswordTooShort := "Password must be at least 6 characters"
  const PasswordMismatch := "Passwords do not match"
  const SignUpFailed := "Failed to create account"

  predicate CredentialsPresent(f: FormData)
  {
    f.email != "" && f.password != "" && f.confirmPassword != ""
  }

  /**
   * The message `validateStep1` shows, if any: a missing field first, then a
   * password shorter than six characters, then a confirmation that differs.
   */
  function Step1Error(f: FormData): (r: Option<string>)
    ensures r == Some(FillInAllFields) <==> !CredentialsPresent(f)
    ensures r == Some(PasswordTooShort) <==> CredentialsPresent(f) && |f.password| < 6
    ensures r == Some(PasswordMismatch) <==>
      CredentialsPresent(f) && |f.password| >= 6 && f.password != f.confirmPassword
    ensures r.None? <==> CredentialsPresent(f) && |f.password| >= 6 && f.password == f.confirmPassword
  {
    if !CredentialsPresent(f) then Some(FillInAllFields)
    else if |f.password| < 6 then Some(PasswordTooShort)
    else if f.password != f.confirmPassword then Some(PasswordMismatch)
    else None
  }

  /** The message `validateStep2` shows, if any: username, full name and phone are required; the country is not checked. */
  function Step2Error(f: FormData): (r: Option<string>)
    ensures r.None? <==> f.username != "" && f.fullName != "" && f.phone != ""
    ensures r.Some? ==> r.value == FillInAllFields
  {
    if f.username == "" || f.fullName == "" || f.phone == "" then Some(FillInAllFields) else None
  }

  /** Editing a profile field never changes whether the credentials pass. */
  lemma Step1IgnoresProfile(f: FormData, field: Field, value: string)
    requires field in Shown(2)
    ensures Step1Error(With(f, field, value)) == Step1Error(f)
  {
    var g := With(f, field, value);
    assert Get(g, Email) == f.email && Get(g, Password) == f.password && Get(g, ConfirmPassword) == f.confirmPassword;
  }

  /** Editing a credential field never changes whether the profile passes. */
  lemma Step2IgnoresCredentials(f: FormData, field: Field, value: string)
    requires field in Shown(1)
    ensures Step2Error(With(f, field, value)) == Step2Error(f)
  {
    var g := With(f, field, value);
    assert Get(g, Username) == f.username && Get(g, FullName) == f.fullName && Get(g, Phone) == f.phone;
  }

  /** The empty form is stopped at step 1 with the missing-field message. */
  lemma EmptyFormIsIncomplete()
    ensures Step1Error(InitialForm) == Some(FillInAllFields)
    ensures Step2Error(InitialForm) == Some(FillInAllFields)
  {
  }

  /** A five-character password that matches its confirmation is still refused. */
  lemma FiveCharacterPasswordIsTooShort(email: string)
    requires email != ""
    ensures Step1Error(InitialForm.(email := email, password := "abcde", confirmPassword := "abcde"))
      == Some(PasswordTooShort)
  {
    var f := InitialForm.(email := email, password := "abcde", confirmPassword := "abcde");
    assert |f.password| == 5;
  }

  /** What `signUp` is called with: the credentials and the profile metadata. */
  datatype SignUpRequest = SignUpRequest(
    email: string, password: string,
    username: string, fullName: string, phone: string, country: string)

  class RegisterPage {
    var step: int
    var formData: FormData
    var error: string

    /**
     * Step 2 is only reached with credentials that pass, step 3 only after a
     * sign-up with a profile that passes too, and the country is always one
     * the select offers.
     */
    predicate Valid()
      reads this
    {
      && (step == 1 || step == 2 || step == 3)
      && (step >= 2 ==> Step1Error(formData).None?)
      && (step == 3 ==> Step2Error(formData).None?)
      && formData.country in Countries
    }

    constructor ()
      ensures Valid()
      ensures step == 1 && formData == InitialForm && error == ""
    {
      step := 1;
      formData := InitialForm;
      error := "";
    }

    /**
     * `handleInputChange`, fired by one of the inputs the current step
     * renders; the country comes from the select, so it is one of its options.
     */
    method HandleInputChange(field: Field, value: string)
      requires Valid()
      requires field in Shown(step)
      requires field == Country ==> value in Countries
      modifies this`formData, this`error
      ensures Valid()
      ensures formData == With(old(formData), field, value)
      ensures error == ""
    {
      if field in Shown(2) {
        Step1IgnoresProfile(formData, field, value);
      }
      formData := With(formData, field, value);
      error := "";
    }

    /** `validateStep1`: reports whether the credentials pass and shows the first problem. */
    method ValidateStep1() returns (ok: bool)
      modifies this`error
      ensures ok <==> Step1Error(formData).None?
      ensures !ok ==> error == Step1Error(formData).value
      ensures ok ==> error == old(error)
    {
      if formData.email == "" || formData.password == "" || formData.confirmPassword == "" {
        error := FillInAllFields;
        return false;
      }
      if |formData.password| < 6 {
        error := PasswordTooShort;
        return false;
      }
      if formData.password != formData.confirmPassword {
        error := PasswordMismatch;
        return false;
      }
      return true;
    }

    /** `validateStep2`: reports whether the profile passes and shows the message otherwise. */
    method ValidateStep2() returns (ok: bool)
      modifies this`error
      ensures ok <==> Step2Error(formData).None?
      ensures !ok ==> error == FillInAllFields
      ensures ok ==> error == old(error)
    {
      if formData.username == "" || formData.fullName == "" || formData.phone == "" {
        error := FillInAllFields;
        return false;
      }
      return true;
    }

    /** `handleNextStep`: on step 1, move to step 2 when the credentials pass; otherwise nothing is validated. */
    method NextStep()
      requires Valid()
      modifies this`step, this`error
      ensures Valid()
      ensures old(step) == 1 && Step1Error(formData).None? ==> step == 2 && error == old(error)
      ensures old(step) == 1 && Step1Error(formData).Some? ==> step == 1 && error == Step1Error(formData).value
      ensures old(step) != 1 ==> step == old(step) && error == old(error)
    {
      if step == 1 {
        var ok := ValidateStep1();
        if ok {
          step := 2;
        }
      }
    }

    /**
     * `handleSubmit` on step 2, given the error the sign-up reports: nothing
     * is sent unless the profile passes; a request always carries data that
     * passes both steps; success shows step 3, failure the reported message.
     */
    method Submit(signUpError: Option<string>) returns (request: Option<SignUpRequest>)
      requires Valid()
      requires step == 2
      modifies this`step, this`error
      ensures Valid()
      ensures Step2Error(formData).Some? ==> request.None? && step == 2 && error == FillInAllFields
      ensures Step2Error(formData).None? ==>
        && request == Some(SignUpRequest(formData.email, formData.password,
                                         formData.username, formData.fullName, formData.phone, formData.country))
        && (signUpError.None? ==> step == 3 && error == "")
        && (signUpError.Some? ==> step == 2 && error == Text.OrElse(signUpError.value, SignUpFailed))
      ensures request.Some? ==> Step1Error(formData).None? && Step2Error(formData).None?
      ensures request.Some? ==> request.value.country in Countries
    {
      request := None;
      var ok := ValidateStep2();
      if !ok {
        return;
      }
      error := "";
      request := Some(SignUpRequest(formData.email, formData.password,
                                    formData.username, formData.fullName, formData.phone, formData.country));
      if signUpError.None? {
        step := 3;
      } else {
        error := Text.OrElse(signUpError.value, SignUpFailed);
      }
    }

    /** The Back button of step 2. */
    method Back()
      requires Valid()
      modifies this`step
      ensures Valid()
      ensures step == 1
    {
      step := 1;
    }
  }
}
