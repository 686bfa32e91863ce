/**
 * The registration form of app/auth/signup/page.tsx: the checks made before
 * anything is sent, the request built from the form, and the page state
 * (`error`, `isLoading`) around the call to the authentication context's
 * `register`.  `Number(text)` is a parameter, since its string grammar is
 * not modelled; navigation to the profile page is the `redirect` result.
 */
module SignupPage {
  import opened Js
  import opened Text
  import Achievements
  import opened AuthContext

  /** The form fields, each as typed. */
  datatype SignupForm = SignupForm(
    name: string, email: string, password: string, confirmPassword: string, role: string,
    location: string, specialization: string, experience: string, achievements: string,
    profilePicture: string)

  const NameRequired := "Full name is required"
  const EmailRequired := "Email is required"
  const PasswordTooShort := "Password must be at least 4 characters long"
  const PasswordMismatch := "Passwords do not match"

  /** `Number(formData.experience || 0)`: an empty field counts as 0. */
  function ExperienceOf(f: SignupForm, toNumber: string -> JsNumber): JsNumber {
    if f.experience == "" then Finite(0.0) else toNumber(f.experience)
  }

  predicate ExperienceOk(n: JsNumber) {
    n.Finite? && n.v >= 0.0
  }

  /** The checks before the role-specific ones: name and e-mail after trimming, then the untrimmed password. */
  predicate AccountOk(f: SignupForm) {
    Trim(f.name) != "" && Trim(f.email) != "" && |f.password| >= 4 && f.password == f.confirmPassword
  }

  /** The doctor-only checks: a specialization after trimming and a finite, non-negative experience. */
  predicate DoctorOk(f: SignupForm, toNumber: string -> JsNumber) {
    Trim(f.specialization) != "" && ExperienceOk(ExperienceOf(f, toNumber))
  }

  /** `validateForm`: the message of the first failing check, or `None` when every check passes. */
  function ValidateForm(f: SignupForm, toNumber: string -> JsNumber): (r: Option<string>)
    ensures r.None? <==>
      AccountOk(f) && f.role != "" && Trim(f.location) != "" && (f.role == "doctor" ==> DoctorOk(f, toNumber))
    ensures r == Some(NameRequired) <==> Trim(f.name) == ""
    ensures r == Some(EmailRequired) <==> Trim(f.name) != "" && Trim(f.email) == ""
    ensures r == Some(PasswordTooShort) <==> Trim(f.name) != "" && Trim(f.email) != "" && |f.password| < 4
    ensures r == Some(PasswordMismatch) <==>
      Trim(f.name) != "" && Trim(f.email) != "" && |f.password| >= 4 && f.password != f.confirmPassword
    ensures r == Some(RoleRequired) <==> AccountOk(f) && f.role == ""
    ensures r == Some(LocationRequired) <==> AccountOk(f) && f.role != "" && Trim(f.location) == ""
    ensures r == Some(SpecializationRequired) <==>
      AccountOk(f) && Trim(f.location) != "" && f.role == "doctor" && Trim(f.specialization) == ""
    ensures r == Some(ExperienceInvalid) <==>
      AccountOk(f) && Trim(f.location) != "" && f.role == "doctor" && Trim(f.specialization) != ""
      && !ExperienceOk(ExperienceOf(f, toNumber))
  {
    if Trim(f.name) == "" then Some(NameRequired)
    else if Trim(f.email) == "" then Some(EmailRequired)
    else if |f.password| < 4 then Some(PasswordTooShort)
    else if f.password != f.confirmPassword then Some(PasswordMismatch)
    else if f.role == "" then Some(RoleRequired)
    else if Trim(f.location) == "" then Some(LocationRequired)
    else if f.role == "doctor" && Trim(f.specialization) == "" then Some(SpecializationRequired)
    else if f.role == "doctor" && !ExperienceOk(ExperienceOf(f, toNumber)) then Some(ExperienceInvalid)
    else None
  }

  /** A patient's form is judged without its doctor-only fields. */
  lemma PatientSkipsDoctorChecks(f: SignupForm, toNumber: string -> JsNumber)
    requires f.role == "patient"
    ensures ValidateForm(f, toNumber) == ValidateForm(f.(specialization := "", experience := "x"), toNumber)
  {
  }

  /** The argument passed to `register`: trimmed texts, and the doctor-only fields for doctors alone. */
  function Payload(f: SignupForm, toNumber: string -> JsNumber): (d: Registration)
    ensures d.name == Trim(f.name) && d.email == Trim(f.email) && d.location == Trim(f.location)
    ensures d.password == f.password && d.role == f.role
    ensures f.role == "doctor" ==>
      d.specialization == Some(Trim(f.specialization)) && d.experience == Some(ExperienceOf(f, toNumber))
      && d.achievements == Some(Achievements.Split(f.achievements))
    ensures f.role != "doctor" ==> d.specialization == None && d.experience == None && d.achievements == None
    ensures d.profilePicture.Some? <==> f.profilePicture != ""
    ensures d.profilePicture.Some? ==> d.profilePicture.value == f.profilePicture
  {
    var doctor := f.role == "doctor";
    Registration(
      Trim(f.name), Trim(f.email), f.password, f.role, Trim(f.location),
      if doctor then Some(Trim(f.specialization)) else None,
      if doctor then Some(ExperienceOf(f, toNumber)) else None,
      if doctor then Some(Achievements.Split(f.achievements)) else None,
      if f.profilePicture != "" then Some(f.profilePicture) else None)
  }

  /** A form the page accepts also passes every check `register` makes, so none of those messages can appear. */
  lemma AcceptedFormPassesRegister(f: SignupForm, toNumber: string -> JsNumber)
    requires ValidateForm(f, toNumber).None?
    ensures RegistrationAcceptable(Payload(f, toNumber))
  {
    PassingFormPassesRegister(f, toNumber);
  }

  lemma PassingFormPassesRegister(f: SignupForm, toNumber: string -> JsNumber)
    requires AccountOk(f) && f.role != "" && Trim(f.location) != ""
    requires f.role == "doctor" ==> DoctorOk(f, toNumber)
    ensures RegistrationAcceptable(Payload(f, toNumber))
  {
    var d := Payload(f, toNumber);
    assert d.password != "" by { assert |f.password| >= 4; }
    if f.role == "doctor" {
      FiniteNonNegativeAccepted(ExperienceOf(f, toNumber));
    }
  }

  /** The checks and the request `handleSubmit` works from. */
  method Prepare(f: SignupForm, toNumber: string -> JsNumber) returns (problem: Option<string>, d: Registration)
    ensures problem == ValidateForm(f, toNumber) && d == Payload(f, toNumber)
  {
    problem := ValidateForm(f, toNumber);
    d := Payload(f, toNumber);
  }

  /** The page state. */
  class SignupView {
    var error: string
    var isLoading: bool

    constructor ()
      ensures error == "" && !isLoading
    {
      error := "";
      isLoading := false;
    }

    /**
     * `handleSubmit`: a failed check shows its message and sends nothing;
     * otherwise `register` runs, a success redirects and a failure shows the
     * message it resolved to.
     */
    method Submit(f: SignupForm, toNumber: string -> JsNumber, auth: AuthState, reply: Option<Reply>)
      returns (redirect: bool)
      modifies this, auth
      ensures ValidateForm(f, toNumber).Some? ==>
        error == ValidateForm(f, toNumber).value && !redirect && isLoading == old(isLoading) && unchanged(auth)
      ensures ValidateForm(f, toNumber).None? ==>
        var out := RegisterOutcome(Payload(f, toNumber), reply);
        && redirect == out.success && !isLoading
        && error == (if out.success then "" else out.message.value)
        && (out.success ==> auth.isAuthenticated && auth.user == reply.value.data.user)
        && (!out.success ==> unchanged(auth))
    {
      error := "";
      var problem, payload := Prepare(f, toNumber);
      if problem.Some? {
        error := problem.value;
        return false;
      }
      isLoading := true;
      var out := auth.Register(payload, reply);
      redirect := out.success;
      if !out.success {
        error := out.message.value;
      }
      isLoading := false;
    }
  }
}
