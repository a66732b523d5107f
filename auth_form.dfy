/** The shared login/register form: the schema each mode uses, the values it
    starts from and submits, and the texts and fields that depend on the mode.
    zod's email check is a parameter. */
module AuthForm {
  import opened Wrappers
  import Zod

  datatype FormType = Login | Register

  const InvalidEmail := "Invalid email address"
  const PasswordRequired := "Password is required"
  const NameTooShort := "Name must be at least 2 characters long"
  const PasswordTooShort := "Password must be at least 8 characters long"
  const ProfileTypeRequired := "You must select a profile type."

  /** The form's values. A deselected toggle sets the profile type to `""`;
      `None` is an undefined profile type, which the defaults never leave. */
  datatype AuthValues = AuthValues(name: string, email: string, password: string, profile_type: Option<string>)

  /** `defaultValues`, the same for both modes. */
  const Defaults := AuthValues("", "", "", Some("adopter"))

  function EmailIssues(email: string, isEmail: string -> bool): (issues: seq<string>)
    ensures issues == [] <==> isEmail(email)
  {
    if isEmail(email) then [] else [InvalidEmail]
  }

  /** zod's issue for a value outside `['adopter', 'seller']`. */
  function EnumMessage(received: string): string
  {
    "Invalid enum value. Expected 'adopter' | 'seller', received '" + received + "'"
  }

  function ProfileTypeIssues(t: Option<string>): (issues: seq<string>)
    ensures issues == [] <==> t == Some("adopter") || t == Some("seller")
    ensures t.None? ==> issues == [ProfileTypeRequired]
  {
    if t.None? then [ProfileTypeRequired]
    else if t.value == "adopter" || t.value == "seller" then []
    else [EnumMessage(t.value)]
  }

  /** `loginSchema`. */
  function LoginIssues(v: AuthValues, isEmail: string -> bool): seq<string>
  {
    EmailIssues(v.email, isEmail) + Zod.MinLength(v.password, 1, PasswordRequired)
  }

  /** `registerSchema`. */
  function RegisterIssues(v: AuthValues, isEmail: string -> bool): seq<string>
  {
    Zod.MinLength(v.name, 2, NameTooShort) + EmailIssues(v.email, isEmail)
    + Zod.MinLength(v.password, 8, PasswordTooShort) + ProfileTypeIssues(v.profile_type)
  }

  /** `currentSchema`: the register schema for the register form, the login schema otherwise. */
  function Issues(formtype: FormType, v: AuthValues, isEmail: string -> bool): (issues: seq<string>)
    ensures formtype == Register ==> issues == RegisterIssues(v, isEmail)
    ensures formtype == Login ==> issues == LoginIssues(v, isEmail)
  {
    if formtype == Register then RegisterIssues(v, isEmail) else LoginIssues(v, isEmail)
  }

  /** Login asks for a valid email and some password; the name and the profile type are not looked at. */
  lemma LoginAccepts(v: AuthValues, isEmail: string -> bool)
    ensures Issues(Login, v, isEmail) == [] <==> isEmail(v.email) && v.password != ""
  {
  }

  /** Register asks for a name of two characters, a valid email, a password of
      eight and one of the two profile types, and starts on the adopter. */
  lemma RegisterAccepts(v: AuthValues, isEmail: string -> bool)
    ensures Issues(Register, v, isEmail) == [] <==>
              |v.name| >= 2 && isEmail(v.email) && |v.password| >= 8 && v.profile_type in {Some("adopter"), Some("seller")}
    ensures ProfileTypeIssues(Defaults.profile_type) == []
  {
  }

  /** Register's checks include login's: a registrable form could log in. */
  lemma RegisterImpliesLogin(v: AuthValues, isEmail: string -> bool)
    requires Issues(Register, v, isEmail) == []
    ensures Issues(Login, v, isEmail) == []
  {
  }

  /** What the submit handler receives: zod keeps only the schema's keys. */
  datatype Submitted = Credentials(email: string, password: string) | Registration(name: string, email: string, password: string, profile_type: string)

  function SubmittedOf(formtype: FormType, v: AuthValues, isEmail: string -> bool): (s: Option<Submitted>)
    ensures s.Some? <==> Issues(formtype, v, isEmail) == []
    ensures s.Some? && formtype == Login ==> s.value == Credentials(v.email, v.password)
    ensures s.Some? && formtype == Register ==> s.value == Registration(v.name, v.email, v.password, v.profile_type.value)
  {
    if Issues(formtype, v, isEmail) != [] then None
    else if formtype == Register then Some(Registration(v.name, v.email, v.password, v.profile_type.value))
    else Some(Credentials(v.email, v.password))
  }

  /** The mode-dependent parts of the card. */
  datatype View = View(
    title: string, description: string, button: string, submitDisabled: bool,
    footerText: string, footerLink: string, footerLinkText: string, showsName: bool, showsProfileType: bool)

  function ViewOf(formtype: FormType, isSubmitting: bool): (view: View)
    ensures view.showsName <==> formtype == Register
    ensures view.showsProfileType <==> formtype == Register
    ensures view.footerLink == (if formtype == Register then "/login" else "/register")
    ensures view.submitDisabled <==> isSubmitting
    ensures isSubmitting ==> view.button == "Processing..."
  {
    var isRegister := formtype == Register;
    View(if isRegister then "Create an Account" else "Welcome Back",
         if isRegister then "Enter your details to get started." else "Sign in to continue.",
         if isSubmitting then "Processing..." else if isRegister then "Create Account" else "Sign In",
         isSubmitting,
         if isRegister then "Already have an account?" else "Don't have an account?",
         if isRegister then "/login" else "/register",
         if isRegister then "Sign In" else "Sign Up",
         isRegister, isRegister)
  }

  /** The form each of the two routes shows. */
  function FormAt(route: string): Option<FormType>
  {
    if route == "/login" then Some(Login) else if route == "/register" then Some(Register) else None
  }

  /** The footer always leads to the other form. */
  lemma FooterLeadsToOther(formtype: FormType, isSubmitting: bool)
    ensures FormAt(ViewOf(formtype, isSubmitting).footerLink).Some?
    ensures FormAt(ViewOf(formtype, isSubmitting).footerLink).value != formtype
  {
  }
}
