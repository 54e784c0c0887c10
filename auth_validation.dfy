/** The validation rules of the sign-in, sign-up, reset-password and
    onboarding forms. Each schema becomes a function that lists the issues
    (field path and message) the schema reports, in schema order; a form is
    accepted when the list is empty. Whether a string is an e-mail address is
    decided by the validation library and is a parameter here.

    The schemas' cross-field `refine` (passwords must match) still runs when a
    field has failed a length or pattern rule, since those failures do not
    abort parsing; so the mismatch issue is reported alongside the others. */
module AuthValidation {
  import opened Common

  datatype Issue = Issue(path: string, message: string)

  predicate HasUpper(s: string) { exists i | 0 <= i < |s| :: IsUpperAscii(s[i]) }
  predicate HasLower(s: string) { exists i | 0 <= i < |s| :: IsLowerAscii(s[i]) }
  predicate HasDigit(s: string) { exists i | 0 <= i < |s| :: IsDigitAscii(s[i]) }
  /** A character outside `[A-Za-z0-9]`. */
  predicate HasSpecial(s: string)
  {
    exists i | 0 <= i < |s| :: !IsUpperAscii(s[i]) && !IsLowerAscii(s[i]) && !IsDigitAscii(s[i])
  }

  /** A one-issue list when `ok` fails. */
  function Check(ok: bool, path: string, message: string): (r: seq<Issue>)
    ensures ok <==> r == []
    ensures !ok ==> r == [Issue(path, message)]
  {
    if ok then [] else [Issue(path, message)]
  }

  /** The issues reported at one path, in order. */
  function At(issues: seq<Issue>, path: string): (r: seq<Issue>)
    ensures |r| <= |issues|
    ensures forall i :: 0 <= i < |r| ==> r[i].path == path
  {
    if issues == [] then []
    else (if issues[0].path == path then [issues[0]] else []) + At(issues[1..], path)
  }

  function EmailIssues(email: string, isEmail: string -> bool): seq<Issue>
  {
    Check(isEmail(email), "email", "Please enter a valid email address")
  }

  /** The password rules shared by sign-up and reset. */
  function StrongPasswordIssues(password: string): seq<Issue>
  {
    Check(JsLength(password) >= 8, "password", "Password must be at least 8 characters")
    + Check(HasUpper(password), "password", "Password must contain at least one uppercase letter")
    + Check(HasLower(password), "password", "Password must contain at least one lowercase letter")
    + Check(HasDigit(password), "password", "Password must contain at least one number")
    + Check(HasSpecial(password), "password", "Password must contain at least one special character")
  }

  function MatchIssues(password: string, confirmPassword: string): seq<Issue>
  {
    Check(password == confirmPassword, "confirmPassword", "Passwords do not match")
  }

  datatype SignInForm = SignInForm(email: string, password: string, tenantId: Option<string>)

  /** `signInSchema`. */
  function SignInIssues(f: SignInForm, isEmail: string -> bool): seq<Issue>
  {
    EmailIssues(f.email, isEmail)
    + Check(JsLength(f.password) >= 8, "password", "Password must be at least 8 characters")
  }

  datatype SignUpForm = SignUpForm(
    email: string, password: string, confirmPassword: string,
    name: string, companyName: string, agreeToTerms: bool)

  /** `signUpSchema`. */
  function SignUpIssues(f: SignUpForm, isEmail: string -> bool): seq<Issue>
  {
    EmailIssues(f.email, isEmail)
    + StrongPasswordIssues(f.password)
    + Check(JsLength(f.name) >= 2, "name", "Name must be at least 2 characters")
    + Check(JsLength(f.companyName) >= 2, "companyName", "Company name must be at least 2 characters")
    + Check(f.agreeToTerms, "agreeToTerms", "You must agree to the terms and conditions")
    + MatchIssues(f.password, f.confirmPassword)
  }

  datatype ResetPasswordForm = ResetPasswordForm(password: string, confirmPassword: string)

  /** `resetPasswordSchema`. */
  function ResetPasswordIssues(f: ResetPasswordForm): seq<Issue>
  {
    StrongPasswordIssues(f.password) + MatchIssues(f.password, f.confirmPassword)
  }

  datatype CompanyDetails = CompanyDetails(
    name: string, address: string, city: string, state: string,
    zipCode: string, phone: string, dotNumber: Option<string>, mcNumber: Option<string>)

  datatype OnboardingForm = OnboardingForm(
    companyDetails: CompanyDetails, businessType: string, fleetSize: string,
    services: seq<string>, referralSource: Option<string>)

  const BUSINESS_TYPES: seq<string> := ["sole_proprietor", "partnership", "llc", "corporation"]
  const FLEET_SIZES: seq<string> := ["1_5", "6_15", "16_50", "51_100", "100_plus"]
  const SERVICES: seq<string> := ["truckload", "ltl", "intermodal", "specialized", "refrigerated", "flatbed", "other"]
  const REFERRAL_SOURCES: seq<string> := ["search", "social_media", "referral", "advertisement", "other"]

  function CompanyIssues(c: CompanyDetails): seq<Issue>
  {
    Check(JsLength(c.name) >= 2, "companyDetails.name", "Company name must be at least 2 characters")
    + Check(JsLength(c.address) >= 5, "companyDetails.address", "Address must be at least 5 characters")
    + Check(JsLength(c.city) >= 2, "companyDetails.city", "City must be at least 2 characters")
    + Check(JsLength(c.state) >= 2, "companyDetails.state", "State must be at least 2 characters")
    + Check(JsLength(c.zipCode) >= 5, "companyDetails.zipCode", "Zip code must be at least 5 characters")
    + Check(JsLength(c.phone) >= 10, "companyDetails.phone", "Phone number must be at least 10 characters")
  }

  /** Zod 3's message for a value outside an enum: the options quoted and
      joined with ` | `, then the value received. */
  function EnumMessage(options: seq<string>, received: string): string
  {
    "Invalid enum value. Expected " + Join(Quoted(options), " | ") + ", received '" + received + "'"
  }

  function Quoted(options: seq<string>): (r: seq<string>)
    ensures |r| == |options|
    ensures forall i :: 0 <= i < |r| ==> r[i] == "'" + options[i] + "'"
  {
    if options == [] then [] else ["'" + options[0] + "'"] + Quoted(options[1..])
  }

  /** The issue of one enumerated field. */
  function EnumCheck(options: seq<string>, value: string, path: string): seq<Issue>
  {
    Check(value in options, path, EnumMessage(options, value))
  }

  /** One issue per service that is not one of the listed literals, at the
      path `services.<index>`; `from` is the index of the first element. */
  function ServiceIssues(services: seq<string>, from: nat): (r: seq<Issue>)
    ensures |r| <= |services|
    ensures r == [] <==> forall i :: 0 <= i < |services| ==> services[i] in SERVICES
  {
    if services == [] then []
    else EnumCheck(SERVICES, services[0], "services." + NatToString(from)) + ServiceIssues(services[1..], from + 1)
  }

  /** `onboardingSchema`. */
  function OnboardingIssues(f: OnboardingForm): seq<Issue>
  {
    CompanyIssues(f.companyDetails)
    + EnumCheck(BUSINESS_TYPES, f.businessType, "businessType")
    + EnumCheck(FLEET_SIZES, f.fleetSize, "fleetSize")
    + ServiceIssues(f.services, 0)
    + (if f.referralSource.Some? then EnumCheck(REFERRAL_SOURCES, f.referralSource.value, "referralSource") else [])
  }

  // ---------------------------------------------------------------------
  // Properties.

  /** The rule set of sign-up and reset passwords, stated directly. */
  predicate StrongPassword(p: string)
  {
    && JsLength(p) >= 8
    && (exists i | 0 <= i < |p| :: 'A' <= p[i] <= 'Z')
    && (exists i | 0 <= i < |p| :: 'a' <= p[i] <= 'z')
    && (exists i | 0 <= i < |p| :: '0' <= p[i] <= '9')
    && (exists i | 0 <= i < |p| :: !('A' <= p[i] <= 'Z') && !('a' <= p[i] <= 'z') && !('0' <= p[i] <= '9'))
  }

  lemma {:induction false} AtAppend(a: seq<Issue>, b: seq<Issue>, path: string)
    ensures At(a + b, path) == At(a, path) + At(b, path)
  {
    if a != [] {
      assert (a + b)[1..] == a[1..] + b;
      AtAppend(a[1..], b, path);
    } else {
      assert a + b == b;
    }
  }

  /** A sign-in password is accepted exactly when it has at least 8 characters. */
  lemma SignInPasswordExact(f: SignInForm, isEmail: string -> bool)
    ensures At(SignInIssues(f, isEmail), "password") == [] <==> JsLength(f.password) >= 8
    ensures SignInIssues(f, isEmail) == [] <==> isEmail(f.email) && JsLength(f.password) >= 8
  {
    AtAppend(EmailIssues(f.email, isEmail), Check(JsLength(f.password) >= 8, "password", "Password must be at least 8 characters"), "password");
  }

  lemma StrongPasswordIssuesExact(p: string)
    ensures StrongPasswordIssues(p) == [] <==> StrongPassword(p)
  {
  }

  /** A sign-up form is accepted exactly when every rule holds. */
  lemma SignUpExact(f: SignUpForm, isEmail: string -> bool)
    ensures SignUpIssues(f, isEmail) == [] <==>
      && isEmail(f.email) && StrongPassword(f.password)
      && JsLength(f.name) >= 2 && JsLength(f.companyName) >= 2 && f.agreeToTerms
      && f.password == f.confirmPassword
  {
    StrongPasswordIssuesExact(f.password);
  }

  /** A reset form is accepted exactly when the password is strong and confirmed. */
  lemma ResetExact(f: ResetPasswordForm)
    ensures ResetPasswordIssues(f) == [] <==> StrongPassword(f.password) && f.password == f.confirmPassword
  {
    StrongPasswordIssuesExact(f.password);
  }

  lemma AtCheck(ok: bool, q: string, m: string, path: string)
    ensures At(Check(ok, q, m), path) == if !ok && q == path then [Issue(q, m)] else []
  {
  }

  /** A mismatch is reported at sign-up, under the path `confirmPassword`,
      exactly when the two passwords differ; no other rule reports there. */
  lemma SignUpMismatchAtConfirm(f: SignUpForm, isEmail: string -> bool)
    ensures At(SignUpIssues(f, isEmail), "confirmPassword") ==
      (if f.password == f.confirmPassword then [] else [Issue("confirmPassword", "Passwords do not match")])
  {
    var p := f.password;
    var a := EmailIssues(f.email, isEmail);
    var s := StrongPasswordIssues(p);
    var b := Check(JsLength(f.name) >= 2, "name", "Name must be at least 2 characters");
    var c := Check(JsLength(f.companyName) >= 2, "companyName", "Company name must be at least 2 characters");
    var d := Check(f.agreeToTerms, "agreeToTerms", "You must agree to the terms and conditions");
    var m := MatchIssues(p, f.confirmPassword);
    assert SignUpIssues(f, isEmail) == a + s + b + c + d + m;
    AtCheck(isEmail(f.email), "email", "Please enter a valid email address", "confirmPassword");
    StrongPasswordAt(p);
    AtCheck(JsLength(f.name) >= 2, "name", "Name must be at least 2 characters", "confirmPassword");
    AtCheck(JsLength(f.companyName) >= 2, "companyName", "Company name must be at least 2 characters", "confirmPassword");
    AtCheck(f.agreeToTerms, "agreeToTerms", "You must agree to the terms and conditions", "confirmPassword");
    AtCheck(p == f.confirmPassword, "confirmPassword", "Passwords do not match", "confirmPassword");
    AtAppend(a, s, "confirmPassword");
    AtAppend(a + s, b, "confirmPassword");
    AtAppend(a + s + b, c, "confirmPassword");
    AtAppend(a + s + b + c, d, "confirmPassword");
    AtAppend(a + s + b + c + d, m, "confirmPassword");
  }

  /** The same for the reset form. */
  lemma ResetMismatchAtConfirm(g: ResetPasswordForm)
    ensures At(ResetPasswordIssues(g), "confirmPassword") ==
      (if g.password == g.confirmPassword then [] else [Issue("confirmPassword", "Passwords do not match")])
  {
    StrongPasswordAt(g.password);
    AtCheck(g.password == g.confirmPassword, "confirmPassword", "Passwords do not match", "confirmPassword");
    AtAppend(StrongPasswordIssues(g.password), MatchIssues(g.password, g.confirmPassword), "confirmPassword");
  }

  /** No issue is listed at a path none of them carries. */
  lemma {:induction false} AtAbsent(issues: seq<Issue>, path: string)
    requires forall i :: 0 <= i < |issues| ==> issues[i].path != path
    ensures At(issues, path) == []
  {
    if issues != [] {
      AtAbsent(issues[1..], path);
    }
  }

  lemma StrongPasswordAt(p: string)
    ensures At(StrongPasswordIssues(p), "confirmPassword") == []
  {
    var s := StrongPasswordIssues(p);
    assert forall i :: 0 <= i < |s| ==> s[i].path == "password";
    AtAbsent(s, "confirmPassword");
  }

  /** Any password accepted at sign-up is accepted at sign-in. */
  lemma SignUpPasswordPassesSignIn(p: string, email: string, tenantId: Option<string>, isEmail: string -> bool)
    requires StrongPasswordIssues(p) == []
    ensures At(SignInIssues(SignInForm(email, p, tenantId), isEmail), "password") == []
  {
    SignInPasswordExact(SignInForm(email, p, tenantId), isEmail);
  }

  /** Each service outside the literals is reported at its own index, with
      the enum message naming the value. */
  lemma {:induction false} ServiceIssueAt(services: seq<string>, from: nat, i: nat)
    requires i < |services| && services[i] !in SERVICES
    ensures Issue("services." + NatToString(from + i), EnumMessage(SERVICES, services[i])) in ServiceIssues(services, from)
  {
    var rest := ServiceIssues(services[1..], from + 1);
    assert ServiceIssues(services, from) == EnumCheck(SERVICES, services[0], "services." + NatToString(from)) + rest;
    if i > 0 {
      assert services[1..][i - 1] == services[i];
      ServiceIssueAt(services[1..], from + 1, i - 1);
      assert from + 1 + (i - 1) == from + i;
    }
  }

  /** A single emoji is one character but two UTF-16 units, so it meets a
      two-character minimum, as the name rule of sign-up accepts it. */
  lemma AstralNameMeetsMinimum(f: SignUpForm)
    requires f.name == "\U{1F600}"
    ensures |f.name| == 1
    ensures Check(JsLength(f.name) >= 2, "name", "Name must be at least 2 characters") == []
  {
    assert f.name[1..] == [];
  }

  /** Onboarding is accepted exactly when the minimum lengths hold (name 2,
      address 5, city 2, state 2, zip 5, phone 10; DOT and MC numbers are
      free) and every enumerated field holds one of its literals. */
  lemma OnboardingExact(f: OnboardingForm)
    ensures OnboardingIssues(f) == [] <==>
      var c := f.companyDetails;
      && JsLength(c.name) >= 2 && JsLength(c.address) >= 5 && JsLength(c.city) >= 2 && JsLength(c.state) >= 2
      && JsLength(c.zipCode) >= 5 && JsLength(c.phone) >= 10
      && f.businessType in BUSINESS_TYPES && f.fleetSize in FLEET_SIZES
      && (forall i :: 0 <= i < |f.services| ==> f.services[i] in SERVICES)
      && (f.referralSource.Some? ==> f.referralSource.value in REFERRAL_SOURCES)
  {
  }
}
