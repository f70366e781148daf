/**
 The sign-in / sign-up modal (src/components/AuthModal.jsx): the field
 rules of both views, the e-mail normalisation, and which provider call a
 submit makes.

 The modal's `view` is a string, but the only values it is ever given are
 "login" and "signup", so it is a two-valued datatype here. A field that
 was never typed in is `""`. Lengths count `char`s, where JavaScript counts
 UTF-16 code units.
 */
module AuthModal {
  import opened Text

  datatype View = Login | Signup

  /** The form's values; the name, phone and confirmation are rendered only
      in the sign-up view. */
  datatype AuthForm = AuthForm(
    email: string,
    password: string,
    fullName: string,
    phone: string,
    cnfPassword: string)

  /** `reset()` with no default values: every field empty. */
  function EmptyForm(): AuthForm {
    AuthForm("", "", "", "", "")
  }

  datatype FormField = Email | Password | FullName | Phone | CnfPassword

  /** A message under a field. */
  datatype FormError = Required(field: FormField) | InvalidEmail | TooShort | Mismatch

  predicate NoSpace(s: string) {
    forall i :: 0 <= i < |s| ==> !IsSpace(s[i])
  }

  /** `/^\S+@\S+$/i`: no whitespace anywhere, and an "@" with at least one
      character before and after it. Both sides may contain further "@"s,
      and the `i` flag changes nothing since the pattern has no letters. */
  predicate EmailPattern(s: string) {
    NoSpace(s) && exists i :: 0 < i < |s| - 1 && s[i] == '@'
  }

  /** A single left-to-right scan deciding the e-mail pattern. */
  method MatchesEmail(s: string) returns (ok: bool)
    ensures ok <==> EmailPattern(s)
  {
    var i := 0;
    var space := false;
    var at := false;
    while i < |s|
      invariant 0 <= i <= |s|
      invariant space <==> exists j :: 0 <= j < i && IsSpace(s[j])
      invariant at <==> exists j :: 0 < j < i && j < |s| - 1 && s[j] == '@'
    {
      if IsSpace(s[i]) {
        space := true;
      }
      if 0 < i < |s| - 1 && s[i] == '@' {
        at := true;
      }
      i := i + 1;
    }
    ok := !space && at;
  }

  /** Lower-casing neither creates nor removes an "@" or a space, so the
      normalised e-mail matches the pattern exactly when the typed one
      does. */
  lemma LowerKeepsEmailPattern(s: string)
    ensures EmailPattern(Lower(s)) <==> EmailPattern(s)
  {
    var t := Lower(s);
    assert forall i :: 0 <= i < |s| ==> (t[i] == '@' <==> s[i] == '@');
    if EmailPattern(s) {
      var i :| 0 < i < |s| - 1 && s[i] == '@';
      assert t[i] == '@';
    }
    if EmailPattern(t) {
      var i :| 0 < i < |t| - 1 && t[i] == '@';
      assert s[i] == '@';
    }
  }

  /** The e-mail rules: `required`, then the pattern. */
  function EmailErrors(email: string): seq<FormError> {
    if email == "" then [Required(Email)]
    else if !EmailPattern(email) then [InvalidEmail]
    else []
  }

  /** The password rules: `required`, then at least 6 characters. */
  function PasswordErrors(password: string): seq<FormError> {
    if password == "" then [Required(Password)]
    else if |password| < 6 then [TooShort]
    else []
  }

  /** A sign-up-only field that is merely required. */
  function RequiredErrors(value: string, field: FormField): seq<FormError> {
    if value == "" then [Required(field)] else []
  }

  /** The confirmation rules: `required`, then equal to the password. */
  function ConfirmErrors(cnf: string, password: string): seq<FormError> {
    if cnf == "" then [Required(CnfPassword)]
    else if cnf != password then [Mismatch]
    else []
  }

  /** What a form must satisfy for the view to submit it. */
  predicate Accepts(view: View, form: AuthForm) {
    && EmailPattern(form.email)
    && |form.password| >= 6
    && (view == Signup ==> form.fullName != "" && form.phone != "" && form.cnfPassword == form.password)
  }

  /** The messages of a submit attempt, in the order the fields are laid
      out. The login view checks only the e-mail and the password; the name,
      phone and confirmation never produce a message there. The form is
      submitted exactly when there are no messages. */
  function Validate(view: View, form: AuthForm): (errs: seq<FormError>)
    ensures view == Login ==>
      Required(FullName) !in errs && Required(Phone) !in errs
      && Required(CnfPassword) !in errs && Mismatch !in errs
    ensures Required(Email) in errs <==> form.email == ""
    ensures InvalidEmail in errs <==> form.email != "" && !EmailPattern(form.email)
    ensures TooShort in errs <==> 0 < |form.password| < 6
    ensures view == Signup ==> (Mismatch in errs <==> form.cnfPassword != "" && form.cnfPassword != form.password)
    ensures errs == [] <==> Accepts(view, form)
  {
    match view
    case Login => EmailErrors(form.email) + PasswordErrors(form.password)
    case Signup =>
      RequiredErrors(form.fullName, FullName) + EmailErrors(form.email) + RequiredErrors(form.phone, Phone)
        + PasswordErrors(form.password) + ConfirmErrors(form.cnfPassword, form.password)
  }

  /** The provider call a submit makes, with the data it passes. */
  datatype Call = LoginUser(data: AuthForm) | RegisterUser(data: AuthForm)

  /** `onSubmit`: the e-mail is lower-cased and every other field passed on
      as typed; the login view signs in and the sign-up view registers. */
  function Submit(view: View, form: AuthForm): (c: Call)
    ensures c.LoginUser? <==> view == Login
    ensures c.data.email == Lower(form.email) && |c.data.email| == |form.email|
    ensures c.data.(email := form.email) == form
  {
    var normalised := form.(email := Lower(form.email));
    if view == Login then LoginUser(normalised) else RegisterUser(normalised)
  }

  /** Submitting the data a submit passed on makes the same call again, and
      an accepted form still passes validation after normalisation. */
  lemma SubmitNormalisationStable(view: View, form: AuthForm)
    ensures Submit(view, Submit(view, form).data) == Submit(view, form)
    ensures Accepts(view, form) ==> Accepts(view, Submit(view, form).data)
  {
    LowerIdempotent(form.email);
    LowerKeepsEmailPattern(form.email);
  }

  /** The link under the form switches to the other view and empties the
      form. */
  function SwitchView(view: View): (r: (View, AuthForm))
    ensures r.0 != view
    ensures r.1 == EmptyForm()
  {
    (if view == Login then Signup else Login, EmptyForm())
  }

  /** Switching twice returns to the view it started from, and the emptied
      form is refused by both views. */
  lemma SwitchViewTwice(view: View)
    ensures SwitchView(SwitchView(view).0).0 == view
    ensures Validate(view, SwitchView(view).1) != []
  {
  }
}
