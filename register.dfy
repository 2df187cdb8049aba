/**
 * The registration form: its fields, the validator that rebuilds the error map
 * on every submit, the per-keystroke field update and the reset after a
 * successful registration.
 */
module Registration {
  import opened Common
  import opened Text

  /** The `name` attributes of the form's four inputs. */
  datatype Field = Name | Email | Phone | Role

  /** The form state object `{name, email, phone, role}`. */
  datatype Form = Form(name: string, email: string, phone: string, role: string)
  {
    function Get(f: Field): string
    {
      match f
      case Name => name
      case Email => email
      case Phone => phone
      case Role => role
    }

    /** `{...form, [f]: v}`: field `f` becomes `v`, every other field keeps its value. */
    function With(f: Field, v: string): (r: Form)
      ensures r.Get(f) == v
      ensures forall g :: g != f ==> r.Get(g) == Get(g)
    {
      match f
      case Name => Form(v, email, phone, role)
      case Email => Form(name, v, phone, role)
      case Phone => Form(name, email, v, role)
      case Role => Form(name, email, phone, v)
    }
  }

  /** The form as first rendered, and as reset after a successful registration. */
  const InitialForm := Form("", "", "", "community")

  const NameRequired := "Name is required"
  const EmailRequired := "Email is required"
  const EmailInvalid := "Email is invalid"
  const PhoneRequired := "Phone is required"
  const PhoneLength := "Phone must be 10 digits"

  /** `/\S+@\S+\.\S+/` matches with its `@` at `at` and its `.` at `dot`: a non-space before the `@`, only non-spaces (at least one) between them, a non-space after the `.`. */
  predicate EmailMatchAt(s: string, at: int, dot: int)
  {
    && 0 < at && at + 1 < dot && dot + 1 < |s|
    && s[at] == '@' && s[dot] == '.'
    && !IsSpace(s[at - 1]) && !IsSpace(s[dot + 1])
    && forall k | at < k < dot :: !IsSpace(s[k])
  }

  /** `/\S+@\S+\.\S+/.test(s)`: the pattern is unanchored, so a match anywhere in `s` will do. */
  predicate MatchesEmail(s: string)
    ensures MatchesEmail(s) ==> 5 <= |s|
  {
    exists at, dot | 0 <= at < |s| && 0 <= dot < |s| :: EmailMatchAt(s, at, dot)
  }

  /** `/^\d{10}$/.test(s.replace(/\D/g, ''))`: exactly ten digits once everything else is removed. */
  predicate HasTenDigits(s: string)
    ensures HasTenDigits(s) ==> 10 <= |s|
  {
    DigitsNoLonger(s);
    |Digits(s)| == 10
  }

  /** The name check: blank after trimming means "Name is required". */
  function NameCheck(name: string): (r: Option<string>)
    ensures r.Some? <==> AllSpace(name)
    ensures r.Some? ==> r.value == NameRequired
  {
    if IsBlank(name) then Some(NameRequired) else None
  }

  /** The e-mail check: "Email is required" when blank, else "Email is invalid" when the pattern does not match. */
  function EmailCheck(email: string): (r: Option<string>)
    ensures r.Some? ==> r.value == EmailRequired || r.value == EmailInvalid
    ensures r.None? ==> MatchesEmail(email) && !AllSpace(email)
  {
    if IsBlank(email) then Some(EmailRequired)
    else if !MatchesEmail(email) then Some(EmailInvalid)
    else None
  }

  /** The phone check: "Phone is required" when blank, else "Phone must be 10 digits" unless it holds exactly ten digits. */
  function PhoneCheck(phone: string): (r: Option<string>)
    ensures r.Some? ==> r.value == PhoneRequired || r.value == PhoneLength
    ensures r.None? ==> HasTenDigits(phone) && !AllSpace(phone)
  {
    if IsBlank(phone) then Some(PhoneRequired)
    else if !HasTenDigits(phone) then Some(PhoneLength)
    else None
  }

  /** Records a field's message, if it has one. */
  function Put(errors: map<Field, string>, f: Field, message: Option<string>): map<Field, string>
  {
    if message.Some? then errors[f := message.value] else errors
  }

  /** The error map of a form, built from an empty map: the name, e-mail and phone messages; the role adds nothing. */
  function Errors(form: Form): (errs: map<Field, string>)
    ensures errs.Keys <= {Name, Email, Phone}
  {
    Put(Put(Put(map[], Name, NameCheck(form.name)), Email, EmailCheck(form.email)), Phone, PhoneCheck(form.phone))
  }

  /** Reading the error map one field at a time. */
  lemma ErrorsByField(form: Form)
    ensures Name in Errors(form) <==> IsBlank(form.name)
    ensures Email in Errors(form) <==> IsBlank(form.email) || !MatchesEmail(form.email)
    ensures Phone in Errors(form) <==> IsBlank(form.phone) || !HasTenDigits(form.phone)
    ensures Role !in Errors(form)
    ensures Name in Errors(form) ==> Errors(form)[Name] == NameRequired
    ensures Email in Errors(form) ==> Errors(form)[Email] == if IsBlank(form.email) then EmailRequired else EmailInvalid
    ensures Phone in Errors(form) ==> Errors(form)[Phone] == if IsBlank(form.phone) then PhoneRequired else PhoneLength
  {
  }

  /**
   * `validateForm`: builds a fresh error map key by key (stale messages are not
   * carried over) and reports whether it stayed empty.
   */
  method ValidateForm(form: Form) returns (valid: bool, newErrors: map<Field, string>)
    ensures newErrors == Errors(form)
    ensures valid <==> newErrors == map[]
  {
    newErrors := map[];
    if IsBlank(form.name) {
      newErrors := newErrors[Name := NameRequired];
    }
    assert newErrors == Put(map[], Name, NameCheck(form.name));
    if IsBlank(form.email) {
      newErrors := newErrors[Email := EmailRequired];
    } else if !MatchesEmail(form.email) {
      newErrors := newErrors[Email := EmailInvalid];
    }
    assert newErrors == Put(Put(map[], Name, NameCheck(form.name)), Email, EmailCheck(form.email));
    if IsBlank(form.phone) {
      newErrors := newErrors[Phone := PhoneRequired];
    } else if !HasTenDigits(form.phone) {
      newErrors := newErrors[Phone := PhoneLength];
    }
    valid := |newErrors| == 0;
    NoKeysIsEmpty(newErrors);
  }

  lemma NoKeysIsEmpty<K, V>(m: map<K, V>)
    ensures |m| == 0 <==> m == map[]
  {
    if |m| != 0 {
      var k :| k in m;
    }
  }

  /** The name is in error exactly when it is all white space, and then the message is "Name is required". */
  lemma NameError(form: Form)
    ensures Name in Errors(form) <==> AllSpace(form.name)
    ensures Name in Errors(form) ==> Errors(form)[Name] == NameRequired
  {
  }

  /** A string that matches the e-mail pattern is not blank. */
  lemma MatchImpliesNotBlank(s: string)
    requires MatchesEmail(s)
    ensures !AllSpace(s)
  {
    var at, dot :| 0 <= at < |s| && 0 <= dot < |s| && EmailMatchAt(s, at, dot);
    assert !IsSpace(s[at]);
  }

  /** The pattern needs one non-space character on each side of the `@` and after the `.`. */
  lemma EmailPatternExamples()
    ensures MatchesEmail("a@b.c")
    ensures MatchesEmail("x y@mail.example.org z")
    ensures !MatchesEmail("a@b")
    ensures !MatchesEmail("@b.c")
    ensures !MatchesEmail("a@.c")
  {
    assert EmailMatchAt("a@b.c", 1, 3);
    assert EmailMatchAt("x y@mail.example.org z", 3, 8);
  }

  /**
   * At most one e-mail message: "Email is required" exactly when the address is
   * all white space, "Email is invalid" exactly when it is not but fails the
   * pattern; no message exactly when it matches.
   */
  lemma EmailError(form: Form)
    ensures Email !in Errors(form) <==> MatchesEmail(form.email)
    ensures Email in Errors(form) && Errors(form)[Email] == EmailRequired <==> AllSpace(form.email)
    ensures Email in Errors(form) && Errors(form)[Email] == EmailInvalid <==> !AllSpace(form.email) && !MatchesEmail(form.email)
  {
    if MatchesEmail(form.email) {
      MatchImpliesNotBlank(form.email);
    }
  }

  /**
   * The phone is accepted exactly when it holds ten digits among any other
   * characters; a blank phone gets "Phone is required", any other rejected phone
   * "Phone must be 10 digits".
   */
  lemma PhoneError(form: Form)
    ensures Phone !in Errors(form) <==> HasTenDigits(form.phone)
    ensures Phone in Errors(form) && Errors(form)[Phone] == PhoneRequired <==> AllSpace(form.phone)
    ensures Phone in Errors(form) && Errors(form)[Phone] == PhoneLength <==> !AllSpace(form.phone) && !HasTenDigits(form.phone)
  {
    if AllSpace(form.phone) {
      DigitsOfDigitFree(form.phone);
    }
  }

  lemma FormattedPhoneDigits()
    ensures HasTenDigits("(555) 123-4567")
  {
    assert "(555) 123-4567" == "(555) " + "123-" + "4567";
    DigitsAppend("(555) " + "123-", "4567");
    DigitsAppend("(555) ", "123-");
    assert |Digits("(555) ")| == 3;
    assert |Digits("123-")| == 3;
    assert |Digits("4567")| == 4;
  }

  /** A formatted number such as "(555) 123-4567" passes the phone check. */
  lemma FormattedPhoneAccepted(form: Form)
    requires form.phone == "(555) 123-4567"
    ensures Phone !in Errors(form)
  {
    FormattedPhoneDigits();
    PhoneError(form);
  }

  /** The form is valid exactly when the name is not blank, the e-mail matches and the phone has ten digits. */
  lemma ValidIff(form: Form)
    ensures Errors(form) == map[] <==> !AllSpace(form.name) && MatchesEmail(form.email) && HasTenDigits(form.phone)
  {
    NameError(form);
    EmailError(form);
    PhoneError(form);
    if Errors(form) != map[] {
      var f :| f in Errors(form);
    }
  }

  /** The role is never validated: changing it never changes the errors. */
  lemma RoleNotValidated(form: Form, role: string)
    ensures Errors(form.With(Role, role)) == Errors(form)
    ensures Role !in Errors(form)
  {
  }

  /** The untouched form fails on all three required fields. */
  lemma InitialFormErrors()
    ensures Errors(InitialForm) == map[Name := NameRequired, Email := EmailRequired, Phone := PhoneRequired]
  {
    assert IsBlank("");
    ErrorsByField(InitialForm);
    var e := Errors(InitialForm);
    assert e.Keys == {Name, Email, Phone};
  }

  /** `errors[f]` is truthy: a message is shown under the input. */
  predicate Shown(errors: map<Field, string>, f: Field)
  {
    f in errors && errors[f] != ""
  }

  /** The error-map part of `handleChange`: a shown message for `f` is blanked; all other entries stay as they were. */
  function ClearError(errors: map<Field, string>, f: Field): (r: map<Field, string>)
    ensures r.Keys == errors.Keys
    ensures !Shown(r, f)
    ensures forall g :: g in errors && g != f ==> r[g] == errors[g]
    ensures !Shown(errors, f) ==> r == errors
  {
    if Shown(errors, f) then errors[f := ""] else errors
  }

  /** The component's state: the form values and the error messages. */
  class RegisterForm {
    var form: Form
    var errors: map<Field, string>

    constructor ()
      ensures form == InitialForm && errors == map[]
    {
      form := InitialForm;
      errors := map[];
    }

    /** `handleChange`: the edited field takes the new value, and its message, if shown, is blanked. */
    method HandleChange(f: Field, value: string)
      modifies this
      ensures form == old(form).With(f, value)
      ensures errors == ClearError(old(errors), f)
    {
      form := form.With(f, value);
      if Shown(errors, f) {
        errors := errors[f := ""];
      }
    }

    /** `validateForm` as called by the component: the error state is replaced by the fresh map. */
    method Validate() returns (valid: bool)
      modifies this`errors
      ensures errors == Errors(form)
      ensures valid <==> errors == map[]
    {
      valid, errors := ValidateForm(form);
    }

    /**
     * `handleSubmit`: validation first; only a valid form is posted, and only a
     * post the server accepted resets the form. `accepted` stands for the
     * server's answer.
     */
    method Submit(accepted: bool) returns (posted: bool)
      modifies this
      ensures errors == Errors(old(form))
      ensures posted <==> Errors(old(form)) == map[]
      ensures form == if posted && accepted then InitialForm else old(form)
    {
      posted := Validate();
      if posted && accepted {
        form := InitialForm;
      }
    }
  }
}
