/**
 * The login / registration form: its field record, the validation rules, and the
 * handlers that edit fields and clear errors. Field values and errors are
 * dictionaries keyed by field name, as in the component.
 */
module AuthForm {
  import opened Wrappers
  import opened Strings

  datatype FormType = LoginForm | RegisterForm

  const FormFields: set<string> :=
    {"firstName", "lastName", "email", "password", "confirmPassword", "userType", "photoURL"}

  /** The only keys an error record can have. */
  const ErrorFields: set<string> := {"firstName", "lastName", "confirmPassword", "email", "password"}

  /** The initial `formData`: every text field empty, user type `'Customer'`. */
  function InitialFormData(): (m: map<string, string>)
    ensures m.Keys == FormFields
    ensures forall k :: k in m && k != "userType" ==> m[k] == ""
    ensures m["userType"] == "Customer"
  {
    map["firstName" := "", "lastName" := "", "email" := "", "password" := "",
        "confirmPassword" := "", "userType" := "Customer", "photoURL" := ""]
  }

  /** `\S+@\S+\.\S+` matches with its `@` at position `p` and its `.` at position `q`. */
  predicate EmailMatchAt(s: string, p: nat, q: nat) {
    && 0 < p && p + 1 < q && q + 1 < |s|
    && s[p] == '@' && s[q] == '.'
    && !IsWhitespace(s[p - 1]) && !IsWhitespace(s[q + 1])
    && forall k :: p < k < q ==> !IsWhitespace(s[k])
  }

  /** `/\S+@\S+\.\S+/.test(s)`: the pattern matches somewhere in `s`. */
  predicate MatchesEmailPattern(s: string) {
    exists p, q :: 0 <= p < q < |s| && EmailMatchAt(s, p, q)
  }

  lemma {:induction false} EmailPatternExamples()
    ensures MatchesEmailPattern("jane.smith@example.com")
    ensures !MatchesEmailPattern("jane@example")
    ensures !MatchesEmailPattern("jane@ example.com")
  {
    assert EmailMatchAt("jane.smith@example.com", 10, 18);
    var s := "jane@ example.com";
    forall p, q | 0 <= p < q < |s| && s[p] == '@' && s[q] == '.'
      ensures !EmailMatchAt(s, p, q)
    {
      assert p == 4 && q == 13;
      assert IsWhitespace(s[5]);
    }
  }

  /** The email rule: required after trimming, then the pattern on the untrimmed text. */
  function EmailError(email: string): (r: Option<string>)
    ensures r == Some("Email is required") <==> IsBlank(email)
    ensures r == Some("Email is invalid") <==> !IsBlank(email) && !MatchesEmailPattern(email)
    ensures r == None <==> !IsBlank(email) && MatchesEmailPattern(email)
  {
    if IsBlank(email) then Some("Email is required")
    else if !MatchesEmailPattern(email) then Some("Email is invalid")
    else None
  }

  /** The password rule: required (untrimmed), then at least six characters. */
  function PasswordError(password: string): (r: Option<string>)
    ensures r == Some("Password is required") <==> password == ""
    ensures r == Some("Password must be at least 6 characters") <==> 0 < |password| < 6
    ensures r == None <==> |password| >= 6
  {
    if password == "" then Some("Password is required")
    else if |password| < 6 then Some("Password must be at least 6 characters")
    else None
  }

  /** Adds an error under `key` when `fails` holds. */
  function Flag(errors: map<string, string>, fails: bool, key: string, message: string): map<string, string> {
    if fails then errors[key := message] else errors
  }

  /** The error record `validateForm` builds: only error fields, each with a message. */
  function FormErrors(t: FormType, f: map<string, string>): (e: map<string, string>)
    requires FormFields <= f.Keys
    ensures e.Keys <= ErrorFields
    ensures forall k :: k in e ==> e[k] != ""
  {
    var register := t == RegisterForm;
    var e1 := Flag(map[], register && IsBlank(f["firstName"]), "firstName", "First name is required");
    var e2 := Flag(e1, register && IsBlank(f["lastName"]), "lastName", "Last name is required");
    var e3 := Flag(e2, register && f["password"] != f["confirmPassword"], "confirmPassword", "Passwords do not match");
    var emailError := EmailError(f["email"]);
    var e4 := if emailError.Some? then e3["email" := emailError.value] else e3;
    var passwordError := PasswordError(f["password"]);
    if passwordError.Some? then e4["password" := passwordError.value] else e4
  }

  /** Field by field: an error is recorded exactly when its rule fails, with the rule's message;
      a login form records no name or confirmation errors. */
  lemma {:induction false} FormErrorsByField(t: FormType, f: map<string, string>)
    requires FormFields <= f.Keys
    ensures var e := FormErrors(t, f);
      && (t == LoginForm ==> e.Keys <= {"email", "password"})
      && ("firstName" in e <==> t == RegisterForm && IsBlank(f["firstName"]))
      && ("lastName" in e <==> t == RegisterForm && IsBlank(f["lastName"]))
      && ("confirmPassword" in e <==> t == RegisterForm && f["password"] != f["confirmPassword"])
      && ("email" in e <==> EmailError(f["email"]).Some?)
      && ("password" in e <==> PasswordError(f["password"]).Some?)
      && ("firstName" in e ==> e["firstName"] == "First name is required")
      && ("lastName" in e ==> e["lastName"] == "Last name is required")
      && ("confirmPassword" in e ==> e["confirmPassword"] == "Passwords do not match")
      && ("email" in e ==> Some(e["email"]) == EmailError(f["email"]))
      && ("password" in e ==> Some(e["password"]) == PasswordError(f["password"]))
  {
  }

  /** The error record, built one rule at a time as `validateForm` does. */
  lemma {:induction false} FormErrorsInSteps(t: FormType, f: map<string, string>,
    e1: map<string, string>, e2: map<string, string>, e3: map<string, string>,
    e4: map<string, string>, e: map<string, string>)
    requires FormFields <= f.Keys
    requires e1 == Flag(map[], t == RegisterForm && IsBlank(f["firstName"]), "firstName", "First name is required")
    requires e2 == Flag(e1, t == RegisterForm && IsBlank(f["lastName"]), "lastName", "Last name is required")
    requires e3 == Flag(e2, t == RegisterForm && f["password"] != f["confirmPassword"],
      "confirmPassword", "Passwords do not match")
    requires e4 == if EmailError(f["email"]).Some? then e3["email" := EmailError(f["email"]).value] else e3
    requires e == if PasswordError(f["password"]).Some? then e4["password" := PasswordError(f["password"]).value] else e4
    ensures e == FormErrors(t, f)
  {
  }

  /** A record has no keys exactly when it is the empty record. */
  lemma {:induction false} EmptyIffNoKeys(m: map<string, string>)
    ensures |m| == 0 <==> m == map[]
  {
    if |m| == 0 {
      assert m.Keys == {};
    }
  }

  /** Every rule of the form passes. */
  predicate RulesPass(t: FormType, f: map<string, string>)
    requires FormFields <= f.Keys
  {
    && (t == RegisterForm ==>
         !IsBlank(f["firstName"]) && !IsBlank(f["lastName"]) && f["password"] == f["confirmPassword"])
    && !IsBlank(f["email"]) && MatchesEmailPattern(f["email"])
    && |f["password"]| >= 6
  }

  /** The error record is empty exactly when every rule passes. */
  lemma {:induction false} NoErrorsIffRulesPass(t: FormType, f: map<string, string>)
    requires FormFields <= f.Keys
    ensures FormErrors(t, f) == map[] <==> RulesPass(t, f)
  {
    var e := FormErrors(t, f);
    FormErrorsByField(t, f);
    if !RulesPass(t, f) {
      assert exists k :: k in e;
    }
  }

  /** The error record assembled one rule at a time, each failing rule adding its field. */
  method BuildErrors(t: FormType, f: map<string, string>) returns (newErrors: map<string, string>)
    requires FormFields <= f.Keys
    ensures newErrors == FormErrors(t, f)
  {
    var register := t == RegisterForm;
    newErrors := map[];
    if register && IsBlank(f["firstName"]) {
      newErrors := newErrors["firstName" := "First name is required"];
    }
    ghost var e1 := newErrors;
    assert e1 == Flag(map[], register && IsBlank(f["firstName"]), "firstName", "First name is required");
    if register && IsBlank(f["lastName"]) {
      newErrors := newErrors["lastName" := "Last name is required"];
    }
    ghost var e2 := newErrors;
    assert e2 == Flag(e1, register && IsBlank(f["lastName"]), "lastName", "Last name is required");
    if register && f["password"] != f["confirmPassword"] {
      newErrors := newErrors["confirmPassword" := "Passwords do not match"];
    }
    ghost var e3 := newErrors;
    assert e3 == Flag(e2, register && f["password"] != f["confirmPassword"], "confirmPassword", "Passwords do not match");
    if IsBlank(f["email"]) {
      newErrors := newErrors["email" := "Email is required"];
    } else if !MatchesEmailPattern(f["email"]) {
      newErrors := newErrors["email" := "Email is invalid"];
    }
    ghost var e4 := newErrors;
    assert e4 == if EmailError(f["email"]).Some? then e3["email" := EmailError(f["email"]).value] else e3;
    if f["password"] == "" {
      newErrors := newErrors["password" := "Password is required"];
    } else if |f["password"]| < 6 {
      newErrors := newErrors["password" := "Password must be at least 6 characters"];
    }
    assert newErrors == if PasswordError(f["password"]).Some? then e4["password" := PasswordError(f["password"]).value] else e4;
    FormErrorsInSteps(t, f, e1, e2, e3, e4, newErrors);
  }

  /** What submitting leads to: nothing, or a call to `login` or `register`. */
  datatype SubmitAction =
    | Stop
    | RequestLogin(email: string, password: string)
    | RequestRegister(firstName: string, lastName: string, email: string, password: string, userType: string)

  /** The state of one `AuthForm`. */
  class AuthFormState {
    const formType: FormType
    var formData: map<string, string>
    var errors: map<string, string>

    /** Every field is present and every recorded error has a message. */
    ghost predicate Valid()
      reads this
    {
      FormFields <= formData.Keys && forall k :: k in errors ==> errors[k] != ""
    }

    constructor (t: FormType)
      ensures Valid()
      ensures formType == t && formData == InitialFormData() && errors == map[]
    {
      formType := t;
      formData := InitialFormData();
      errors := map[];
    }

    /** `handleChange`: sets the named field and removes that field's error only. */
    method HandleChange(name: string, value: string)
      requires Valid()
      modifies this
      ensures Valid()
      ensures formData == old(formData)[name := value]
      ensures errors == old(errors) - {name}
    {
      formData := formData[name := value];
      if name in errors && errors[name] != "" {
        errors := errors - {name};
      }
    }

    /** `handleSelectChange`: sets the user type and nothing else. */
    method HandleSelectChange(value: string)
      requires Valid()
      modifies this
      ensures Valid()
      ensures formData == old(formData)["userType" := value]
      ensures errors == old(errors)
    {
      formData := formData["userType" := value];
    }

    /** `validateForm`: records the errors of the current data and reports whether there are none. */
    method ValidateForm() returns (valid: bool)
      requires Valid()
      modifies this
      ensures Valid()
      ensures formData == old(formData)
      ensures errors == FormErrors(formType, formData)
      ensures valid <==> RulesPass(formType, formData)
    {
      var newErrors := BuildErrors(formType, formData);
      errors := newErrors;
      NoErrorsIffRulesPass(formType, formData);
      EmptyIffNoKeys(newErrors);
      valid := |newErrors| == 0;
    }

    /** `handleSubmit`: stops when validation fails, otherwise asks for a login with the email
        and password or a registration with the entered data. */
    method HandleSubmit() returns (action: SubmitAction)
      requires Valid()
      modifies this
      ensures Valid() && formData == old(formData) && errors == FormErrors(formType, formData)
      ensures action == Stop <==> !RulesPass(formType, formData)
      ensures action.RequestLogin? ==>
        formType == LoginForm && action == RequestLogin(formData["email"], formData["password"])
      ensures action.RequestRegister? ==>
        formType == RegisterForm &&
        action == RequestRegister(formData["firstName"], formData["lastName"], formData["email"],
                                  formData["password"], formData["userType"])
    {
      var valid := ValidateForm();
      if !valid {
        return Stop;
      }
      if formType == LoginForm {
        action := RequestLogin(formData["email"], formData["password"]);
      } else {
        action := RequestRegister(formData["firstName"], formData["lastName"], formData["email"],
                                  formData["password"], formData["userType"]);
      }
    }
  }
}
