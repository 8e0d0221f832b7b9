/** The `Login` form of the web application: field updates that clear a field's error,
    the validation of email and password, and the demo credential check on submit. */
module Login {
  import opened Text

  /** A form value: the text of a text input or the state of a checkbox. */
  datatype FormValue = TextValue(s: string) | Checked(b: bool)

  /** The change event of one input: its `name`, and its `value` or `checked` state. */
  datatype InputEvent = TextInput(name: string, value: string) | CheckboxInput(name: string, checked: bool)

  /** What a submission led to. */
  datatype SubmitOutcome = InvalidForm | LoggedIn | Rejected

  const EmailRequired := "Email is required"
  const EmailInvalid := "Please enter a valid email address"
  const PasswordRequired := "Password is required"
  const PasswordTooShort := "Password must be at least 6 characters"

  function InitialFormData(): (r: map<string, FormValue>)
    ensures r.Keys == {"email", "password", "rememberMe"}
  {
    map["email" := TextValue(""), "password" := TextValue(""), "rememberMe" := Checked(false)]
  }

  /** The text held under `key`; the form never stores a checkbox state under the email
      or password keys. */
  function TextOf(formData: map<string, FormValue>, key: string): string {
    if key in formData && formData[key].TextValue? then formData[key].s else ""
  }

  /** Positions `i < j` of an `@` and a later `.` with non-space characters before the
      `@`, between the two and after the `.`. */
  predicate EmailAt(email: string, i: int, j: int) {
    && 0 < i && i + 1 < j && j + 1 < |email|
    && email[i] == '@' && email[j] == '.'
    && !IsSpace(email[i - 1]) && !IsSpace(email[j + 1])
    && forall k :: i < k < j ==> !IsSpace(email[k])
  }

  /** `/\S+@\S+\.\S+/.test(email)`: some substring is non-space text, `@`, non-space
      text, `.`, non-space text. */
  predicate EmailPattern(email: string) {
    exists i, j :: 0 <= i < |email| && 0 <= j < |email| && EmailAt(email, i, j)
  }

  /** The errors `validateForm` records: one entry for the email and one for the
      password when each fails its check. */
  function FormErrors(email: string, password: string): (r: map<string, string>)
    ensures email == "" ==> "email" in r && r["email"] == EmailRequired
    ensures email != "" && !EmailPattern(email) ==> "email" in r && r["email"] == EmailInvalid
    ensures email != "" && EmailPattern(email) ==> "email" !in r
    ensures password == "" ==> "password" in r && r["password"] == PasswordRequired
    ensures password != "" && |password| < 6 ==> "password" in r && r["password"] == PasswordTooShort
    ensures |password| >= 6 ==> "password" !in r
    ensures r.Keys <= {"email", "password"}
  {
    var withEmail: map<string, string> :=
      if email == "" then map["email" := EmailRequired]
      else if !EmailPattern(email) then map["email" := EmailInvalid]
      else map[];
    if password == "" then withEmail["password" := PasswordRequired]
    else if |password| < 6 then withEmail["password" := PasswordTooShort]
    else withEmail
  }

  /** The form is valid exactly when the email has the pattern and the password has at
      least six characters. */
  lemma FormErrorsEmpty(email: string, password: string)
    ensures FormErrors(email, password) == map[] <==> EmailPattern(email) && |password| >= 6
  {
    if EmailPattern(email) {
      var i, j :| EmailAt(email, i, j);
      assert email != "";
    }
    if FormErrors(email, password) != map[] {
      assert "email" in FormErrors(email, password) || "password" in FormErrors(email, password);
    }
  }

  /** The demo credentials pass validation. */
  lemma DemoCredentialsValid()
    ensures FormErrors("demo@example.com", "password") == map[]
  {
    var email := "demo@example.com";
    assert EmailAt(email, 4, 12);
    FormErrorsEmpty(email, "password");
  }

  /** The demo credential check of `handleSubmit`. */
  predicate IsDemoLogin(email: string, password: string) {
    email == "demo@example.com" && password == "password"
  }

  class LoginForm {
    var formData: map<string, FormValue>
    var errors: map<string, string>
    var showError: bool

    constructor()
      ensures formData == InitialFormData() && errors == map[] && !showError
    {
      formData := InitialFormData();
      errors := map[];
      showError := false;
    }

    /** `handleInputChange`: the named field takes the checkbox state or the text, and a
        non-empty error on that field is cleared; nothing else changes. */
    method HandleInputChange(e: InputEvent)
      modifies this
      ensures formData == old(formData)[e.name := (match e case TextInput(_, v) => TextValue(v) case CheckboxInput(_, c) => Checked(c))]
      ensures e.name in old(errors) && old(errors)[e.name] != "" ==> errors == old(errors)[e.name := ""]
      ensures !(e.name in old(errors) && old(errors)[e.name] != "") ==> errors == old(errors)
      ensures forall k :: k != e.name ==> (k in errors <==> k in old(errors)) && (k in errors ==> errors[k] == old(errors)[k])
      ensures showError == old(showError)
    {
      match e {
        case TextInput(name, value) => formData := formData[name := TextValue(value)];
        case CheckboxInput(name, checked) => formData := formData[name := Checked(checked)];
      }
      if e.name in errors && errors[e.name] != "" {
        errors := errors[e.name := ""];
      }
    }

    /** `validateForm`: builds the error record check by check, stores it, and reports
        whether it is empty. */
    method ValidateForm() returns (valid: bool)
      modifies this
      ensures errors == FormErrors(TextOf(formData, "email"), TextOf(formData, "password"))
      ensures valid <==> errors == map[]
      ensures valid <==> EmailPattern(TextOf(formData, "email")) && |TextOf(formData, "password")| >= 6
      ensures formData == old(formData) && showError == old(showError)
    {
      var email, password := TextOf(formData, "email"), TextOf(formData, "password");
      var newErrors: map<string, string> := map[];
      if email == "" {
        newErrors := newErrors["email" := EmailRequired];
      } else if !EmailPattern(email) {
        newErrors := newErrors["email" := EmailInvalid];
      }
      if password == "" {
        newErrors := newErrors["password" := PasswordRequired];
      } else if |password| < 6 {
        newErrors := newErrors["password" := PasswordTooShort];
      }
      errors := newErrors;
      valid := |newErrors.Keys| == 0;
      FormErrorsEmpty(email, password);
    }

    /** `handleSubmit` with its delayed credential check: an invalid form stops at
        validation; a valid one logs in exactly with the demo credentials and shows the
        error otherwise. */
    method HandleSubmit() returns (outcome: SubmitOutcome)
      modifies this
      ensures outcome == LoggedIn <==> IsDemoLogin(TextOf(formData, "email"), TextOf(formData, "password"))
      ensures outcome == InvalidForm <==> errors != map[]
      ensures showError <==> outcome == Rejected
      ensures errors == FormErrors(TextOf(formData, "email"), TextOf(formData, "password"))
      ensures formData == old(formData)
    {
      showError := false;
      var valid := ValidateForm();
      if valid {
        if TextOf(formData, "email") == "demo@example.com" && TextOf(formData, "password") == "password" {
          outcome := LoggedIn;
        } else {
          showError := true;
          outcome := Rejected;
        }
      } else {
        DemoCredentialsValid();
        outcome := InvalidForm;
      }
    }
  }
}
