/** The signup form (frontend/src/pages/Signup.jsx): four fields, checked rule
    by rule into an errors object before the form is sent to `register`. */
module SignupPage {
  import opened Wrappers
  import opened Credentials

  datatype SignupForm = SignupForm(name: string, email: string, password: string, confirmPassword: string)

  /** The inputs, by their `name` attribute; they also key the errors object. */
  datatype Field = Name | Email | Password | ConfirmPassword

  function Get(form: SignupForm, f: Field): string
  {
    match f
    case Name => form.name
    case Email => form.email
    case Password => form.password
    case ConfirmPassword => form.confirmPassword
  }

  /** `validate`: every rule is checked, each failure records its message,
      and the form is valid exactly when none failed. The confirmation is
      compared whatever the other rules say. */
  method Validate(form: SignupForm) returns (valid: bool, errors: map<Field, string>)
    ensures errors.Keys <= {Name, Email, Password, ConfirmPassword}
    ensures Name in errors <==> NameError(form.name).Some?
    ensures Name in errors ==> errors[Name] == NameError(form.name).value
    ensures Email in errors <==> EmailError(form.email).Some?
    ensures Email in errors ==> errors[Email] == EmailError(form.email).value
    ensures Password in errors <==> PasswordError(form.password).Some?
    ensures Password in errors ==> errors[Password] == PasswordError(form.password).value
    ensures ConfirmPassword in errors <==> form.password != form.confirmPassword
    ensures ConfirmPassword in errors ==> errors[ConfirmPassword] == PasswordsDiffer
    ensures valid <==> && NameError(form.name).None? && EmailError(form.email).None?
                       && PasswordError(form.password).None? && form.password == form.confirmPassword
    ensures valid <==> errors == map[]
  {
    valid, errors := Collect(NameError(form.name), EmailError(form.email), PasswordError(form.password),
                             form.password != form.confirmPassword);
  }

  /** The steps of `validate`, given what each rule found: a failing rule
      records its message under its field and clears `valid`. */
  method Collect(nameError: Option<string>, emailError: Option<string>, passwordError: Option<string>,
                 mismatch: bool)
    returns (valid: bool, errors: map<Field, string>)
    ensures errors.Keys <= {Name, Email, Password, ConfirmPassword}
    ensures Name in errors <==> nameError.Some?
    ensures Name in errors ==> errors[Name] == nameError.value
    ensures Email in errors <==> emailError.Some?
    ensures Email in errors ==> errors[Email] == emailError.value
    ensures Password in errors <==> passwordError.Some?
    ensures Password in errors ==> errors[Password] == passwordError.value
    ensures ConfirmPassword in errors <==> mismatch
    ensures ConfirmPassword in errors ==> errors[ConfirmPassword] == PasswordsDiffer
    ensures valid <==> nameError.None? && emailError.None? && passwordError.None? && !mismatch
    ensures valid <==> errors == map[]
  {
    valid := true;
    errors := map[];
    if nameError.Some? {
      errors := errors[Name := nameError.value];
      valid := false;
    }
    if emailError.Some? {
      errors := errors[Email := emailError.value];
      valid := false;
    }
    if passwordError.Some? {
      errors := errors[Password := passwordError.value];
      valid := false;
    }
    if mismatch {
      errors := errors[ConfirmPassword := PasswordsDiffer];
      valid := false;
    }
    if !valid {
      assert Name in errors || Email in errors || Password in errors || ConfirmPassword in errors;
    }
  }

  /** `handleChange`: store the typed value in its field and hide that
      field's error; every other field and error is kept. */
  function HandleChange(form: SignupForm, errors: map<Field, string>, f: Field, value: string)
    : (r: (SignupForm, map<Field, string>))
    ensures Get(r.0, f) == value
    ensures forall g :: g != f ==> Get(r.0, g) == Get(form, g)
    ensures r.1 == ClearError(errors, f)
  {
    var form' := match f
      case Name => form.(name := value)
      case Email => form.(email := value)
      case Password => form.(password := value)
      case ConfirmPassword => form.(confirmPassword := value);
    (form', ClearError(errors, f))
  }
}
