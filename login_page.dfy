/** The login form (frontend/src/pages/login.jsx): the same email and password
    rules as the signup form, checked before the form is sent to `login`. */
module LoginPage {
  import opened Wrappers
  import opened Credentials

  datatype LoginForm = LoginForm(email: string, password: string)

  /** The inputs, by their `name` attribute; they also key the errors object. */
  datatype Field = Email | Password

  function Get(form: LoginForm, f: Field): string
  {
    match f
    case Email => form.email
    case Password => form.password
  }

  /** `validate`: both rules are checked, and the form is valid exactly when
      neither failed. */
  method Validate(form: LoginForm) returns (valid: bool, errors: map<Field, string>)
    ensures errors.Keys <= {Email, Password}
    ensures Email in errors <==> EmailError(form.email).Some?
    ensures Email in errors ==> errors[Email] == EmailError(form.email).value
    ensures Password in errors <==> PasswordError(form.password).Some?
    ensures Password in errors ==> errors[Password] == PasswordError(form.password).value
    ensures valid <==> EmailError(form.email).None? && PasswordError(form.password).None?
    ensures valid <==> errors == map[]
  {
    valid := true;
    errors := map[];
    var emailError := EmailError(form.email);
    if emailError.Some? {
      errors := errors[Email := emailError.value];
      valid := false;
    }
    var passwordError := PasswordError(form.password);
    if passwordError.Some? {
      errors := errors[Password := passwordError.value];
      valid := false;
    }
    if !valid {
      assert Email in errors || Password in errors;
    }
  }

  /** `handleChange`: store the typed value in its field and hide that
      field's error; the other field and every other error are kept. */
  function HandleChange(form: LoginForm, errors: map<Field, string>, f: Field, value: string)
    : (r: (LoginForm, map<Field, string>))
    ensures Get(r.0, f) == value
    ensures forall g :: g != f ==> Get(r.0, g) == Get(form, g)
    ensures r.1 == ClearError(errors, f)
  {
    var form' := match f
      case Email => form.(email := value)
      case Password => form.(password := value);
    (form', ClearError(errors, f))
  }
}
