/** The field rules the signup and login pages share (frontend/src/pages/Signup.jsx
    and frontend/src/pages/login.jsx). Each rule gives the message it shows, or
    nothing when the field passes. */
module Credentials {
  import opened Wrappers
  import opened Text

  const MinPasswordLength: nat := 6

  const NameRequired := "Name is required"
  const EmailRequired := "Email is required"
  const InvalidEmailFormat := "Invalid email format"
  const PasswordRequired := "Password is required"
  const PasswordTooShort := "Password must be at least 6 characters"
  const PasswordsDiffer := "Passwords do not match"

  /** A blank name, after trimming, is refused. */
  function NameError(name: string): Option<string>
  {
    if Trim(name) == "" then Some(NameRequired) else None
  }

  /** A blank email is missing; any other must pass the pattern test, which
      runs on the untrimmed text. */
  function EmailError(email: string): Option<string>
  {
    if Trim(email) == "" then Some(EmailRequired)
    else if !HasEmailShape(email) then Some(InvalidEmailFormat)
    else None
  }

  /** A blank password is missing; any other needs six characters, counted
      with its white space. */
  function PasswordError(password: string): Option<string>
  {
    if Trim(password) == "" then Some(PasswordRequired)
    else if |password| < MinPasswordLength then Some(PasswordTooShort)
    else None
  }

  /** The name rule in terms of the characters: only an all-white-space name
      is refused. */
  lemma NameRule(name: string)
    ensures NameError(name).None? <==> !Blank(name)
    ensures NameError(name).Some? ==> NameError(name).value == NameRequired
  {
    TrimEmptyIffBlank(name);
  }

  /** The email rule in terms of the characters: "required" exactly for a
      blank email, "invalid" exactly for a non-blank one the pattern rejects,
      and accepted exactly when the pattern matches. */
  lemma EmailRule(email: string)
    ensures EmailError(email) == Some(EmailRequired) <==> Blank(email)
    ensures EmailError(email) == Some(InvalidEmailFormat) <==> !Blank(email) && !HasEmailShape(email)
    ensures EmailError(email).None? <==> HasEmailShape(email)
  {
    TrimEmptyIffBlank(email);
    if HasEmailShape(email) {
      EmailShapeNotBlank(email);
    }
  }

  /** The password rule in terms of the characters. */
  lemma PasswordRule(password: string)
    ensures PasswordError(password) == Some(PasswordRequired) <==> Blank(password)
    ensures PasswordError(password) == Some(PasswordTooShort) <==>
      !Blank(password) && |password| < MinPasswordLength
    ensures PasswordError(password).None? <==> !Blank(password) && |password| >= MinPasswordLength
  {
    TrimEmptyIffBlank(password);
  }

  /** The length test counts the spaces around a password: two letters
      padded to six characters pass. */
  lemma PaddedPasswordPasses()
    ensures PasswordError("  ab  ").None?
  {
    var padded := "  ab  ";
    assert !IsSpace(padded[2]);
    PasswordRule(padded);
  }

  /** Six spaces are a missing password, not a long enough one. */
  lemma SpacesPasswordRequired()
    ensures PasswordError("      ") == Some(PasswordRequired)
  {
    var spaces := "      ";
    assert Blank(spaces) by {
      forall k | 0 <= k < |spaces| ensures IsSpace(spaces[k]) {
        assert spaces[k] == ' ';
      }
    }
    PasswordRule(spaces);
  }

  /** Two letters are too short. */
  lemma ShortPasswordTooShort()
    ensures PasswordError("ab") == Some(PasswordTooShort)
  {
    var short := "ab";
    assert !IsSpace(short[0]);
    PasswordRule(short);
  }

  /** An error is on screen when its entry is present and non-empty. */
  predicate Shown<K>(errors: map<K, string>, key: K)
  {
    key in errors && errors[key] != ""
  }

  /** `setErrors({ ...errors, [name]: "" })`: that field's error is hidden and
      every other entry is kept. */
  function ClearError<K(!new)>(errors: map<K, string>, key: K): (r: map<K, string>)
    ensures !Shown(r, key) && key in r
    ensures forall k :: k != key ==> (k in r <==> k in errors) && (k in r ==> r[k] == errors[k])
  {
    errors[key := ""]
  }
}
