/**
 * The registration form (src/pages/public/Register.tsx): one rule chain per
 * field, the first failing rule naming the field's error; the form is valid
 * when no field has an error, and only a valid form is submitted.  The
 * password-strength score comes from a library and is an input in 0..4.
 */
module Register {
  import opened Domain
  import Text

  /** A password-strength score as the strength library reports it. */
  newtype Score = x: int | 0 <= x <= 4

  /** The keys of the error record. */
  datatype Field = Name | Email | Password | ConfirmPassword | General

  /** A character the name pattern `^[a-zA-Z\s'-]+$` admits. */
  predicate IsNameChar(c: char)
  {
    Text.IsAsciiLetter(c) || Text.IsWhitespace(c) || c == '\'' || c == '-'
  }

  predicate HasDigit(s: string)
  {
    exists i :: 0 <= i < |s| && Text.IsDigit(s[i])
  }

  /** Every character is one the name pattern admits. */
  predicate AllNameChars(name: string)
  {
    forall i :: 0 <= i < |name| ==> IsNameChar(name[i])
  }

  /**
   * The rule chain for the name.  The character rule comes before the length
   * rules, so a one-character name with a bad character is reported as invalid.
   */
  function NameError(name: string): (err: Option<string>)
    ensures err == Some("Name is required") <==> Text.IsBlank(name)
    ensures !Text.IsBlank(name) && HasDigit(name) ==> err == Some("Name should not contain numbers")
    ensures !Text.IsBlank(name) && !HasDigit(name) && !AllNameChars(name) ==>
      err == Some("Name contains invalid characters")
    ensures !Text.IsBlank(name) && !HasDigit(name) && AllNameChars(name) && |name| < 2 ==>
      err == Some("Name is too short")
    ensures !Text.IsBlank(name) && !HasDigit(name) && AllNameChars(name) && |name| > 50 ==>
      err == Some("Name is too long")
    ensures err.None? <==> !Text.IsBlank(name) && 2 <= |name| <= 50 && AllNameChars(name)
  {
    if Text.IsBlank(name) then Some("Name is required")
    else if HasDigit(name) then Some("Name should not contain numbers")
    else if !(|name| > 0 && AllNameChars(name)) then Some("Name contains invalid characters")
    else if |name| < 2 then Some("Name is too short")
    else if |name| > 50 then Some("Name is too long")
    else None
  }

  /** A non-empty run of characters other than whitespace and '@' (`[^\s@]+`). */
  predicate Plain(s: string)
  {
    |s| > 0 && forall i :: 0 <= i < |s| ==> !Text.IsWhitespace(s[i]) && s[i] != '@'
  }

  /**
   * The email pattern `^[^\s@]+@[^\s@]+\.[^\s@]+$`: the text splits at an '@'
   * (index `a`) and a later '.' (index `d`) into three plain runs.
   */
  predicate EmailPattern(e: string)
  {
    exists a: nat, d: nat :: a < d < |e| && e[a] == '@' && e[d] == '.' &&
      Plain(e[..a]) && Plain(e[a + 1..d]) && Plain(e[d + 1..])
  }

  /** The shape of an accepted address, stated directly. */
  predicate EmailShape(e: string)
  {
    (forall i :: 0 <= i < |e| ==> !Text.IsWhitespace(e[i])) &&
    exists a: nat :: 0 < a < |e| && e[a] == '@' && (forall i :: 0 <= i < |e| && i != a ==> e[i] != '@') &&
      exists d: nat :: a + 1 < d < |e| - 1 && e[d] == '.'
  }

  /**
   * An address matches the pattern exactly when it has no whitespace and one
   * '@', not first, followed by a '.' that is neither the first nor the last
   * character after it.
   */
  lemma EmailPatternShape(e: string)
    ensures EmailPattern(e) <==> EmailShape(e)
  {
    if EmailPattern(e) {
      PatternHasShape(e);
    }
    if EmailShape(e) {
      ShapeHasPattern(e);
    }
  }

  /** A match of the pattern has the shape. */
  lemma PatternHasShape(e: string)
    requires EmailPattern(e)
    ensures EmailShape(e)
  {
    var a: nat, d: nat :| a < d < |e| && e[a] == '@' && e[d] == '.' &&
      Plain(e[..a]) && Plain(e[a + 1..d]) && Plain(e[d + 1..]);
    forall i | 0 <= i < |e|
      ensures !Text.IsWhitespace(e[i]) && (i != a ==> e[i] != '@')
    {
      if i < a {
        assert e[..a][i] == e[i];
      } else if a < i < d {
        assert e[a + 1..d][i - a - 1] == e[i];
      } else if d < i {
        assert e[d + 1..][i - d - 1] == e[i];
      }
    }
    assert a + 1 < d < |e| - 1 by {
      assert |e[a + 1..d]| > 0 && |e[d + 1..]| > 0;
    }
  }

  /** An address of that shape matches the pattern, splitting at its '@' and a '.' after it. */
  lemma ShapeHasPattern(e: string)
    requires EmailShape(e)
    ensures EmailPattern(e)
  {
    var a: nat :| 0 < a < |e| && e[a] == '@' && (forall i :: 0 <= i < |e| && i != a ==> e[i] != '@') &&
      exists d: nat :: a + 1 < d < |e| - 1 && e[d] == '.';
    var d: nat :| a + 1 < d < |e| - 1 && e[d] == '.';
    var local, domain, suffix := e[..a], e[a + 1..d], e[d + 1..];
    forall k | 0 <= k < |local|
      ensures !Text.IsWhitespace(local[k]) && local[k] != '@'
    {
      assert local[k] == e[k];
    }
    forall k | 0 <= k < |domain|
      ensures !Text.IsWhitespace(domain[k]) && domain[k] != '@'
    {
      assert domain[k] == e[a + 1 + k];
    }
    forall k | 0 <= k < |suffix|
      ensures !Text.IsWhitespace(suffix[k]) && suffix[k] != '@'
    {
      assert suffix[k] == e[d + 1 + k];
    }
    assert Plain(local) && Plain(domain) && Plain(suffix);
  }

  /** The rule chain for the email address. */
  function EmailError(email: string): (err: Option<string>)
    ensures err == Some("Email is required") <==> email == ""
    ensures email != "" && !EmailShape(email) ==> err == Some("Invalid email format")
    ensures err.None? <==> EmailShape(email)
  {
    EmailPatternShape(email);
    if email == "" then Some("Email is required")
    else if !EmailPattern(email) then Some("Invalid email format")
    else None
  }

  /** The rule chain for the password; the length message says 8 while the rule is 6. */
  function PasswordError(password: string, score: Score): (err: Option<string>)
    ensures err == Some("Password is required") <==> password == ""
    ensures err == Some("Password must be at least 8 characters") <==> 0 < |password| < 6
    ensures |password| >= 6 && score < 1 ==> err == Some("Password is too weak")
    ensures err.None? <==> |password| >= 6 && score >= 1
  {
    if password == "" then Some("Password is required")
    else if |password| < 6 then Some("Password must be at least 8 characters")
    else if score < 1 then Some("Password is too weak")
    else None
  }

  /** The confirmation rule. */
  function ConfirmError(password: string, confirm: string): (err: Option<string>)
    ensures err.Some? <==> password != confirm
    ensures err.Some? ==> err.value == "Passwords do not match"
  {
    if password != confirm then Some("Passwords do not match") else None
  }

  /** `errors` records, for each field, the error its rule chain gives, and nothing else. */
  ghost predicate Reports(errors: map<Field, string>, name: string, email: string, password: string,
                          confirm: string, score: Score)
  {
    errors.Keys <= {Name, Email, Password, ConfirmPassword} &&
    (Name in errors <==> NameError(name).Some?) && (Name in errors ==> errors[Name] == NameError(name).value) &&
    (Email in errors <==> EmailError(email).Some?) && (Email in errors ==> errors[Email] == EmailError(email).value) &&
    (Password in errors <==> PasswordError(password, score).Some?) &&
    (Password in errors ==> errors[Password] == PasswordError(password, score).value) &&
    (ConfirmPassword in errors <==> ConfirmError(password, confirm).Some?) &&
    (ConfirmPassword in errors ==> errors[ConfirmPassword] == ConfirmError(password, confirm).value)
  }

  /**
   * `validateForm`: runs the four rule chains into a fresh record; the form
   * is valid when the record stays empty.
   */
  method ValidateForm(name: string, email: string, password: string, confirm: string, score: Score)
    returns (errors: map<Field, string>, valid: bool)
    ensures Reports(errors, name, email, password, confirm, score)
    ensures valid <==> errors == map[]
    ensures valid <==>
      NameError(name).None? && EmailError(email).None? && PasswordError(password, score).None? && password == confirm
    ensures ConfirmPassword in errors <==> password != confirm
  {
    errors := map[];
    var nameError := NameError(name);
    if nameError.Some? {
      errors := errors[Name := nameError.value];
    }
    var emailError := EmailError(email);
    if emailError.Some? {
      errors := errors[Email := emailError.value];
    }
    var passwordError := PasswordError(password, score);
    if passwordError.Some? {
      errors := errors[Password := passwordError.value];
    }
    if password != confirm {
      errors := errors[ConfirmPassword := "Passwords do not match"];
    }
    valid := |errors.Keys| == 0;
    if !valid {
      assert errors != map[];
    } else {
      assert errors.Keys == {};
    }
  }

  /** The general error shown when the provider rejects a valid form. */
  function SubmitErrorMessage(message: string): (general: string)
    ensures message == "Firebase: Error (auth/email-already-in-use)." ==> general == "Email already in use. Please try another one."
    ensures message == "Firebase: Error (auth/invalid-email)." ==> general == "Invalid email address. Please check your email."
    ensures message == "Firebase: Error (auth/weak-password)." ==> general == "Password should be at least 6 characters."
    ensures general == "Registration failed. Please try again." <==>
      message !in {"Firebase: Error (auth/email-already-in-use).", "Firebase: Error (auth/invalid-email).",
                   "Firebase: Error (auth/weak-password)."}
  {
    if message == "Firebase: Error (auth/email-already-in-use)." then "Email already in use. Please try another one."
    else if message == "Firebase: Error (auth/invalid-email)." then "Invalid email address. Please check your email."
    else if message == "Firebase: Error (auth/weak-password)." then "Password should be at least 6 characters."
    else "Registration failed. Please try again."
  }

  class RegisterPage {
    var errors: map<Field, string>
    var loading: bool

    constructor ()
      ensures errors == map[] && !loading
    {
      errors, loading := map[], false;
    }

    /**
     * `handleSubmit`.  `outcome` is what `register` does: `None` when it
     * resolves, `Some(m)` when it throws an error with message `m`.
     * `called` says whether `register` was invoked.
     */
    method HandleSubmit(name: string, email: string, password: string, confirm: string, score: Score,
                        outcome: Option<string>)
      returns (called: bool)
      modifies this
      ensures called <==>
        NameError(name).None? && EmailError(email).None? && PasswordError(password, score).None? && password == confirm
      ensures !called ==> Reports(errors, name, email, password, confirm, score) && errors != map[] && loading == old(loading)
      ensures called && outcome.None? ==> errors == map[] && !loading
      ensures called && outcome.Some? ==> errors == map[General := SubmitErrorMessage(outcome.value)] && !loading
    {
      var newErrors, valid := ValidateForm(name, email, password, confirm, score);
      errors := newErrors;
      if !valid {
        called := false;
        return;
      }
      called := true;
      loading := true;
      errors := map[];
      if outcome.Some? {
        errors := map[General := SubmitErrorMessage(outcome.value)];
      }
      loading := false;
    }
  }
}
