/**
 * The account forms: the username character rule, the sign-up uniqueness and
 * password-confirmation rules, and the declared field length bounds of the
 * sign-up, sign-in, update and delete forms.
 *
 * A bound form is given the submitted fields as a map from field name to
 * text; a missing field reads as the empty text, which the framework treats
 * as "no value". Each declared field is cleaned by the framework (required,
 * at most max_length characters, and for e-mail fields a format check that
 * is opaque here), then by the form's own clean_<field> method, then the
 * form's clean method runs; the form is valid when no error was collected.
 */
module Forms {
  import opened Wrappers

  const USERNAME_MAX_LENGTH: nat := 100
  const EMAIL_MAX_LENGTH: nat := 200
  const PASSWORD_MAX_LENGTH: nat := 150

  /** The key under which form-wide (non-field) errors are reported. */
  const NON_FIELD_ERRORS: string := "__all__"

  const PATTERN_MESSAGE_SUFFIX: string := " must contain only lowercase letters, numbers, underline and dot."
  const USERNAME_TAKEN: string := "This username already exists."
  const PASSWORDS_MISMATCH: string := "Passwords must match."

  /** What is wrong with one field, or with the form as a whole. */
  datatype Problem =
    | Required                          // the framework's "this field is required"
    | TooLong(limit: nat, length: nat)  // the framework's max_length check
    | BadEmail                          // the framework's e-mail format check
    | Says(text: string)                // a ValidationError raised by the form's own code

  datatype FormError = FormError(field: string, problem: Problem)

  /** The result of validating a bound form. */
  datatype Cleaned<T> = Valid(data: T) | Invalid(errors: seq<FormError>)

  type FormData = map<string, string>

  datatype SignUpData = SignUpData(username: string, email: string, password1: string, password2: string)
  datatype SignInData = SignInData(username: string, password: string)
  datatype UpdateData = UpdateData(username: string, email: string)
  datatype DeleteData = DeleteData(username: string)

  /** The submitted text of a field; a field that was not submitted is empty. */
  function Value(data: FormData, name: string): string
  {
    if name in data then data[name] else ""
  }

  // ---------------------------------------------------------------
  // The username character rule
  // ---------------------------------------------------------------

  /** The character class [a-z0-9_.]. */
  predicate AllowedChar(c: char)
  {
    ('a' <= c <= 'z') || ('0' <= c <= '9') || c == '_' || c == '.'
  }

  /** The language of ^[a-z0-9_.]+$: non-empty, and every character in the class. */
  predicate MatchesPattern(s: string)
  {
    |s| > 0 && forall i :: 0 <= i < |s| ==> AllowedChar(s[i])
  }

  /**
   * A recogniser for the whole-string match of ^[a-z0-9_.]+$: one character
   * of the class, followed by either the end of the text or another match.
   */
  function FullMatch(s: string): (b: bool)
    ensures b <==> MatchesPattern(s)
  {
    |s| > 0 && AllowedChar(s[0]) && (|s| == 1 || FullMatch(s[1..]))
  }

  /**
   * form_field_validator: an empty value passes and yields no value; a
   * non-empty value is returned unchanged when it matches the pattern and
   * is otherwise rejected with a message naming the field.
   */
  function FormFieldValidator(value: string, fieldName: string): (r: Result<Option<string>, string>)
    ensures value == "" ==> r == Ok(None)
    ensures value != "" ==> (r.Ok? <==> forall i :: 0 <= i < |value| ==> AllowedChar(value[i]))
    ensures value != "" && r.Ok? ==> r.value == Some(value)
    ensures r.Err? ==> r.error == fieldName + PATTERN_MESSAGE_SUFFIX
  {
    if value == "" then Ok(None)
    else if !FullMatch(value) then Err(fieldName + PATTERN_MESSAGE_SUFFIX)
    else Ok(Some(value))
  }

  /**
   * UserSignUpForm.clean_username: the character rule first, then the
   * username must not already be in the store (taken holds its usernames).
   */
  function CleanUsername(username: string, taken: set<string>): (r: Result<string, string>)
    ensures r.Ok? <==> (username == "" || MatchesPattern(username)) && username !in taken
    ensures r.Ok? ==> r.value == username
    ensures username != "" && !MatchesPattern(username) ==> r == Err("Username" + PATTERN_MESSAGE_SUFFIX)
    ensures MatchesPattern(username) && username in taken ==> r == Err(USERNAME_TAKEN)
  {
    match FormFieldValidator(username, "Username")
    case Err(message) => Err(message)
    case Ok(_) => if username in taken then Err(USERNAME_TAKEN) else Ok(username)
  }

  /** Python truthiness of an optional text: present and non-empty. */
  predicate Truthy(v: Option<string>)
  {
    v.Some? && v.value != ""
  }

  /**
   * UserSignUpForm.clean: the error it raises, if any. The rule fires only
   * when both cleaned passwords are present, non-empty and different.
   */
  function CleanPasswords(password1: Option<string>, password2: Option<string>): (r: Option<string>)
    ensures r.Some? <==> Truthy(password1) && Truthy(password2) && password1.value != password2.value
    ensures r.Some? ==> r.value == PASSWORDS_MISMATCH
    ensures !Truthy(password1) || !Truthy(password2) ==> r == None
  {
    if Truthy(password1) && Truthy(password2) && password1.value != password2.value
    then Some(PASSWORDS_MISMATCH) else None
  }

  // ---------------------------------------------------------------
  // Framework field cleaning
  // ---------------------------------------------------------------

  /** A required CharField with max_length: an empty value is missing, a longer one too long. */
  function CleanCharField(value: string, maxLength: nat): (r: Result<string, seq<Problem>>)
    ensures r.Ok? <==> 0 < |value| <= maxLength
    ensures r.Ok? ==> r.value == value
    ensures value == "" ==> r == Err([Required])
    ensures r.Err? ==> r.error != []
  {
    if value == "" then Err([Required])
    else if |value| > maxLength then Err([TooLong(maxLength, |value|)])
    else Ok(value)
  }

  /**
   * A required EmailField with max_length 200: both validators run, so a
   * value can be reported as malformed and too long at once.
   */
  function CleanEmailField(value: string, isEmail: string -> bool): (r: Result<string, seq<Problem>>)
    ensures r.Ok? <==> 0 < |value| <= EMAIL_MAX_LENGTH && isEmail(value)
    ensures r.Ok? ==> r.value == value
    ensures r.Err? ==> r.error != []
  {
    if value == "" then Err([Required])
    else
      var problems := (if isEmail(value) then [] else [BadEmail])
                      + (if |value| > EMAIL_MAX_LENGTH then [TooLong(EMAIL_MAX_LENGTH, |value|)] else []);
      if problems == [] then Ok(value) else Err(problems)
  }

  /** The errors a field's cleaning adds to the form, under the field's name. */
  function FieldErrors<T>(field: string, r: Result<T, seq<Problem>>): (errors: seq<FormError>)
    requires r.Err? ==> r.error != []
    ensures errors == [] <==> r.Ok?
    ensures forall e :: e in errors ==> e.field == field
    ensures r.Err? ==> |errors| == |r.error| && forall i :: 0 <= i < |errors| ==> errors[i] == FormError(field, r.error[i])
  {
    match r
    case Ok(_) => []
    case Err(problems) => seq(|problems|, i requires 0 <= i < |problems| => FormError(field, problems[i]))
  }

  /** The framework's cleaned value of a field: present only when the field cleaned. */
  function CleanedValue<T>(r: Result<T, seq<Problem>>): Option<T>
  {
    match r
    case Ok(v) => Some(v)
    case Err(_) => None
  }

  // ---------------------------------------------------------------
  // The four forms
  // ---------------------------------------------------------------

  /** The username field of the sign-up form: the CharField, then clean_username. */
  function SignUpUsernameField(value: string, taken: set<string>): (r: Result<string, seq<Problem>>)
    ensures r.Ok? <==> 0 < |value| <= USERNAME_MAX_LENGTH && MatchesPattern(value) && value !in taken
    ensures r.Ok? ==> r.value == value
    ensures r.Err? ==> r.error != []
    ensures MatchesPattern(value) && |value| <= USERNAME_MAX_LENGTH && value in taken ==> r == Err([Says(USERNAME_TAKEN)])
  {
    match CleanCharField(value, USERNAME_MAX_LENGTH)
    case Err(problems) => Err(problems)
    case Ok(v) =>
      match CleanUsername(v, taken)
      case Ok(u) => Ok(u)
      case Err(message) => Err([Says(message)])
  }

  /** UserSignUpForm bound to the submitted data, with the store's usernames. */
  function SignUpForm(data: FormData, taken: set<string>, isEmail: string -> bool): (r: Cleaned<SignUpData>)
    ensures r.Valid? <==>
      var u, e, p1, p2 := Value(data, "username"), Value(data, "email"), Value(data, "password1"), Value(data, "password2");
      0 < |u| <= USERNAME_MAX_LENGTH && MatchesPattern(u) && u !in taken
      && 0 < |e| <= EMAIL_MAX_LENGTH && isEmail(e)
      && 0 < |p1| <= PASSWORD_MAX_LENGTH && 0 < |p2| <= PASSWORD_MAX_LENGTH && p1 == p2
    ensures r.Valid? ==>
      r.data == SignUpData(Value(data, "username"), Value(data, "email"), Value(data, "password1"), Value(data, "password2"))
    ensures r.Invalid? ==> r.errors != []
    ensures
      var p1, p2 := Value(data, "password1"), Value(data, "password2");
      (0 < |p1| <= PASSWORD_MAX_LENGTH && 0 < |p2| <= PASSWORD_MAX_LENGTH && p1 != p2)
      <==> (r.Invalid? && FormError(NON_FIELD_ERRORS, Says(PASSWORDS_MISMATCH)) in r.errors)
    ensures
      var u := Value(data, "username");
      MatchesPattern(u) && |u| <= USERNAME_MAX_LENGTH && u in taken
      ==> r.Invalid? && FormError("username", Says(USERNAME_TAKEN)) in r.errors
  {
    var username := SignUpUsernameField(Value(data, "username"), taken);
    var email := CleanEmailField(Value(data, "email"), isEmail);
    var password1 := CleanCharField(Value(data, "password1"), PASSWORD_MAX_LENGTH);
    var password2 := CleanCharField(Value(data, "password2"), PASSWORD_MAX_LENGTH);
    var formError := CleanPasswords(CleanedValue(password1), CleanedValue(password2));
    var usernameErrors := FieldErrors("username", username);
    var errors := usernameErrors + FieldErrors("email", email)
                  + FieldErrors("password1", password1) + FieldErrors("password2", password2)
                  + (if formError.Some? then [FormError(NON_FIELD_ERRORS, Says(formError.value))] else []);
    assert username == Err([Says(USERNAME_TAKEN)]) ==> usernameErrors[0] in errors;
    if errors == [] then Valid(SignUpData(username.value, email.value, password1.value, password2.value))
    else Invalid(errors)
  }

  /** UserSignInForm: a username and a password, each required and bounded. */
  function SignInForm(data: FormData): (r: Cleaned<SignInData>)
    ensures r.Valid? <==>
      0 < |Value(data, "username")| <= USERNAME_MAX_LENGTH && 0 < |Value(data, "password")| <= PASSWORD_MAX_LENGTH
    ensures r.Valid? ==> r.data == SignInData(Value(data, "username"), Value(data, "password"))
    ensures r.Invalid? ==> r.errors != []
  {
    var username := CleanCharField(Value(data, "username"), USERNAME_MAX_LENGTH);
    var password := CleanCharField(Value(data, "password"), PASSWORD_MAX_LENGTH);
    var errors := FieldErrors("username", username) + FieldErrors("password", password);
    if errors == [] then Valid(SignInData(username.value, password.value)) else Invalid(errors)
  }

  /** UserUpdateForm: only the declared bounds and the e-mail format; no username pattern, no uniqueness. */
  function UpdateForm(data: FormData, isEmail: string -> bool): (r: Cleaned<UpdateData>)
    ensures r.Valid? <==>
      0 < |Value(data, "username")| <= USERNAME_MAX_LENGTH
      && 0 < |Value(data, "email")| <= EMAIL_MAX_LENGTH && isEmail(Value(data, "email"))
    ensures r.Valid? ==> r.data == UpdateData(Value(data, "username"), Value(data, "email"))
    ensures r.Invalid? ==> r.errors != []
  {
    var username := CleanCharField(Value(data, "username"), USERNAME_MAX_LENGTH);
    var email := CleanEmailField(Value(data, "email"), isEmail);
    var errors := FieldErrors("username", username) + FieldErrors("email", email);
    if errors == [] then Valid(UpdateData(username.value, email.value)) else Invalid(errors)
  }

  /** UserDeleteForm: the confirmation username, required and bounded, nothing else. */
  function DeleteForm(data: FormData): (r: Cleaned<DeleteData>)
    ensures r.Valid? <==> 0 < |Value(data, "username")| <= USERNAME_MAX_LENGTH
    ensures r.Valid? ==> r.data == DeleteData(Value(data, "username"))
    ensures r.Invalid? ==> r.errors != []
  {
    var username := CleanCharField(Value(data, "username"), USERNAME_MAX_LENGTH);
    var errors := FieldErrors("username", username);
    if errors == [] then Valid(DeleteData(username.value)) else Invalid(errors)
  }

}
