/**
 * Properties that relate several requests, or a view to the forms and
 * checks it is built from.
 */
module Properties {
  import opened Wrappers
  import opened Forms
  import opened Http
  import opened Views

  /** The sign-in form for a username and a password. */
  function Credentials(username: string, password: string): FormData
  {
    map["username" := username, "password" := password]
  }

  /** A visitor who signs up can sign in right after with that username and password1. */
  lemma SignUpThenSignIn(s: State, data: FormData, isEmail: string -> bool)
    requires s.session == None
    requires SignUpForm(data, s.users.Keys, isEmail).Valid?
    ensures
      var d := SignUpForm(data, s.users.Keys, isEmail).data;
      var after := SignUpView(s, Request(Post, data), isEmail).state;
      SignInView(after, Request(Post, Credentials(d.username, d.password1)))
        == Step(State(after.users, Some(d.username)), Redirect(Home, Some(Info(SIGNED_IN))))
  {
  }

  /** Submitting the same sign-up twice: the second is rejected as a duplicate and changes nothing. */
  lemma SignUpTwiceRejected(s: State, data: FormData, isEmail: string -> bool)
    requires s.session == None
    requires SignUpForm(data, s.users.Keys, isEmail).Valid?
    ensures
      var after := SignUpView(s, Request(Post, data), isEmail).state;
      var again := SignUpForm(data, after.users.Keys, isEmail);
      again.Invalid? && FormError("username", Says(USERNAME_TAKEN)) in again.errors
      && SignUpView(after, Request(Post, data), isEmail).state == after
  {
  }

  /**
   * The update view's duplicate check stays false even when the submitted
   * username belongs to another account, while excluding the owner's own
   * username instead would have found that account.
   */
  lemma UpdateDuplicateCheckNeverFires(taken: set<string>, owner: string, name: string)
    requires name in taken && name != owner
    ensures !UpdateDuplicateCheck(taken, name)
    ensures ExcludeUsername(FilterUsername(taken, name), owner) == {name}
  {
  }

  /**
   * The update view never reports a duplicate username: the only errors it
   * renders are the form's field errors, and it fails only when the new
   * username belongs to another account, which its own check lets through.
   */
  lemma UpdateNeverReportsDuplicate(s: State, owner: string, req: Request, isEmail: string -> bool)
    ensures
      var r := UpdateView(s, owner, req, isEmail);
      r.response.Render? && r.response.form.Bound? ==>
        forall e :: e in r.response.form.errors ==> e.problem != Says(UPDATE_DUPLICATE)
    ensures
      var r := UpdateView(s, owner, req, isEmail);
      var form := UpdateForm(req.data, isEmail);
      r.response == ServerError <==>
        (Caller(s) == Some(owner) && req.verb == Post && form.Valid?
         && form.data.username != owner && form.data.username in s.users
         && !UpdateDuplicateCheck(s.users.Keys, form.data.username))
  {
  }

  /**
   * The update form applies no username pattern: an owner can rename
   * themselves to any bounded username the character rule rejects, and the
   * sign-up form rejects that username whatever else is submitted.
   */
  lemma UpdateStoresNameSignUpRejects(s: State, owner: string, u: string, email: string, isEmail: string -> bool)
    requires Caller(s) == Some(owner)
    requires 0 < |u| <= USERNAME_MAX_LENGTH && !MatchesPattern(u)
    requires u == owner || u !in s.users
    requires 0 < |email| <= EMAIL_MAX_LENGTH && isEmail(email)
    ensures
      var r := UpdateView(s, owner, Request(Post, map["username" := u, "email" := email]), isEmail);
      u in r.state.users && r.state.users[u].email == email
      && r.response == Redirect(UserPage(u), Some(Info(UPDATED)))
    ensures FormFieldValidator(u, "Username").Err?
    ensures forall signUp: FormData, taken: set<string> ::
      Value(signUp, "username") == u ==> SignUpForm(signUp, taken, isEmail).Invalid?
  {
  }

  /** After a rename and a sign-out, the user signs in under the new username with the old password. */
  lemma RenamedUserSignsInWithOldPassword(s: State, owner: string, data: FormData, isEmail: string -> bool)
    requires Caller(s) == Some(owner)
    requires UpdateForm(data, isEmail).Valid?
    requires UpdateForm(data, isEmail).data.username == owner || UpdateForm(data, isEmail).data.username !in s.users
    requires 0 < |s.users[owner].password| <= PASSWORD_MAX_LENGTH
    ensures
      var name := UpdateForm(data, isEmail).data.username;
      var renamed := UpdateView(s, owner, Request(Post, data), isEmail).state;
      var signedOut := SignOutView(renamed, Request(Get, map[])).state;
      SignInView(signedOut, Request(Post, Credentials(name, s.users[owner].password))).state == State(renamed.users, Some(name))
  {
  }

  /** Once an account is deleted, its username and any password are refused at sign-in. */
  lemma DeletedUserCannotSignIn(s: State, owner: string, data: FormData, password: string)
    requires Caller(s) == Some(owner)
    requires DeleteForm(data).Valid? && DeleteForm(data).data.username == owner
    requires 0 < |password| <= PASSWORD_MAX_LENGTH
    ensures
      var deleted := DeleteView(s, owner, Request(Post, data)).state;
      SignInView(deleted, Request(Post, Credentials(owner, password)))
        == Step(deleted, Redirect(SignIn, Some(Danger(BAD_CREDENTIALS))))
  {
  }

}
