# Account lifecycle of a small Django site, modelled in Dafny

The site lets a visitor sign up, sign in and sign out, and lets a signed-in
user update or delete their own account. Under the thin controllers there is
a small core, and this project models it:

- **Forms** (`forms.dfy`, module `Forms`). The username character rule
  `form_field_validator` (an empty value passes; a non-empty value must be
  all of `[a-z0-9_.]`). The sign-up form's `clean_username` (the rule, then
  uniqueness against the store) and `clean` (password1 and password2 must
  match when both are present). The declared bounds of the four forms:
  username 100, e-mail 200, passwords 150. The framework's per-field cleaning
  is modelled as "required, then at most max_length". An EmailField also runs
  its format check, which is an opaque predicate `isEmail` passed in. A
  field that was not submitted reads as empty.
- **Access gates** (`mixins.dfy`, module `Mixins`). `AnonymousRequired` and
  `OwnerRequired` are decisions: `Continue`, or `Stop` with the response
  that replaces the handler's (`Redirect(Home, "Access Denied")` with tag
  `danger`, or `NotFound`).
- **Views** (`views.dfy`, module `Views`). The state is a user store
  `map<string, Account>` keyed by username, plus a session (`Option<string>`).
  Each view is a function from a state and a request to a `Step`: the new
  state and the response, with the flash message the response carries. The
  gate composition each view declares comes first (login-required before the
  owner gate). The class `Site` holds the store and the session in fields.
  Its methods run the same views by updating those fields, and each method
  is proved to end in the state and response its view function gives. It
  also keeps the invariant that the session names a stored user or nobody.
- **Properties** (`properties.dfy`, module `Properties`). Lemmas over several
  requests: sign-up then sign-in; sign-up twice; delete then sign-in; rename
  then sign-out then sign-in. Also the two quirks of the update view.

`authenticate` holds when the record exists and its stored password equals
the given one. `login` sets the session to that user; `logout` clears it.
`request.user` is the session's user if that user is still in the store, and
anonymous otherwise.

Modelling decisions:

- The sign-up form applies the username pattern; the update form
  (app/forms.py:66-74) does not apply it, and the model reproduces that
  (`Properties.UpdateStoresNameSignUpRejects`).
- The update view's duplicate check (app/views.py:151) filters and excludes
  the same username, so it is always false (`Views.UpdateDuplicateCheck`, `Properties.UpdateDuplicateCheckNeverFires`).
  Its branch calls `form.add_error` with one argument. That would raise, so
  the model answers `ServerError` there, but the branch is dead.
- With that check dead, renaming onto another account's username reaches
  `save()`. The store is a map keyed by username, so it cannot hold two
  records under one name. The model treats that save as refused: the
  response is `ServerError` and nothing changes.
- `UserUpdateView.setup` looks up the path user before any guard runs. So an
  update of a missing user is `NotFound` even for an anonymous caller. Delete
  checks login first.
- The update keeps the record's password. The caller is the owner, so the
  session keeps naming the same user under the new username. A delete
  removes the caller's own record, and the session then names nobody.
- A view with no handler for the request method answers `MethodNotAllowed`.
  For example, sign-out has only `get`.

## Model

| member | source | states |
|---|---|---|
| `Forms.FullMatch` | app/forms.py:15 | The whole-string match of `^[a-z0-9_.]+$` holds iff the text is non-empty and every character is in `[a-z0-9_.]` |
| `Forms.FormFieldValidator` | app/forms.py:11-17 | Empty input yields no value and no error. A non-empty input is accepted iff every character is in the class. An accepted input is returned unchanged. A rejection carries "<field> must contain only lowercase letters, numbers, underline and dot." |
| `Forms.CleanUsername` | app/forms.py:38-44 | Accepted iff the username passes the character rule and is not in the store. A username already present is rejected with "This username already exists." even when it matches the pattern |
| `Forms.CleanPasswords` | app/forms.py:46-52 | "Passwords must match." is raised iff both cleaned passwords are present, non-empty and different. If either is missing or empty, nothing is raised |
| `Forms.CleanCharField` | app/forms.py:21 | A required bounded text field accepts the value unchanged iff it has between 1 and max_length characters. An empty value is reported as required |
| `Forms.CleanEmailField` | app/forms.py:25 | The e-mail field accepts the value unchanged iff it is non-empty, at most 200 characters and passes the format check |
| `Forms.SignUpUsernameField` | app/forms.py:21-44 | The sign-up username field passes iff the value has 1 to 100 characters, matches the pattern and is not taken. A matching, bounded but taken name fails with exactly the duplicate error |
| `Forms.SignUpForm` | app/forms.py:20-52 | Valid iff: username has 1–100 chars, matches the pattern and is free; e-mail has 1–200 chars and is well-formed; both passwords have 1–150 chars and are equal. The cleaned data is then the submitted values. The mismatch error appears iff both password fields cleaned and differ. A taken name yields the duplicate error |
| `Forms.SignInForm` | app/forms.py:55-63 | Valid iff username has 1–100 characters and password 1–150, and the cleaned data is then the submitted values |
| `Forms.UpdateForm` | app/forms.py:66-74 | Valid iff username has 1–100 characters and e-mail 1–200 and is well-formed. There is no pattern and no uniqueness rule |
| `Forms.DeleteForm` | app/forms.py:77-81 | Valid iff the confirmation username has 1–100 characters; nothing else is checked |
| `Http.Info` | app/views.py:49 | `messages.success(request, text, 'info')` queues a success-level flash with that text and the tag `info` |
| `Http.Danger` | app/mixins.py:12 | `messages.error(request, text, 'danger')` queues an error-level flash with that text and the tag `danger` |
| `Mixins.AnonymousRequired` | app/mixins.py:9-14 | An authenticated caller is always stopped with `Redirect(Home)` and the "Access Denied" danger flash. An anonymous caller always continues to the handler |
| `Mixins.OwnerRequired` | app/mixins.py:17-23 | A path user missing from the store yields `NotFound` whoever the caller is. Otherwise the caller is stopped with "Access Denied" iff they are not that user, and continues iff they are |
| `Views.Caller` | app/mixins.py:11 | The caller is the session's user exactly when that user is in the store, and is anonymous otherwise. When the session names a stored user or nobody, the caller is the session |
| `Views.LoginRequired` | app/views.py:83 | The login-required guard continues iff the caller is signed in, and otherwise answers with the login redirect |
| `Views.FilterUsername` | app/views.py:151 | Filtering the store by a username gives the record of that name if there is one, and nothing otherwise |
| `Views.ExcludeUsername` | app/views.py:151 | Excluding a username from a queryset keeps every other record and only those |
| `Views.UpdateDuplicateCheck` | app/views.py:151 | The update view's `filter(username=n).exclude(username=n).exists()` is false for every store and every username |
| `Views.Authenticate` | app/views.py:70 | Yields the user iff a record exists under the username and its stored password equals the given one |
| `Views.SignUpView` | app/views.py:34-53 | A signed-in caller gets "Access Denied" and nothing changes. A valid sign-up adds exactly one record, under a username that was free, with the given e-mail and password1. Every other record and the session stay the same. The response is `Redirect(SignIn)` with "Successfully signed up". An invalid form re-renders with its errors. In every other case the state is unchanged |
| `Views.SignInView` | app/views.py:56-80 | Never changes the store. Behind the anonymous gate, valid credentials set the session to that user, with `Redirect(Home)` and "Successfully signed in". Wrong credentials leave the state unchanged, with `Redirect(SignIn)` and "Incorrect Username or Password". The session changes only when the credentials authenticate |
| `Views.SignOutView` | app/views.py:83-87 | Anonymous callers get the login redirect. A signed-in GET clears the session, leaves the store unchanged and redirects home with "Successfully signed out" |
| `Views.DeleteView` | app/views.py:90-114 | Login is checked first, then the owner gate (`NotFound` for a missing path user, then "Access Denied"). The owner's POST removes exactly the path record iff the confirmed username equals the path username. Then all other records stay, the session is cleared, and the response redirects home. Otherwise the state is unchanged and the response redirects to the delete page with "Incorrect Username" |
| `Views.UpdateView` | app/views.py:127-161 | A missing path user yields `NotFound` before any guard, then login, then owner. The owner's valid POST re-keys their record to the submitted username with the submitted e-mail and the old password. Other records stay unchanged, the session follows the rename, and the response redirects to the new user page. A rename onto another account fails with nothing changed. Otherwise nothing changes |
| `Views.Site.SignUp` | app/views.py:43-53 | Updates the store fields exactly as `SignUpView` gives and keeps the session invariant |
| `Views.Site.SignIn` | app/views.py:65-80 | Updates the session field exactly as `SignInView` gives and keeps the session invariant |
| `Views.Site.SignOut` | app/views.py:84-87 | Clears the session field as `SignOutView` gives and keeps the session invariant |
| `Views.Site.Delete` | app/views.py:99-114 | Updates the fields exactly as `DeleteView` gives and keeps the session invariant |
| `Views.Site.Update` | app/views.py:131-161 | Looks up the path user as `setup` does, then updates the fields exactly as `UpdateView` gives, and keeps the session invariant |
| `Properties.SignUpThenSignIn` | app/views.py:46-75 | From a signed-out visitor, after a valid sign-up, signing in with that username and password1 sets the session to the new user and redirects home |
| `Properties.SignUpTwiceRejected` | app/forms.py:42-43 | Repeating a successful sign-up is rejected with the duplicate-username error and changes nothing |
| `Properties.UpdateDuplicateCheckNeverFires` | app/views.py:151 | When the submitted username belongs to another account, the check as written is still false. Excluding the owner's own username instead would have found exactly that account |
| `Properties.UpdateNeverReportsDuplicate` | app/views.py:151-158 | The update view never renders an "already exists" error. It fails iff the owner renames onto another account's username, a case its own check lets through |
| `Properties.UpdateStoresNameSignUpRejects` | app/forms.py:66-74 | For every username of 1–100 characters that breaks the character rule and is free or the owner's own, the owner's update to it succeeds and stores it. The character rule and the sign-up form reject that username whatever else is submitted. This holds when the submitted e-mail has 1–200 characters and passes the format check |
| `Properties.RenamedUserSignsInWithOldPassword` | app/views.py:154-158 | After a rename and a sign-out, signing in under the new username with the old password succeeds |
| `Properties.DeletedUserCannotSignIn` | app/views.py:106-107 | After an account is deleted, signing in with its username is refused with "Incorrect Username or Password", whatever password of 1–150 characters is given |

## Left out

- Rendering: templates, `HomeView` and `UserPageView` only render. A render is modelled as the template's name and the form it is given.
- Password hashing: the stored password is compared for equality.
- The framework's e-mail format check is the opaque parameter `isEmail`.
- `create_user`'s normalisation is not modelled. The record keeps the submitted username and e-mail: there is no Unicode normalisation of the username and no lower-casing of the e-mail domain.
- Django strips surrounding whitespace from every CharField and EmailField, the password fields included; the model does not. So `" alice"` is accepted and stored as `alice` by the site but rejected by `FullMatch` here. The null-character validator is not modelled. A missing field and an empty one are the same.
- Only states that satisfy `SessionValid` correspond to the program. Django's session holds the user's primary key, and a stale key never resolves to a new account. This model keys users by username. So on a state where the session names a missing user, signing up under that username would make `Caller` return the new user. `Site` keeps `SessionValid` as its invariant, so such states are never reached. The view functions are still stated for every state.
- The HTTP methods HEAD and OPTIONS are not modelled. Every method other than GET and POST is one `Other` case.
- The message store, URL reversing and the login page's address are abstract outcomes: a route name plus one flash message.
- The database and its exceptions are not modelled. A rename onto a taken username gives `ServerError` with no change, and that stands for the refused save.
- After a delete the model clears the session. The framework keeps the session, but it no longer resolves to a user.
- The commented-out owner-forbidden gate is dead code.
- Concurrency between requests: each request is one sequential step.
