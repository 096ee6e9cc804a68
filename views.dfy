/**
 * The account views as transitions of (user store, session).
 *
 * The store maps each username to its record; the session holds the
 * username of the signed-in user, if any. The framework's authenticate,
 * login and logout, and the ORM calls, are modelled as reads and updates of
 * these two. Each view function gives the step one request makes: the new
 * state and the response. The class Site holds the same state in fields
 * and runs the views as methods that update them.
 */
module Views {
  import opened Wrappers
  import opened Forms
  import opened Http
  import opened Mixins

  /** A user record; the password stands for what the identity store keeps. */
  datatype Account = Account(email: string, password: string)

  type Store = map<string, Account>

  datatype State = State(users: Store, session: Option<string>)

  datatype Step = Step(state: State, response: Response)

  const SIGNED_UP: string := "Successfully signed up"
  const SIGNED_IN: string := "Successfully signed in"
  const BAD_CREDENTIALS: string := "Incorrect Username or Password"
  const SIGNED_OUT: string := "Successfully signed out"
  const DELETED: string := "Successfully deleted account"
  const INCORRECT_USERNAME: string := "Incorrect Username"
  const UPDATED: string := "Successfully updated account"
  /** The text the update view would add as a form error if its duplicate check fired. */
  const UPDATE_DUPLICATE: string := "This username already exists"

  /** The session names a user that is in the store, or nobody. */
  predicate SessionValid(s: State)
  {
    s.session.Some? ==> s.session.value in s.users
  }

  /**
   * request.user: the session's user when that user is in the store;
   * otherwise the caller is anonymous.
   */
  function Caller(s: State): (c: Option<string>)
    ensures c.Some? ==> c.value in s.users && c == s.session
    ensures SessionValid(s) ==> c == s.session
  {
    if s.session.Some? && s.session.value in s.users then s.session else None
  }

  /** The framework's login-required guard: an anonymous caller is sent to the login page. */
  function LoginRequired(caller: Option<string>): (d: Decision)
    ensures d == Continue <==> caller.Some?
    ensures d.Stop? ==> d.response == LoginRedirect
  {
    if caller.Some? then Continue else Stop(LoginRedirect)
  }

  /** authenticate: the user whose record exists and whose stored password is the one given. */
  function Authenticate(users: Store, username: string, password: string): (r: Option<string>)
    ensures r.Some? <==> username in users && users[username].password == password
    ensures r.Some? ==> r.value == username
  {
    if username in users && users[username].password == password then Some(username) else None
  }

  /** A queryset over the store filtered by username == name: at most the one record of that name. */
  function FilterUsername(q: set<string>, name: string): (r: set<string>)
    ensures r == (if name in q then {name} else {})
  {
    set u | u in q && u == name
  }

  /** A queryset with the records of username == name excluded: every other record. */
  function ExcludeUsername(q: set<string>, name: string): (r: set<string>)
    ensures r == q - {name}
  {
    set u | u in q && u != name
  }

  /**
   * The update view's duplicate check, as written: filter and exclude the
   * same username, then exists(). It is false for every store.
   */
  predicate UpdateDuplicateCheck(taken: set<string>, name: string): (fires: bool)
    ensures !fires
  {
    ExcludeUsername(FilterUsername(taken, name), name) != {}
  }

  // ---------------------------------------------------------------
  // The views
  // ---------------------------------------------------------------

  /** UserSignUpView behind the anonymous gate. */
  function SignUpView(s: State, req: Request, isEmail: string -> bool): (r: Step)
    ensures Caller(s).Some? ==> r == Step(s, ACCESS_DENIED)
    ensures Caller(s).None? && req.verb == Get ==> r == Step(s, Render(SignUpPage, Blank))
    ensures Caller(s).None? && req.verb == Other ==> r == Step(s, MethodNotAllowed)
    ensures
      var form := SignUpForm(req.data, s.users.Keys, isEmail);
      Caller(s).None? && req.verb == Post && form.Invalid? ==> r == Step(s, Render(SignUpPage, Bound(form.errors)))
    ensures
      var form := SignUpForm(req.data, s.users.Keys, isEmail);
      if Caller(s).None? && req.verb == Post && form.Valid? then
        var d := form.data;
        d.username !in s.users
        && r.state.users.Keys == s.users.Keys + {d.username}
        && r.state.users[d.username] == Account(d.email, d.password1)
        && (forall k :: k in s.users ==> r.state.users[k] == s.users[k])
        && r.state.session == s.session
        && r.response == Redirect(SignIn, Some(Info(SIGNED_UP)))
      else
        r.state == s
    ensures SessionValid(s) ==> SessionValid(r.state)
  {
    match AnonymousRequired(Caller(s))
    case Stop(response) => Step(s, response)
    case Continue =>
      match req.verb
      case Get => Step(s, Render(SignUpPage, Blank))
      case Other => Step(s, MethodNotAllowed)
      case Post =>
        match SignUpForm(req.data, s.users.Keys, isEmail)
        case Invalid(errors) => Step(s, Render(SignUpPage, Bound(errors)))
        case Valid(d) =>
          Step(State(s.users[d.username := Account(d.email, d.password1)], s.session),
               Redirect(SignIn, Some(Info(SIGNED_UP))))
  }

  /** UserSignInView behind the anonymous gate. */
  function SignInView(s: State, req: Request): (r: Step)
    ensures Caller(s).Some? ==> r == Step(s, ACCESS_DENIED)
    ensures Caller(s).None? && req.verb == Get ==> r == Step(s, Render(SignInPage, Blank))
    ensures Caller(s).None? && req.verb == Other ==> r == Step(s, MethodNotAllowed)
    ensures
      var form := SignInForm(req.data);
      Caller(s).None? && req.verb == Post && form.Invalid? ==> r == Step(s, Render(SignInPage, Bound(form.errors)))
    ensures r.state.users == s.users
    ensures
      var form := SignInForm(req.data);
      Caller(s).None? && req.verb == Post && form.Valid? ==>
        var d := form.data;
        if d.username in s.users && s.users[d.username].password == d.password then
          r.state.session == Some(d.username) && r.response == Redirect(Home, Some(Info(SIGNED_IN)))
        else
          r == Step(s, Redirect(SignIn, Some(Danger(BAD_CREDENTIALS))))
    ensures r.state != s ==>
      Caller(s).None? && req.verb == Post && SignInForm(req.data).Valid?
      && Authenticate(s.users, SignInForm(req.data).data.username, SignInForm(req.data).data.password).Some?
    ensures SessionValid(s) ==> SessionValid(r.state)
  {
    match AnonymousRequired(Caller(s))
    case Stop(response) => Step(s, response)
    case Continue =>
      match req.verb
      case Get => Step(s, Render(SignInPage, Blank))
      case Other => Step(s, MethodNotAllowed)
      case Post =>
        match SignInForm(req.data)
        case Invalid(errors) => Step(s, Render(SignInPage, Bound(errors)))
        case Valid(d) =>
          match Authenticate(s.users, d.username, d.password)
          case Some(user) => Step(State(s.users, Some(user)), Redirect(Home, Some(Info(SIGNED_IN))))
          case None => Step(s, Redirect(SignIn, Some(Danger(BAD_CREDENTIALS))))
  }

  /** UserSignOutView behind the login-required guard; it has a GET handler only. */
  function SignOutView(s: State, req: Request): (r: Step)
    ensures Caller(s).None? ==> r == Step(s, LoginRedirect)
    ensures Caller(s).Some? && req.verb == Get ==>
      r.state.session == None && r.response == Redirect(Home, Some(Info(SIGNED_OUT)))
    ensures Caller(s).Some? && req.verb != Get ==> r == Step(s, MethodNotAllowed)
    ensures r.state.users == s.users
    ensures SessionValid(s) ==> SessionValid(r.state)
  {
    match LoginRequired(Caller(s))
    case Stop(response) => Step(s, response)
    case Continue =>
      match req.verb
      case Get => Step(State(s.users, None), Redirect(Home, Some(Info(SIGNED_OUT))))
      case _ => Step(s, MethodNotAllowed)
  }

  /**
   * UserDeleteView behind the login-required guard, then the owner gate,
   * for the user named in the path. The deleted user was the caller, whose
   * session then names nobody.
   */
  function DeleteView(s: State, owner: string, req: Request): (r: Step)
    ensures Caller(s).None? ==> r == Step(s, LoginRedirect)
    ensures Caller(s).Some? && owner !in s.users ==> r == Step(s, NotFound)
    ensures Caller(s).Some? && owner in s.users && Caller(s) != Some(owner) ==> r == Step(s, ACCESS_DENIED)
    ensures Caller(s) == Some(owner) && req.verb == Get ==> r == Step(s, Render(DeletePage, Blank))
    ensures Caller(s) == Some(owner) && req.verb == Other ==> r == Step(s, MethodNotAllowed)
    ensures
      var form := DeleteForm(req.data);
      Caller(s) == Some(owner) && req.verb == Post ==>
        (form.Invalid? ==> r == Step(s, Render(DeletePage, Bound(form.errors))))
        && (form.Valid? && form.data.username != owner ==>
              r == Step(s, Redirect(UserDelete(owner), Some(Danger(INCORRECT_USERNAME)))))
    ensures
      var form := DeleteForm(req.data);
      if Caller(s) == Some(owner) && req.verb == Post && form.Valid? && form.data.username == owner then
        r.state.users.Keys == s.users.Keys - {owner}
        && (forall k :: k in r.state.users ==> r.state.users[k] == s.users[k])
        && r.state.session == None
        && r.response == Redirect(Home, Some(Info(DELETED)))
      else
        r.state == s
    ensures SessionValid(s) ==> SessionValid(r.state)
  {
    match LoginRequired(Caller(s))
    case Stop(response) => Step(s, response)
    case Continue =>
      match OwnerRequired(s.users.Keys, Caller(s), owner)
      case Stop(response) => Step(s, response)
      case Continue =>
        match req.verb
        case Get => Step(s, Render(DeletePage, Blank))
        case Other => Step(s, MethodNotAllowed)
        case Post =>
          match DeleteForm(req.data)
          case Invalid(errors) => Step(s, Render(DeletePage, Bound(errors)))
          case Valid(d) =>
            if owner !in s.users then Step(s, NotFound)
            else if owner == d.username then
              Step(State(s.users - {owner}, None), Redirect(Home, Some(Info(DELETED))))
            else
              Step(s, Redirect(UserDelete(Caller(s).value), Some(Danger(INCORRECT_USERNAME))))
  }

  /**
   * UserUpdateView: its setup looks up the path user before any guard runs,
   * then the login-required guard and the owner gate, then the handler. The
   * record is renamed and its e-mail replaced, its password kept; the session
   * keeps naming the same (renamed) user. The duplicate check never fires;
   * a rename onto another account's username is refused by the store's
   * unique key and the request fails with nothing changed.
   */
  function UpdateView(s: State, owner: string, req: Request, isEmail: string -> bool): (r: Step)
    ensures owner !in s.users ==> r == Step(s, NotFound)
    ensures owner in s.users && Caller(s).None? ==> r == Step(s, LoginRedirect)
    ensures owner in s.users && Caller(s).Some? && Caller(s) != Some(owner) ==> r == Step(s, ACCESS_DENIED)
    ensures Caller(s) == Some(owner) && req.verb == Get ==>
      r == Step(s, Render(UpdatePage, Initial(owner, s.users[owner].email)))
    ensures Caller(s) == Some(owner) && req.verb == Other ==> r == Step(s, MethodNotAllowed)
    ensures
      var form := UpdateForm(req.data, isEmail);
      Caller(s) == Some(owner) && req.verb == Post ==>
        (form.Invalid? ==> r == Step(s, Render(UpdatePage, Bound(form.errors))))
        && (form.Valid? && form.data.username != owner && form.data.username in s.users ==> r == Step(s, ServerError))
    ensures
      var form := UpdateForm(req.data, isEmail);
      if Caller(s) == Some(owner) && req.verb == Post && form.Valid?
         && (form.data.username == owner || form.data.username !in s.users) then
        var d := form.data;
        r.state.users.Keys == s.users.Keys - {owner} + {d.username}
        && r.state.users[d.username] == Account(d.email, s.users[owner].password)
        && (forall k :: k in s.users && k != owner ==> r.state.users[k] == s.users[k])
        && r.state.session == Some(d.username)
        && r.response == Redirect(UserPage(d.username), Some(Info(UPDATED)))
      else
        r.state == s
    ensures SessionValid(s) ==> SessionValid(r.state)
  {
    if owner !in s.users then Step(s, NotFound)
    else
      var instance := s.users[owner];
      match LoginRequired(Caller(s))
      case Stop(response) => Step(s, response)
      case Continue =>
        match OwnerRequired(s.users.Keys, Caller(s), owner)
        case Stop(response) => Step(s, response)
        case Continue =>
          match req.verb
          case Get => Step(s, Render(UpdatePage, Initial(owner, instance.email)))
          case Other => Step(s, MethodNotAllowed)
          case Post =>
            match UpdateForm(req.data, isEmail)
            case Invalid(errors) => Step(s, Render(UpdatePage, Bound(errors)))
            case Valid(d) =>
              if UpdateDuplicateCheck(s.users.Keys, d.username) then
                // form.add_error is called with one argument, which raises
                Step(s, ServerError)
              else if d.username != owner && d.username in s.users then
                Step(s, ServerError)
              else
                Step(State((s.users - {owner})[d.username := Account(d.email, instance.password)], Some(d.username)),
                     Redirect(UserPage(d.username), Some(Info(UPDATED))))
  }

  // ---------------------------------------------------------------
  // The site: the same views over a store and a session held in fields
  // ---------------------------------------------------------------

  class Site {
    /** The e-mail format check of the framework's EmailField, opaque here. */
    const isEmail: string -> bool
    var users: Store
    var session: Option<string>

    function Snapshot(): State
      reads this
    {
      State(users, session)
    }

    ghost predicate Valid()
      reads this
    {
      SessionValid(Snapshot())
    }

    constructor (isEmail: string -> bool)
      ensures this.isEmail == isEmail
      ensures Snapshot() == State(map[], None)
      ensures Valid()
    {
      this.isEmail := isEmail;
      users := map[];
      session := None;
    }

    method SignUp(req: Request) returns (resp: Response)
      requires Valid()
      modifies this
      ensures Valid()
      ensures Step(Snapshot(), resp) == SignUpView(old(Snapshot()), req, isEmail)
    {
      var gate := AnonymousRequired(Caller(Snapshot()));
      if gate.Stop? {
        return gate.response;
      }
      match req.verb {
        case Get => resp := Render(SignUpPage, Blank);
        case Other => resp := MethodNotAllowed;
        case Post =>
          var form := SignUpForm(req.data, users.Keys, isEmail);
          if form.Valid? {
            users := users[form.data.username := Account(form.data.email, form.data.password1)];
            resp := Redirect(Route.SignIn, Some(Info(SIGNED_UP)));
          } else {
            resp := Render(SignUpPage, Bound(form.errors));
          }
      }
    }

    method SignIn(req: Request) returns (resp: Response)
      requires Valid()
      modifies this
      ensures Valid()
      ensures Step(Snapshot(), resp) == SignInView(old(Snapshot()), req)
    {
      var gate := AnonymousRequired(Caller(Snapshot()));
      if gate.Stop? {
        return gate.response;
      }
      match req.verb {
        case Get => resp := Render(SignInPage, Blank);
        case Other => resp := MethodNotAllowed;
        case Post =>
          var form := SignInForm(req.data);
          if form.Invalid? {
            resp := Render(SignInPage, Bound(form.errors));
          } else {
            var user := Authenticate(users, form.data.username, form.data.password);
            if user.Some? {
              session := user;
              resp := Redirect(Home, Some(Info(SIGNED_IN)));
            } else {
              resp := Redirect(Route.SignIn, Some(Danger(BAD_CREDENTIALS)));
            }
          }
      }
    }

    method SignOut(req: Request) returns (resp: Response)
      requires Valid()
      modifies this
      ensures Valid()
      ensures Step(Snapshot(), resp) == SignOutView(old(Snapshot()), req)
    {
      var gate := LoginRequired(Caller(Snapshot()));
      if gate.Stop? {
        return gate.response;
      }
      if req.verb == Get {
        session := None;
        resp := Redirect(Home, Some(Info(SIGNED_OUT)));
      } else {
        resp := MethodNotAllowed;
      }
    }

    method Delete(owner: string, req: Request) returns (resp: Response)
      requires Valid()
      modifies this
      ensures Valid()
      ensures Step(Snapshot(), resp) == DeleteView(old(Snapshot()), owner, req)
    {
      var caller := Caller(Snapshot());
      var login := LoginRequired(caller);
      if login.Stop? {
        return login.response;
      }
      var gate := OwnerRequired(users.Keys, caller, owner);
      if gate.Stop? {
        return gate.response;
      }
      match req.verb {
        case Get => resp := Render(DeletePage, Blank);
        case Other => resp := MethodNotAllowed;
        case Post =>
          var form := DeleteForm(req.data);
          if form.Invalid? {
            resp := Render(DeletePage, Bound(form.errors));
          } else if owner !in users {
            resp := NotFound;
          } else if owner == form.data.username {
            users := users - {owner};
            session := None;
            resp := Redirect(Home, Some(Info(DELETED)));
          } else {
            resp := Redirect(UserDelete(caller.value), Some(Danger(INCORRECT_USERNAME)));
          }
      }
    }

    method Update(owner: string, req: Request) returns (resp: Response)
      requires Valid()
      modifies this
      ensures Valid()
      ensures Step(Snapshot(), resp) == UpdateView(old(Snapshot()), owner, req, isEmail)
    {
      // setup: the view instance keeps the path user's record
      if owner !in users {
        return NotFound;
      }
      var instance := users[owner];
      var caller := Caller(Snapshot());
      var login := LoginRequired(caller);
      if login.Stop? {
        return login.response;
      }
      var gate := OwnerRequired(users.Keys, caller, owner);
      if gate.Stop? {
        return gate.response;
      }
      match req.verb {
        case Get => resp := Render(UpdatePage, Initial(owner, instance.email));
        case Other => resp := MethodNotAllowed;
        case Post =>
          var form := UpdateForm(req.data, isEmail);
          if form.Invalid? {
            resp := Render(UpdatePage, Bound(form.errors));
          } else if UpdateDuplicateCheck(users.Keys, form.data.username) {
            resp := ServerError;
          } else if form.data.username != owner && form.data.username in users {
            resp := ServerError;
          } else {
            users := (users - {owner})[form.data.username := Account(form.data.email, instance.password)];
            session := Some(form.data.username);
            resp := Redirect(UserPage(form.data.username), Some(Info(UPDATED)));
          }
      }
    }
  }

}
