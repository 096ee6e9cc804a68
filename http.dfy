/**
 * Requests and responses as the views see them. Rendering, URL reversing
 * and the message store are abstract: a response names the route or the
 * template, and a redirect carries the one flash message queued with it.
 */
module Http {
  import opened Wrappers
  import opened Forms

  /** The request method; Other is any method the view has no handler for. */
  datatype Verb = Get | Post | Other

  datatype Request = Request(verb: Verb, data: FormData)

  /** The named routes the views redirect to. */
  datatype Route = Home | SignIn | UserPage(username: string) | UserDelete(username: string)

  datatype Level = Success | Error

  /** A flash message: its level, its text and its extra tags. */
  datatype Flash = Flash(level: Level, text: string, tags: string)

  datatype Template = SignUpPage | SignInPage | DeletePage | UpdatePage

  /** The form handed to a template: unbound, unbound with initial values, or bound with its errors. */
  datatype FormView = Blank | Initial(username: string, email: string) | Bound(errors: seq<FormError>)

  datatype Response =
    | Redirect(to: Route, flash: Option<Flash>)
    | Render(template: Template, form: FormView)
    | NotFound           // get_object_or_404 found no record
    | LoginRedirect      // the login-required guard sends an anonymous caller to the login page
    | MethodNotAllowed   // the view has no handler for the request method
    | ServerError        // the request raised an exception

  /** messages.success(request, text, 'info') */
  function Info(text: string): (f: Flash)
    ensures f.level == Success && f.text == text && f.tags == "info"
  {
    Flash(Success, text, "info")
  }

  /** messages.error(request, text, 'danger') */
  function Danger(text: string): (f: Flash)
    ensures f.level == Error && f.text == text && f.tags == "danger"
  {
    Flash(Error, text, "danger")
  }

}
