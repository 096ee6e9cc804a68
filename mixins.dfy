/**
 * The two access gates. Each is a decision taken before the view's handler
 * runs: pass the request on, or answer it in place of the handler. Neither
 * reads or changes anything but its arguments.
 */
module Mixins {
  import opened Wrappers
  import opened Http

  datatype Decision = Continue | Stop(response: Response)

  /** The answer to a caller the gate turns away. */
  const ACCESS_DENIED: Response := Redirect(Home, Some(Danger("Access Denied")))

  /**
   * AnonymousRequiredMixin.dispatch: an authenticated caller is sent home
   * with "Access Denied"; an anonymous one reaches the handler.
   */
  function AnonymousRequired(caller: Option<string>): (d: Decision)
    ensures caller.Some? <==> d == Stop(ACCESS_DENIED)
    ensures caller.None? <==> d == Continue
  {
    if caller.Some? then Stop(ACCESS_DENIED) else Continue
  }

  /**
   * OwnerRequiredMixin.dispatch: the user named in the path is looked up
   * first (users are the usernames in the store), and a missing one is not
   * found whoever the caller is; otherwise only that user gets through, and
   * anyone else, an anonymous caller included, is sent home with "Access Denied".
   */
  function OwnerRequired(users: set<string>, caller: Option<string>, owner: string): (d: Decision)
    ensures owner !in users <==> d == Stop(NotFound)
    ensures owner in users && caller != Some(owner) <==> d == Stop(ACCESS_DENIED)
    ensures d == Continue <==> owner in users && caller == Some(owner)
  {
    if owner !in users then Stop(NotFound)
    else if caller != Some(owner) then Stop(ACCESS_DENIED)
    else Continue
  }

}
