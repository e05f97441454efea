/**
 * The client's role-based route guard (`roleGuard`). Whether the user is
 * logged in and which roles they hold come from the authentication service,
 * whose token decoding is not part of this model; both are parameters here.
 */
module Guards {
  import opened Wrappers
  import opened Ui

  /** The three ways a guard invocation can end. */
  datatype Outcome = Allow | RedirectToLogin | RedirectToHome

  const HomePath: string := "/"
  const LoginNotice: string := "You must log in to view this page."
  const PermissionNotice: string := "You do not have permission to view this page"
  const NoticeAction: string := "Ok"

  /** `xs.includes(x)`: a left-to-right scan with exact string equality, i.e. membership. */
  function Includes(xs: seq<string>, x: string): (r: bool)
    ensures r <==> x in xs
  {
    if xs == [] then false
    else
      assert xs == [xs[0]] + xs[1..];
      if xs[0] == x then true
      else Includes(xs[1..], x)
  }

  /** `userRoles?.includes(role)`: an absent list yields `undefined`, which is falsy. */
  function OptionalIncludes(userRoles: Option<seq<string>>, role: string): (r: bool)
    ensures r <==> userRoles.Some? && role in userRoles.value
  {
    match userRoles
    case None => false
    case Some(xs) => Includes(xs, role)
  }

  /**
   * `required.some(role => userRoles?.includes(role))`: true exactly when the
   * user's role list is present and shares at least one role with the
   * required list (OR semantics).
   */
  function AnyRole(required: seq<string>, userRoles: Option<seq<string>>): (r: bool)
    ensures r <==> userRoles.Some? && exists role :: role in required && role in userRoles.value
  {
    if required == [] then false
    else
      assert required == [required[0]] + required[1..];
      if OptionalIncludes(userRoles, required[0]) then true
      else AnyRole(required[1..], userRoles)
  }

  /** The guard's decision, with the login check before the role check. */
  function Decide(loggedIn: bool, userRoles: Option<seq<string>>, required: seq<string>): (r: Outcome)
    ensures !loggedIn ==> r == RedirectToLogin
    ensures r == Allow <==>
      loggedIn && userRoles.Some? && exists role :: role in required && role in userRoles.value
    ensures loggedIn && r != Allow ==> r == RedirectToHome
    ensures loggedIn && required == [] ==> r == RedirectToHome
    ensures loggedIn && userRoles.None? ==> r == RedirectToHome
  {
    if !loggedIn then RedirectToLogin
    else if AnyRole(required, userRoles) then Allow
    else RedirectToHome
  }

  /**
   * The UI requests a decision makes: none on Allow; on each deny path
   * exactly one navigation followed by exactly one notice.
   */
  function EffectsFor(o: Outcome): (r: seq<Effect>)
    ensures o == Allow <==> r == []
    ensures o != Allow ==> |r| == 2 && r[0].Navigation? && r[1].Notification?
    ensures o != Allow ==> r[1].action == NoticeAction && r[1].duration == NoticeDuration
    ensures o == RedirectToLogin ==> r[0].commands == [LoginPath] && r[1].message == LoginNotice
    ensures o == RedirectToHome ==> r[0].commands == [HomePath] && r[1].message == PermissionNotice
  {
    match o
    case Allow => []
    case RedirectToLogin =>
      [Navigation([LoginPath]), Notification(LoginNotice, NoticeAction, NoticeDuration)]
    case RedirectToHome =>
      [Navigation([HomePath]), Notification(PermissionNotice, NoticeAction, NoticeDuration)]
  }

  /**
   * `roleGuard` itself: decides, asks the router and the snack bar for the
   * deny path's navigation and notice, and returns true only on Allow.
   */
  method RoleGuard(fx: Effects, loggedIn: bool, userRoles: Option<seq<string>>, required: seq<string>)
    returns (allowed: bool)
    modifies fx
    ensures allowed <==> Decide(loggedIn, userRoles, required) == Allow
    ensures fx.log == old(fx.log) + EffectsFor(Decide(loggedIn, userRoles, required))
  {
    if !loggedIn {
      fx.Navigate([LoginPath]);
      fx.Open(LoginNotice, NoticeAction, NoticeDuration);
      return false;
    }
    if AnyRole(required, userRoles) {
      return true;
    }
    fx.Navigate([HomePath]);
    fx.Open(PermissionNotice, NoticeAction, NoticeDuration);
    return false;
  }

  /** Concrete scenarios: no case folding, no prefix or hierarchy matching, one match suffices. */
  lemma ExactRoleMatching()
    ensures Decide(true, Some(["admin"]), ["Admin"]) == RedirectToHome
    ensures Decide(true, Some(["Administrator"]), ["Admin"]) == RedirectToHome
    ensures Decide(true, Some(["Admin"]), ["Admin", "Editor"]) == Allow
    ensures Decide(true, Some(["User"]), ["Admin"]) == RedirectToHome
    ensures Decide(false, Some(["Admin"]), ["Admin"]) == RedirectToLogin
  {
    assert "admin" != "Admin" by { assert "admin"[0] != "Admin"[0]; }
    assert "Administrator" != "Admin" by { assert |"Administrator"| != |"Admin"|; }
    assert "Admin" in ["Admin"];
    assert "User" != "Admin" by { assert "User"[0] != "Admin"[0]; }
  }
}
