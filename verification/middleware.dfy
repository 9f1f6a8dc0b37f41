/**
 * The request guard in front of the admin back office. The session lookup is
 * reduced to whether a user is signed in.
 */
module AdminGuard {

  /** What the guard does with a request: let it through, or redirect it to a path. */
  datatype Response = Next | Redirect(location: string)

  const AdminPrefix: string := "/admin"
  const LoginPath: string := "/admin/login"
  const DashboardPath: string := "/admin"

  /** `String.prototype.startsWith`. */
  predicate StartsWith(s: string, prefix: string) {
    |prefix| <= |s| && s[..|prefix|] == prefix
  }

  /** The prefix test agrees with a character-by-character comparison. */
  lemma StartsWithPointwise(s: string, prefix: string)
    ensures StartsWith(s, prefix) <==> |prefix| <= |s| && forall i :: 0 <= i < |prefix| ==> s[i] == prefix[i]
  {
    if |prefix| <= |s| && forall i :: 0 <= i < |prefix| ==> s[i] == prefix[i] {
      assert s[..|prefix|] == prefix;
    }
  }

  /** `middleware`: the decision for a request to `path`. */
  function Middleware(path: string, signedIn: bool): (r: Response)
    // paths outside the admin area always pass
    ensures !StartsWith(path, AdminPrefix) ==> r == Next
    // the login page sends a signed-in user to the dashboard and lets anyone else in
    ensures path == LoginPath ==> (signedIn <==> r == Redirect(DashboardPath)) && (!signedIn <==> r == Next)
    // any other admin path needs a session
    ensures StartsWith(path, AdminPrefix) && path != LoginPath ==>
              (signedIn <==> r == Next) && (!signedIn <==> r == Redirect(LoginPath))
  {
    if StartsWith(path, AdminPrefix) then
      if path == LoginPath then
        if signedIn then Redirect(DashboardPath) else Next
      else if !signedIn then Redirect(LoginPath)
      else Next
    else Next
  }

  /** Following a redirect with the same session never redirects again: there is no loop. */
  lemma NoRedirectLoop(path: string, signedIn: bool)
    ensures Middleware(path, signedIn).Redirect? ==>
              Middleware(Middleware(path, signedIn).location, signedIn) == Next
  {
    assert StartsWith(LoginPath, AdminPrefix) && StartsWith(DashboardPath, AdminPrefix);
  }

  /** Only a signed-in user ever passes to an admin page other than the login page. */
  lemma AdminPagesNeedSession(path: string, signedIn: bool)
    requires StartsWith(path, AdminPrefix) && path != LoginPath
    requires Middleware(path, signedIn) == Next
    ensures signedIn
  {
  }

  /** The guard is a plain prefix test: "/administrator" is guarded, "/about" is not. */
  lemma PrefixIsTextual()
    ensures Middleware("/administrator", false) == Redirect(LoginPath)
    ensures Middleware("/about", false) == Next
    ensures Middleware("/admin/quotes", true) == Next
  {
    assert StartsWith("/administrator", AdminPrefix);
    assert "/about"[2] != AdminPrefix[2];
  }
}
