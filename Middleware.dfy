/**
 * The route guard run before matched pages: a pure decision over what the
 * session and user lookups returned and the request path.
 */
module Middleware {
  import opened Wrappers

  /** The error `getSession` reports; its HTTP status may be missing. */
  datatype SessionError = SessionError(status: Option<int>)

  /** What the two auth lookups produced, or that one of them threw. */
  datatype AuthLookup =
    | Threw
    | Looked(sessionError: Option<SessionError>, hasSession: bool, hasUser: bool)

  datatype Decision = Redirect(target: string) | Pass

  /** Session errors the guard tolerates: request timeout and service unavailable. */
  predicate Transient(e: SessionError) {
    e.status == Some(408) || e.status == Some(503)
  }

  /** `pathname.startsWith(prefix)`. */
  predicate StartsWith(path: string, prefix: string) {
    prefix <= path
  }

  /** `middleware`. */
  function Decide(lookup: AuthLookup, path: string): (d: Decision)
    ensures d == Redirect("/dashboard") ==>
      lookup.Looked? && lookup.hasUser && lookup.hasSession && (StartsWith(path, "/login") || StartsWith(path, "/signup"))
    ensures lookup.Threw? ==> (d == Pass <==> !StartsWith(path, "/dashboard"))
  {
    match lookup
    case Threw =>
      if StartsWith(path, "/dashboard") then Redirect("/login") else Pass
    case Looked(sessionError, hasSession, hasUser) =>
      if sessionError.Some? && !Transient(sessionError.value) then Redirect("/login")
      else if (!hasUser || !hasSession) && StartsWith(path, "/dashboard") then Redirect("/login")
      else if hasUser && hasSession && (StartsWith(path, "/login") || StartsWith(path, "/signup")) then Redirect("/dashboard")
      else Pass
  }

  /** `config.matcher`: the paths the guard runs on at all. */
  predicate Matched(path: string) {
    || path == "/dashboard" || StartsWith(path, "/dashboard/")
    || path == "/requests/new" || path == "/login" || path == "/signup"
  }

  /** What a request to `path` gets: unmatched paths are never guarded. */
  function Route(lookup: AuthLookup, path: string): (d: Decision)
    ensures !Matched(path) ==> d == Pass
  {
    if Matched(path) then Decide(lookup, path) else Pass
  }

  /** The guard only ever sends people to the login page or the dashboard. */
  lemma RedirectTargets(lookup: AuthLookup, path: string)
    ensures Decide(lookup, path).Redirect? ==> Decide(lookup, path).target in {"/login", "/dashboard"}
  {
  }

  /** A fatal session error sends every path to the login page; a transient one decides nothing by itself. */
  lemma SessionErrorRule(e: SessionError, hasSession: bool, hasUser: bool, path: string)
    ensures !Transient(e) ==> Decide(Looked(Some(e), hasSession, hasUser), path) == Redirect("/login")
    ensures Transient(e) ==> Decide(Looked(Some(e), hasSession, hasUser), path) == Decide(Looked(None, hasSession, hasUser), path)
  {
  }

  /** A dashboard page is let through only with a user and a session and no fatal error. */
  lemma DashboardNeedsSignIn(lookup: AuthLookup, path: string)
    requires StartsWith(path, "/dashboard")
    ensures Decide(lookup, path) == Pass <==>
      && lookup.Looked? && lookup.hasUser && lookup.hasSession
      && (lookup.sessionError.None? || Transient(lookup.sessionError.value))
    ensures Decide(lookup, path) != Pass ==> Decide(lookup, path) == Redirect("/login")
  {
    assert !StartsWith(path, "/login") && !StartsWith(path, "/signup") by {
      assert path[1] == 'd';
    }
  }

  /** A signed-in visitor of the login or signup page is sent to the dashboard unless the session lookup failed fatally. */
  lemma SignedInSkipsLogin(lookup: AuthLookup, path: string)
    requires StartsWith(path, "/login") || StartsWith(path, "/signup")
    requires lookup.Looked? && lookup.hasUser && lookup.hasSession
    ensures Decide(lookup, path) ==
      if lookup.sessionError.Some? && !Transient(lookup.sessionError.value) then Redirect("/login") else Redirect("/dashboard")
  {
  }

  /**
   * Away from the dashboard, login and signup pages, only a fatal session error
   * redirects; an exception lets the request through.
   */
  lemma OtherPathsOnlySessionRule(lookup: AuthLookup, path: string)
    requires !StartsWith(path, "/dashboard") && !StartsWith(path, "/login") && !StartsWith(path, "/signup")
    ensures Decide(lookup, path).Redirect? <==>
      lookup.Looked? && lookup.sessionError.Some? && !Transient(lookup.sessionError.value)
  {
  }

  /** "/requests/new" is guarded, but only a fatal session error redirects it. */
  lemma NewRequestPageOnlySessionRule(lookup: AuthLookup)
    ensures Route(lookup, "/requests/new").Redirect? <==>
      lookup.Looked? && lookup.sessionError.Some? && !Transient(lookup.sessionError.value)
  {
    var p := "/requests/new";
    assert !StartsWith(p, "/dashboard") && !StartsWith(p, "/login") && !StartsWith(p, "/signup") by {
      assert p[1] == 'r';
    }
    OtherPathsOnlySessionRule(lookup, p);
  }
}
