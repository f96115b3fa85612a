/**
 * The server's start-up check of its environment and the catch-all `GET *` route
 * that serves the site's pages for client-side routing.
 *
 * `path.extname` is Node's: the extension of the last path segment (trailing
 * slashes ignored), from its last dot; a segment whose only dot leads it (".env")
 * and the segment ".." have none.
 */
module Server {
  import opened JsCore

  /** The variables without which the server refuses to start, in the order checked. */
  const RequiredEnv: seq<string> := [
    "SESSION_SECRET", "JWT_SECRET", "DATABASE_URL",
    "GMAIL_CLIENT_ID", "GMAIL_CLIENT_SECRET", "GMAIL_REFRESH_TOKEN",
    "PAYPAL_CLIENT_ID", "PAYPAL_CLIENT_SECRET", "GEMINI_API_KEY"
  ]

  /** Only warned about when missing. */
  const MailUser := "GMAIL_USER_EMAIL"

  /** `process.env[name]` is truthy. */
  predicate IsSet(env: map<string, string>, name: string)
  {
    name in env && env[name] != []
  }

  /** The position of the first name that is not set, or `|names|` when all are. */
  function FirstUnset(env: map<string, string>, names: seq<string>): (k: nat)
    ensures k <= |names|
    ensures forall i :: 0 <= i < k ==> IsSet(env, names[i])
    ensures k < |names| ==> !IsSet(env, names[k])
  {
    if names == [] then 0
    else if !IsSet(env, names[0]) then 0
    else 1 + FirstUnset(env, names[1..])
  }

  /** The start-up check: whether the mail-user warning is printed, and the variable
      whose absence stops the process (the first one missing), if any. */
  method CheckEnv(env: map<string, string>) returns (warnMailUser: bool, fatal: Option<string>)
    ensures warnMailUser <==> !IsSet(env, MailUser)
    ensures fatal.None? <==> forall i :: 0 <= i < |RequiredEnv| ==> IsSet(env, RequiredEnv[i])
    ensures fatal.Some? ==> fatal.value == RequiredEnv[FirstUnset(env, RequiredEnv)]
  {
    warnMailUser := !IsSet(env, MailUser);
    var i := 0;
    while i < |RequiredEnv|
      invariant 0 <= i <= |RequiredEnv|
      invariant forall j :: 0 <= j < i ==> IsSet(env, RequiredEnv[j])
    {
      if !IsSet(env, RequiredEnv[i]) {
        return warnMailUser, Some(RequiredEnv[i]);
      }
      i := i + 1;
    }
    return warnMailUser, None;
  }

  /** The path without its trailing slashes. */
  function TrimTrailingSlashes(p: string): (r: string)
    ensures |r| <= |p| && r == p[..|r|]
    ensures r == [] || r[|r| - 1] != '/'
    ensures forall i :: |r| <= i < |p| ==> p[i] == '/'
  {
    if p == [] || p[|p| - 1] != '/' then p else TrimTrailingSlashes(p[..|p| - 1])
  }

  /** The last segment of the path. */
  function BaseName(p: string): (b: string)
    ensures '/' !in b
    // the suffix of the trimmed path after its last '/', or all of it when there is none
    ensures var q := TrimTrailingSlashes(p);
      |b| <= |q| && b == q[|q| - |b|..] && (|b| == |q| || q[|q| - |b| - 1] == '/')
  {
    var q := TrimTrailingSlashes(p);
    q[LastIndexOf(q, '/') + 1..]
  }

  /** `path.extname(p)` is not empty: the last segment has a dot after its first
      character, and is not "..". */
  predicate HasExtension(p: string)
    ensures HasExtension(p) ==> |BaseName(p)| >= 2 && '.' in BaseName(p)[1..]
    ensures '.' !in BaseName(p) ==> !HasExtension(p)
  {
    var b := BaseName(p);
    LastIndexOf(b, '.') > 0 && b != ".."
  }

  datatype Page = LoginPage | SignupPage | DashboardPage | PurchasePage | IndexPage

  datatype FallbackReply = SendFile(page: Page) | FileNotFound | Next

  /** The catch-all route: an extension-less path outside `/api` is served the page of
      the first prefix it starts with, a path with an extension is 404 "File not
      found", and an extension-less `/api` path is passed on. */
  function Dispatch(path: string): (r: FallbackReply)
    ensures r == FileNotFound <==> HasExtension(path)
    ensures r == Next <==> !HasExtension(path) && StartsWith(path, "/api")
    ensures r.SendFile? <==> !HasExtension(path) && !StartsWith(path, "/api")
    ensures r == SendFile(LoginPage) <==> r.SendFile? && StartsWith(path, "/login")
    ensures r == SendFile(SignupPage) <==> r.SendFile? && !StartsWith(path, "/login") && StartsWith(path, "/signup")
    ensures r == SendFile(DashboardPage) <==>
              r.SendFile? && !StartsWith(path, "/login") && !StartsWith(path, "/signup") && StartsWith(path, "/dashboard")
    ensures r == SendFile(PurchasePage) <==>
              r.SendFile? && !StartsWith(path, "/login") && !StartsWith(path, "/signup") &&
              !StartsWith(path, "/dashboard") && StartsWith(path, "/purchase")
    ensures r == SendFile(IndexPage) <==>
              r.SendFile? && !StartsWith(path, "/login") && !StartsWith(path, "/signup") &&
              !StartsWith(path, "/dashboard") && !StartsWith(path, "/purchase")
  {
    if !HasExtension(path) && !StartsWith(path, "/api") then
      if StartsWith(path, "/login") then SendFile(LoginPage)
      else if StartsWith(path, "/signup") then SendFile(SignupPage)
      else if StartsWith(path, "/dashboard") then SendFile(DashboardPage)
      else if StartsWith(path, "/purchase") then SendFile(PurchasePage)
      else SendFile(IndexPage)
    else if HasExtension(path) then FileNotFound
    else Next
  }

  /** A path without a dot has no extension. */
  lemma NoDotNoExtension(p: string)
    requires '.' !in p
    ensures !HasExtension(p)
  {
    var q := TrimTrailingSlashes(p);
    assert forall c :: c in BaseName(p) ==> c in q;
  }

  /** A path that differs from `prefix` at a position within both does not start with it. */
  lemma DiffersAt(path: string, prefix: string, i: nat)
    requires i < |prefix| && i < |path| && path[i] != prefix[i]
    ensures !StartsWith(path, prefix)
  {
    if |prefix| <= |path| {
      assert path[..|prefix|][i] == path[i];
    }
  }

  /** Prefixes are not segments: any dot-free path that starts with "/login" is the
      login page ("/loginhelp" included). */
  lemma LoginPrefixIsNotASegment(rest: string)
    requires '.' !in rest
    ensures Dispatch("/login" + rest) == SendFile(LoginPage)
  {
    var p := "/login" + rest;
    assert p[..6] == "/login";
    NoDotNoExtension(p);
    DiffersAt(p, "/api", 1);
  }

  /** The last segment of "/.name" is ".name", whose only dot leads it. */
  lemma DotFileHasNoExtension(name: string)
    requires '.' !in name && '/' !in name
    ensures BaseName("/." + name) == "." + name
    ensures !HasExtension("/." + name)
  {
    var b := "." + name;
    var p := "/" + b;
    assert p == "/." + name;
    assert TrimTrailingSlashes(p) == p by {
      assert p[|p| - 1] != '/';
    }
    assert LastIndexOf(p, '/') == 0 by {
      assert p[1..] == b;
      assert '/' !in b;
    }
    assert LastIndexOf(b, '.') == 0 by {
      assert b[1..] == name;
    }
  }

  /** A dot file in the root has no extension, so it is served the home page
      ("/.env" included) rather than answered 404. */
  lemma DotFileServedHomePage(name: string)
    requires '.' !in name && '/' !in name
    ensures Dispatch("/." + name) == SendFile(IndexPage)
  {
    var p := "/." + name;
    assert p[0] == '/' && p[1] == '.';
    DotFileHasNoExtension(name);
    DiffersAt(p, "/api", 1);
    DiffersAt(p, "/login", 1);
    DiffersAt(p, "/signup", 1);
    DiffersAt(p, "/dashboard", 1);
    DiffersAt(p, "/purchase", 1);
  }
}
