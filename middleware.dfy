/** The request interceptor (middleware.ts): public paths pass straight
    through, every other matched path is answered by the session refresh,
    and a failure there is answered by a pass-through response marked with
    an error header. */
module Middleware {
  import opened Common

  const PublicPaths: seq<string> := ["/signin", "/signup", "/auth", "/forgot_password"]

  /** `publicPaths.some(p => pathname.startsWith(p))`: a prefix test. */
  predicate IsPublicPath(path: string) {
    exists i :: 0 <= i < |PublicPaths| && StartsWith(path, PublicPaths[i])
  }

  /** A path is public exactly when it starts with one of the four prefixes,
      so a path that only shares the prefix, such as '/authx', is public too. */
  lemma PublicByPrefix(path: string)
    ensures IsPublicPath(path) <==>
      StartsWith(path, "/signin") || StartsWith(path, "/signup") ||
      StartsWith(path, "/auth") || StartsWith(path, "/forgot_password")
    ensures IsPublicPath("/authx") && IsPublicPath("/signin/reset") && !IsPublicPath("/dashboard")
  {
    assert PublicPaths[0] == "/signin" && PublicPaths[1] == "/signup";
    assert PublicPaths[2] == "/auth" && PublicPaths[3] == "/forgot_password";
    if StartsWith(path, "/signin") { assert StartsWith(path, PublicPaths[0]); }
    if StartsWith(path, "/signup") { assert StartsWith(path, PublicPaths[1]); }
    if StartsWith(path, "/auth") { assert StartsWith(path, PublicPaths[2]); }
    if StartsWith(path, "/forgot_password") { assert StartsWith(path, PublicPaths[3]); }
    assert StartsWith("/authx", PublicPaths[2]);
    assert StartsWith("/signin/reset", PublicPaths[0]);
    forall i | 0 <= i < |PublicPaths| ensures !StartsWith("/dashboard", PublicPaths[i]) {
      DiffersAt("/dashboard", PublicPaths[i], 1);
    }
  }

  /** Two strings that differ at a position inside the prefix do not share it. */
  lemma DiffersAt(s: string, p: string, k: nat)
    requires k < |p| && k < |s| && s[k] != p[k]
    ensures !StartsWith(s, p)
  {
    if |p| <= |s| {
      assert s[..|p|][k] == s[k];
    }
  }

  /** A response as Next.js builds it: `passThrough` for `NextResponse.next()`. */
  class Response {
    var passThrough: bool
    var headers: map<string, string>

    /** `NextResponse.next()` */
    constructor Next()
      ensures passThrough && headers == map[]
    {
      passThrough, headers := true, map[];
    }

    /** `response.headers.set(name, value)` */
    method SetHeader(name: string, value: string)
      modifies this
      ensures headers == old(headers)[name := value]
      ensures passThrough == old(passThrough)
    {
      headers := headers[name := value];
    }
  }

  /** The handler. `session` is what `updateSession(request)` does: throw, or
      return its response; `now` is the error time stamp. The second result
      says whether the session refresh was called. */
  method HandleRequest(path: string, session: Call<Response>, now: string) returns (r: Response, refreshed: bool)
    ensures refreshed <==> !IsPublicPath(path)
    ensures IsPublicPath(path) ==> fresh(r) && r.passThrough && r.headers == map[]
    ensures !IsPublicPath(path) && session.Returned? ==> r == session.value
    ensures !IsPublicPath(path) && session.Threw? ==>
      fresh(r) && r.passThrough && r.headers == map["x-middleware-error" := "true", "x-middleware-error-time" := now]
  {
    if IsPublicPath(path) {
      r := new Response.Next();
      return r, false;
    }
    refreshed := true;
    if session.Returned? {
      r := session.value;
    } else {
      r := new Response.Next();
      r.SetHeader("x-middleware-error", "true");
      r.SetHeader("x-middleware-error-time", now);
    }
  }

  /** `config.matcher`: '/dashboard/:path*' and '/admin/:path*' match the
      route itself and anything below it; '/signin' and '/signup' match
      exactly. */
  predicate MatcherRuns(path: string) {
    || path == "/dashboard" || StartsWith(path, "/dashboard/")
    || path == "/admin" || StartsWith(path, "/admin/")
    || path == "/signin" || path == "/signup"
  }

  /** Among the paths the middleware runs on, only '/signin' and '/signup'
      are public: the '/auth' and '/forgot_password' prefixes never apply. */
  lemma {:induction false} MatchedPublicPaths(path: string)
    requires MatcherRuns(path)
    ensures IsPublicPath(path) <==> path == "/signin" || path == "/signup"
  {
    PublicByPrefix(path);
    if path == "/signin" {
      assert StartsWith(path, "/signin");
    } else if path == "/signup" {
      assert StartsWith(path, "/signup");
    } else if path == "/dashboard" || StartsWith(path, "/dashboard/") {
      assert path[1] == 'd' by {
        if path != "/dashboard" { assert path[..11][1] == path[1]; }
      }
      DiffersAt(path, "/signin", 1);
      DiffersAt(path, "/signup", 1);
      DiffersAt(path, "/auth", 1);
      DiffersAt(path, "/forgot_password", 1);
    } else {
      assert path[..6] == "/admin" by {
        if path != "/admin" { assert path[..7][..6] == path[..6]; }
      }
      assert path[1] == 'a' && path[2] == 'd';
      DiffersAt(path, "/signin", 1);
      DiffersAt(path, "/signup", 1);
      DiffersAt(path, "/auth", 2);
      DiffersAt(path, "/forgot_password", 1);
    }
  }
}
