/**
 * The request middleware: public paths pass, every other path needs a
 * session token and is otherwise redirected to the sign-in page with the
 * `encodeURI`-escaped request URL as the callback.
 */
module Middleware {
  import opened Text

  /**
   * `/`, anything under the four public prefixes (a plain prefix test, so
   * `/authx` counts) and anything with a dot in it.
   */
  predicate IsPublic(pathname: string) {
    || pathname == "/"
    || StartsWith(pathname, "/auth")
    || StartsWith(pathname, "/api/auth")
    || StartsWith(pathname, "/_next")
    || StartsWith(pathname, "/static")
    || HasChar(pathname, '.')
  }

  const SignInPath := "/api/auth/signin"

  /**
   * Let the request through, or redirect it to `path` on the same origin
   * with a `callbackUrl` parameter whose value is `callbackUrl`.
   */
  datatype Decision = Next | Redirect(path: string, callbackUrl: string)

  /** `middleware(request)`, where `hasToken` is whether `getToken` found a session token. */
  function Decide(pathname: string, requestUrl: string, hasToken: bool): (d: Decision)
    ensures d == Next <==> IsPublic(pathname) || hasToken
    ensures d.Redirect? ==> d.path == SignInPath && d.callbackUrl == EncodeUri(requestUrl)
  {
    if IsPublic(pathname) then Next
    else if !hasToken then Redirect(SignInPath, EncodeUri(requestUrl))
    else Next
  }

  /**
   * The callback is the request URL escaped once more: an escape already in
   * it, such as the `%20` of `?q=a%20b`, comes back as `%2520`.
   */
  lemma CallbackEscapesAgain(pathname: string, head: string, tail: string)
    requires !IsPublic(pathname)
    requires forall k :: 0 <= k < |head| ==> IsUriKept(head[k])
    requires forall k :: 0 <= k < |tail| ==> IsUriKept(tail[k])
    ensures Decide(pathname, head + "%" + tail, false) == Redirect(SignInPath, head + "%25" + tail)
  {
    EncodeUriEscapes(head, '%', tail);
    EncodeUriKeeps(tail);
    assert PercentBytes(Utf8('%')) == "%25";
  }

  /** A public prefix stays public whatever follows it. */
  lemma PublicPrefixExtends(pathname: string, rest: string)
    requires pathname != "/" && IsPublic(pathname)
    ensures IsPublic(pathname + rest)
  {
    if HasChar(pathname, '.') {
      var i :| 0 <= i < |pathname| && pathname[i] == '.';
      assert (pathname + rest)[i] == '.';
    } else if StartsWith(pathname, "/auth") {
      StartsWithConcat(pathname, rest, "/auth");
    } else if StartsWith(pathname, "/api/auth") {
      StartsWithConcat(pathname, rest, "/api/auth");
    } else if StartsWith(pathname, "/_next") {
      StartsWithConcat(pathname, rest, "/_next");
    } else {
      StartsWithConcat(pathname, rest, "/static");
    }
  }

  /** Any `/api/...` path outside `/api/auth` with no dot in it needs a token. */
  lemma ApiRoutesAreProtected(rest: string, requestUrl: string)
    requires !StartsWith(rest, "auth") && !HasChar(rest, '.')
    ensures !IsPublic("/api/" + rest)
    ensures Decide("/api/" + rest, requestUrl, false) == Redirect(SignInPath, EncodeUri(requestUrl))
  {
    ApiNotPublic(rest);
  }

  lemma ApiNotPublic(rest: string)
    requires !StartsWith(rest, "auth") && !HasChar(rest, '.')
    ensures !IsPublic("/api/" + rest)
  {
    var p := "/api/" + rest;
    assert |p| >= 5 && p[1] == 'a' && p[2] == 'p';
    assert !StartsWith(p, "/auth") by { assert "/auth"[2] == 'u'; }
    assert !StartsWith(p, "/api/auth") by {
      if |rest| >= 4 {
        assert p[..9] == "/api/" + rest[..4];
        assert p[..9][5..] == rest[..4];
        assert "/api/auth"[5..] == "auth";
      }
    }
    assert !HasChar(p, '.') by {
      forall i | 0 <= i < |p|
        ensures p[i] != '.'
      {
        if i < 5 {
          assert p[i] == "/api/"[i];
        } else {
          assert p[i] == rest[i - 5];
        }
      }
    }
  }

  /** The prefix test is literal: `/authx` counts, a file name such as `/favicon.ico` counts, `/dashboard` does not. */
  lemma PublicExamples()
    ensures IsPublic("/authx")
    ensures IsPublic("/favicon.ico")
    ensures !IsPublic("/dashboard")
  {
    assert "/authx"[..5] == "/auth";
    assert "/favicon.ico"[8] == '.';
    assert "/dashboard"[1] == 'd';
    assert !HasChar("/dashboard", '.') by {
      forall i | 0 <= i < |"/dashboard"|
        ensures "/dashboard"[i] != '.'
      {
      }
    }
  }
}
