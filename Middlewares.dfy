/** The public-route test of the middlewares (middlewares.go). */
module Middlewares {
  /** `strings.HasPrefix`. */
  predicate HasPrefix(s: string, prefix: string)
  {
    |prefix| <= |s| && s[..|prefix|] == prefix
  }

  /** `isPublicRoute`: the path starts with "/health" or with "/public". */
  predicate IsPublicRoute(url: string)
  {
    HasPrefix(url, "/health") || HasPrefix(url, "/public")
  }

  /**
   * The test is a prefix test: a public path stays public whatever follows
   * it (so "/healthz" and "/public/a.css" are public).
   */
  lemma PublicIsPrefixClosed(url: string, suffix: string)
    requires IsPublicRoute(url)
    ensures IsPublicRoute(url + suffix)
  {
  }

  /** Exactly the paths that extend "/health" or "/public" are public. */
  lemma PublicRoutesAreExtensions(url: string)
    ensures IsPublicRoute(url) <==> exists rest :: url == "/health" + rest || url == "/public" + rest
  {
    if IsPublicRoute(url) {
      var p := if HasPrefix(url, "/health") then "/health" else "/public";
      assert url == p + url[|p|..];
    }
    if exists rest :: url == "/health" + rest || url == "/public" + rest {
      var rest :| url == "/health" + rest || url == "/public" + rest;
      if url == "/health" + rest {
        assert url[..7] == "/health";
      } else {
        assert url[..7] == "/public";
      }
    }
  }

  /** The prefix must come first: an API path that merely contains it, and the empty path, are not public. */
  lemma NotPublicExamples()
    ensures !IsPublicRoute("")
    ensures !IsPublicRoute("/api/public")
    ensures !IsPublicRoute("/HEALTH")
    ensures IsPublicRoute("/healthz") && IsPublicRoute("/public")
  {
    assert "/api/public"[..7] != "/health" by { assert "/api/public"[1] == 'a'; }
    assert "/api/public"[..7] != "/public" by { assert "/api/public"[1] == 'a'; }
    assert "/HEALTH"[..7] != "/health" by { assert "/HEALTH"[1] == 'H'; }
    assert "/HEALTH"[..7] != "/public" by { assert "/HEALTH"[1] == 'H'; }
    assert "/healthz"[..7] == "/health";
  }
}
