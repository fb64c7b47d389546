/** accounts/middleware.py: `DisableCSRFForAPI.process_request`. */
module Middleware {
  import opened Wrappers
  import opened Text

  /** The part of Django's request object the middleware touches. */
  class Request {
    var path: string
    /** `_dont_enforce_csrf_checks`, read by Django's CSRF middleware; absent means false. */
    var dontEnforceCsrfChecks: bool

    constructor (path: string)
      ensures this.path == path && !dontEnforceCsrfChecks
    {
      this.path := path;
      dontEnforceCsrfChecks := false;
    }
  }

  /** A response that would cut request processing short; `process_request` never builds one. */
  datatype HttpResponse = HttpResponse(status: int)

  /** `path.startswith('/api/')`. */
  predicate IsApiPath(path: string): (b: bool)
    ensures b <==> 5 <= |path| && path == "/api/" + path[5..]
  {
    StartsWith(path, "/api/")
  }

  /** Paths under "/api/" are exempt; "/api" itself and look-alikes are not. */
  lemma ApiPathExamples()
    ensures IsApiPath("/api/") && IsApiPath("/api/login/")
    ensures !IsApiPath("/api") && !IsApiPath("/apix/") && !IsApiPath("/API/") && !IsApiPath("/admin/")
  {
    assert "/api/login/"[..5] == "/api/";
    assert "/apix/"[..5] != "/api/" by { assert "/apix/"[4] != "/api/"[4]; }
    assert "/API/"[..5] != "/api/" by { assert "/API/"[1] != "/api/"[1]; }
    assert "/admin/"[..5] != "/api/" by { assert "/admin/"[2] != "/api/"[2]; }
  }

  /** `DisableCSRFForAPI.process_request`: flag an API request as CSRF-exempt and let processing go on. */
  method ProcessRequest(request: Request) returns (response: Option<HttpResponse>)
    modifies request`dontEnforceCsrfChecks
    ensures response == None
    ensures request.dontEnforceCsrfChecks == (old(request.dontEnforceCsrfChecks) || IsApiPath(request.path))
    ensures !IsApiPath(request.path) ==> unchanged(request)
  {
    if StartsWith(request.path, "/api/") {
      request.dontEnforceCsrfChecks := true;
    }
    response := None;
  }

  /** Running the middleware a second time changes nothing more. */
  method ProcessRequestTwice(request: Request) returns (first: Option<HttpResponse>, second: Option<HttpResponse>)
    modifies request`dontEnforceCsrfChecks
    ensures first == second == None
    ensures request.dontEnforceCsrfChecks == (old(request.dontEnforceCsrfChecks) || IsApiPath(request.path))
  {
    first := ProcessRequest(request);
    ghost var once := request.dontEnforceCsrfChecks;
    second := ProcessRequest(request);
    assert request.dontEnforceCsrfChecks == once;
  }
}
