/** The exception handler of the HTTP pipeline: when a request fails before
    the response has started, the response is reset (keeping its status code
    and its CORS headers, adding headers that forbid caching) and a problem
    document describing the status code is written in its place. */
module HttpContextExtensions {
  import opened Common
  import opened Text

  /** One response header: its name and its values. */
  datatype Header = Header(name: string, values: seq<string>)

  /** The `Access-Control-*` headers the CORS middleware sets. */
  const CorsHeaderNames: seq<string> := [
    "Access-Control-Allow-Credentials",
    "Access-Control-Allow-Headers",
    "Access-Control-Allow-Methods",
    "Access-Control-Allow-Origin",
    "Access-Control-Expose-Headers",
    "Access-Control-Max-Age"
  ]

  /** Membership in the case-insensitive set of CORS header names. */
  predicate IsCorsHeader(name: string) {
    exists c :: c in CorsHeaderNames && EqualsIgnoreCase(c, name)
  }

  /** The headers every reset response starts with, so that a problem
      response is never cached. */
  const NoCacheHeaders: seq<Header> := [
    Header("Cache-Control", ["no-cache, no-store, must-revalidate"]),
    Header("Pragma", ["no-cache"]),
    Header("Expires", ["0"])
  ]

  /** The headers of `hs` whose name is a CORS header name, in order. */
  function CorsOnly(hs: seq<Header>): (kept: seq<Header>) {
    if hs == [] then []
    else
      var last := hs[|hs| - 1];
      CorsOnly(hs[..|hs| - 1]) + (if IsCorsHeader(last.name) then [last] else [])
  }

  /** The headers of a response after it is reset. */
  function ResetHeaders(hs: seq<Header>): (reset: seq<Header>) {
    NoCacheHeaders + CorsOnly(hs)
  }

  /** A header dictionary: no two headers whose names differ only in case. */
  predicate DistinctNames(hs: seq<Header>) {
    forall i, j :: 0 <= i < j < |hs| ==> !EqualsIgnoreCase(hs[i].name, hs[j].name)
  }

  /** Some header of `hs` has the name `name`, ignoring case. */
  predicate HasHeaderNamed(hs: seq<Header>, name: string) {
    exists k :: 0 <= k < |hs| && EqualsIgnoreCase(hs[k].name, name)
  }

  /** An `HttpResponse`: whether it has started to be sent, its status code
      and its headers. */
  class HttpResponse {
    var hasStarted: bool
    var statusCode: int
    var headers: seq<Header>

    /** A response whose headers form a header dictionary. */
    constructor (hasStarted: bool, statusCode: int, headers: seq<Header>)
      requires DistinctNames(headers)
      ensures this.hasStarted == hasStarted && this.statusCode == statusCode && this.headers == headers
      ensures Valid()
    {
      this.hasStarted := hasStarted;
      this.statusCode := statusCode;
      this.headers := headers;
    }

    /** The header dictionary invariant. */
    predicate Valid()
      reads this
    {
      DistinctNames(headers)
    }

    /** `Response.Clear()`, which may only be called before the response has
      started: the status code goes back to 200 and every header is
      removed. */
    method Clear()
      requires !hasStarted
      modifies this
      ensures statusCode == 200 && headers == [] && hasStarted == old(hasStarted)
    {
      statusCode := 200;
      headers := [];
    }

    /** `Headers.Add(header)`, which demands that no header of that name is
      present yet. */
    method AddHeader(h: Header)
      requires !HasHeaderNamed(headers, h.name)
      modifies this
      ensures headers == old(headers) + [h]
      ensures statusCode == old(statusCode) && hasStarted == old(hasStarted)
    {
      headers := headers + [h];
    }
  }

  /** An `HttpContext`, reduced to its response. */
  class HttpContext {
    const response: HttpResponse

    constructor (response: HttpResponse)
      ensures this.response == response
    {
      this.response := response;
    }
  }

  /** The `ProblemDetails` document written for a failed request. */
  datatype ProblemDetails = ProblemDetails(status: int, problemType: string, title: string)

  /** The `ObjectResult` that is executed: the document, the status code and
      the content types it may be written as. */
  datatype ObjectResult = ObjectResult(value: ProblemDetails, statusCode: int, contentTypes: seq<string>)

  /** What `HandleException` returns: the completed task when the response
      had already started, or the execution of the problem result. */
  datatype HandlerOutcome = CompletedTask | Executed(result: ObjectResult)

  /** The address of the site that describes the status codes. */
  const ProblemTypeBase: string := "https://httpstatuses.com/"

  /** The link to the description of a status code: the site's address
      followed by the code written in decimal, with a minus sign when it is
      negative. */
  function ProblemType(status: int): (t: string)
    ensures |t| > |ProblemTypeBase| && t[..|ProblemTypeBase|] == ProblemTypeBase
    ensures status >= 0 ==> AllDigits(t[|ProblemTypeBase|..]) && ParseNat(t[|ProblemTypeBase|..]) == status
    ensures status < 0 ==> |t| > |ProblemTypeBase| + 1 && t[|ProblemTypeBase|] == '-' &&
                           AllDigits(t[|ProblemTypeBase| + 1..]) && ParseNat(t[|ProblemTypeBase| + 1..]) == -status
  {
    IntToStringReadsBack(status);
    var t := ProblemTypeBase + IntToString(status);
    assert t[|ProblemTypeBase|..] == IntToString(status);
    t
  }

  /** The problem result for `status`; `reasonPhrase` is the framework's
      table of reason phrases. */
  function ProblemResult(status: int, reasonPhrase: int -> string): (result: ObjectResult) {
    ObjectResult(
      ProblemDetails(status, ProblemType(status), reasonPhrase(status)),
      status,
      ["application/problem+json", "application/problem+xml"])
  }

  /** The problem type of a document names its status code: two status
      codes get the same type exactly when they are equal. */
  lemma ProblemTypeInjective(a: int, b: int)
    ensures ProblemType(a) == ProblemType(b) <==> a == b
  {
    var p := ProblemTypeBase;
    if ProblemType(a) == ProblemType(b) {
      assert IntToString(a) == ProblemType(a)[|p|..];
      assert IntToString(b) == ProblemType(b)[|p|..];
    }
    IntToStringInjective(a, b);
  }

  /** `ClearResponse`: resets the response, keeping its status code, and
      leaves it holding the no-cache headers followed by the CORS headers it
      had, in their order. */
  method ClearResponse(context: HttpContext)
    requires context.response.Valid() && !context.response.hasStarted
    modifies context.response
    ensures context.response.statusCode == old(context.response.statusCode)
    ensures context.response.headers == ResetHeaders(old(context.response.headers))
    ensures !context.response.hasStarted && context.response.Valid()
  {
    var response := context.response;
    var headers := NoCacheHeaders;
    var i := 0;
    while i < |response.headers|
      invariant 0 <= i <= |response.headers|
      invariant headers == NoCacheHeaders + CorsOnly(response.headers[..i])
    {
      var header := response.headers[i];
      assert response.headers[..i + 1][..i] == response.headers[..i];
      if IsCorsHeader(header.name) {
        headers := headers + [header];
      }
      i := i + 1;
    }
    assert response.headers[..i] == response.headers;
    ResetHeadersDistinct(response.headers);

    var statusCode := response.statusCode;
    response.Clear();
    response.statusCode := statusCode;

    var j := 0;
    while j < |headers|
      invariant 0 <= j <= |headers|
      invariant response.headers == headers[..j]
      invariant response.statusCode == statusCode && !response.hasStarted
    {
      assert !HasHeaderNamed(response.headers, headers[j].name) by {
        forall k | 0 <= k < j
          ensures !EqualsIgnoreCase(response.headers[k].name, headers[j].name)
        {
          assert response.headers[k] == headers[k];
        }
      }
      response.AddHeader(headers[j]);
      assert headers[..j + 1] == headers[..j] + [headers[j]];
      j := j + 1;
    }
    assert headers[..j] == headers;
  }

  /** `HandleException`. The response of a valid context is reset and the
      problem result for its status code (read before the reset) is
      executed, unless the response has already started, in which case
      nothing is touched. */
  method HandleException(context: HttpContext?, reasonPhrase: int -> string) returns (r: Result<HandlerOutcome>)
    requires context != null ==> context.response.Valid()
    modifies if context == null then {} else {context.response}
    ensures context == null ==> r == Failure(ArgumentNullException("context"))
    ensures context != null && old(context.response.hasStarted) ==>
              r == Success(CompletedTask) && unchanged(context.response)
    ensures context != null && !old(context.response.hasStarted) ==>
              && r == Success(Executed(ProblemResult(old(context.response.statusCode), reasonPhrase)))
              && context.response.statusCode == old(context.response.statusCode)
              && context.response.headers == ResetHeaders(old(context.response.headers))
              && !context.response.hasStarted
  {
    if context == null {
      return Failure(ArgumentNullException("context"));
    }
    if context.response.hasStarted {
      return Success(CompletedTask);
    }
    var status := context.response.statusCode;
    var details := ProblemDetails(status, ProblemType(status), reasonPhrase(status));
    ClearResponse(context);
    var result := ObjectResult(details, details.status, []);
    result := result.(contentTypes := result.contentTypes + ["application/problem+json"]);
    result := result.(contentTypes := result.contentTypes + ["application/problem+xml"]);
    assert result.contentTypes == ["application/problem+json", "application/problem+xml"];
    r := Success(Executed(result));
  }

  /** A CORS header name has the length of one of the six names. */
  lemma CorsNameLength(name: string)
    requires IsCorsHeader(name)
    ensures |name| in {32, 28, 27, 29, 22}
  {
    var c :| c in CorsHeaderNames && EqualsIgnoreCase(c, name);
    EqualsIgnoreCaseLength(c, name);
  }

  /** A header survives a reset exactly when its name is a CORS header
      name; the no-cache headers are always present. */
  lemma {:induction false} CorsOnlyMembers(hs: seq<Header>, h: Header)
    ensures h in CorsOnly(hs) <==> h in hs && IsCorsHeader(h.name)
  {
    if hs != [] {
      var init := hs[..|hs| - 1];
      CorsOnlyMembers(init, h);
      assert hs == init + [hs[|hs| - 1]];
    }
  }

  lemma ResetHeadersMembers(hs: seq<Header>, h: Header)
    ensures h in ResetHeaders(hs) <==> h in NoCacheHeaders || (h in hs && IsCorsHeader(h.name))
  {
    CorsOnlyMembers(hs, h);
  }

  /** Keeping the CORS headers of a header dictionary gives a header
      dictionary. */
  lemma {:induction false} CorsOnlyDistinct(hs: seq<Header>)
    requires DistinctNames(hs)
    ensures DistinctNames(CorsOnly(hs))
  {
    if hs != [] {
      var init, last := hs[..|hs| - 1], hs[|hs| - 1];
      assert DistinctNames(init) by {
        forall i, j | 0 <= i < j < |init|
          ensures !EqualsIgnoreCase(init[i].name, init[j].name)
        {
          assert init[i] == hs[i] && init[j] == hs[j];
        }
      }
      CorsOnlyDistinct(init);
      var c := CorsOnly(init);
      if IsCorsHeader(last.name) {
        forall i | 0 <= i < |c|
          ensures !EqualsIgnoreCase(c[i].name, last.name)
        {
          CorsOnlyMembers(init, c[i]);
          var k :| 0 <= k < |init| && init[k] == c[i];
          assert hs[k] == init[k];
        }
        assert CorsOnly(hs) == c + [last];
      }
    }
  }

  /** The headers of a reset response form a header dictionary: no CORS
      header clashes with a no-cache header. */
  lemma ResetHeadersDistinct(hs: seq<Header>)
    requires DistinctNames(hs)
    ensures DistinctNames(ResetHeaders(hs))
  {
    CorsOnlyDistinct(hs);
    var r, c := ResetHeaders(hs), CorsOnly(hs);
    forall i, j | 0 <= i < j < |r|
      ensures !EqualsIgnoreCase(r[i].name, r[j].name)
    {
      EqualsIgnoreCaseLength(r[i].name, r[j].name);
      if j >= 3 {
        CorsOnlyMembers(hs, r[j]);
        assert r[j] == c[j - 3];
        CorsNameLength(r[j].name);
        if i >= 3 {
          assert r[i] == c[i - 3];
        }
      }
    }
  }

  /** Every header of `hs` is a CORS header, so keeping the CORS headers
      keeps them all. */
  lemma {:induction false} CorsOnlyOfCors(hs: seq<Header>)
    requires forall k :: 0 <= k < |hs| ==> IsCorsHeader(hs[k].name)
    ensures CorsOnly(hs) == hs
  {
    if hs != [] {
      var init, last := hs[..|hs| - 1], hs[|hs| - 1];
      assert forall k :: 0 <= k < |init| ==> init[k] == hs[k];
      CorsOnlyOfCors(init);
      assert IsCorsHeader(last.name);
      assert hs == init + [last];
    }
  }

  lemma {:induction false} CorsOnlyAppend(a: seq<Header>, b: seq<Header>)
    ensures CorsOnly(a + b) == CorsOnly(a) + CorsOnly(b)
  {
    if b == [] {
      assert a + b == a;
    } else {
      var init := b[..|b| - 1];
      CorsOnlyAppend(a, init);
      assert (a + b)[..|a + b| - 1] == a + init;
      assert (a + b)[|a + b| - 1] == b[|b| - 1];
    }
  }

  /** A sequence of headers none of which is a CORS header keeps none. */
  lemma {:induction false} CorsOnlyOfNone(hs: seq<Header>)
    requires forall k :: 0 <= k < |hs| ==> !IsCorsHeader(hs[k].name)
    ensures CorsOnly(hs) == []
  {
    if hs != [] {
      CorsOnlyOfNone(hs[..|hs| - 1]);
    }
  }

  /** No no-cache header is a CORS header. */
  lemma NoCacheHeadersAreNotCors()
    ensures forall k :: 0 <= k < |NoCacheHeaders| ==> !IsCorsHeader(NoCacheHeaders[k].name)
  {
    forall k | 0 <= k < |NoCacheHeaders|
      ensures !IsCorsHeader(NoCacheHeaders[k].name)
    {
      if IsCorsHeader(NoCacheHeaders[k].name) {
        CorsNameLength(NoCacheHeaders[k].name);
      }
    }
  }

  /** Filtering the CORS headers twice keeps what filtering once keeps. */
  lemma CorsOnlyIdempotent(hs: seq<Header>)
    ensures CorsOnly(CorsOnly(hs)) == CorsOnly(hs)
  {
    var c := CorsOnly(hs);
    forall k | 0 <= k < |c|
      ensures IsCorsHeader(c[k].name)
    {
      CorsOnlyMembers(hs, c[k]);
    }
    CorsOnlyOfCors(c);
  }

  /** Resetting a reset response changes nothing more. */
  lemma ResetHeadersIdempotent(hs: seq<Header>)
    ensures ResetHeaders(ResetHeaders(hs)) == ResetHeaders(hs)
  {
    var c := CorsOnly(hs);
    NoCacheHeadersAreNotCors();
    calc {
      ResetHeaders(ResetHeaders(hs));
      NoCacheHeaders + CorsOnly(NoCacheHeaders + c);
      { CorsOnlyAppend(NoCacheHeaders, c); }
      NoCacheHeaders + (CorsOnly(NoCacheHeaders) + CorsOnly(c));
      { CorsOnlyOfNone(NoCacheHeaders); CorsOnlyIdempotent(hs); }
      NoCacheHeaders + ([] + c);
      { assert [] + c == c; }
      ResetHeaders(hs);
    }
  }
}
