/**
 The request driver of the HTTP client (pkg/customhttp/client.go): protocol fallback, retries,
 one authentication per redirect level and redirects. The network, the clock, the cookie jar and
 the caller's callbacks are answers of an arbitrary environment, indexed by how many protocol
 tries have been made.
 */
module RequestDriver {
  import opened Basics

  datatype Url = Url(scheme: string, hostname: string, port: string, path: string)

  type Host = (string, string)

  function HostOf(u: Url): Host {
    (u.hostname, u.port)
  }

  /** Scheme, host name and port with the scheme's default filled in. */
  function Origin(u: Url): (string, string, string) {
    (u.scheme, u.hostname,
     if u.port != "" then u.port else if u.scheme == "https" then "443" else if u.scheme == "http" then "80" else "")
  }

  /** The same scheme, host name and port, where a missing port is the scheme's default. */
  predicate SameOrigin(a: Url, b: Url)
    ensures SameOrigin(a, b) <==>
            && a.scheme == b.scheme && a.hostname == b.hostname
            && (|| a.port == b.port
                || (a.scheme == "https" && ((a.port == "" && b.port == "443") || (a.port == "443" && b.port == "")))
                || (a.scheme == "http" && ((a.port == "" && b.port == "80") || (a.port == "80" && b.port == ""))))
  {
    Origin(a) == Origin(b)
  }

  type Scope = Option<(string, string, string)>

  /** `auth` and `proxyAuth` are history: the origin for which the request's two credential headers were set, if it has them. */
  datatype Request = Request(url: Url, verb: string, auth: Scope, proxyAuth: Scope)

  datatype Failure = NegotiationFailed | Transient | Permanent | Cancelled | TooManyRedirects

  /** The Location header: absent, not a URL, or resolved against the request. */
  datatype Location = Missing | Unparsable | To(url: Url)

  datatype Resp = Resp(status: int, location: Location)

  datatype Answer = Response(resp: Resp) | Error(failure: Failure)

  datatype Protocol = H1 | H2 | H3

  /** One protocol try. */
  datatype Try = Try(request: Request, protocol: Protocol, answer: Answer)

  /** One attempt: the request and the answer its last try gave. */
  datatype Outcome = Outcome(request: Request, answer: Answer)

  /** What the preparation of the next request and the caller's CheckRedirect decide about a redirect. */
  datatype Decision = PrepareFails | UseLastResponse | CheckFails | Allow

  /** `credentials` says whether a 401 or 407 leads to credentials; absent and failing lookups look the same to the caller. */
  datatype Env = Env(answer: nat -> Answer, cancelled: nat -> bool, bodyFails: nat -> bool, credentials: nat -> bool,
                     decision: nat -> Decision)

  /** Nothing but the answers shapes the run: no cancellation, every body can be read again. */
  ghost predicate Undisturbed(env: Env) {
    forall k: nat :: !env.cancelled(k) && !env.bodyFails(k)
  }

  predicate IsRedirect(status: int) {
    match status
    case 301 => true
    case 302 => true
    case 303 => true
    case 307 => true
    case 308 => true
    case _ => false
  }

  predicate Idempotent(verb: string) {
    verb == "GET" || verb == "HEAD" || verb == "OPTIONS" || verb == "TRACE" || verb == "PUT" || verb == "DELETE"
  }

  function NextVerb(verb: string, status: int): string {
    if status == 303 then (if verb != "HEAD" then "GET" else verb)
    else if status == 302 || status == 301 then (if verb != "GET" && verb != "HEAD" then "GET" else verb)
    else verb
  }

  /** prepareNextRequest: credentials do not cross origins. */
  function NextRequest(r: Request, next: Url, status: int): Request {
    var here := SameOrigin(r.url, next);
    Request(next, NextVerb(r.verb, status), if here then r.auth else None, if here then r.proxyAuth else None)
  }

  /** handleAuthentication: the header the status asks for, set for the request's own origin. */
  function WithCredentials(r: Request, status: int): Request {
    if status == 407 then r.(proxyAuth := Some(Origin(r.url))) else r.(auth := Some(Origin(r.url)))
  }

  // --- What the next request must be -----------------------------------------------------------------

  const REDIRECTS := {301, 302, 303, 307, 308}
  const CHALLENGES := {401, 407}

  /**
   The request that follows a redirect goes to the Location; 303 turns every verb but HEAD into GET, 301 and 302
   every verb but GET and HEAD, 307 and 308 none; headers with credentials stay behind when the origin changes.
   */
  ghost predicate Redirected(r: Request, resp: Resp, next: Request) {
    && resp.status in REDIRECTS && resp.location == To(next.url)
    && (resp.status == 303 ==> next.verb == if r.verb == "HEAD" then "HEAD" else "GET")
    && (resp.status in {301, 302} ==> next.verb == if r.verb in {"GET", "HEAD"} then r.verb else "GET")
    && (resp.status in {307, 308} ==> next.verb == r.verb)
    && (SameOrigin(r.url, next.url) ==> next.auth == r.auth && next.proxyAuth == r.proxyAuth)
    && (!SameOrigin(r.url, next.url) ==> next.auth == None && next.proxyAuth == None)
  }

  /** The request that answers a challenge is the same but for the header it asks for. */
  ghost predicate Answered(r: Request, resp: Resp, next: Request) {
    && resp.status in CHALLENGES && next.url == r.url && next.verb == r.verb
    && (resp.status == 401 ==> next.auth == Some(Origin(r.url)) && next.proxyAuth == r.proxyAuth)
    && (resp.status == 407 ==> next.proxyAuth == Some(Origin(r.url)) && next.auth == r.auth)
  }

  lemma NextIsRedirected(r: Request, resp: Resp, url: Url)
    requires resp.location == To(url) && IsRedirect(resp.status)
    ensures Redirected(r, resp, NextRequest(r, url, resp.status))
  {
  }

  lemma CredentialsAnswer(r: Request, resp: Resp)
    requires resp.status == 401 || resp.status == 407
    ensures Answered(r, resp, WithCredentials(r, resp.status))
  {
  }

  // --- The order of protocols ----------------------------------------------------------------------

  /** Any HTTP/3 error and a failed HTTP/2 negotiation lead to the next protocol; nothing else does. */
  predicate FallsBack(t: Try) {
    (t.protocol == H3 && t.answer.Error?) || (t.protocol == H2 && t.answer == Error(NegotiationFailed))
  }

  function Below(p: Protocol, skipH2: bool): Protocol {
    if p == H3 && !skipH2 then H2 else H1
  }

  function First(req: Request, skipH2: bool, skipH3: bool): Protocol {
    if req.url.scheme != "https" then H1 else if !skipH3 then H3 else Below(H3, skipH2)
  }

  /** The tries of one attempt: best protocol first, next one exactly after a failure that falls back. */
  ghost predicate FallbackOrder(tries: seq<Try>, req: Request, skipH2: bool, skipH3: bool) {
    && |tries| > 0
    && (forall t <- tries :: t.request == req)
    && tries[0].protocol == First(req, skipH2, skipH3)
    && (forall i :: 0 <= i < |tries| - 1 ==> FallsBack(tries[i]) && tries[i + 1].protocol == Below(tries[i].protocol, skipH2))
    && !FallsBack(tries[|tries| - 1])
  }

  /** The three lengths a fallback can have. */
  lemma TriesInOrder(tries: seq<Try>, req: Request, skipH2: bool, skipH3: bool)
    requires 1 <= |tries| <= 3 && (forall i :: 0 <= i < |tries| ==> tries[i].request == req)
    requires tries[0].protocol == First(req, skipH2, skipH3) && !FallsBack(tries[|tries| - 1])
    requires |tries| > 1 ==> FallsBack(tries[0]) && tries[1].protocol == Below(tries[0].protocol, skipH2)
    requires |tries| > 2 ==> FallsBack(tries[1]) && tries[2].protocol == Below(tries[1].protocol, skipH2)
    ensures FallbackOrder(tries, req, skipH2, skipH3)
  {
  }

  // --- The order of attempts -----------------------------------------------------------------------

  predicate Retryable(o: Outcome, retryableStatus: set<int>) {
    match o.answer
    case Error(f) => f.Transient?
    case Response(r) => o.request.verb in {"GET", "HEAD", "OPTIONS", "TRACE", "PUT", "DELETE"} && r.status in retryableStatus
  }

  /** Why `b` was sent after `a`: a retry, an answered challenge, or a followed redirect. */
  ghost predicate Explained(a: Outcome, b: Outcome, retryableStatus: set<int>) {
    || (b.request == a.request && Retryable(a, retryableStatus))
    || (a.answer.Response? && Answered(a.request, a.answer.resp, b.request))
    || (a.answer.Response? && Redirected(a.request, a.answer.resp, b.request))
  }

  /** From position `from` on, the outcomes start with `req` and each is explained by the one before. */
  ghost predicate Chain(os: seq<Outcome>, from: nat, req: Request, retryableStatus: set<int>) {
    && from <= |os|
    && (from < |os| ==> os[from].request == req)
    && (forall i :: from <= i < |os| - 1 ==> Explained(os[i], os[i + 1], retryableStatus))
  }

  lemma ChainsJoin(os: seq<Outcome>, from: nat, mid: nat, req: Request, next: Request, retryableStatus: set<int>)
    requires from < mid <= |os| && Chain(os[..mid], from, req, retryableStatus) && Chain(os, mid, next, retryableStatus)
    requires mid < |os| ==> Explained(os[mid - 1], os[mid], retryableStatus)
    ensures Chain(os, from, req, retryableStatus)
  {
    var before := os[..mid];
    forall i | from <= i < |os| - 1 ensures Explained(os[i], os[i + 1], retryableStatus) {
      if i < mid - 1 {
        assert before[i] == os[i] && before[i + 1] == os[i + 1];
      }
    }
  }

  // --- The log of tries --------------------------------------------------------------------------

  predicate FailedH3(t: Try, h: Host) {
    t.protocol == H3 && t.answer.Error? && t.request.url.hostname == h.0 && t.request.url.port == h.1
  }

  predicate RefusedH2(t: Try, h: Host) {
    t.protocol == H2 && t.answer == Error(NegotiationFailed) && t.request.url.hostname == h.0 && t.request.url.port == h.1
  }

  function H3Failures(log: seq<Try>, h: Host): nat {
    if log == [] then 0 else H3Failures(log[..|log| - 1], h) + if FailedH3(log[|log| - 1], h) then 1 else 0
  }

  function H2Refusals(log: seq<Try>, h: Host): nat {
    if log == [] then 0 else H2Refusals(log[..|log| - 1], h) + if RefusedH2(log[|log| - 1], h) then 1 else 0
  }

  /** A host is remembered exactly when its one failure has been seen. */
  ghost predicate Remembered(log: seq<Try>, noH2: set<Host>, noH3: set<Host>) {
    && (forall h: Host :: H3Failures(log, h) == if h in noH3 then 1 else 0)
    && (forall h: Host :: H2Refusals(log, h) == if h in noH2 then 1 else 0)
  }

  /** An Authorization header travels only to the origin it was set for. */
  predicate Proper(r: Request) {
    (r.auth.Some? ==> r.auth.value == Origin(r.url)) && (r.proxyAuth.Some? ==> r.proxyAuth.value == Origin(r.url))
  }

  ghost predicate AllProper(log: seq<Try>) {
    forall t <- log :: Proper(t.request)
  }

  lemma LogTry(log: seq<Try>, t: Try, noH2: set<Host>, noH3: set<Host>)
    requires Remembered(log, noH2, noH3) && AllProper(log) && Proper(t.request)
    requires t.protocol == H3 ==> HostOf(t.request.url) !in noH3
    requires t.protocol == H2 ==> HostOf(t.request.url) !in noH2
    ensures AllProper(log + [t])
    ensures Remembered(log + [t],
                       if t.protocol == H2 && t.answer == Error(NegotiationFailed) then noH2 + {HostOf(t.request.url)} else noH2,
                       if t.protocol == H3 && t.answer.Error? then noH3 + {HostOf(t.request.url)} else noH3)
  {
    assert (log + [t])[..|log|] == log;
  }

  /** The total number of attempts a call may still make: two per redirect level, each with its retries. */
  function Budget(perRequest: nat, redirectsLeft: nat, authAttempted: bool): nat {
    perRequest * (2 * redirectsLeft + if authAttempted then 1 else 2)
  }

  lemma BudgetSteps(perRequest: nat, left: nat)
    ensures Budget(perRequest, left, false) == perRequest + Budget(perRequest, left, true)
    ensures left > 0 ==> Budget(perRequest, left, true) == perRequest + Budget(perRequest, left - 1, false)
    ensures Budget(perRequest, left, true) >= perRequest
  {
    assert perRequest * (2 * left + 2) == perRequest + perRequest * (2 * left + 1);
    if left > 0 {
      assert perRequest * (2 * left + 1) == perRequest + perRequest * (2 * (left - 1) + 2);
    }
    assert perRequest * (2 * left + 1) >= perRequest * 1;
  }

  lemma BudgetOfDo(perRequest: nat, left: nat)
    ensures Budget(perRequest, left, false) == 2 * (left + 1) * perRequest
    ensures 3 * (2 * (left + 1) * perRequest) == 6 * (left + 1) * perRequest
  {
  }

  lemma SetHereIsProper(r: Request, status: int)
    requires Proper(r)
    ensures Proper(WithCredentials(r, status))
  {
  }

  lemma NextIsProper(r: Request, next: Url, status: int)
    requires Proper(r)
    ensures Proper(NextRequest(r, next, status))
  {
  }

  /** What a valid client's history says about every host and every request. */
  lemma HistoryIs(log: seq<Try>, noH2: set<Host>, noH3: set<Host>)
    requires Remembered(log, noH2, noH3) && AllProper(log)
    ensures forall h: Host :: H3Failures(log, h) <= 1 && H2Refusals(log, h) <= 1
    ensures forall t <- log :: Proper(t.request)
  {
  }

  function RespOf(a: Answer): Option<Resp> {
    if a.Response? then Some(a.resp) else None
  }

  /**
   How a run goes on after the stretch of outcomes that ends before `mid`, given whether credentials are to be
   had and what is decided about a redirect; `os` are all its outcomes.
   */
  ghost predicate GoesOn(os: seq<Outcome>, mid: nat, req: Request, mayAuthenticate: bool, decision: Decision, mayRedirect: bool,
                         resp: Option<Resp>, err: Option<Failure>)
    requires 0 < mid <= |os|
  {
    match os[mid - 1].answer
    case Error(f) => |os| == mid && resp == None && err == Some(f)
    case Response(r) =>
      if r.status in CHALLENGES && mayAuthenticate then |os| > mid && Answered(req, r, os[mid].request)
      else if r.status in REDIRECTS then
        match r.location
        case Missing => |os| == mid && resp == Some(r) && err.Some?
        case Unparsable => |os| == mid && resp == Some(r) && err.Some?
        case To(url) =>
          match decision
          case PrepareFails => |os| == mid && resp == None && err.Some?
          case UseLastResponse => |os| == mid && resp == Some(r) && err == None
          case CheckFails => |os| == mid && resp == None && err.Some?
          case Allow =>
            if mayRedirect then |os| > mid && Redirected(req, r, os[mid].request)
            else |os| == mid && resp == None && err == Some(TooManyRedirects)
      else |os| == mid && resp == Some(r) && err == None
  }

  function ErrOf(a: Answer): Option<Failure> {
    if a.Error? then Some(a.failure) else None
  }

  // --- The client ------------------------------------------------------------------------------------

  /** `log` lists every protocol try and `outcomes` every attempt of the client's life. */
  class HttpClient {
    const maxRedirects: int
    const maxRetries: int
    const retryableStatus: set<int>
    const hasCredentials: bool
    var h2Unsupported: set<Host>
    var h3Unsupported: set<Host>
    ghost var log: seq<Try>
    ghost var outcomes: seq<Outcome>

    ghost predicate Valid()
      reads this
    {
      Remembered(log, h2Unsupported, h3Unsupported) && AllProper(log)
    }

    /** Attempts one request can cost before redirects. */
    function PerRequest(): nat {
      1 + if maxRetries < 0 then 0 else maxRetries
    }

    function RedirectsLeft(count: nat): nat {
      if maxRedirects < count then 0 else maxRedirects - count
    }

    constructor (maxRedirects: int, maxRetries: int, retryableStatus: set<int>, hasCredentials: bool)
      ensures Valid() && outcomes == [] && log == []
      ensures this.maxRedirects == maxRedirects && this.maxRetries == maxRetries
      ensures this.retryableStatus == retryableStatus && this.hasCredentials == hasCredentials
    {
      this.maxRedirects, this.maxRetries := maxRedirects, maxRetries;
      this.retryableStatus, this.hasCredentials := retryableStatus, hasCredentials;
      h2Unsupported, h3Unsupported, log, outcomes := {}, {}, [], [];
    }

    /** One try and what the client remembers of it. */
    method TryProtocol(req: Request, p: Protocol, env: Env, n: nat) returns (a: Answer)
      requires Valid() && Proper(req)
      requires p == H3 ==> HostOf(req.url) !in h3Unsupported
      requires p == H2 ==> HostOf(req.url) !in h2Unsupported
      modifies this
      ensures Valid() && outcomes == old(outcomes) && log == old(log) + [Try(req, p, a)] && a == env.answer(n)
      ensures h3Unsupported == if p == H3 && a.Error? then old(h3Unsupported) + {HostOf(req.url)} else old(h3Unsupported)
      ensures h2Unsupported == if p == H2 && a == Error(NegotiationFailed) then old(h2Unsupported) + {HostOf(req.url)} else old(h2Unsupported)
    {
      hide Remembered, AllProper;
      a := env.answer(n);
      LogTry(log, Try(req, p, a), h2Unsupported, h3Unsupported);
      log := log + [Try(req, p, a)];
      if p == H3 && a.Error? {
        h3Unsupported := h3Unsupported + {HostOf(req.url)};
      }
      if p == H2 && a == Error(NegotiationFailed) {
        h2Unsupported := h2Unsupported + {HostOf(req.url)};
      }
    }

    /** One attempt: HTTP/3, else HTTP/2, else HTTP/1. Without an error there is a response. */
    method Attempt(req: Request, env: Env, n: nat) returns (resp: Option<Resp>, err: Option<Failure>, n': nat)
      requires Valid() && Proper(req)
      modifies this
      ensures Valid() && |old(log)| < |log| <= |old(log)| + 3 && old(log) <= log && n < n' <= n + 3
      ensures outcomes == old(outcomes) + [Outcome(req, log[|log| - 1].answer)]
      ensures FallbackOrder(log[|old(log)|..], req, HostOf(req.url) in old(h2Unsupported), HostOf(req.url) in old(h3Unsupported))
      ensures resp == RespOf(log[|log| - 1].answer) && err == ErrOf(log[|log| - 1].answer)
    {
      hide Remembered, AllProper, Proper, FallbackOrder;
      resp, err, n' := None, None, n;
      var h3Attempted := false;
      if req.url.scheme == "https" && HostOf(req.url) !in h3Unsupported {
        var a := TryProtocol(req, H3, env, n');
        resp, err, n' := RespOf(a), ErrOf(a), n' + 1;
        if err.None? {
          h3Attempted := true;
        } else {
          err, resp := None, None;
        }
      }
      var useH2 := !h3Attempted && req.url.scheme == "https" && HostOf(req.url) !in h2Unsupported;
      if useH2 {
        var a := TryProtocol(req, H2, env, n');
        resp, err, n' := RespOf(a), ErrOf(a), n' + 1;
        if err == Some(NegotiationFailed) {
          useH2, err := false, None;
        }
      }
      if !h3Attempted && !useH2 {
        if resp.None? {
          var a := TryProtocol(req, H1, env, n');
          resp, err, n' := RespOf(a), ErrOf(a), n' + 1;
        }
      }
      TriesInOrder(log[|old(log)|..], req, HostOf(req.url) in old(h2Unsupported), HostOf(req.url) in old(h3Unsupported));
      outcomes := outcomes + [Outcome(req, log[|log| - 1].answer)];
    }

    /** The retry decision; without an error the response is there to be looked at. */
    function ShouldRetry(req: Request, resp: Option<Resp>, err: Option<Failure>, cancelled: bool, attempt: nat): bool
      requires err.None? ==> resp.Some?
    {
      attempt < maxRetries && !cancelled &&
      match err
      case Some(f) => f.Transient?
      case None => Idempotent(req.verb) && resp.value.status in retryableStatus
    }

    /**
     Retries of one request. The policy alone bounds the attempts; each but the last was retryable,
     and, undisturbed, the last is not unless the retries are used up.
     */
    method ExecuteWithRetries(req: Request, env: Env, n: nat) returns (resp: Option<Resp>, err: Option<Failure>, n': nat)
      requires Valid() && Proper(req)
      modifies this
      ensures Valid() && n <= n' && old(log) <= log && old(outcomes) <= outcomes
      ensures |outcomes| <= |old(outcomes)| + PerRequest()
      ensures |log| - |old(log)| <= 3 * (|outcomes| - |old(outcomes)|)
      ensures Chain(outcomes, |old(outcomes)|, req, retryableStatus)
      ensures forall i :: |old(outcomes)| <= i < |outcomes| ==> outcomes[i].request == req
      ensures err.None? ==> resp.Some? && |outcomes| > |old(outcomes)| && outcomes[|outcomes| - 1].answer == Response(resp.value)
      ensures env.cancelled(n) ==> outcomes == old(outcomes) && resp == None && err == Some(Cancelled)
      ensures !env.cancelled(n) && env.bodyFails(n) ==> outcomes == old(outcomes) && resp == None && err == Some(Permanent)
      ensures !env.cancelled(n) && !env.bodyFails(n) ==> |outcomes| > |old(outcomes)|
      ensures Undisturbed(env) ==>
                && |outcomes| > |old(outcomes)|
                && resp == RespOf(outcomes[|outcomes| - 1].answer) && err == ErrOf(outcomes[|outcomes| - 1].answer)
                && (Retryable(outcomes[|outcomes| - 1], retryableStatus) ==> |outcomes| == |old(outcomes)| + PerRequest())
    {
      hide Remembered, AllProper, Proper, FallbackOrder;
      var attempt := 0;
      resp, err, n' := None, None, n;
      while true
        invariant Valid() && n <= n' && old(log) <= log && old(outcomes) <= outcomes
        invariant |outcomes| == |old(outcomes)| + attempt
        invariant attempt > 0 ==> attempt <= maxRetries
        invariant |log| - |old(log)| <= 3 * attempt
        invariant attempt == 0 ==> n' == n && err == None && outcomes == old(outcomes)
        invariant attempt > 0 ==> !env.cancelled(n) && !env.bodyFails(n)
        invariant forall i :: |old(outcomes)| <= i < |outcomes| ==> outcomes[i].request == req && Retryable(outcomes[i], retryableStatus)
        decreases PerRequest() - attempt
      {
        if env.cancelled(n') {
          if err.None? {
            resp, err := None, Some(Cancelled);
          }
          return;
        }
        if env.bodyFails(n') {
          return None, Some(Permanent), n';
        }
        resp, err, n' := Attempt(req, env, n');
        if !ShouldRetry(req, resp, err, env.cancelled(n'), attempt) {
          return;
        }
        attempt, n' := attempt + 1, n' + 1;
        if env.cancelled(n') {
          return;
        }
        n' := n' + 1;
      }
    }

    /**
     The run from a given redirect level on: it ends within the budget and every request in it is explained.
     The outcomes before `mid` are the attempts for `req`, and `at` is where the environment stands after them;
     undisturbed, the run goes on from there as GoesOn says.
     */
    method DoInternal(req: Request, redirectCount: nat, via: seq<Request>, authAttempted: bool, env: Env, n: nat)
      returns (resp: Option<Resp>, err: Option<Failure>, n': nat, ghost mid: nat, ghost at: nat)
      requires Valid() && Proper(req) && |via| == redirectCount
      modifies this
      ensures Valid() && n <= n' && old(log) <= log && old(outcomes) <= outcomes
      ensures |outcomes| <= |old(outcomes)| + Budget(PerRequest(), RedirectsLeft(redirectCount), authAttempted)
      ensures |log| - |old(log)| <= 3 * (|outcomes| - |old(outcomes)|)
      ensures Chain(outcomes, |old(outcomes)|, req, retryableStatus)
      ensures err.None? ==> resp.Some? && |outcomes| > |old(outcomes)| && outcomes[|outcomes| - 1].answer == Response(resp.value)
      ensures err.None? && resp.value.status in REDIRECTS ==> env.decision(n').UseLastResponse?
      ensures |old(outcomes)| <= mid <= |outcomes| && forall i :: |old(outcomes)| <= i < mid ==> outcomes[i].request == req
      ensures Undisturbed(env) ==>
                && |outcomes| > |old(outcomes)| && mid > 0 && mid > |old(outcomes)|
                && GoesOn(outcomes, mid, req, !authAttempted && hasCredentials && env.credentials(at), env.decision(at),
                          redirectCount < maxRedirects, resp, err)
      decreases RedirectsLeft(redirectCount), !authAttempted, 1
    {
      hide Remembered, AllProper, Budget, Proper, Chain, Redirected, Answered;
      BudgetSteps(PerRequest(), RedirectsLeft(redirectCount));
      resp, err, n' := ExecuteWithRetries(req, env, n);
      mid, at := |outcomes|, n';
      if err.Some? {
        resp := None;
        return;
      }
      ghost var done := outcomes;
      var r := resp.value;
      if (r.status == 401 || r.status == 407) && !authAttempted && hasCredentials && env.credentials(n') {
        var nextReq := WithCredentials(req, r.status);
        SetHereIsProper(req, r.status);
        CredentialsAnswer(req, r);
        ghost var mid', at';
        resp, err, n', mid', at' := DoInternal(nextReq, redirectCount, via, true, env, n');
        assert outcomes[..mid] == done;
        ChainStarts(outcomes, mid, nextReq, retryableStatus);
        ChainsJoin(outcomes, |old(outcomes)|, mid, req, nextReq, retryableStatus);
        return;
      }
      if IsRedirect(r.status) {
        ghost var nextReq;
        resp, err, n', nextReq := HandleRedirect(req, r, redirectCount, via, env, n');
        assert outcomes[..mid] == done;
        ChainStarts(outcomes, mid, nextReq, retryableStatus);
        ChainsJoin(outcomes, |old(outcomes)|, mid, req, nextReq, retryableStatus);
      }
    }

    /** `r` is the redirect response; `next` is the request it leads to when one is sent. */
    method HandleRedirect(req: Request, r: Resp, redirectCount: nat, via: seq<Request>, env: Env, n: nat)
      returns (resp: Option<Resp>, err: Option<Failure>, n': nat, ghost next: Request)
      requires Valid() && Proper(req) && |via| == redirectCount && IsRedirect(r.status)
      modifies this
      ensures Valid() && n <= n' && old(log) <= log && old(outcomes) <= outcomes
      ensures redirectCount >= maxRedirects ==> outcomes == old(outcomes)
      ensures redirectCount < maxRedirects ==>
                |outcomes| <= |old(outcomes)| + Budget(PerRequest(), RedirectsLeft(redirectCount) - 1, false)
      ensures |log| - |old(log)| <= 3 * (|outcomes| - |old(outcomes)|)
      ensures Chain(outcomes, |old(outcomes)|, next, retryableStatus)
      ensures |outcomes| > |old(outcomes)| ==> Redirected(req, r, next)
      ensures r.location.To? && env.decision(n).Allow? && redirectCount < maxRedirects ==>
                Redirected(req, r, next) && next.url == r.location.url && (Undisturbed(env) ==> |outcomes| > |old(outcomes)|)
      ensures !r.location.To? || !env.decision(n).Allow? || redirectCount >= maxRedirects ==> outcomes == old(outcomes)
      ensures !r.location.To? ==> resp == Some(r) && err.Some?
      ensures r.location.To? && env.decision(n).UseLastResponse? ==> resp == Some(r) && err == None
      ensures r.location.To? && (env.decision(n).PrepareFails? || env.decision(n).CheckFails?) ==> resp == None && err.Some?
      ensures r.location.To? && env.decision(n).Allow? && redirectCount >= maxRedirects ==> resp == None && err == Some(TooManyRedirects)
      ensures err.None? && outcomes == old(outcomes) ==> resp == Some(r)
      ensures err.None? && outcomes != old(outcomes) ==> resp.Some? && outcomes[|outcomes| - 1].answer == Response(resp.value)
      ensures err.None? && resp.value.status in REDIRECTS ==> env.decision(n').UseLastResponse?
      decreases RedirectsLeft(redirectCount), false, 0
    {
      hide Remembered, AllProper, Budget, Proper, Redirected, Answered, Explained;
      next := req;
      n' := n;
      match r.location
      case Missing => resp, err := Some(r), Some(Permanent);
      case Unparsable => resp, err := Some(r), Some(Permanent);
      case To(url) =>
        match env.decision(n)
        case PrepareFails => resp, err := None, Some(Permanent);
        case UseLastResponse => resp, err := Some(r), None;
        case CheckFails => resp, err := None, Some(Permanent);
        case Allow =>
          if redirectCount >= maxRedirects {
            resp, err := None, Some(TooManyRedirects);
          } else {
            var nextReq := NextRequest(req, url, r.status);
            next := nextReq;
            NextIsProper(req, url, r.status);
            NextIsRedirected(req, r, url);
            ghost var mid, at;
            resp, err, n', mid, at := DoInternal(nextReq, redirectCount + 1, via + [req], false, env, n);
          }
    }

    /**
     Every Do terminates, within 2 * (redirects + 1) * (retries + 1) attempts of at most three tries
     each, and every request of the run is the caller's or explained by the answer before it. In the whole
     life of the client a host sees at most one failed HTTP/3 try and one refused HTTP/2 negotiation, and
     credentials travel only to the origin they were set for.
     */
    method Do(req: Request, env: Env) returns (resp: Option<Resp>, err: Option<Failure>, ghost mid: nat, ghost at: nat)
      requires Valid() && Proper(req)
      modifies this
      ensures Valid() && old(log) <= log && old(outcomes) <= outcomes
      ensures |outcomes| - |old(outcomes)| <= 2 * (RedirectsLeft(0) + 1) * PerRequest()
      ensures |log| - |old(log)| <= 6 * (RedirectsLeft(0) + 1) * PerRequest()
      ensures Chain(outcomes, |old(outcomes)|, req, retryableStatus)
      ensures err.None? ==> resp.Some? && |outcomes| > |old(outcomes)| && outcomes[|outcomes| - 1].answer == Response(resp.value)
      ensures Undisturbed(env) ==>
                && |old(outcomes)| < mid <= |outcomes| && (forall i :: |old(outcomes)| <= i < mid ==> outcomes[i].request == req)
                && GoesOn(outcomes, mid, req, hasCredentials && env.credentials(at), env.decision(at), 0 < maxRedirects, resp, err)
      ensures forall h: Host :: H3Failures(log, h) <= 1 && H2Refusals(log, h) <= 1
      ensures forall t <- log :: Proper(t.request)
    {
      hide Remembered, AllProper, Proper, Chain, Budget, GoesOn;
      mid, at := |outcomes|, 0;
      if env.bodyFails(0) {
        ChainEmpty(outcomes, req, retryableStatus);
        NoSpend(PerRequest(), RedirectsLeft(0));
        HistoryIs(log, h2Unsupported, h3Unsupported);
        return None, Some(Permanent), mid, at;
      }
      var n := 1;
      resp, err, n, mid, at := DoInternal(req, 0, [], false, env, n);
      BudgetOfDo(PerRequest(), RedirectsLeft(0));
      HistoryIs(log, h2Unsupported, h3Unsupported);
    }
  }

  lemma NoSpend(perRequest: nat, left: nat)
    ensures 0 <= 2 * (left + 1) * perRequest && 0 <= 6 * (left + 1) * perRequest
  {
  }

  lemma ChainEmpty(os: seq<Outcome>, req: Request, retryableStatus: set<int>)
    ensures Chain(os, |os|, req, retryableStatus)
  {
  }

  lemma ChainStarts(os: seq<Outcome>, from: nat, req: Request, retryableStatus: set<int>)
    requires Chain(os, from, req, retryableStatus)
    ensures from <= |os| && (from < |os| ==> os[from].request == req)
  {
  }
}
