/**
 * The mock deriver (src/servo/mocks.ts; src/api.ts has the same algorithm
 * with captures taking plain strings). It accumulates the path like the
 * client; each METHOD leaf becomes an installer that registers a handler
 * serving a queue of canned responses, sticking on the last one.
 */
module Mocks {
  import opened Results
  import opened ApiCore
  import opened Routes

  /** What a METHOD leaf returns: registers a handler for its verb at this path. */
  datatype Installer = Installer(verb: Verb, path: string, templates: seq<Template>)

  /** The function a CAPTURE returns: the rest of the tree and the path so far. */
  datatype PendingMock = PendingMock(name: string, next: Api, path: string)

  type MockListing = Artifact<Installer, PendingMock>

  function GenerateMockHandlers(a: Api, path: string): MockListing
  {
    match a
    case Method(verb, templates) => Leaf(Installer(verb, path, templates))
    case Path(segment, next) => GenerateMockHandlers(next, path + "/" + segment)
    case Or(l, r) => Pair(GenerateMockHandlers(l, path), GenerateMockHandlers(r, path))
    case Any(alts) => Items(seq(|alts|, i requires 0 <= i < |alts| => GenerateMockHandlers(alts[i], path)))
    case Capture(name, next) => Await(PendingMock(name, next, path))
    case Header(_, next) => GenerateMockHandlers(next, path)
    case QueryParam(_, next) => GenerateMockHandlers(next, path)
    case Body(_, next) => GenerateMockHandlers(next, path)
  }

  /** Calling a CAPTURE's function with the value of its field `c[name]`. */
  function ApplyMock(k: PendingMock, value: string): MockListing
  {
    GenerateMockHandlers(k.next, k.path + "/" + value)
  }

  function Expected(path: string, w: Option<Trail<string>>): Option<Installer>
  {
    match w
    case None => None
    case Some(tr) => Some(Installer(tr.verb, path + Joined(tr.hops, Verbatim), tr.templates))
  }

  lemma ThroughExpected(path: string, h: Hop<string>, w: Option<Trail<string>>)
    ensures Expected(path + Piece(h, Verbatim), w) == Expected(path, Through(h, w))
  {
    if w.Some? {
      JoinedCons(h, w.value.hops, Verbatim);
      assert path + Piece(h, Verbatim) + Joined(w.value.hops, Verbatim)
          == path + (Piece(h, Verbatim) + Joined(w.value.hops, Verbatim));
    }
  }

  /**
   * Every route through the derived mocks ends at an installer for the
   * route's METHOD whose path is the base path followed by each PATH segment
   * and CAPTURE value on the route; HEADER, QUERY_PARAM and BODY take no
   * argument and add nothing, OR and ANY hand every branch the same path.
   */
  lemma {:induction false} MocksFollowRoute(a: Api, path: string, route: seq<Step<string>>)
    ensures Run(GenerateMockHandlers(a, path), route, ApplyMock) == Expected(path, Walk(a, route, CaptureArgs))
    decreases a, 1
  {
    match a
    case Method(_, _) =>
      assert path + Joined([], Verbatim) == path;
    case Path(segment, next) =>
      MocksThrough(a, path, path + "/" + segment, route);
    case Capture(name, next) =>
      if |route| > 0 && route[0].Give? {
        MocksCapture(a, path, route);
      }
    case Header(_, next) =>
      MocksThrough(a, path, path, route);
    case QueryParam(_, next) =>
      MocksThrough(a, path, path, route);
    case Body(_, next) =>
      MocksThrough(a, path, path, route);
    case Or(l, r) =>
      if |route| > 0 && route[0].Pick? && route[0].index < 2 {
        MocksFollowRoute(if route[0].index == 0 then l else r, path, route[1..]);
      }
    case Any(alts) =>
      if |route| > 0 && route[0].Pick? && route[0].index < |alts| {
        MocksFollowRoute(alts[route[0].index], path, route[1..]);
      }
  }

  /** An extender that takes no argument: the rest of the tree starts from `path'`. */
  lemma {:induction false} MocksThrough(a: Api, path: string, path': string, route: seq<Step<string>>)
    requires IsExtender(a) && !a.Capture?
    requires GenerateMockHandlers(a, path) == GenerateMockHandlers(a.next, path')
    requires path' == path + Piece(Hop(a, None), Verbatim)
    ensures Run(GenerateMockHandlers(a, path), route, ApplyMock) == Expected(path, Walk(a, route, CaptureArgs))
    decreases a, 0
  {
    MocksFollowRoute(a.next, path', route);
    ThroughExpected(path, Hop(a, None), Walk(a.next, route, CaptureArgs));
  }

  /** A CAPTURE given value `v`: the rest of the tree starts from `path/v`. */
  lemma {:induction false} MocksCapture(a: Api, path: string, route: seq<Step<string>>)
    requires a.Capture? && |route| > 0 && route[0].Give?
    ensures Run(GenerateMockHandlers(a, path), route, ApplyMock) == Expected(path, Walk(a, route, CaptureArgs))
    decreases a, 0
  {
    var v := route[0].arg;
    MocksFollowRoute(a.next, path + "/" + v, route[1..]);
    assert path + "/" + v == path + Piece(Hop(a, Some(v)), Verbatim);
    ThroughExpected(path, Hop(a, Some(v)), Walk(a.next, route[1..], CaptureArgs));
  }

  // Canned responses and the registered handler.

  /** A canned response `{statusCode, data, headers?}`. */
  datatype Canned<J> = Canned(statusCode: int, data: J, headers: Option<map<string, string>>)

  /** A registered handler: where it listens, the node's templates, and the resolver's queue. */
  datatype Handler<J> = Handler(verb: Verb, path: string, templates: seq<Template>, queue: seq<Canned<J>>)

  /**
   * Calling an installer with canned responses registers a handler holding
   * them in order. Registration inspects nothing, so it cannot fail.
   */
  function Install<J>(inst: Installer, responses: seq<Canned<J>>): Handler<J>
  {
    Handler(inst.verb, inst.path, inst.templates, responses)
  }

  /** What the handler sends: `ctx.status`, `ctx.json` and one `ctx.set` per template header. */
  datatype Served<J> = Served(status: int, body: J, headers: map<string, Option<string>>)

  /**
   * The handler throws "Couldn't mock" for a status with no template; reading
   * the front of an empty queue, or a header of a canned response that has
   * none, raises a TypeError in JavaScript.
   */
  datatype MockError = CouldNotMock | NoResponses | HeadersMissing

  function CannedHeaders<J>(c: Canned<J>): map<string, string>
  {
    match c.headers
    case Some(hs) => hs
    case None => map[]
  }

  /** Serving one canned response against the node's templates. */
  function Respond<J>(templates: seq<Template>, c: Canned<J>): Result<Served<J>, MockError>
  {
    match FindTemplate(templates, c.statusCode)
    case None => Err(CouldNotMock)
    case Some(t) =>
      match GetHeaders(t)
      case Some(names) =>
        if |names| > 0 && c.headers.None? then Err(HeadersMissing)
        else Ok(Served(c.statusCode, c.data, map k | k in names :: Lookup(CannedHeaders(c), k)))
      case None => Ok(Served(c.statusCode, c.data, map[]))
  }

  /**
   * A canned response is served with its own status and data exactly when
   * some template has its status; the first such template decides the
   * headers: none for a plain template, and for a header template exactly
   * its names, each set to the canned value. A header template fails only
   * when it names headers and the canned response carries none.
   */
  lemma RespondFollowsTemplates<J>(templates: seq<Template>, c: Canned<J>)
    ensures Respond(templates, c) == Err(CouldNotMock)
        <==> forall j :: 0 <= j < |templates| ==> GetStatus(templates[j]) != c.statusCode
    ensures Respond(templates, c).Ok? ==>
      Respond(templates, c).value.status == c.statusCode && Respond(templates, c).value.body == c.data
    ensures forall i :: FirstMatchAt(templates, c.statusCode, i) && templates[i].PlainResponse? ==>
      Respond(templates, c) == Ok(Served(c.statusCode, c.data, map[]))
    ensures forall i :: FirstMatchAt(templates, c.statusCode, i) && templates[i].HeaderResponse? ==>
      (Respond(templates, c) == Err(HeadersMissing) <==> |templates[i].headers| > 0 && c.headers.None?)
    ensures forall i :: FirstMatchAt(templates, c.statusCode, i) && templates[i].HeaderResponse? ==>
      (Respond(templates, c).Ok? <==> !(|templates[i].headers| > 0 && c.headers.None?))
    ensures Respond(templates, c) != Err(NoResponses)
    ensures forall i :: FirstMatchAt(templates, c.statusCode, i) && templates[i].HeaderResponse? ==>
      var r := Respond(templates, c);
      r.Ok? ==>
        && (forall k :: k in r.value.headers <==> k in templates[i].headers)
        && (forall k :: k in r.value.headers ==> r.value.headers[k] == Lookup(CannedHeaders(c), k))
  {
    var r := Respond(templates, c);
    var i := FirstMatch(templates, c.statusCode);
    if i.Some? {
      assert FindTemplate(templates, c.statusCode) == Some(templates[i.value]);
      forall j | FirstMatchAt(templates, c.statusCode, j)
        ensures j == i.value
      {
        FirstMatchUnique(templates, c.statusCode, i.value, j);
      }
    }
  }

  /**
   * One intercepted request: with more than one response queued the front
   * is shifted off and served, otherwise element 0 is served and kept. The
   * queue moves before the template lookup, so it moves even when serving fails.
   */
  function Serve<J>(h: Handler<J>): (Result<Served<J>, MockError>, Handler<J>)
  {
    if |h.queue| == 0 then (Err(NoResponses), h)
    else if |h.queue| > 1 then (Respond(h.templates, h.queue[0]), h.(queue := h.queue[1..]))
    else (Respond(h.templates, h.queue[0]), h)
  }

  /** The handler after `n` intercepted requests. */
  function After<J>(h: Handler<J>, n: nat): Handler<J>
    decreases n
  {
    if n == 0 then h else After(Serve(h).1, n - 1)
  }

  /** What `n` successive intercepted requests receive. */
  function Outcomes<J>(h: Handler<J>, n: nat): seq<Result<Served<J>, MockError>>
    decreases n
  {
    if n == 0 then [] else [Serve(h).0] + Outcomes(Serve(h).1, n - 1)
  }

  function Min(x: int, y: int): int
  {
    if x <= y then x else y
  }

  /**
   * From a non-empty queue the handler never runs dry: after `n` requests
   * the queue is the original from position min(n, length - 1) on, and only
   * the queue changes.
   */
  lemma {:induction false} QueueNeverEmpties<J>(h: Handler<J>, n: nat)
    requires |h.queue| > 0
    ensures After(h, n).queue == h.queue[Min(n, |h.queue| - 1)..]
    ensures |After(h, n).queue| > 0
    ensures After(h, n).verb == h.verb && After(h, n).path == h.path && After(h, n).templates == h.templates
    decreases n
  {
    if n > 0 {
      var h' := Serve(h).1;
      QueueNeverEmpties(h', n - 1);
      if |h.queue| > 1 {
        assert h'.queue == h.queue[1..];
        assert h'.queue[Min(n - 1, |h'.queue| - 1)..] == h.queue[Min(n, |h.queue| - 1)..];
      }
    }
  }

  lemma {:induction false} OutcomesLength<J>(h: Handler<J>, n: nat)
    ensures |Outcomes(h, n)| == n
    decreases n
  {
    if n > 0 {
      OutcomesLength(Serve(h).1, n - 1);
    }
  }

  /** Request `k` of `n` receives what the handler serves after `k` earlier requests. */
  lemma {:induction false} OutcomeAfter<J>(h: Handler<J>, n: nat, k: nat)
    requires k < n
    ensures |Outcomes(h, n)| == n
    ensures Outcomes(h, n)[k] == Serve(After(h, k)).0
    decreases n
  {
    OutcomesLength(h, n);
    var (first, h') := Serve(h);
    var rest := Outcomes(h', n - 1);
    assert Outcomes(h, n) == [first] + rest;
    if k > 0 {
      OutcomeAfter(h', n - 1, k - 1);
      assert After(h, k) == After(h', k - 1);
      assert ([first] + rest)[k] == rest[k - 1];
    }
  }

  /**
   * Responses are served in registration order and the last one sticks:
   * request `k` receives canned response min(k, length - 1).
   */
  lemma ServedInOrder<J>(h: Handler<J>, n: nat)
    requires |h.queue| > 0
    ensures |Outcomes(h, n)| == n
    ensures forall k :: 0 <= k < n ==> Outcomes(h, n)[k] == Respond(h.templates, h.queue[Min(k, |h.queue| - 1)])
  {
    if n > 0 {
      OutcomeAfter(h, n, 0);
    } else {
      assert Outcomes(h, n) == [];
    }
    forall k | 0 <= k < n
      ensures Outcomes(h, n)[k] == Respond(h.templates, h.queue[Min(k, |h.queue| - 1)])
    {
      OutcomeAfter(h, n, k);
      QueueNeverEmpties(h, k);
      assert After(h, k).queue[0] == h.queue[Min(k, |h.queue| - 1)];
    }
  }

  /** Registering `[A, B]` and serving three requests gives A, B, B. */
  lemma StickyLastExample<J>(inst: Installer, a: Canned<J>, b: Canned<J>)
    ensures Outcomes(Install(inst, [a, b]), 3)
         == [Respond(inst.templates, a), Respond(inst.templates, b), Respond(inst.templates, b)]
  {
    ServedInOrder(Install(inst, [a, b]), 3);
  }

  /** Registering with no canned responses fails on every request and changes nothing. */
  lemma EmptyQueueFails<J>(h: Handler<J>, n: nat)
    requires |h.queue| == 0
    ensures After(h, n) == h
    ensures forall k :: 0 <= k < |Outcomes(h, n)| ==> Outcomes(h, n)[k] == Err(NoResponses)
    decreases n
  {
    if n > 0 {
      EmptyQueueFails(h, n - 1);
    }
  }

  // The canned-response helpers.

  /** JavaScript truthiness and the `{}` literal, for the `data || {}` default. */
  datatype Js<!J> = Js(truthy: J -> bool, emptyObject: J)

  /** `data || {}`, where `None` is an omitted argument. */
  function OrEmpty<J>(js: Js<J>, data: Option<J>): J
  {
    if data.Some? && js.truthy(data.value) then data.value else js.emptyObject
  }

  /** `ok(data?, headers?)`. */
  function OkResponse<J>(js: Js<J>, data: Option<J>, headers: Option<map<string, string>>): (c: Canned<J>)
    ensures c.statusCode == 200
    ensures c.headers == headers
    ensures data.Some? && js.truthy(data.value) ==> c.data == data.value
    ensures data.None? || !js.truthy(data.value) ==> c.data == js.emptyObject
  {
    Canned(200, OrEmpty(js, data), headers)
  }

  /** `response(data?, status?, headers?)`: a status of 0 is falsy and falls back to 200. */
  function Response<J>(js: Js<J>, data: Option<J>, status: Option<int>, headers: Option<map<string, string>>): (c: Canned<J>)
    ensures status.None? || status == Some(0) ==> c.statusCode == 200
    ensures status.Some? && status.value != 0 ==> c.statusCode == status.value
    ensures c.data == OkResponse(js, data, headers).data && c.headers == headers
  {
    Canned(if status.Some? && status.value != 0 then status.value else 200, OrEmpty(js, data), headers)
  }

  /** `serverError(data)`: status 500, the data as given, no headers. */
  function ServerError<J>(data: J): (c: Canned<J>)
    ensures c.statusCode == 500 && c.data == data && c.headers.None?
  {
    Canned(500, data, None)
  }
}
