/**
 * How the derived client and the derived mocks fit together: for the same
 * tree they put a leaf at the same path, and a reply the mock serves passes
 * the client's template matching with its data, status and headers intact.
 */
module Agreement {
  import opened Results
  import opened ApiCore
  import opened Routes
  import ClientHandlers
  import Mocks
  import Dsl

  /** The hop the mocks record where the client recorded `h`: only a CAPTURE keeps its value. */
  function StripHop<A>(h: Hop<A>): Hop<A>
  {
    Hop(h.node, if h.node.Capture? then h.arg else None)
  }

  function Strip<A>(hops: seq<Hop<A>>): (r: seq<Hop<A>>)
    ensures |r| == |hops|
  {
    if |hops| == 0 then [] else [StripHop(hops[0])] + Strip(hops[1..])
  }

  /**
   * The route a mock caller takes where a client caller took `route`: the
   * same picks and CAPTURE values, without the values the client gives to
   * HEADER, QUERY_PARAM and BODY.
   */
  function MockRoute<A>(a: Api, route: seq<Step<A>>): seq<Step<A>>
  {
    match a
    case Method(_, _) => route
    case Or(l, r) =>
      if |route| > 0 && route[0].Pick? && route[0].index < 2
      then [route[0]] + MockRoute(if route[0].index == 0 then l else r, route[1..])
      else route
    case Any(alts) =>
      if |route| > 0 && route[0].Pick? && route[0].index < |alts|
      then [route[0]] + MockRoute(alts[route[0].index], route[1..])
      else route
    case Path(_, next) => MockRoute(next, route)
    case Capture(_, next) =>
      if |route| > 0 && route[0].Give? then [route[0]] + MockRoute(next, route[1..]) else route
    case Header(_, next) =>
      if |route| > 0 && route[0].Give? then MockRoute(next, route[1..]) else route
    case QueryParam(_, next) =>
      if |route| > 0 && route[0].Give? then MockRoute(next, route[1..]) else route
    case Body(_, next) =>
      if |route| > 0 && route[0].Give? then MockRoute(next, route[1..]) else route
  }

  lemma StripThrough<A>(h: Hop<A>, w: Option<Trail<A>>)
    requires w.Some?
    ensures Through(StripHop(h), Some(Trail(Strip(w.value.hops), w.value.verb, w.value.templates)))
         == Some(Trail(Strip(Through(h, w).value.hops), w.value.verb, w.value.templates))
  {
    var hops := [h] + w.value.hops;
    assert hops[0] == h && hops[1..] == w.value.hops;
  }

  /**
   * Where the client's route reaches a leaf, the corresponding mock route
   * reaches the same leaf through the same nodes, holding the same CAPTURE
   * values and nothing at the other extenders.
   */
  lemma {:induction false} MockRouteWalks<A>(a: Api, route: seq<Step<A>>)
    requires Walk(a, route, AllArgs).Some?
    ensures Walk(a, MockRoute(a, route), CaptureArgs)
         == Some(Trail(Strip(Walk(a, route, AllArgs).value.hops), Walk(a, route, AllArgs).value.verb,
                       Walk(a, route, AllArgs).value.templates))
  {
    match a
    case Method(_, _) =>
    case Or(l, r) =>
      var m := MockRoute(if route[0].index == 0 then l else r, route[1..]);
      MockRouteWalks(if route[0].index == 0 then l else r, route[1..]);
      assert ([route[0]] + m)[1..] == m;
    case Any(alts) =>
      var m := MockRoute(alts[route[0].index], route[1..]);
      MockRouteWalks(alts[route[0].index], route[1..]);
      assert ([route[0]] + m)[1..] == m;
    case Path(_, next) =>
      MockRouteWalks(next, route);
      StripThrough(Hop(a, None), Walk(next, route, AllArgs));
    case Capture(_, next) =>
      var m := MockRoute(next, route[1..]);
      MockRouteWalks(next, route[1..]);
      assert ([route[0]] + m)[1..] == m;
      StripThrough(Hop(a, Some(route[0].arg)), Walk(next, route[1..], AllArgs));
    case Header(_, next) =>
      MockRouteWalks(next, route[1..]);
      StripThrough(Hop(a, Some(route[0].arg)), Walk(next, route[1..], AllArgs));
    case QueryParam(_, next) =>
      MockRouteWalks(next, route[1..]);
      StripThrough(Hop(a, Some(route[0].arg)), Walk(next, route[1..], AllArgs));
    case Body(_, next) =>
      MockRouteWalks(next, route[1..]);
      StripThrough(Hop(a, Some(route[0].arg)), Walk(next, route[1..], AllArgs));
  }

  /** Dropping the non-CAPTURE values changes no path text. */
  lemma {:induction false} StripKeepsPath<A>(hops: seq<Hop<A>>, show: A -> string)
    ensures Joined(Strip(hops), show) == Joined(hops, show)
  {
    if |hops| > 0 {
      StripKeepsPath(hops[1..], show);
      assert Strip(hops)[1..] == Strip(hops[1..]);
    }
  }

  /** The client's hops along a route: each extender that takes a value was given one. */
  lemma WalkGivesAll<V>(a: Api, route: seq<Step<V>>)
    requires Walk(a, route, AllArgs).Some?
    ensures ClientHandlers.Given(Walk(a, route, AllArgs).value.hops)
  {
  }

  /**
   * Along any route through the client, the request path is the base path
   * followed by every PATH segment and every CAPTURE value on the route, in order.
   */
  lemma RequestPathAlongRoute<V>(a: Api, acc: ClientHandlers.Acc<V>, codec: ClientHandlers.Codec<V>, route: seq<Step<V>>)
    requires Walk(a, route, AllArgs).Some?
    ensures Run(ClientHandlers.GetClientHandlers(a, acc), route, ClientHandlers.Applier(codec)).Some?
    ensures Run(ClientHandlers.GetClientHandlers(a, acc), route, ClientHandlers.Applier(codec)).value.request.path
         == acc.path + Joined(Walk(a, route, AllArgs).value.hops, codec.show)
  {
    ClientHandlers.ClientFollowsRoute(a, acc, codec, route);
    ClientHandlers.ReplayPath(Walk(a, route, AllArgs).value.hops, acc, codec);
  }

  /** The identity conversion: captures given as text are interpolated unchanged. */
  function PlainCodec(): ClientHandlers.Codec<string>
  {
    ClientHandlers.Codec(Verbatim, Verbatim)
  }

  /**
   * For one tree, a client route and its mock route end at leaves with the
   * same verb and templates, and the client's request path is the path the
   * mock handler is registered at.
   */
  lemma ClientAndMockShareLeaf(a: Api, acc: ClientHandlers.Acc<string>, route: seq<Step<string>>)
    requires Run(ClientHandlers.GetClientHandlers(a, acc), route, ClientHandlers.Applier(PlainCodec())).Some?
    ensures Run(Mocks.GenerateMockHandlers(a, acc.path), MockRoute(a, route), Mocks.ApplyMock).Some?
    ensures
      var call := Run(ClientHandlers.GetClientHandlers(a, acc), route, ClientHandlers.Applier(PlainCodec())).value;
      var inst := Run(Mocks.GenerateMockHandlers(a, acc.path), MockRoute(a, route), Mocks.ApplyMock).value;
      call.verb == inst.verb && call.templates == inst.templates && call.request.path == inst.path
  {
    ClientHandlers.ClientFollowsRoute(a, acc, PlainCodec(), route);
    var tr := Walk(a, route, AllArgs).value;
    MockRouteWalks(a, route);
    Mocks.MocksFollowRoute(a, acc.path, MockRoute(a, route));
    ClientHandlers.ReplayPath(tr.hops, acc, PlainCodec());
    StripKeepsPath(tr.hops, Verbatim);
  }

  // A served reply as the client observes it.

  /** The headers the client sees: those the mock set to a value. */
  function SetHeaders(hs: map<string, Option<string>>): (r: map<string, string>)
    ensures forall k :: k in r <==> k in hs && hs[k].Some?
    ensures forall k :: k in r ==> Some(r[k]) == hs[k]
  {
    map k | k in hs && hs[k].Some? :: hs[k].value
  }

  /**
   * The mock's reply as observed by the client, with the status text the
   * network supplies. The body travels as JSON: `ctx.json(data)` on the mock
   * side and `response.json()` on the client side, whose composition is the
   * parameter `transit`.
   */
  function Observe<J>(s: Mocks.Served<J>, statusText: string, transit: J -> J): ClientHandlers.Observed<J>
  {
    ClientHandlers.Observed(s.status, statusText, SetHeaders(s.headers), transit(s.body))
  }

  /**
   * A reply the mock serves from a leaf's templates is accepted by the
   * client's call for the same templates: the data as it comes out of its
   * JSON round trip, the same status, and for a header template each listed
   * header carries the canned value.
   */
  lemma MockedReplyAccepted<J>(templates: seq<Template>, c: Mocks.Canned<J>, statusText: string, transit: J -> J)
    requires Mocks.Respond(templates, c).Ok?
    ensures
      var r := ClientHandlers.Handle(templates, Observe(Mocks.Respond(templates, c).value, statusText, transit));
      && r.Ok? && r.value.data == transit(c.data) && r.value.status == c.statusCode
      && (forall i :: FirstMatchAt(templates, c.statusCode, i) ==> (r.value.headers.Some? <==> templates[i].HeaderResponse?))
      && (r.value.headers.Some? ==> forall k :: k in r.value.headers.value ==>
            r.value.headers.value[k] == Lookup(Mocks.CannedHeaders(c), k))
  {
    Mocks.RespondFollowsTemplates(templates, c);
    var s := Mocks.Respond(templates, c).value;
    var r := ClientHandlers.Handle(templates, Observe(s, statusText, transit));
    var i := FirstMatch(templates, c.statusCode);
    assert i.Some? by {
      assert Mocks.Respond(templates, c) != Err(Mocks.CouldNotMock);
    }
    assert FirstMatchAt(templates, c.statusCode, i.value);
    if r.value.headers.Some? {
      forall k | k in r.value.headers.value
        ensures r.value.headers.value[k] == Lookup(Mocks.CannedHeaders(c), k)
      {
        assert k in s.headers;
      }
    }
  }

  /** `ok(data)` against a `jsonResponse()` template serves the data with status 200 and no headers. */
  lemma OkMatchesJsonResponse<J>(js: Mocks.Js<J>, data: J)
    requires js.truthy(data)
    ensures Mocks.Respond([Dsl.JsonResponse()], Mocks.OkResponse(js, Some(data), None))
         == Ok(Mocks.Served(200, data, map[]))
  {
    assert FirstMatchAt([Dsl.JsonResponse()], 200, 0);
    Mocks.RespondFollowsTemplates([Dsl.JsonResponse()], Mocks.OkResponse(js, Some(data), None));
  }

  /** `DELETE /favourites/:id` called with id `"42"` sends its request to `/favourites/42`. */
  lemma FavouriteRequestExample(acc: ClientHandlers.Acc<string>)
    requires acc.path == ""
    ensures
      var r := Run(ClientHandlers.GetClientHandlers(Path("favourites", Capture(":id", Method(DELETE, [PlainResponse(200)]))), acc),
                   [Give("42")], ClientHandlers.Applier(PlainCodec()));
      r.Some? && r.value.request.path == "/favourites/42"
  {
    var a := Path("favourites", Capture(":id", Method(DELETE, [PlainResponse(200)])));
    var route: seq<Step<string>> := [Give("42")];
    assert route[1..] == [];
    RequestPathAlongRoute(a, acc, PlainCodec(), route);
    var hops := Walk(a, route, AllArgs).value.hops;
    assert hops == [Hop(a, None), Hop(a.next, Some("42"))];
    assert Joined(hops, Verbatim) == "/favourites" + ("/42" + "");
    assert "" + ("/favourites" + ("/42" + "")) == "/favourites/42";
  }
}
