/**
 * The first sketch of the path lister (src/experimentation.ts): a
 * four-variant tree, no verb in the output, OR as a two-element list, and
 * CAPTURE as a function of the caller's value.
 */
module Experimentation {
  import opened Results
  import Core = ApiCore
  import opened Routes
  import Mocks

  datatype Verb = GET | POST

  /** The sketch's tree: METHOD, PATH, CAPTURE and a binary OR. */
  datatype Api =
    | Method(verb: Verb)
    | Path(segment: string, next: Api)
    | Capture(placeholder: string, next: Api)
    | Or(left: Api, right: Api)

  /** The function a CAPTURE returns: the rest of the tree and the path so far. */
  datatype PendingPath = PendingPath(next: Api, acc: string)

  type Paths = Artifact<string, PendingPath>

  function GetPaths(a: Api, acc: string): Paths
  {
    match a
    case Method(_) => Leaf(acc)
    case Path(segment, next) => GetPaths(next, acc + "/" + segment)
    case Or(l, r) => Items([GetPaths(l, acc), GetPaths(r, acc)])
    case Capture(_, next) => Await(PendingPath(next, acc))
  }

  /** Calling a CAPTURE's function with the value `c`. */
  function ApplyPath(k: PendingPath, c: string): Paths
  {
    GetPaths(k.next, k.acc + "/" + c)
  }

  /** The sketch's tree as a tree of the full language, with no response templates. */
  function Embed(a: Api): (r: Core.Api)
    ensures a.Method? <==> r.Method?
    ensures a.Or? <==> r.Or?
  {
    match a
    case Method(GET) => Core.Method(Core.GET, [])
    case Method(POST) => Core.Method(Core.POST, [])
    case Path(segment, next) => Core.Path(segment, Embed(next))
    case Capture(placeholder, next) => Core.Capture(placeholder, Embed(next))
    case Or(l, r) => Core.Or(Embed(l), Embed(r))
  }

  /** The path the reference walk predicts: the base and every piece, with no verb. */
  function Expected(acc: string, w: Option<Trail<string>>): Option<string>
  {
    match w
    case None => None
    case Some(tr) => Some(acc + Joined(tr.hops, Verbatim))
  }

  /**
   * Every route through the sketch's result ends at the base path followed
   * by each PATH segment and each value given to a CAPTURE, with no verb;
   * both OR branches start from the same path.
   */
  lemma {:induction false} SketchFollowsRoute(a: Api, acc: string, route: seq<Step<string>>)
    ensures Run(GetPaths(a, acc), route, ApplyPath) == Expected(acc, Walk(Embed(a), route, CaptureArgs))
  {
    match a
    case Method(_) =>
      assert acc + Joined([], Verbatim) == acc;
    case Path(segment, next) =>
      SketchFollowsRoute(next, acc + "/" + segment, route);
      assert acc + "/" + segment == acc + Piece(Hop(Embed(a), None), Verbatim);
      Mocks.ThroughExpected(acc, Hop(Embed(a), None), Walk(Embed(next), route, CaptureArgs));
    case Capture(_, next) =>
      if |route| > 0 && route[0].Give? {
        var c := route[0].arg;
        SketchFollowsRoute(next, acc + "/" + c, route[1..]);
        assert acc + "/" + c == acc + Piece(Hop(Embed(a), Some(c)), Verbatim);
        Mocks.ThroughExpected(acc, Hop(Embed(a), Some(c)), Walk(Embed(next), route[1..], CaptureArgs));
      }
    case Or(l, r) =>
      if |route| > 0 && route[0].Pick? && route[0].index < 2 {
        SketchFollowsRoute(if route[0].index == 0 then l else r, acc, route[1..]);
      }
  }

  /**
   * The sketch and the mock deriver agree: along every route, the sketch
   * yields a path exactly when the mocks yield an installer, and it is the
   * installer's path.
   */
  lemma SketchAgreesWithMocks(a: Api, acc: string, route: seq<Step<string>>)
    ensures Run(GetPaths(a, acc), route, ApplyPath).Some?
        <==> Run(Mocks.GenerateMockHandlers(Embed(a), acc), route, Mocks.ApplyMock).Some?
    ensures Run(GetPaths(a, acc), route, ApplyPath).Some? ==>
      Run(GetPaths(a, acc), route, ApplyPath).value
        == Run(Mocks.GenerateMockHandlers(Embed(a), acc), route, Mocks.ApplyMock).value.path
  {
    SketchFollowsRoute(a, acc, route);
    Mocks.MocksFollowRoute(Embed(a), acc, route);
  }

  /** `capture(":foo")` then `get()`, from `""`, called with `"foo"`, gives `"/foo"`. */
  lemma SimpleExample()
    ensures Run(GetPaths(Capture(":foo", Method(GET)), ""), [Give("foo")], ApplyPath) == Some("/foo")
  {
    var route: seq<Step<string>> := [Give("foo")];
    assert route[1..] == [];
    assert ApplyPath(PendingPath(Method(GET), ""), "foo") == Leaf("" + "/" + "foo");
    assert "" + "/" + "foo" == "/foo";
  }

  /** The example tree: `/v1` over images (all, or one by id) and favourites. */
  function ExampleApi(): Api
  {
    Path("v1", Or(
      Path("images", Or(Method(GET), Capture(":imageId", Method(GET)))),
      Path("favourites", Method(GET))))
  }

  /**
   * The example tree lists `[["/v1/images", f], "/v1/favourites"]`, and
   * `f("001")` is `"/v1/images/001"`.
   */
  lemma ExampleResolves()
    ensures GetPaths(ExampleApi(), "")
         == Items([Items([Leaf("/v1/images"), Await(PendingPath(Method(GET), "/v1/images"))]), Leaf("/v1/favourites")])
    ensures ApplyPath(PendingPath(Method(GET), "/v1/images"), "001") == Leaf("/v1/images/001")
  {
    var images := Path("images", Or(Method(GET), Capture(":imageId", Method(GET))));
    var favourites := Path("favourites", Method(GET));
    assert GetPaths(ExampleApi(), "") == GetPaths(Or(images, favourites), "" + "/" + "v1");
    assert "" + "/" + "v1" == "/v1";
    assert GetPaths(images, "/v1") == GetPaths(images.next, "/v1" + "/" + "images");
    assert "/v1" + "/" + "images" == "/v1/images";
    assert GetPaths(favourites, "/v1") == GetPaths(Method(GET), "/v1" + "/" + "favourites");
    assert "/v1" + "/" + "favourites" == "/v1/favourites";
    assert "/v1/images" + "/" + "001" == "/v1/images/001";
  }
}
