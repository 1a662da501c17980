/**
 * The path lister (src/servo/paths.ts, and the identical `getPathsAcc` of
 * src/api.ts): folds path segments into `"VERB /a/b"` strings; OR becomes a
 * pair and ANY a list. A CAPTURE contributes its placeholder name literally.
 */
module ServoPaths {
  import opened Results
  import opened ApiCore
  import opened Routes

  /** A listing never waits for an argument, so its pending type is empty-handed. */
  type Listing = Artifact<string, ()>

  /** Listings hold no functions: a `Give` step finds nothing to apply. */
  function NoCall(k: (), x: ()): Listing
  {
    Await(k)
  }

  function GetPathsAcc(a: Api, acc: string): Listing
  {
    match a
    case Method(verb, _) => Leaf(VerbName(verb) + " " + acc)
    case Path(segment, next) => GetPathsAcc(next, acc + "/" + segment)
    case Or(l, r) => Pair(GetPathsAcc(l, acc), GetPathsAcc(r, acc))
    case Capture(name, next) => GetPathsAcc(next, acc + "/" + name)
    case Any(alts) => Items(seq(|alts|, i requires 0 <= i < |alts| => GetPathsAcc(alts[i], acc)))
    case Header(_, next) => GetPathsAcc(next, acc)
    case QueryParam(_, next) => GetPathsAcc(next, acc)
    case Body(_, next) => GetPathsAcc(next, acc)
  }

  function GetPaths(a: Api): Listing
  {
    GetPathsAcc(a, "")
  }

  function Unit(u: ()): string
  {
    ""
  }

  /** The line the reference walk predicts: the verb, a space, then the base and every piece. */
  function Expected(acc: string, w: Option<Trail<()>>): Option<string>
  {
    match w
    case None => None
    case Some(tr) => Some(VerbName(tr.verb) + " " + acc + Joined(tr.hops, Unit))
  }

  /**
   * Every route through the listing ends at the line the reference walk
   * predicts, and the routes the listing accepts are exactly the routes
   * through the tree. OR and ANY branches are all computed from the same
   * accumulator; only PATH and CAPTURE add text.
   */
  lemma {:induction false} PathsFollowRoute(a: Api, acc: string, route: seq<Step<()>>)
    ensures Run(GetPathsAcc(a, acc), route, NoCall) == Expected(acc, Walk(a, route, NoArgs))
  {
    match a
    case Method(verb, _) =>
      var line := VerbName(verb) + " " + acc;
      assert line + Joined([], Unit) == line;
    case Path(segment, next) =>
      PathsFollowRoute(next, acc + "/" + segment, route);
      assert acc + "/" + segment == acc + ("/" + segment);
      ThroughExpected(acc, "/" + segment, Hop(a, None), Walk(next, route, NoArgs));
    case Capture(name, next) =>
      PathsFollowRoute(next, acc + "/" + name, route);
      assert acc + "/" + name == acc + ("/" + name);
      ThroughExpected(acc, "/" + name, Hop(a, None), Walk(next, route, NoArgs));
    case Header(_, next) =>
      PathsFollowRoute(next, acc, route);
      assert acc + "" == acc;
      ThroughExpected(acc, "", Hop(a, None), Walk(next, route, NoArgs));
    case QueryParam(_, next) =>
      PathsFollowRoute(next, acc, route);
      assert acc + "" == acc;
      ThroughExpected(acc, "", Hop(a, None), Walk(next, route, NoArgs));
    case Body(_, next) =>
      PathsFollowRoute(next, acc, route);
      assert acc + "" == acc;
      ThroughExpected(acc, "", Hop(a, None), Walk(next, route, NoArgs));
    case Or(l, r) =>
      if |route| > 0 && route[0].Pick? && route[0].index < 2 {
        PathsFollowRoute(if route[0].index == 0 then l else r, acc, route[1..]);
      }
    case Any(alts) =>
      if |route| > 0 && route[0].Pick? && route[0].index < |alts| {
        PathsFollowRoute(alts[route[0].index], acc, route[1..]);
      }
  }

  lemma ThroughExpected(acc: string, piece: string, h: Hop<()>, w: Option<Trail<()>>)
    requires Piece(h, Unit) == piece
    ensures Expected(acc + piece, w) == Expected(acc, Through(h, w))
  {
    if w.Some? {
      var tr := w.value;
      JoinedCons(h, tr.hops, Unit);
      assert VerbName(tr.verb) + " " + (acc + piece) + Joined(tr.hops, Unit)
          == VerbName(tr.verb) + " " + acc + (piece + Joined(tr.hops, Unit));
    }
  }

  /** `getPaths` of `PATH a -> METHOD GET` is `"GET /a"`. */
  lemma SinglePathExample(ts: seq<Template>)
    ensures GetPaths(Path("a", Method(GET, ts))) == Leaf("GET /a")
  {
    assert GetPathsAcc(Path("a", Method(GET, ts)), "") == GetPathsAcc(Method(GET, ts), "" + "/" + "a");
    assert "" + "/" + "a" == "/a";
    assert VerbName(GET) + " " + "/a" == "GET /a";
  }

  /**
   * A CAPTURE is listed by its placeholder name: `/favourites/:id` for a
   * DELETE under PATH favourites and CAPTURE `:id`, with the header around
   * them adding nothing.
   */
  lemma CaptureListedLiterally(ts: seq<Template>)
    ensures GetPaths(Header("x-api-key", Path("favourites", Capture(":id", Method(DELETE, ts)))))
         == Leaf("DELETE /favourites/:id")
  {
    var t := Path("favourites", Capture(":id", Method(DELETE, ts)));
    assert GetPathsAcc(Header("x-api-key", t), "") == GetPathsAcc(t, "");
    assert GetPathsAcc(t, "") == GetPathsAcc(Capture(":id", Method(DELETE, ts)), "" + "/" + "favourites");
    assert "" + "/" + "favourites" == "/favourites";
    assert GetPathsAcc(Capture(":id", Method(DELETE, ts)), "/favourites") == GetPathsAcc(Method(DELETE, ts), "/favourites" + "/" + ":id");
    assert "/favourites" + "/" + ":id" == "/favourites/:id";
    assert VerbName(DELETE) + " " + "/favourites/:id" == "DELETE /favourites/:id";
  }
}
