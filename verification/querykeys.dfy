/**
 * The query-key lister (src/servo/queryKeys.ts): folds the route into a list
 * of strings, one per PATH segment and one per CAPTURE value; a CAPTURE makes
 * the caller supply its value before the key is known.
 */
module QueryKeys {
  import opened Results
  import opened ApiCore
  import opened Routes

  /** The closure a CAPTURE returns: its name, the rest of the tree, the keys so far. */
  datatype PendingKey = PendingKey(name: string, next: Api, acc: seq<string>)

  type KeyListing = Artifact<seq<string>, PendingKey>

  function GetQueryKeysAcc(a: Api, acc: seq<string>): KeyListing
  {
    match a
    case Method(_, _) => Leaf(acc)
    case Path(segment, next) => GetQueryKeysAcc(next, acc + [segment])
    case Or(l, r) => Pair(GetQueryKeysAcc(l, acc), GetQueryKeysAcc(r, acc))
    case Capture(name, next) => Await(PendingKey(name, next, acc))
    case Any(alts) => Items(seq(|alts|, i requires 0 <= i < |alts| => GetQueryKeysAcc(alts[i], acc)))
    case Header(_, next) => GetQueryKeysAcc(next, acc)
    case QueryParam(_, next) => GetQueryKeysAcc(next, acc)
    case Body(_, next) => GetQueryKeysAcc(next, acc)
  }

  /**
   * Calling a CAPTURE's function with the value of its field `c[name]`
   * appends that value and carries on with the rest of the tree.
   */
  function ApplyKey(k: PendingKey, value: string): KeyListing
  {
    GetQueryKeysAcc(k.next, k.acc + [value])
  }

  function GetQueryKeys(a: Api): KeyListing
  {
    GetQueryKeysAcc(a, [])
  }

  /** The key elements a hop contributes: its segment, its capture value, or nothing. */
  function KeyPart(h: Hop<string>): seq<string>
  {
    match h.node
    case Path(segment, _) => [segment]
    case Capture(_, _) => (match h.arg case Some(v) => [v] case None => [])
    case _ => []
  }

  function KeyParts(hops: seq<Hop<string>>): seq<string>
  {
    if |hops| == 0 then [] else KeyPart(hops[0]) + KeyParts(hops[1..])
  }

  function Expected(acc: seq<string>, w: Option<Trail<string>>): Option<seq<string>>
  {
    match w
    case None => None
    case Some(tr) => Some(acc + KeyParts(tr.hops))
  }

  /**
   * Every route through the derived keys ends at the base keys followed by
   * one element per PATH and CAPTURE on the route, in route order; OR and ANY
   * hand every branch the same keys, HEADER, QUERY_PARAM and BODY add nothing.
   */
  lemma {:induction false} KeysFollowRoute(a: Api, acc: seq<string>, route: seq<Step<string>>)
    ensures Run(GetQueryKeysAcc(a, acc), route, ApplyKey) == Expected(acc, Walk(a, route, CaptureArgs))
  {
    match a
    case Method(_, _) =>
      assert acc + KeyParts([]) == acc;
    case Path(segment, next) =>
      KeysFollowRoute(next, acc + [segment], route);
      ThroughExpected(acc, Hop(a, None), Walk(next, route, CaptureArgs));
    case Capture(name, next) =>
      if |route| > 0 && route[0].Give? {
        var v := route[0].arg;
        KeysFollowRoute(next, acc + [v], route[1..]);
        ThroughExpected(acc, Hop(a, Some(v)), Walk(next, route[1..], CaptureArgs));
      }
    case Header(_, next) =>
      KeysFollowRoute(next, acc, route);
      assert acc + KeyPart(Hop(a, None)) == acc;
      ThroughExpected(acc, Hop(a, None), Walk(next, route, CaptureArgs));
    case QueryParam(_, next) =>
      KeysFollowRoute(next, acc, route);
      assert acc + KeyPart(Hop(a, None)) == acc;
      ThroughExpected(acc, Hop(a, None), Walk(next, route, CaptureArgs));
    case Body(_, next) =>
      KeysFollowRoute(next, acc, route);
      assert acc + KeyPart(Hop(a, None)) == acc;
      ThroughExpected(acc, Hop(a, None), Walk(next, route, CaptureArgs));
    case Or(l, r) =>
      if |route| > 0 && route[0].Pick? && route[0].index < 2 {
        KeysFollowRoute(if route[0].index == 0 then l else r, acc, route[1..]);
      }
    case Any(alts) =>
      if |route| > 0 && route[0].Pick? && route[0].index < |alts| {
        KeysFollowRoute(alts[route[0].index], acc, route[1..]);
      }
  }

  lemma ThroughExpected(acc: seq<string>, h: Hop<string>, w: Option<Trail<string>>)
    ensures Expected(acc + KeyPart(h), w) == Expected(acc, Through(h, w))
  {
    if w.Some? {
      var hops := w.value.hops;
      assert ([h] + hops)[0] == h;
      assert ([h] + hops)[1..] == hops;
      assert acc + KeyPart(h) + KeyParts(hops) == acc + (KeyPart(h) + KeyParts(hops));
    }
  }

  /** The PATH and CAPTURE nodes among a route's hops. */
  function Counted(hops: seq<Hop<string>>): nat
  {
    if |hops| == 0 then 0
    else (if hops[0].node.Path? || hops[0].node.Capture? then 1 else 0) + Counted(hops[1..])
  }

  lemma {:induction false} KeyPartsLength(hops: seq<Hop<string>>)
    requires forall i :: 0 <= i < |hops| ==> (hops[i].arg.Some? <==> hops[i].node.Capture?)
    ensures |KeyParts(hops)| == Counted(hops)
  {
    if |hops| > 0 {
      KeyPartsLength(hops[1..]);
    }
  }

  /**
   * Starting from the empty list, the key at the end of any route has one
   * element per PATH and CAPTURE node the route passes, and nothing else.
   */
  lemma KeyLengthCountsSegments(a: Api, route: seq<Step<string>>)
    ensures Run(GetQueryKeys(a), route, ApplyKey).Some? <==> Walk(a, route, CaptureArgs).Some?
    ensures Run(GetQueryKeys(a), route, ApplyKey).Some? ==>
      |Run(GetQueryKeys(a), route, ApplyKey).value| == Counted(Walk(a, route, CaptureArgs).value.hops)
  {
    KeysFollowRoute(a, [], route);
    var w := Walk(a, route, CaptureArgs);
    if w.Some? {
      KeyPartsLength(w.value.hops);
      assert [] + KeyParts(w.value.hops) == KeyParts(w.value.hops);
    }
  }
}
