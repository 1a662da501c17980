/**
 * What the interpreters derive from an API tree, how a caller moves through
 * it, and the reference walk of a tree along a route that the interpreters are
 * proved against.
 */
module Routes {
  import opened Results
  import opened ApiCore

  /**
   * A derived artifact: a finished value at a METHOD leaf, a pair for OR, an
   * ordered list for ANY, or a function still waiting for the caller's
   * argument. The function is kept as data, `pending`, holding what its
   * closure captured; an interpreter's `apply` gives it meaning.
   */
  datatype Artifact<L, K> =
    | Leaf(value: L)
    | Pair(left: Artifact<L, K>, right: Artifact<L, K>)
    | Items(items: seq<Artifact<L, K>>)
    | Await(pending: K)

  /** One move of a caller: destructure position `index`, or call with `arg`. */
  datatype Step<A> = Pick(index: nat) | Give(arg: A)

  /**
   * Follows a route through an artifact: picks from pairs and lists, applies
   * pending functions, and yields the leaf the route ends at. A route that does
   * not fit the artifact's shape is one the type checker would have refused.
   */
  function Run<L, K, A>(art: Artifact<L, K>, route: seq<Step<A>>, apply: (K, A) -> Artifact<L, K>): Option<L>
    decreases |route|
  {
    match art
    case Leaf(v) => if |route| == 0 then Some(v) else None
    case Pair(l, r) =>
      if |route| > 0 && route[0].Pick? && route[0].index < 2
      then Run(if route[0].index == 0 then l else r, route[1..], apply)
      else None
    case Items(xs) =>
      if |route| > 0 && route[0].Pick? && route[0].index < |xs|
      then Run(xs[route[0].index], route[1..], apply)
      else None
    case Await(k) =>
      if |route| > 0 && route[0].Give?
      then Run(apply(k, route[0].arg), route[1..], apply)
      else None
  }

  /** Which extender nodes make an interpreter wait for an argument. */
  datatype Takes = NoArgs | CaptureArgs | AllArgs

  predicate TakesArg(t: Takes, a: Api)
  {
    match t
    case NoArgs => false
    case CaptureArgs => a.Capture?
    case AllArgs => a.Capture? || a.Header? || a.QueryParam? || a.Body?
  }

  /** An extender node passed on the way to a leaf, with the argument it was given. */
  datatype Hop<A> = Hop(node: Api, arg: Option<A>)

  /** The extender nodes a route passes, in order, and the METHOD leaf it reaches. */
  datatype Trail<A> = Trail(hops: seq<Hop<A>>, verb: Verb, templates: seq<Template>)

  function Through<A>(h: Hop<A>, w: Option<Trail<A>>): Option<Trail<A>>
  {
    match w
    case None => None
    case Some(tr) => Some(Trail([h] + tr.hops, tr.verb, tr.templates))
  }

  /**
   * The reference reading of a route through a tree: OR and ANY consume a
   * `Pick`, each extender that takes an argument consumes a `Give`, and the
   * route must end exactly at a METHOD leaf.
   */
  function Walk<A>(a: Api, route: seq<Step<A>>, t: Takes): (w: Option<Trail<A>>)
    ensures w.Some? ==> forall i :: 0 <= i < |w.value.hops| ==>
      IsExtender(w.value.hops[i].node) && (w.value.hops[i].arg.Some? <==> TakesArg(t, w.value.hops[i].node))
  {
    if a.Method? then
      if |route| == 0 then Some(Trail([], a.verb, a.templates)) else None
    else if a.Or? then
      if |route| > 0 && route[0].Pick? && route[0].index < 2
      then Walk(if route[0].index == 0 then a.left else a.right, route[1..], t)
      else None
    else if a.Any? then
      if |route| > 0 && route[0].Pick? && route[0].index < |a.alternatives|
      then Walk(a.alternatives[route[0].index], route[1..], t)
      else None
    else if TakesArg(t, a) then
      if |route| > 0 && route[0].Give?
      then Through(Hop(a, Some(route[0].arg)), Walk(a.next, route[1..], t))
      else None
    else Through(Hop(a, None), Walk(a.next, route, t))
  }

  /**
   * The text a hop adds to a path: `/segment` for PATH, `/value` for a CAPTURE
   * given a value, `/name` for a CAPTURE read literally, nothing otherwise.
   */
  function Piece<A>(h: Hop<A>, show: A -> string): string
  {
    match h.node
    case Path(segment, _) => "/" + segment
    case Capture(name, _) => "/" + (match h.arg case Some(v) => show(v) case None => name)
    case _ => ""
  }

  function Joined<A>(hops: seq<Hop<A>>, show: A -> string): string
  {
    if |hops| == 0 then "" else Piece(hops[0], show) + Joined(hops[1..], show)
  }

  lemma JoinedCons<A>(h: Hop<A>, hops: seq<Hop<A>>, show: A -> string)
    ensures Joined([h] + hops, show) == Piece(h, show) + Joined(hops, show)
  {
    assert ([h] + hops)[0] == h;
    assert ([h] + hops)[1..] == hops;
  }

  /** Text concatenation regroups freely; stated once so that proofs need not rediscover it. */
  lemma ConcatAssoc(x: string, y: string, z: string)
    ensures x + y + z == x + (y + z)
  {
  }

  /** Identity, for routes whose captures are given plain strings. */
  function Verbatim(s: string): string
  {
    s
  }
}
