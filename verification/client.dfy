/**
 * The client deriver (src/servo/clientHandlers.ts; src/api.ts has the same
 * algorithm with the accumulator spread over five parameters). It threads an
 * immutable request accumulator through the tree; each CAPTURE, HEADER,
 * QUERY_PARAM and BODY returns a function of the caller's value, and each
 * METHOD leaf a call that matches the observed response against its templates.
 */
module ClientHandlers {
  import opened Results
  import opened ApiCore
  import opened Routes

  /**
   * The JavaScript conversions the client uses, left uninterpreted: string
   * conversion (template literals and `toString`) and `JSON.stringify`.
   */
  datatype Codec<!V> = Codec(show: V -> string, stringify: V -> string)

  /** The request body: `null`, a JSON text, or the caller's value as given. */
  datatype RequestBody<V> = NoBody | Serialized(text: string) | Raw(value: V)

  /** The request accumulator `{path, headers, queryParams, body}`. */
  datatype Acc<V> = Acc(path: string, headers: map<string, V>, queryParams: map<string, string>, body: RequestBody<V>)

  function AddPath<V>(segment: string, acc: Acc<V>): (r: Acc<V>)
    ensures r.path == acc.path + "/" + segment
    ensures r.headers == acc.headers && r.queryParams == acc.queryParams && r.body == acc.body
  {
    acc.(path := acc.path + "/" + segment)
  }

  /** `addCapture` once called with `c`: `value` is the field `c[captureName]`, as text. */
  function AddCapture<V>(value: string, acc: Acc<V>): (r: Acc<V>)
    ensures r.path == acc.path + "/" + value
    ensures r.headers == acc.headers && r.queryParams == acc.queryParams && r.body == acc.body
  {
    acc.(path := acc.path + "/" + value)
  }

  /** `addHeader` once called with `h`: `value` is the field `h[headerName]`. */
  function AddHeader<V>(name: string, value: V, acc: Acc<V>): (r: Acc<V>)
    ensures Lookup(r.headers, name) == Some(value)
    ensures forall n :: n != name ==> Lookup(r.headers, n) == Lookup(acc.headers, n)
    ensures r.headers.Keys == acc.headers.Keys + {name}
    ensures r.path == acc.path && r.queryParams == acc.queryParams && r.body == acc.body
  {
    acc.(headers := acc.headers[name := value])
  }

  function AddQueryParam<V>(name: string, value: V, codec: Codec<V>, acc: Acc<V>): (r: Acc<V>)
    ensures Lookup(r.queryParams, name) == Some(codec.show(value))
    ensures forall n :: n != name ==> Lookup(r.queryParams, n) == Lookup(acc.queryParams, n)
    ensures r.queryParams.Keys == acc.queryParams.Keys + {name}
    ensures r.path == acc.path && r.headers == acc.headers && r.body == acc.body
  {
    acc.(queryParams := acc.queryParams[name := codec.show(value)])
  }

  /** What a BODY node stores for the caller's value. */
  function Encode<V>(bodyType: BodyType, value: V, codec: Codec<V>): RequestBody<V>
  {
    match bodyType
    case Json => Serialized(codec.stringify(value))
    case Unspecified => Raw(value)
  }

  function AddRequestBody<V>(bodyType: BodyType, value: V, codec: Codec<V>, acc: Acc<V>): (r: Acc<V>)
    ensures bodyType == Json <==> r.body.Serialized?
    ensures bodyType == Json ==> r.body == Serialized(codec.stringify(value))
    ensures bodyType != Json ==> r.body == Raw(value)
    ensures r.path == acc.path && r.headers == acc.headers && r.queryParams == acc.queryParams
  {
    acc.(body := Encode(bodyType, value, codec))
  }

  /** The function an extender node returns, kept as what its closure captured. */
  datatype Pending<V> =
    | AwaitCapture(name: string, next: Api, acc: Acc<V>)
    | AwaitHeader(name: string, next: Api, acc: Acc<V>)
    | AwaitQuery(name: string, next: Api, acc: Acc<V>)
    | AwaitBody(bodyType: BodyType, next: Api, acc: Acc<V>)

  /** The zero-argument call a METHOD leaf returns: the request it will issue and its templates. */
  datatype Call<V> = Call(verb: Verb, templates: seq<Template>, request: Acc<V>)

  type Client<V> = Artifact<Call<V>, Pending<V>>

  function GetClientHandlers<V>(a: Api, acc: Acc<V>): Client<V>
  {
    match a
    case Method(verb, templates) => Leaf(Call(verb, templates, acc))
    case Path(segment, next) => GetClientHandlers(next, AddPath(segment, acc))
    case Or(l, r) => Pair(GetClientHandlers(l, acc), GetClientHandlers(r, acc))
    case Any(alts) => Items(seq(|alts|, i requires 0 <= i < |alts| => GetClientHandlers(alts[i], acc)))
    case Capture(name, next) => Await(AwaitCapture(name, next, acc))
    case Header(name, next) => Await(AwaitHeader(name, next, acc))
    case QueryParam(name, next) => Await(AwaitQuery(name, next, acc))
    case Body(bodyType, next) => Await(AwaitBody(bodyType, next, acc))
  }

  /** Calling a pending function with the caller's value. */
  function Apply<V>(codec: Codec<V>, k: Pending<V>, v: V): Client<V>
  {
    match k
    case AwaitCapture(_, next, acc) => GetClientHandlers(next, AddCapture(codec.show(v), acc))
    case AwaitHeader(name, next, acc) => GetClientHandlers(next, AddHeader(name, v, acc))
    case AwaitQuery(name, next, acc) => GetClientHandlers(next, AddQueryParam(name, v, codec, acc))
    case AwaitBody(bodyType, next, acc) => GetClientHandlers(next, AddRequestBody(bodyType, v, codec, acc))
  }

  function Applier<V>(codec: Codec<V>): (Pending<V>, V) -> Client<V>
  {
    (k, v) => Apply(codec, k, v)
  }

  // The reference reading: replay the hops of a route, in order, on the accumulator.

  /** What one hop does to the accumulator: PATH appends its segment, a given value its effect. */
  function Effect<V>(h: Hop<V>, acc: Acc<V>, codec: Codec<V>): Acc<V>
  {
    match h.node
    case Path(segment, _) => AddPath(segment, acc)
    case Capture(_, _) => if h.arg.Some? then AddCapture(codec.show(h.arg.value), acc) else acc
    case Header(name, _) => if h.arg.Some? then AddHeader(name, h.arg.value, acc) else acc
    case QueryParam(name, _) => if h.arg.Some? then AddQueryParam(name, h.arg.value, codec, acc) else acc
    case Body(bodyType, _) => if h.arg.Some? then AddRequestBody(bodyType, h.arg.value, codec, acc) else acc
    case _ => acc
  }

  /** The hops replayed on the accumulator, first to last. */
  function Replay<V>(hops: seq<Hop<V>>, acc: Acc<V>, codec: Codec<V>): Acc<V>
  {
    if |hops| == 0 then acc else Replay(hops[1..], Effect(hops[0], acc, codec), codec)
  }

  function Expected<V>(acc: Acc<V>, codec: Codec<V>, w: Option<Trail<V>>): Option<Call<V>>
  {
    match w
    case None => None
    case Some(tr) => Some(Call(tr.verb, tr.templates, Replay(tr.hops, acc, codec)))
  }

  lemma ThroughExpected<V>(acc: Acc<V>, codec: Codec<V>, h: Hop<V>, w: Option<Trail<V>>)
    ensures Expected(Effect(h, acc, codec), codec, w) == Expected(acc, codec, Through(h, w))
  {
    if w.Some? {
      assert ([h] + w.value.hops)[0] == h;
      assert ([h] + w.value.hops)[1..] == w.value.hops;
    }
  }

  /**
   * Every route through the derived client ends at a call whose request is
   * the base accumulator with the route's extensions replayed in order, and
   * the client accepts exactly the routes through the tree. Each OR or ANY
   * branch starts from the same snapshot, so no branch sees another's values.
   */
  lemma {:induction false} ClientFollowsRoute<V>(a: Api, acc: Acc<V>, codec: Codec<V>, route: seq<Step<V>>)
    ensures Run(GetClientHandlers(a, acc), route, Applier(codec)) == Expected(acc, codec, Walk(a, route, AllArgs))
    decreases a, 1
  {
    match a
    case Method(_, _) =>
    case Path(segment, next) =>
      ClientFollowsRoute(next, AddPath(segment, acc), codec, route);
      ThroughExpected(acc, codec, Hop(a, None), Walk(next, route, AllArgs));
    case Or(l, r) =>
      if |route| > 0 && route[0].Pick? && route[0].index < 2 {
        ClientFollowsRoute(if route[0].index == 0 then l else r, acc, codec, route[1..]);
      }
    case Any(alts) =>
      if |route| > 0 && route[0].Pick? && route[0].index < |alts| {
        ClientFollowsRoute(alts[route[0].index], acc, codec, route[1..]);
      }
    case _ =>
      if |route| > 0 && route[0].Give? {
        ClientGiven(a, acc, codec, route);
      }
  }

  /** An extender that takes the caller's value: the rest of the tree starts from its effect. */
  lemma {:induction false} ClientGiven<V>(a: Api, acc: Acc<V>, codec: Codec<V>, route: seq<Step<V>>)
    requires IsExtender(a) && !a.Path? && |route| > 0 && route[0].Give?
    ensures Run(GetClientHandlers(a, acc), route, Applier(codec)) == Expected(acc, codec, Walk(a, route, AllArgs))
    decreases a, 0
  {
    var h := Hop(a, Some(route[0].arg));
    assert Run(GetClientHandlers(a, acc), route, Applier(codec))
        == Run(GetClientHandlers(a.next, Effect(h, acc, codec)), route[1..], Applier(codec));
    ClientFollowsRoute(a.next, Effect(h, acc, codec), codec, route[1..]);
    ThroughExpected(acc, codec, h, Walk(a.next, route[1..], AllArgs));
  }

  /** Hops as a route leaves them: every extender that takes a value was given one. */
  predicate Given<V>(hops: seq<Hop<V>>)
  {
    forall i :: 0 <= i < |hops| ==> IsExtender(hops[i].node) && (hops[i].arg.Some? <==> !hops[i].node.Path?)
  }

  lemma GivenTail<V>(hops: seq<Hop<V>>)
    requires Given(hops) && |hops| > 0
    ensures Given(hops[1..])
  {
    var rest := hops[1..];
    forall i | 0 <= i < |rest|
      ensures IsExtender(rest[i].node) && (rest[i].arg.Some? <==> !rest[i].node.Path?)
    {
      assert rest[i] == hops[i + 1];
    }
  }

  /** One replay step adds the hop's piece of path text, and nothing else, to the path. */
  lemma StepPath<V>(h: Hop<V>, acc: Acc<V>, codec: Codec<V>)
    requires IsExtender(h.node) && (h.arg.Some? <==> !h.node.Path?)
    ensures Effect(h, acc, codec).path == acc.path + Piece(h, codec.show)
  {
    if !h.node.Capture? && !h.node.Path? {
      assert acc.path + "" == acc.path;
    }
  }

  /** The replayed path is the base path followed by every PATH segment and CAPTURE value, in order. */
  lemma {:induction false} ReplayPath<V>(hops: seq<Hop<V>>, acc: Acc<V>, codec: Codec<V>)
    requires Given(hops)
    ensures Replay(hops, acc, codec).path == acc.path + Joined(hops, codec.show)
  {
    if |hops| == 0 {
      assert acc.path + "" == acc.path;
    } else {
      var h := hops[0];
      GivenTail(hops);
      var next := Effect(h, acc, codec);
      assert IsExtender(h.node) && (h.arg.Some? <==> !h.node.Path?);
      StepPath(h, acc, codec);
      ReplayPath(hops[1..], next, codec);
      ConcatAssoc(acc.path, Piece(h, codec.show), Joined(hops[1..], codec.show));
    }
  }

  /** The value given at the last HEADER named `name` among the hops, if any. */
  function LastHeader<V>(hops: seq<Hop<V>>, name: string): Option<V>
  {
    if |hops| == 0 then None
    else match LastHeader(hops[1..], name)
      case Some(v) => Some(v)
      case None =>
        if hops[0].node.Header? && hops[0].node.name == name && hops[0].arg.Some?
        then Some(hops[0].arg.value) else None
  }

  function Otherwise<T>(first: Option<T>, fallback: Option<T>): Option<T>
  {
    if first.Some? then first else fallback
  }

  /**
   * After a route, each header holds the value given at the last HEADER of
   * that name on the route, and otherwise the base value: a HEADER adds or
   * overwrites its own name and keeps every other header.
   */
  lemma {:induction false} ReplayHeaders<V>(hops: seq<Hop<V>>, acc: Acc<V>, codec: Codec<V>, name: string)
    ensures Lookup(Replay(hops, acc, codec).headers, name) == Otherwise(LastHeader(hops, name), Lookup(acc.headers, name))
  {
    if |hops| > 0 {
      var h := hops[0];
      var next := Effect(h, acc, codec);
      ReplayHeaders(hops[1..], next, codec, name);
    }
  }

  /** The value given at the last QUERY_PARAM named `name` among the hops, if any. */
  function LastQuery<V>(hops: seq<Hop<V>>, name: string): Option<V>
  {
    if |hops| == 0 then None
    else match LastQuery(hops[1..], name)
      case Some(v) => Some(v)
      case None =>
        if hops[0].node.QueryParam? && hops[0].node.name == name && hops[0].arg.Some?
        then Some(hops[0].arg.value) else None
  }

  function ShowOption<V>(o: Option<V>, codec: Codec<V>): Option<string>
  {
    match o
    case None => None
    case Some(v) => Some(codec.show(v))
  }

  /**
   * After a route, each query parameter holds the stringified value given at
   * the last QUERY_PARAM of that name, and otherwise the base value.
   */
  lemma {:induction false} ReplayQueryParams<V>(hops: seq<Hop<V>>, acc: Acc<V>, codec: Codec<V>, name: string)
    ensures Lookup(Replay(hops, acc, codec).queryParams, name)
         == Otherwise(ShowOption(LastQuery(hops, name), codec), Lookup(acc.queryParams, name))
  {
    if |hops| > 0 {
      var h := hops[0];
      var next := Effect(h, acc, codec);
      ReplayQueryParams(hops[1..], next, codec, name);
    }
  }

  /** The body stored by the last BODY among the hops, if any. */
  function LastBody<V>(hops: seq<Hop<V>>, codec: Codec<V>): Option<RequestBody<V>>
  {
    if |hops| == 0 then None
    else match LastBody(hops[1..], codec)
      case Some(b) => Some(b)
      case None =>
        if hops[0].node.Body? && hops[0].arg.Some?
        then Some(Encode(hops[0].node.bodyType, hops[0].arg.value, codec)) else None
  }

  /**
   * After a route, the body is what the last BODY on it stored (the JSON text
   * for a `"JSON"` body, the raw value otherwise), or the base body if none.
   */
  lemma {:induction false} ReplayBody<V>(hops: seq<Hop<V>>, acc: Acc<V>, codec: Codec<V>)
    ensures Replay(hops, acc, codec).body == Otherwise(LastBody(hops, codec), Some(acc.body)).value
  {
    if |hops| > 0 {
      var h := hops[0];
      var next := Effect(h, acc, codec);
      ReplayBody(hops[1..], next, codec);
    }
  }

  /**
   * Branch isolation: what a route into the right branch of an OR resolves
   * to does not depend on the left branch at all.
   */
  lemma BranchesShareSnapshot<V>(l1: Api, l2: Api, r: Api, acc: Acc<V>, codec: Codec<V>, route: seq<Step<V>>)
    ensures Run(GetClientHandlers(Or(l1, r), acc), [Pick(1)] + route, Applier(codec))
         == Run(GetClientHandlers(Or(l2, r), acc), [Pick(1)] + route, Applier(codec))
    ensures Run(GetClientHandlers(Or(l1, r), acc), [Pick(1)] + route, Applier(codec))
         == Run(GetClientHandlers(r, acc), route, Applier(codec))
  {
    assert ([Pick(1)] + route)[1..] == route;
  }

  // What a METHOD leaf's call does with the response it observes.

  /** The response the request execution primitive hands back, as the call sees it. */
  datatype Observed<J> = Observed(status: int, statusText: string, headers: map<string, string>, json: J)

  /** `{data, status}`, plus `headers` for a header-response template. */
  datatype Reply<J> = Reply(data: J, status: int, headers: Option<map<string, Option<string>>>)

  datatype ClientError = UnexpectedResponse(status: int, statusText: string)

  /** The template's header names, each with the observed value (`null` when absent). */
  function Project(names: seq<string>, observed: map<string, string>): map<string, Option<string>>
  {
    map k | k in names :: Lookup(observed, k)
  }

  function Handle<J>(templates: seq<Template>, response: Observed<J>): (r: Result<Reply<J>, ClientError>)
    ensures r.Err? <==> forall j :: 0 <= j < |templates| ==> GetStatus(templates[j]) != response.status
    ensures r.Err? ==> r.error == UnexpectedResponse(response.status, response.statusText)
    ensures r.Ok? ==> r.value.data == response.json && r.value.status == response.status
    ensures forall i :: FirstMatchAt(templates, response.status, i) ==>
      r.Ok? && (r.value.headers.Some? <==> templates[i].HeaderResponse?)
    ensures forall i :: FirstMatchAt(templates, response.status, i) && templates[i].HeaderResponse? ==>
      && r.Ok? && r.value.headers.Some?
      && r.value.headers.value.Keys == set k | k in templates[i].headers
      && forall k :: k in r.value.headers.value ==> r.value.headers.value[k] == Lookup(response.headers, k)
  {
    match FindTemplate(templates, response.status)
    case None => Err(UnexpectedResponse(response.status, response.statusText))
    case Some(t) =>
      match GetHeaders(t)
      case Some(names) => Ok(Reply(response.json, response.status, Some(Project(names, response.headers))))
      case None => Ok(Reply(response.json, response.status, None))
  }

  function DigitText(d: nat): string
    requires d < 10
  {
    ["0123456789"[d]]
  }

  function NatText(n: nat): string
  {
    if n < 10 then DigitText(n) else NatText(n / 10) + DigitText(n % 10)
  }

  function IntText(n: int): string
  {
    if n < 0 then "-" + NatText(-n) else NatText(n)
  }

  /** The text of the error the call throws. */
  function Message(e: ClientError): string
  {
    "Unexpected response " + IntText(e.status) + " " + e.statusText
  }

  /** Templates for 200 and 400: an observed 400 is a reply with status 400, an observed 404 fails. */
  lemma ResponseMatchingExample<J>(json: J, hs: map<string, string>)
    ensures Handle([PlainResponse(200), PlainResponse(400)], Observed(400, "Bad Request", hs, json))
         == Ok(Reply(json, 400, None))
    ensures Handle([PlainResponse(200), PlainResponse(400)], Observed(404, "Not Found", hs, json))
         == Err(UnexpectedResponse(404, "Not Found"))
  {
    assert FirstMatchAt([PlainResponse(200), PlainResponse(400)], 400, 1);
  }

  /** The failure for an observed 404 reads "Unexpected response 404 Not Found". */
  lemma MessageExample()
    ensures Message(UnexpectedResponse(404, "Not Found")) == "Unexpected response 404 Not Found"
  {
    assert NatText(40) == "4" + "0";
    assert NatText(404) == "40" + "4";
  }
}
