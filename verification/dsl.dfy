/**
 * The builder (src/servo/dsl.ts; src/api.ts has the same class built on its
 * curried constructors). A `Dsl` value is a continuation from the sub-tree
 * still to be plugged in to the whole tree; each extender composes one more
 * node onto it, and each terminator plugs in a leaf and yields a `DslLeaf`.
 */
module Dsl {
  import opened ApiCore

  /** The node an extender wraps around whatever is plugged in later. */
  datatype Frame =
    | PathFrame(url: string)
    | CaptureFrame(placeholder: string)
    | HeaderFrame(name: string)
    | QueryFrame(name: string)
    | BodyFrame(bodyType: BodyType)

  function Wrap(f: Frame, next: Api): (r: Api)
    ensures IsExtender(r) && r.next == next
  {
    match f
    case PathFrame(url) => Path(url, next)
    case CaptureFrame(placeholder) => Capture(placeholder, next)
    case HeaderFrame(name) => Header(name, next)
    case QueryFrame(name) => QueryParam(name, next)
    case BodyFrame(bodyType) => Body(bodyType, next)
  }

  /** The frame an extender node was built from. */
  function FrameOf(a: Api): (f: Frame)
    requires IsExtender(a)
    ensures Wrap(f, a.next) == a
  {
    match a
    case Path(url, _) => PathFrame(url)
    case Capture(placeholder, _) => CaptureFrame(placeholder)
    case Header(name, _) => HeaderFrame(name)
    case QueryParam(name, _) => QueryFrame(name)
    case Body(bodyType, _) => BodyFrame(bodyType)
  }

  /** `class Dsl`: its `dsl` field is the continuation `next -> tree`. */
  datatype Builder = Builder(dsl: Api -> Api)

  /** `class DslLeaf`: a finished tree; `run()` returns it. */
  datatype DslLeaf = DslLeaf(tree: Api)

  /** `Dsl.empty()`: plugging `t` into the empty builder yields `t` itself. */
  function Empty(): (b: Builder)
    ensures forall t :: b.dsl(t) == t
  {
    Builder(next => next)
  }

  /**
   * An extender applied to `b`: a new builder whose continuation wraps the
   * plugged-in sub-tree in the frame's node and hands it to `b`'s. The
   * receiver is a value and is left as it was.
   */
  function Extend(b: Builder, f: Frame): (r: Builder)
    ensures forall next :: r.dsl(next) == b.dsl(Wrap(f, next))
  {
    Builder(next => b.dsl(Wrap(f, next)))
  }

  function ExtendPath(b: Builder, url: string): Builder { Extend(b, PathFrame(url)) }
  function ExtendCapture(b: Builder, placeholder: string): Builder { Extend(b, CaptureFrame(placeholder)) }
  function ExtendHeader(b: Builder, name: string): Builder { Extend(b, HeaderFrame(name)) }
  function ExtendQueryParam(b: Builder, name: string): Builder { Extend(b, QueryFrame(name)) }
  function ExtendBody(b: Builder, bodyType: BodyType): Builder { Extend(b, BodyFrame(bodyType)) }

  /** A terminator: plugs a METHOD leaf with this verb and these templates, in order. */
  function Terminate(b: Builder, verb: Verb, templates: seq<Template>): (r: DslLeaf)
    ensures r.tree == b.dsl(Method(verb, templates))
  {
    DslLeaf(b.dsl(Method(verb, templates)))
  }

  function Get(b: Builder, templates: seq<Template>): DslLeaf { Terminate(b, GET, templates) }
  function Post(b: Builder, templates: seq<Template>): DslLeaf { Terminate(b, POST, templates) }
  function Delete(b: Builder, templates: seq<Template>): DslLeaf { Terminate(b, DELETE, templates) }
  function Options(b: Builder, templates: seq<Template>): DslLeaf { Terminate(b, OPTIONS, templates) }

  /** `or(l1, l2)`: plugs an OR of the two finished trees. */
  function Either(b: Builder, l1: DslLeaf, l2: DslLeaf): (r: DslLeaf)
    ensures r.tree == b.dsl(Or(l1.tree, l2.tree))
  {
    DslLeaf(b.dsl(Or(l1.tree, l2.tree)))
  }

  function Trees(xs: seq<DslLeaf>): (ts: seq<Api>)
    ensures |ts| == |xs| && forall i :: 0 <= i < |xs| ==> ts[i] == xs[i].tree
  {
    seq(|xs|, i requires 0 <= i < |xs| => xs[i].tree)
  }

  /** `any(...xs)`: plugs an ANY whose alternatives are the finished trees in argument order. */
  function AnyOf(b: Builder, xs: seq<DslLeaf>): (r: DslLeaf)
    ensures exists alts :: r.tree == b.dsl(Any(alts)) && |alts| == |xs| && forall i :: 0 <= i < |xs| ==> alts[i] == xs[i].tree
  {
    DslLeaf(b.dsl(Any(Trees(xs))))
  }

  // Chains of extenders and the trees they build.

  /** The tree with the frames' nodes nested around `core`, the first frame outermost. */
  function Nest(fs: seq<Frame>, core: Api): Api
  {
    if |fs| == 0 then core else Wrap(fs[0], Nest(fs[1..], core))
  }

  /** Applying the extenders `fs` to `b`, in order: `b.path(..).capture(..)...`. */
  function Chain(b: Builder, fs: seq<Frame>): Builder
    decreases |fs|
  {
    if |fs| == 0 then b else Chain(Extend(b, fs[0]), fs[1..])
  }

  /**
   * Extenders nest in application order: the first one applied ends up
   * outermost, and the sub-tree plugged in last sits innermost.
   */
  lemma {:induction false} ChainNests(b: Builder, fs: seq<Frame>, core: Api)
    ensures Chain(b, fs).dsl(core) == b.dsl(Nest(fs, core))
    decreases |fs|
  {
    if |fs| > 0 {
      ChainNests(Extend(b, fs[0]), fs[1..], core);
    }
  }

  /** Splits a tree into its leading extender frames and the first non-extender node. */
  function Peel(t: Api): (r: (seq<Frame>, Api))
    ensures !IsExtender(r.1)
  {
    if IsExtender(t) then
      var (fs, core) := Peel(t.next);
      ([FrameOf(t)] + fs, core)
    else ([], t)
  }

  /** Peeling a nested tree gives back the frames and the core it was built from. */
  lemma {:induction false} PeelNest(fs: seq<Frame>, core: Api)
    requires !IsExtender(core)
    ensures Peel(Nest(fs, core)) == (fs, core)
  {
    if |fs| > 0 {
      PeelNest(fs[1..], core);
      var f := fs[0];
      assert FrameOf(Wrap(f, Nest(fs[1..], core))) == f;
      assert [f] + fs[1..] == fs;
    }
  }

  /** Nesting what a tree peels into rebuilds the tree. */
  lemma {:induction false} NestPeel(t: Api)
    ensures Nest(Peel(t).0, Peel(t).1) == t
  {
    if IsExtender(t) {
      NestPeel(t.next);
      var (fs, core) := Peel(t.next);
      assert ([FrameOf(t)] + fs)[1..] == fs;
    }
  }

  /**
   * A chain of extenders applied to the empty builder and closed by any
   * non-extender node builds exactly the nested tree, and the extenders can
   * be read back from it in application order.
   */
  lemma ClosedChain(fs: seq<Frame>, core: Api)
    requires !IsExtender(core)
    ensures Chain(Empty(), fs).dsl(core) == Nest(fs, core)
    ensures Peel(Chain(Empty(), fs).dsl(core)) == (fs, core)
  {
    ChainNests(Empty(), fs, core);
    PeelNest(fs, core);
  }

  /** `Dsl.empty().path(..)...get(..)`: the nested tree ending in the METHOD leaf. */
  lemma BuiltTree(fs: seq<Frame>, verb: Verb, templates: seq<Template>)
    ensures Terminate(Chain(Empty(), fs), verb, templates).tree == Nest(fs, Method(verb, templates))
    ensures Peel(Terminate(Chain(Empty(), fs), verb, templates).tree) == (fs, Method(verb, templates))
  {
    ClosedChain(fs, Method(verb, templates));
  }

  /** `Dsl.empty().path(..)...or(l1, l2)`: the nested tree ending in an OR of the two finished trees. */
  lemma OrBuilt(fs: seq<Frame>, l1: DslLeaf, l2: DslLeaf)
    ensures Either(Chain(Empty(), fs), l1, l2).tree == Nest(fs, Or(l1.tree, l2.tree))
    ensures Peel(Either(Chain(Empty(), fs), l1, l2).tree) == (fs, Or(l1.tree, l2.tree))
  {
    ClosedChain(fs, Or(l1.tree, l2.tree));
  }

  /**
   * `Dsl.empty().path(..)...any(...xs)`: the nested tree ending in an ANY
   * whose alternatives are the finished trees, in argument order.
   */
  lemma AnyBuilt(fs: seq<Frame>, xs: seq<DslLeaf>)
    ensures AnyOf(Chain(Empty(), fs), xs).tree == Nest(fs, Any(Trees(xs)))
    ensures Peel(AnyOf(Chain(Empty(), fs), xs).tree) == (fs, Any(Trees(xs)))
  {
    ClosedChain(fs, Any(Trees(xs)));
  }

  // The top-level combinators: the builder methods called on `Dsl.empty()`.

  /** `path(u)`, `capture(c)`, ..., `or`, `any` at top level build exactly the named node. */
  lemma TopLevelCombinators(url: string, c: string, name: string, bt: BodyType, next: Api, l1: DslLeaf, l2: DslLeaf, xs: seq<DslLeaf>, ts: seq<Template>)
    ensures ExtendPath(Empty(), url).dsl(next) == Path(url, next)
    ensures ExtendCapture(Empty(), c).dsl(next) == Capture(c, next)
    ensures ExtendHeader(Empty(), name).dsl(next) == Header(name, next)
    ensures ExtendQueryParam(Empty(), name).dsl(next) == QueryParam(name, next)
    ensures ExtendBody(Empty(), bt).dsl(next) == Body(bt, next)
    ensures Get(Empty(), ts).tree == Method(GET, ts) && Post(Empty(), ts).tree == Method(POST, ts)
    ensures Delete(Empty(), ts).tree == Method(DELETE, ts) && Options(Empty(), ts).tree == Method(OPTIONS, ts)
    ensures Either(Empty(), l1, l2).tree == Or(l1.tree, l2.tree)
    ensures AnyOf(Empty(), xs).tree == Any(Trees(xs))
  {
  }

  // The curried constructors of the older single-file version.

  /** `path(url)`, `capture(c)`, ...: one-argument functions waiting for `next`. */
  function Curried(f: Frame): Api -> Api
  {
    next => Wrap(f, next)
  }

  /** `combine(f, x)`: applies a curried constructor to the sub-tree. */
  function Combine(g: Api -> Api, x: Api): Api
  {
    g(x)
  }

  /** `combine(c1, combine(c2, ... core))`: the point-free way the older version composes a tree. */
  function Combined(fs: seq<Frame>, core: Api): Api
  {
    if |fs| == 0 then core else Combine(Curried(fs[0]), Combined(fs[1..], core))
  }

  /** Nested `combine` calls on curried constructors build the nested tree, outermost first. */
  lemma {:induction false} CombinedNests(fs: seq<Frame>, core: Api)
    ensures Combined(fs, core) == Nest(fs, core)
  {
    if |fs| > 0 {
      CombinedNests(fs[1..], core);
      assert Combine(Curried(fs[0]), Nest(fs[1..], core)) == Wrap(fs[0], Nest(fs[1..], core));
    }
  }

  /** The older builder: each extender applies the curried constructor inside its continuation. */
  function LegacyExtend(b: Builder, f: Frame): Builder
  {
    Builder(next => b.dsl(Curried(f)(next)))
  }

  function LegacyChain(b: Builder, fs: seq<Frame>): Builder
    decreases |fs|
  {
    if |fs| == 0 then b else LegacyChain(LegacyExtend(b, fs[0]), fs[1..])
  }

  /**
   * A chain of the older builder's extenders nests like the newer one's,
   * so the two revisions build the same tree from the same calls.
   */
  lemma {:induction false} LegacyBuilderAgrees(b: Builder, fs: seq<Frame>, core: Api)
    ensures LegacyChain(b, fs).dsl(core) == b.dsl(Nest(fs, core))
    ensures LegacyChain(b, fs).dsl(core) == Chain(b, fs).dsl(core)
    decreases |fs|
  {
    if |fs| > 0 {
      var inner := Nest(fs[1..], core);
      LegacyBuilderAgrees(LegacyExtend(b, fs[0]), fs[1..], core);
      assert Curried(fs[0])(inner) == Wrap(fs[0], inner);
      assert LegacyExtend(b, fs[0]).dsl(inner) == b.dsl(Curried(fs[0])(inner));
    }
    ChainNests(b, fs, core);
  }

  // Response templates.

  /** `jsonResponse()`: a plain template for status 200. */
  function JsonResponse(): (t: Template)
    ensures GetStatus(t) == 200 && GetHeaders(t).None?
  {
    PlainResponse(200)
  }

  /** `badRequest()`: a plain template for status 400. */
  function BadRequest(): (t: Template)
    ensures GetStatus(t) == 400 && GetHeaders(t).None?
  {
    PlainResponse(400)
  }

  /** `withHeaders(...hs)(t)`: same status, now a header response listing `hs`. */
  function WithHeaders(hs: seq<string>, t: Template): (r: Template)
    ensures r.HeaderResponse?
    ensures GetStatus(r) == GetStatus(t)
    ensures GetHeaders(r) == Results.Some(hs)
  {
    HeaderResponse(t.status, hs)
  }
}
