/**
 * The `ResourceHandler` capability and the routing tree built from it: a
 * handler is a function lifted by `ResourceHandlerFunc`, a `ServeResource`
 * router keyed by exact resource name, or a `ServeMethod` router keyed by
 * HTTP method. Routers are handlers themselves, so they nest.
 */
module Handlers {
  import opened Lambda

  datatype Handler =
    | Func(f: (Context, Request) -> Reply)       // ResourceHandlerFunc
    | Resources(resources: map<string, Handler>) // ServeResource
    | Methods(methods: map<string, Handler>)     // ServeMethod

  /**
   * `ServeResource` of each kind of handler: a function is applied, a router
   * looks up its key and delegates, or misses with the zero response.
   *
   * Serving a request through any tree invokes exactly the one function its
   * route reaches, with the same context and request, and returns that
   * function's reply unchanged; or, when the route misses, invokes nothing
   * and returns the zero response with the miss.
   */
  function Serve(h: Handler, ctx: Context, req: Request): (r: Reply)
    ensures r == Answer(Route(h, req.resource, req.httpMethod), ctx, req)
    decreases h
  {
    match h
    case Func(f) => f(ctx, req)
    case Resources(resources) =>
      if req.resource in resources then Serve(resources[req.resource], ctx, req)
      else Miss(ResourceHandlerNotFound(req.resource))
    case Methods(methods) =>
      if req.httpMethod in methods then Serve(methods[req.httpMethod], ctx, req)
      else Miss(MethodHandlerNotFound(req.resource, req.httpMethod))
  }

  /**
   * The handler found by looking up `keys` one after another in the
   * registries of nested routers, if every lookup succeeds.
   */
  function Follow(h: Handler, keys: seq<string>): Option<Handler>
    decreases |keys|
  {
    if keys == [] then Some(h)
    else match h
      case Func(_) => None
      case Resources(resources) =>
        if keys[0] in resources then Follow(resources[keys[0]], keys[1..]) else None
      case Methods(methods) =>
        if keys[0] in methods then Follow(methods[keys[0]], keys[1..]) else None
  }

  /** The registry entry of router `h` under `k`, when `h` is a router holding `k`. */
  ghost predicate Entry(h: Handler, k: string, child: Handler) {
    || (h.Resources? && k in h.resources && h.resources[k] == child)
    || (h.Methods? && k in h.methods && h.methods[k] == child)
  }

  /** Looking up `[k] + keys` from a router is looking up `keys` from its entry under `k`. */
  lemma FollowThrough(h: Handler, k: string, child: Handler, keys: seq<string>)
    requires Entry(h, k, child)
    ensures Follow(h, [k] + keys) == Follow(child, keys)
    ensures forall i :: 0 < i <= |keys| + 1 ==>
              Follow(h, ([k] + keys)[..i]) == Follow(child, keys[..i - 1])
  {
    assert ([k] + keys)[1..] == keys;
    forall i | 0 < i <= |keys| + 1
      ensures Follow(h, ([k] + keys)[..i]) == Follow(child, keys[..i - 1])
    {
      assert ([k] + keys)[..i] == [k] + keys[..i - 1];
      assert ([k] + keys[..i - 1])[1..] == keys[..i - 1];
    }
  }

  /** Where a request ends up in a routing tree: one function, or a miss. */
  datatype Destination =
    | Reached(f: (Context, Request) -> Reply, keys: seq<string>)
    | Missed(error: Error, keys: seq<string>)

  /**
   * The path a request takes through the tree, read off the request's
   * resource and method alone: the keys matched on the way, and the
   * function reached or the miss at the end.
   */
  function Route(h: Handler, resource: string, httpMethod: string): (d: Destination)
    ensures d.Reached? ==> Follow(h, d.keys) == Some(Func(d.f))
    ensures d.Missed? ==>
              && Follow(h, d.keys).Some?
              && var last := Follow(h, d.keys).value;
              || (last.Resources? && resource !in last.resources
                  && d.error == ResourceHandlerNotFound(resource))
              || (last.Methods? && httpMethod !in last.methods
                  && d.error == MethodHandlerNotFound(resource, httpMethod))
    ensures forall i :: 0 <= i < |d.keys| ==>
              && Follow(h, d.keys[..i]).Some?
              && (Follow(h, d.keys[..i]).value.Resources? ==> d.keys[i] == resource)
              && (Follow(h, d.keys[..i]).value.Methods? ==> d.keys[i] == httpMethod)
              && !Follow(h, d.keys[..i]).value.Func?
    decreases h
  {
    match h
    case Func(f) => Reached(f, [])
    case Resources(resources) =>
      if resource in resources then
        var d := Route(resources[resource], resource, httpMethod);
        FollowThrough(h, resource, resources[resource], d.keys);
        d.(keys := [resource] + d.keys)
      else Missed(ResourceHandlerNotFound(resource), [])
    case Methods(methods) =>
      if httpMethod in methods then
        var d := Route(methods[httpMethod], resource, httpMethod);
        FollowThrough(h, httpMethod, methods[httpMethod], d.keys);
        d.(keys := [httpMethod] + d.keys)
      else Missed(MethodHandlerNotFound(resource, httpMethod), [])
  }

  /** What a request's destination answers. */
  function Answer(d: Destination, ctx: Context, req: Request): Reply
  {
    match d
    case Reached(f, _) => f(ctx, req)
    case Missed(e, _) => Miss(e)
  }

  /**
   * Routing reads nothing but the resource and the method: two requests that
   * agree on both are served by the same function, or miss alike.
   */
  lemma RoutingIgnoresPayload(h: Handler, ctx: Context, a: Request, b: Request)
    requires a.resource == b.resource && a.httpMethod == b.httpMethod
    ensures var d := Route(h, a.resource, a.httpMethod);
            && (d.Missed? ==> Serve(h, ctx, a) == Serve(h, ctx, b))
            && (d.Reached? ==> Serve(h, ctx, a) == d.f(ctx, a) && Serve(h, ctx, b) == d.f(ctx, b))
  {
  }

  /** Every error a tree produces is a routing miss or comes from a reached function. */
  lemma ServeErrorOrigin(h: Handler, ctx: Context, req: Request)
    ensures var r := Serve(h, ctx, req);
            var d := Route(h, req.resource, req.httpMethod);
            (d.Reached? && r == d.f(ctx, req))
            || (d.Missed? && r.resp == ZeroResponse
                && (r.err == Some(ResourceHandlerNotFound(req.resource))
                    || r.err == Some(MethodHandlerNotFound(req.resource, req.httpMethod))))
  {
  }

  // ---- ResourceHandlerFunc ----

  /** A lifted function serves a request by plain application. */
  lemma ServeFunc(f: (Context, Request) -> Reply, ctx: Context, req: Request)
    ensures Serve(Func(f), ctx, req) == f(ctx, req)
    ensures Route(Func(f), req.resource, req.httpMethod) == Reached(f, [])
  {
  }

  // ---- ServeResource ----

  /** A resource router with nothing registered misses every request, naming its resource. */
  lemma EmptyResourcesMiss(ctx: Context, req: Request)
    ensures Serve(Resources(map[]), ctx, req) == Miss(ResourceHandlerNotFound(req.resource))
  {
  }

  /**
   * A registered resource delegates: the reply is the sub-handler's, success
   * or failure alike, with nothing added or dropped.
   */
  lemma ResourcesHit(resources: map<string, Handler>, ctx: Context, req: Request)
    requires req.resource in resources
    ensures Serve(Resources(resources), ctx, req) == Serve(resources[req.resource], ctx, req)
  {
  }

  /**
   * An unregistered resource misses with the zero response and an error
   * naming it; the route reaches no function.
   */
  lemma ResourcesMiss(resources: map<string, Handler>, ctx: Context, req: Request)
    requires req.resource !in resources
    ensures Serve(Resources(resources), ctx, req) == Miss(ResourceHandlerNotFound(req.resource))
    ensures Route(Resources(resources), req.resource, req.httpMethod).Missed?
  {
  }

  /** Resource names match exactly: "/Items" registered does not serve "/items". */
  lemma ResourcesMatchCaseSensitively(h: Handler, ctx: Context, req: Request)
    requires req.resource == "/items"
    ensures Serve(Resources(map["/Items" := h]), ctx, req) == Miss(ResourceHandlerNotFound("/items"))
  {
    assert "/items" != "/Items" by { assert "/items"[1] != "/Items"[1]; }
  }

  // ---- ServeMethod ----

  /** A method router with nothing registered misses every request, naming resource and method. */
  lemma EmptyMethodsMiss(ctx: Context, req: Request)
    ensures Serve(Methods(map[]), ctx, req)
            == Miss(MethodHandlerNotFound(req.resource, req.httpMethod))
  {
  }

  /** A registered method delegates and passes the reply through unchanged. */
  lemma MethodsHit(methods: map<string, Handler>, ctx: Context, req: Request)
    requires req.httpMethod in methods
    ensures Serve(Methods(methods), ctx, req) == Serve(methods[req.httpMethod], ctx, req)
  {
  }

  /** An unregistered method misses with the zero response, naming resource and method. */
  lemma MethodsMiss(methods: map<string, Handler>, ctx: Context, req: Request)
    requires req.httpMethod !in methods
    ensures Serve(Methods(methods), ctx, req)
            == Miss(MethodHandlerNotFound(req.resource, req.httpMethod))
    ensures Route(Methods(methods), req.resource, req.httpMethod).Missed?
  {
  }

  // ---- Nesting ----

  /**
   * A resource router nesting a method router nesting a function serves
   * every (resource, method) pair registered at both levels with that
   * function, and misses at the level whose key is absent.
   */
  lemma {:induction false} NestedRouting(
    resources: map<string, Handler>, ctx: Context, req: Request)
    requires req.resource in resources && resources[req.resource].Methods?
    ensures var methods := resources[req.resource].methods;
            && (req.httpMethod in methods && methods[req.httpMethod].Func? ==>
                 Serve(Resources(resources), ctx, req) == methods[req.httpMethod].f(ctx, req)
                 && Route(Resources(resources), req.resource, req.httpMethod).keys
                    == [req.resource, req.httpMethod])
            && (req.httpMethod !in methods ==>
                 Serve(Resources(resources), ctx, req)
                 == Miss(MethodHandlerNotFound(req.resource, req.httpMethod)))
  {
    var methods := resources[req.resource].methods;
    if req.httpMethod in methods && methods[req.httpMethod].Func? {
      var d := Route(methods[req.httpMethod], req.resource, req.httpMethod);
      assert d.keys == [];
      assert Route(resources[req.resource], req.resource, req.httpMethod).keys == [req.httpMethod];
      assert Serve(resources[req.resource], ctx, req) == Serve(methods[req.httpMethod], ctx, req);
    }
  }
}
