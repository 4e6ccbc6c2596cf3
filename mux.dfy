/**
 * The two routers as objects: each owns a registry map that `Handle`
 * updates in place and returns the router itself so registrations chain.
 * `ServeResource` on either reads the registry and delegates through the
 * routing tree of module Handlers.
 */
module Mux {
  import opened Lambda
  import opened Strings
  import opened Handlers

  /** Routes requests by the exact name of their resource. */
  class ServeResource {
    var resources: map<string, Handler>

    /** NewServeResource: a router with an empty registry. */
    constructor ()
      ensures resources == map[]
      ensures forall ctx, req :: ServeResource(ctx, req) == Miss(ResourceHandlerNotFound(req.resource))
    {
      resources := map[];
    }

    /** This router as a node of a routing tree. */
    function AsHandler(): Handler
      reads this
    {
      Resources(resources)
    }

    /**
     * Delegates to the handler registered for the request's resource and
     * returns its reply unchanged; with none registered, the zero response
     * and an error naming the resource.
     */
    function ServeResource(ctx: Context, req: Request): (r: Reply)
      reads this
      ensures req.resource in resources ==> r == Serve(resources[req.resource], ctx, req)
      ensures req.resource !in resources ==>
                r.resp == ZeroResponse && r.err == Some(ResourceHandlerNotFound(req.resource))
    {
      Serve(AsHandler(), ctx, req)
    }

    /** Registers `handler` for `resource`, replacing any earlier one. */
    method Handle(resource: string, handler: Handler) returns (s: ServeResource)
      modifies this
      ensures s == this
      ensures resources == old(resources)[resource := handler]
      ensures resource in resources && resources[resource] == handler
      ensures forall k :: k != resource ==>
                (k in resources <==> k in old(resources))
                && (k in resources ==> resources[k] == old(resources)[k])
    {
      resources := resources[resource := handler];
      s := this;
    }
  }

  /** Routes requests by HTTP method; methods are registered upper-cased. */
  class ServeMethod {
    var methods: map<string, Handler>

    /** Every registered key is upper case, since `Handle` upper-cases what it stores. */
    ghost predicate Valid()
      reads this
    {
      forall k :: k in methods ==> IsUpper(k)
    }

    /** NewServeMethod: a router with an empty registry. */
    constructor ()
      ensures Valid() && methods == map[]
      ensures forall ctx, req :: ServeResource(ctx, req)
                == Miss(MethodHandlerNotFound(req.resource, req.httpMethod))
    {
      methods := map[];
    }

    /** This router as a node of a routing tree. */
    function AsHandler(): Handler
      reads this
    {
      Methods(methods)
    }

    /**
     * Delegates to the handler registered for the request's method exactly as
     * the request spells it (no upper-casing here), returning its reply
     * unchanged; with none registered, the zero response and an error naming
     * resource and method. A request whose method is not upper case therefore
     * always misses on a valid router.
     */
    function ServeResource(ctx: Context, req: Request): (r: Reply)
      reads this
      ensures req.httpMethod in methods ==> r == Serve(methods[req.httpMethod], ctx, req)
      ensures req.httpMethod !in methods ==>
                r.resp == ZeroResponse
                && r.err == Some(MethodHandlerNotFound(req.resource, req.httpMethod))
      ensures Valid() && !IsUpper(req.httpMethod) ==>
                r == Miss(MethodHandlerNotFound(req.resource, req.httpMethod))
    {
      Serve(AsHandler(), ctx, req)
    }

    /**
     * Registers `handler` under the upper-cased `httpMethod`, replacing any
     * handler registered under any case variant of it.
     */
    method Handle(httpMethod: string, handler: Handler) returns (s: ServeMethod)
      modifies this
      ensures s == this
      ensures methods == old(methods)[ToUpper(httpMethod) := handler]
      ensures ToUpper(httpMethod) in methods && methods[ToUpper(httpMethod)] == handler
      ensures forall k :: k != ToUpper(httpMethod) ==>
                (k in methods <==> k in old(methods))
                && (k in methods ==> methods[k] == old(methods)[k])
      ensures Valid() == old(Valid())
    {
      methods := methods[ToUpper(httpMethod) := handler];
      s := this;
    }
  }

  /**
   * Two registrations of one resource on a fresh router: the second replaces
   * the first, and a request for that resource is served by the second.
   */
  method LastRegistrationWins(first: Handler, second: Handler, ctx: Context, req: Request)
    returns (entries: nat, reply: Reply)
    ensures entries == 1
    ensures reply == Serve(second, ctx, req)
  {
    var router := new ServeResource();
    router := router.Handle(req.resource, first);
    router := router.Handle(req.resource, second);
    entries := |router.resources|;
    reply := router.ServeResource(ctx, req);
  }

  /**
   * "get" and then "GET" registered on a fresh method router leave one entry,
   * the later handler under "GET": a "GET" request reaches it, while a
   * request spelling the method "get" misses, since lookup does not upper-case.
   */
  method MethodCaseVariantsCollapse(first: Handler, second: Handler, ctx: Context, req: Request)
    returns (entries: nat, upper: Reply, lower: Reply)
    ensures entries == 1
    ensures upper == Serve(second, ctx, req.(httpMethod := "GET"))
    ensures lower == Miss(MethodHandlerNotFound(req.resource, "get"))
  {
    ToUpperGet();
    var router := new ServeMethod();
    router := router.Handle("get", first);
    router := router.Handle("GET", second);
    assert router.methods == map["GET" := second];
    entries := |router.methods|;
    upper := router.ServeResource(ctx, req.(httpMethod := "GET"));
    assert "get" !in router.methods by { assert "get"[0] != "GET"[0]; }
    lower := router.ServeResource(ctx, req.(httpMethod := "get"));
  }

  /**
   * The routing tree "/orders" -> GET -> `orders` built with the routers'
   * own registration calls, and four requests that differ only in resource
   * and method: "/orders" GET reaches `orders`; "/orders" with "get" or
   * "POST" misses at the method router; "/unknown" misses at the resource router.
   */
  method OrdersTree(orders: (Context, Request) -> Reply, ctx: Context, req: Request)
    returns (getUpper: Reply, getLower: Reply, post: Reply, unknown: Reply)
    ensures getUpper == orders(ctx, req.(resource := "/orders", httpMethod := "GET"))
    ensures getLower == Miss(MethodHandlerNotFound("/orders", "get"))
    ensures post == Miss(MethodHandlerNotFound("/orders", "POST"))
    ensures unknown == Miss(ResourceHandlerNotFound("/unknown"))
  {
    ToUpperGet();
    var byMethod := new ServeMethod();
    byMethod := byMethod.Handle("GET", Func(orders));
    var root := new ServeResource();
    root := root.Handle("/orders", byMethod.AsHandler());
    assert root.resources == map["/orders" := Methods(map["GET" := Func(orders)])];

    var ordersGet := req.(resource := "/orders", httpMethod := "GET");
    assert Serve(root.resources["/orders"], ctx, ordersGet) == orders(ctx, ordersGet);
    getUpper := root.ServeResource(ctx, ordersGet);
    assert "get" != "GET" by { assert "get"[0] != "GET"[0]; }
    getLower := root.ServeResource(ctx, req.(resource := "/orders", httpMethod := "get"));
    assert "POST" != "GET" by { assert "POST"[0] != "GET"[0]; }
    post := root.ServeResource(ctx, req.(resource := "/orders", httpMethod := "POST"));
    assert "/unknown" != "/orders" by { assert "/unknown"[1] != "/orders"[1]; }
    unknown := root.ServeResource(ctx, req.(resource := "/unknown"));
  }
}
