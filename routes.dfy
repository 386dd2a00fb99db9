/**
 * How requests reach the handlers: the router registers middleware per route, and the
 * server mounts the router behind one more API-key gate. A request runs through the
 * mounted stages in order; the first stage that answers (or throws) ends it, otherwise
 * the handler runs.
 */
module Routes {
  import opened Wrappers
  import opened JsValues
  import opened Auth
  import opened Validation
  import opened Schema
  import opened Store
  import opened Controller
  import opened Agreement

  /** The five routes under `/api/products`. */
  datatype Route = List | Get | Post | Put | Delete

  /** The middleware in front of a handler. */
  datatype Stage = ApiKeyGate | CreationCheck | UpdateCheck

  /** The middleware each route registers on the router, before its handler. */
  function RouterStages(r: Route): seq<Stage>
  {
    match r
    case List => [ApiKeyGate]
    case Get => [ApiKeyGate]
    case Post => [ApiKeyGate, CreationCheck]
    case Put => [UpdateCheck]
    case Delete => [ApiKeyGate]
  }

  /** The router is mounted behind the gate, so every route runs it first. */
  function MountedStages(r: Route): seq<Stage>
  {
    [ApiKeyGate] + RouterStages(r)
  }

  function Occurrences(s: seq<Stage>, x: Stage): nat
  {
    if s == [] then 0 else (if s[0] == x then 1 else 0) + Occurrences(s[1..], x)
  }

  /** Every mounted route, the update route included, starts with the gate; update runs it once, the others twice. */
  lemma GateOnEveryRoute(r: Route)
    ensures MountedStages(r)[0] == ApiKeyGate
    ensures Occurrences(MountedStages(r), ApiKeyGate) == if r == Put then 1 else 2
  {
    var s := MountedStages(r);
    match r
    case Put =>
      assert s == [ApiKeyGate, UpdateCheck] && s[1..] == [UpdateCheck] && s[1..][1..] == [];
      assert Occurrences(s[1..], ApiKeyGate) == 0;
    case Post =>
      assert s[1..] == [ApiKeyGate, CreationCheck] && s[1..][1..] == [CreationCheck] && s[1..][1..][1..] == [];
      assert Occurrences(s[1..][1..], ApiKeyGate) == 0;
      assert Occurrences(s[1..], ApiKeyGate) == 1;
    case _ =>
      assert s[1..] == [ApiKeyGate] && s[1..][1..] == [];
      assert Occurrences(s[1..], ApiKeyGate) == 1;
  }

  /** The headers and parameters of a request. */
  datatype Request = Request(xApiKey: Option<string>, authorization: Option<string>, id: IdParam, query: ListQuery, body: Body)

  /** The result of running one or more stages: go on, answer now, or an escaping exception. */
  datatype Screening = Admit | Answer(resp: Response) | Escape(error: string)

  /** What one stage does with the request, given the configured key. */
  function RunStage(s: Stage, req: Request, apiKey: Option<string>): Screening
  {
    match s
    case ApiKeyGate =>
      var reply := GateReply(Authenticate(req.xApiKey, req.authorization, apiKey));
      if reply.None? then Admit else Answer(Response(reply.value.0, MessageBody(reply.value.1)))
    case CreationCheck => FromVerdict(CreationVerdict(req.body))
    case UpdateCheck => FromVerdict(UpdateVerdict(req.body))
  }

  /** A validator's verdict as a screening: 400 with the message and, when there is one, the error list. */
  function FromVerdict(v: Verdict): (s: Screening)
    ensures s == Admit <==> v == Verdict.Proceed
    ensures s.Escape? <==> v.Throws?
  {
    match v
    case Proceed => Admit
    case BadRequest(m, e) => Answer(Response(400, if e.Some? then ErrorsBody(m, e.value) else MessageBody(m)))
    case Throws(e) => Escape(e)
  }

  /** The stages in order; the first that does not admit decides. */
  function Screen(stages: seq<Stage>, req: Request, apiKey: Option<string>): Screening
  {
    if stages == [] then Admit
    else
      var first := RunStage(stages[0], req, apiKey);
      if first.Admit? then Screen(stages[1..], req, apiKey) else first
  }

  /** The gate does not change the request, so running it twice in a row decides as running it once. */
  lemma GateTwiceIsGateOnce(rest: seq<Stage>, req: Request, apiKey: Option<string>)
    ensures Screen([ApiKeyGate, ApiKeyGate] + rest, req, apiKey) == Screen([ApiKeyGate] + rest, req, apiKey)
  {
    assert ([ApiKeyGate, ApiKeyGate] + rest)[1..] == [ApiKeyGate] + rest;
    assert ([ApiKeyGate] + rest)[1..] == rest;
  }

  /** A request reaches a handler only with the configured key, whatever the route; writes need a valid body as well. */
  lemma AdmittedMeansAuthenticated(r: Route, req: Request, apiKey: Option<string>)
    ensures Screen(MountedStages(r), req, apiKey) == Admit ==> Authenticate(req.xApiKey, req.authorization, apiKey) == Gate.Proceed
    ensures r == Post && Screen(MountedStages(r), req, apiKey) == Admit ==> CreationVerdict(req.body) == Verdict.Proceed
    ensures r == Put && Screen(MountedStages(r), req, apiKey) == Admit ==> UpdateVerdict(req.body) == Verdict.Proceed
    ensures Authenticate(req.xApiKey, req.authorization, apiKey) == Missing ==>
      Screen(MountedStages(r), req, apiKey) == Answer(Response(401, MessageBody(MissingMessage)))
    ensures Authenticate(req.xApiKey, req.authorization, apiKey) == Invalid ==>
      Screen(MountedStages(r), req, apiKey) == Answer(Response(403, MessageBody(InvalidMessage)))
  {
    var s := MountedStages(r);
    assert s[0] == ApiKeyGate;
    if RunStage(ApiKeyGate, req, apiKey).Admit? {
      match r
      case List => assert s[1..][1..] == [];
      case Get => assert s[1..][1..] == [];
      case Post =>
        var t := s[1..][1..];
        assert t == [CreationCheck] && t[1..] == [];
        assert Screen(s, req, apiKey) == Screen(t, req, apiKey);
        assert Screen(t, req, apiKey) == Admit ==> RunStage(CreationCheck, req, apiKey) == Admit;
      case Put =>
        var t := s[1..];
        assert t == [UpdateCheck] && t[1..] == [];
        assert Screen(s, req, apiKey) == Screen(t, req, apiKey);
        assert Screen(t, req, apiKey) == Admit ==> RunStage(UpdateCheck, req, apiKey) == Admit;
      case Delete => assert s[1..][1..] == [];
    }
  }

  /**
   * Once the gate lets a request through, what the rest of its chain does: list, get and delete go
   * straight to the handler; create and update answer 400 with 'Validation failed' and the error list,
   * update answers its single message when nothing is provided, and a create body whose text field
   * has no `trim` escapes with the TypeError.
   */
  lemma ScreenAfterGate(r: Route, req: Request, apiKey: Option<string>)
    requires Authenticate(req.xApiKey, req.authorization, apiKey) == Gate.Proceed
    ensures r == List || r == Get || r == Delete ==> Screen(MountedStages(r), req, apiKey) == Admit
    ensures r == Post ==>
      Screen(MountedStages(r), req, apiKey) == (
        if CreationThrows(req.body) then Escape(TrimNotAFunction)
        else if CreationErrors(req.body) == [] then Admit
        else Answer(Response(400, ErrorsBody(ValidationFailed, CreationErrors(req.body)))))
    ensures r == Put ==>
      Screen(MountedStages(r), req, apiKey) == (
        if NothingProvided(req.body) then Answer(Response(400, MessageBody(NothingToUpdate)))
        else if UpdateErrors(req.body) == [] then Admit
        else Answer(Response(400, ErrorsBody(ValidationFailed, UpdateErrors(req.body)))))
  {
    var s := MountedStages(r);
    assert RunStage(ApiKeyGate, req, apiKey) == Admit;
    assert Screen(s, req, apiKey) == Screen(s[1..], req, apiKey);
    match r
    case Post =>
      var t := s[1..][1..];
      assert s[1..] == [ApiKeyGate, CreationCheck] && t == [CreationCheck] && t[1..] == [];
      assert Screen(s[1..], req, apiKey) == Screen(t, req, apiKey);
      assert Screen(t, req, apiKey) == FromVerdict(CreationVerdict(req.body));
    case Put =>
      var t := s[1..];
      assert t == [UpdateCheck] && t[1..] == [];
      assert Screen(t, req, apiKey) == FromVerdict(UpdateVerdict(req.body));
    case _ =>
      var t := s[1..];
      assert t == [ApiKeyGate] && t[1..] == [];
      assert Screen(t, req, apiKey) == Screen(t[1..], req, apiKey);
  }

  /** What the application does with a request: a response, or an error handed on to the error-handling middleware. */
  datatype Outcome = Sent(resp: Response) | Forwarded(error: string)

  /**
   * Serving one request on a route: the mounted stages run first; a stage that answers or throws
   * ends the request before the store is touched; otherwise the route's handler answers.
   */
  method Serve(store: ProductStore, r: Route, req: Request, apiKey: Option<string>, fault: Option<string>)
    returns (outcome: Outcome)
    requires store.Valid()
    requires r == List ==> LimitOf(req.query) > 0
    modifies store
    ensures store.Valid()
    ensures Screen(MountedStages(r), req, apiKey).Answer? ==>
      outcome == Sent(Screen(MountedStages(r), req, apiKey).resp) && store.docs == old(store.docs)
    ensures Screen(MountedStages(r), req, apiKey).Escape? ==>
      outcome == Forwarded(Screen(MountedStages(r), req, apiKey).error) && store.docs == old(store.docs)
    ensures Screen(MountedStages(r), req, apiKey).Admit? ==> outcome.Sent?
    ensures r == List || r == Get ==> store.docs == old(store.docs) && store.clock == old(store.clock)
    // list: the handler's 500 and 200 answers
    ensures Screen(MountedStages(r), req, apiKey).Admit? && r == List ==>
      var q := req.query;
      && (fault.Some? ==> outcome.resp == Response(500, MessageBody(fault.value)))
      && (fault.None? && Skip(PageOf(q), LimitOf(q)) < 0 ==> outcome.resp == Response(500, MessageBody(NegativeSkip)))
      && (fault.None? && Skip(PageOf(q), LimitOf(q)) >= 0 ==>
            && outcome.resp.status == 200 && outcome.resp.body.ListBody?
            && outcome.resp.body.count == |outcome.resp.body.products| <= LimitOf(q)
            && outcome.resp.body.currentPage == PageOf(q)
            && outcome.resp.body.products == Page(store.Listing(BuildFilter(q)), Skip(PageOf(q), LimitOf(q)), LimitOf(q))
            && outcome.resp.body.total == |set id | id in store.docs && Matches(BuildFilter(q), store.docs[id].product)|
            && outcome.resp.body.totalPages == TotalPages(outcome.resp.body.total, LimitOf(q)))
    // get: the record, or the one 404
    ensures Screen(MountedStages(r), req, apiKey).Admit? && r == Get ==>
      outcome.resp == if fault.None? && req.id.WellFormed? && req.id.id in old(store.docs)
                      then Response(200, DataBody(old(store.docs)[req.id.id]))
                      else Response(404, MessageBody(NotFound))
    // create: a validated body always fits the schema, so without a fault it is stored and answered 201
    ensures Screen(MountedStages(r), req, apiKey).Admit? && r == Post ==>
      && FromBody(req.body).Success?
      && (fault.Some? ==> outcome.resp == Response(400, MessageBody(fault.value)) && store.docs == old(store.docs))
      && (fault.None? ==>
            var created := Record(old(store.clock), FromBody(req.body).value, old(store.clock), old(store.clock));
            && outcome.resp == Response(201, MessageData(Created, created))
            && created.id !in old(store.docs) && store.docs == old(store.docs)[created.id := created])
    // update: a validated body always casts, so only the id and faults decide
    ensures Screen(MountedStages(r), req, apiKey).Admit? && r == Put ==>
      && UpdateFromBody(req.body).Success?
      && (req.id.Malformed? ==> outcome.resp == Response(400, MessageBody(CastIdMessage(req.id.raw))) && store.docs == old(store.docs))
      && (req.id.WellFormed? && fault.Some? ==> outcome.resp == Response(400, MessageBody(fault.value)) && store.docs == old(store.docs))
      && (req.id.WellFormed? && fault.None? && req.id.id !in old(store.docs) ==>
            outcome.resp == Response(404, MessageBody(NotFound)) && store.docs == old(store.docs))
      && (req.id.WellFormed? && fault.None? && req.id.id in old(store.docs) ==>
            var prior := old(store.docs)[req.id.id];
            var updated := prior.(product := Merge(prior.product, UpdateFromBody(req.body).value), updatedAt := old(store.clock));
            && outcome.resp == Response(200, MessageData(Updated, updated))
            && store.docs == old(store.docs)[req.id.id := updated])
    // delete: the handler's 500, 404 and 200 answers
    ensures Screen(MountedStages(r), req, apiKey).Admit? && r == Delete ==>
      && (req.id.Malformed? ==> outcome.resp == Response(500, MessageBody(CastIdMessage(req.id.raw))) && store.docs == old(store.docs))
      && (req.id.WellFormed? && fault.Some? ==> outcome.resp == Response(500, MessageBody(fault.value)) && store.docs == old(store.docs))
      && (req.id.WellFormed? && fault.None? && req.id.id !in old(store.docs) ==>
            outcome.resp == Response(404, MessageBody(NotFound)) && store.docs == old(store.docs))
      && (req.id.WellFormed? && fault.None? && req.id.id in old(store.docs) ==>
            && outcome.resp == Response(200, MessageData(Deleted, old(store.docs)[req.id.id]))
            && store.docs == old(store.docs) - {req.id.id})
  {
    var screening := Screen(MountedStages(r), req, apiKey);
    if screening.Answer? {
      return Sent(screening.resp);
    }
    if screening.Escape? {
      return Forwarded(screening.error);
    }
    AdmittedMeansAuthenticated(r, req, apiKey);
    var resp: Response;
    match r {
      case List => resp := GetAllProducts(store, req.query, fault);
      case Get => resp := GetProductById(store, req.id, fault);
      case Post =>
        ValidatedCreationFitsSchema(req.body);
        resp := CreateProduct(store, req.body, fault);
      case Put =>
        ValidatedUpdateCasts(req.body);
        resp := UpdateProduct(store, req.id, req.body, fault);
      case Delete => resp := DeleteProduct(store, req.id, fault);
    }
    outcome := Sent(resp);
  }
}
