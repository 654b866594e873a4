/** What a single `dispatch` promises, and what two in a row do, stated over `DispatchSpec`. */
module DispatchProperties {
  import opened Wrappers
  import opened Entities
  import opened Signature
  import opened Payload
  import opened Requirements
  import opened UnableDispatchException
  import opened Collaborators
  import opened Dispatching
  import BillingInstall

  /** The outcome is an `UnableDispatchException` with the given code. */
  predicate FailedWith(outcome: Outcome, code: int) {
    outcome.Failed? && outcome.error.Unable? && outcome.error.exception.Code() == code
  }

  /** The action was turned away by the resolver registry: not in the action map, or in it
      with no resolver registered. */
  predicate Unsupported(outcome: Outcome) {
    FailedWith(outcome, CodeNotSupportedAction) || (outcome.Failed? && outcome.error.ActionNotSupported?)
  }

  /** The checks run in a fixed order and the first that fails decides the error: the request
      method (whatever the body), the requirements (naming the first missing parameter), the
      application, the signature, and, once the shop is upserted, the action. */
  lemma FailuresInOrder(cfg: Config, shops: map<ShopKey, Shop>, request: ServerRequest)
    ensures var run := DispatchSpec(cfg, shops, request);
            FailedWith(run.outcome, CodeInvalidRequestMethod) <==> request.requestMethod != "POST"
    ensures var run := DispatchSpec(cfg, shops, request);
            var p := request.parsedBody;
            FailedWith(run.outcome, CodeUnfulfilledRequirements) <==>
              request.requestMethod == "POST" && MissingParameter(p).Some?
    ensures var run := DispatchSpec(cfg, shops, request);
            var p := request.parsedBody;
            FailedWith(run.outcome, CodeUnfulfilledRequirements) ==>
              run.outcome.error.exception.GetPrevious() == Some(NotDefinedException(MissingParameter(p).value))
    ensures var run := DispatchSpec(cfg, shops, request);
            var p := request.parsedBody;
            FailedWith(run.outcome, CodeNotExistApplication) <==>
              && request.requestMethod == "POST" && MissingParameter(p) == None
              && p["application_code"] !in cfg.applications
    ensures var run := DispatchSpec(cfg, shops, request);
            var p := request.parsedBody;
            FailedWith(run.outcome, CodeInvalidPayloadHash) <==>
              && request.requestMethod == "POST" && MissingParameter(p) == None
              && p["application_code"] in cfg.applications
              && !SignatureValid(p, cfg.applications[p["application_code"]].appstoreSecret, cfg.mac)
    ensures var run := DispatchSpec(cfg, shops, request);
            Unsupported(run.outcome) <==>
              Accepted(cfg, request) && GetResolver(cfg.resolvers, request.parsedBody["action"]).Failure?
  {
    var p := request.parsedBody;
    if Accepted(cfg, request) {
      var application := AcceptedApplication(cfg, request);
      assert DispatchSpec(cfg, shops, request) == HandleVerified(cfg, shops, request, application);
      if GetResolver(cfg.resolvers, p["action"]).Success? {
        var shop := UpsertedShop(shops, AcceptedKey(cfg, request), application, AcceptedUri(cfg, request));
        var message := GetPayload(application, shop, p);
        var resolver := cfg.resolvers[p["action"]];
        if ResolverCalls(resolver, message).Failure? {
          assert DispatchSpec(cfg, shops, request).outcome == Failed(ResolverFailed(ResolverCalls(resolver, message).error));
        }
      }
    }
  }

  /** A request turned away by any check before the action lookup changes no shop and makes
      no call at all. */
  lemma FailedChecksHaveNoEffects(cfg: Config, shops: map<ShopKey, Shop>, request: ServerRequest)
    requires !Accepted(cfg, request)
    ensures DispatchSpec(cfg, shops, request).outcome.Failed?
    ensures DispatchSpec(cfg, shops, request).shops == shops
    ensures DispatchSpec(cfg, shops, request).effects == []
  {
    var p := request.parsedBody;
    if request.requestMethod == "POST" && MissingParameter(p) == None && p["application_code"] in cfg.applications {
      var application := cfg.applications[p["application_code"]];
      if SignatureValid(p, application.appstoreSecret, cfg.mac) {
        assert cfg.parseUri(p["shop_url"]).None?;
        assert DispatchSpec(cfg, shops, request) == HandleVerified(cfg, shops, request, application);
      }
    }
  }

  /** The calls of a completed dispatch: one upsert call, one `resolve`, the resolver's own
      state-machine calls, then one `persist` and one `flush`. */
  lemma SuccessTraceCounts(upsert: Effect, resolve: Effect, calls: seq<Effect>, shop: Shop)
    requires upsert.CreateShop? || upsert.SetUri?
    requires resolve.Resolve?
    requires forall i :: 0 <= i < |calls| ==> calls[i].StateMachineGet? || calls[i].StateMachineApply?
    ensures var t := [upsert, resolve] + calls + [Persist(shop), Flush];
            && Count(t, CreateKind) == (if upsert.CreateShop? then 1 else 0)
            && Count(t, SetUriKind) == (if upsert.SetUri? then 1 else 0)
            && Count(t, ResolveKind) == 1
            && Count(t, PersistKind) == 1
            && Count(t, FlushKind) == 1
  {
    var t := [upsert, resolve] + calls + [Persist(shop), Flush];
    assert t == [upsert] + [resolve] + calls + [Persist(shop)] + [Flush];
    forall k: EffectKind | k != GetKind && k != ApplyKind
      ensures Count(t, k) == Count([upsert], k) + Count([resolve], k) + Count([Persist(shop)], k) + Count([Flush], k)
    {
      CountConcat([upsert], [resolve], k);
      CountConcat([upsert] + [resolve], calls, k);
      CountAbsent(calls, k);
      CountConcat([upsert] + [resolve] + calls, [Persist(shop)], k);
      CountConcat([upsert] + [resolve] + calls + [Persist(shop)], [Flush], k);
    }
    forall k: EffectKind
      ensures Count([upsert], k) == (if KindOf(upsert) == k then 1 else 0)
      ensures Count([resolve], k) == (if KindOf(resolve) == k then 1 else 0)
      ensures Count([Persist(shop)], k) == (if k == PersistKind then 1 else 0)
      ensures Count([Flush], k) == (if k == FlushKind then 1 else 0)
    {
      CountSingle(upsert, k);
      CountSingle(resolve, k);
      CountSingle(Persist(shop), k);
      CountSingle(Flush, k);
    }
  }

  /** A resolver completes exactly when it handles the message's class, and otherwise throws
      the `InvalidArgumentException` naming that class; the only calls recorded go to the
      state machine. */
  lemma ResolverCallsShape(resolver: Resolver, message: Message)
    ensures ResolverCalls(resolver, message).Success? <==> Accepts(resolver, message.messageClass)
    ensures ResolverCalls(resolver, message).Failure? ==>
              ResolverCalls(resolver, message).error == NotAnInstanceOf(message.messageClass)
    ensures ResolverCalls(resolver, message).Success? ==>
              var calls := ResolverCalls(resolver, message).value;
              forall i :: 0 <= i < |calls| ==> calls[i].StateMachineGet? || calls[i].StateMachineApply?
  {
  }

  /** For a request that passes every check, the dispatch is the run from the upsert on. */
  lemma AcceptedRun(cfg: Config, shops: map<ShopKey, Shop>, request: ServerRequest)
    requires Accepted(cfg, request)
    ensures DispatchSpec(cfg, shops, request) ==
              UpsertAndResolve(cfg, shops, request, AcceptedApplication(cfg, request), AcceptedUri(cfg, request))
  {
    assert DispatchSpec(cfg, shops, request) == HandleVerified(cfg, shops, request, AcceptedApplication(cfg, request));
  }

  /** A resolver is registered for the action, and it accepts the action's message. */
  predicate Resolvable(cfg: Config, action: string) {
    && action in Actions && action in cfg.resolvers
    && Accepts(cfg.resolvers[action], MapActionToClass(action).value)
  }

  /** After the upsert, the dispatch completes exactly when the action is resolvable, and
      then it resolves, runs the resolver's calls, files the shop, persists and flushes. */
  lemma AfterUpsertCompletes(cfg: Config, shops: map<ShopKey, Shop>, request: ServerRequest,
                             application: Application, key: ShopKey, shop: Shop)
    requires MissingParameter(request.parsedBody) == None
    ensures var run := AfterUpsert(cfg, shops, request, application, key, shop);
            run.outcome == Dispatched <==> Resolvable(cfg, request.parsedBody["action"])
    ensures var run := AfterUpsert(cfg, shops, request, application, key, shop);
            var p := request.parsedBody;
            run.outcome == Dispatched ==>
              var resolver := cfg.resolvers[p["action"]];
              var message := GetPayload(application, shop, p);
              && ResolverCalls(resolver, message).Success?
              && run == Run(Dispatched, shops[key := shop],
                            [Resolve(resolver, message)] + ResolverCalls(resolver, message).value + [Persist(shop), Flush])
    ensures var run := AfterUpsert(cfg, shops, request, application, key, shop);
            run.shops == shops || run.shops == shops[key := shop]
  {
    var p := request.parsedBody;
    if GetResolver(cfg.resolvers, p["action"]).Success? {
      var resolver := cfg.resolvers[p["action"]];
      var message := GetPayload(application, shop, p);
      ResolverCallsShape(resolver, message);
      assert message.messageClass == MapActionToClass(p["action"]).value;
    }
  }

  /** A dispatch completes exactly when every check passes, a resolver is registered for the
      action and that resolver accepts the message. */
  lemma DispatchedIff(cfg: Config, shops: map<ShopKey, Shop>, request: ServerRequest)
    ensures DispatchSpec(cfg, shops, request).outcome == Dispatched <==>
              Accepted(cfg, request) && Resolvable(cfg, request.parsedBody["action"])
  {
    if Accepted(cfg, request) {
      AcceptedRun(cfg, shops, request);
      var key := AcceptedKey(cfg, request);
      var shop := UpsertedShop(shops, key, AcceptedApplication(cfg, request), AcceptedUri(cfg, request));
      AfterUpsertCompletes(cfg, UpsertedShops(shops, key, shop), request, AcceptedApplication(cfg, request), key, shop);
    } else {
      FailedChecksHaveNoEffects(cfg, shops, request);
    }
  }

  /** The shop a completed dispatch leaves under its key. */
  ghost function DispatchedShop(cfg: Config, shops: map<ShopKey, Shop>, request: ServerRequest): Shop
    requires Accepted(cfg, request)
  {
    UpsertedShop(shops, AcceptedKey(cfg, request), AcceptedApplication(cfg, request), AcceptedUri(cfg, request))
  }

  /** The payload a completed dispatch hands to its resolver. */
  ghost function DispatchedMessage(cfg: Config, shops: map<ShopKey, Shop>, request: ServerRequest): Message
    requires Accepted(cfg, request) && request.parsedBody["action"] in Actions
  {
    GetPayload(AcceptedApplication(cfg, request), DispatchedShop(cfg, shops, request), request.parsedBody)
  }

  /** A completed dispatch, call by call. */
  lemma DispatchedRun(cfg: Config, shops: map<ShopKey, Shop>, request: ServerRequest)
    requires DispatchSpec(cfg, shops, request).outcome == Dispatched
    ensures Accepted(cfg, request) && Resolvable(cfg, request.parsedBody["action"])
    ensures var key := AcceptedKey(cfg, request);
            var shop := DispatchedShop(cfg, shops, request);
            var resolver := cfg.resolvers[request.parsedBody["action"]];
            var message := DispatchedMessage(cfg, shops, request);
            && ResolverCalls(resolver, message).Success?
            && DispatchSpec(cfg, shops, request) ==
                 Run(Dispatched, shops[key := shop],
                     [UpsertCall(shops, key, AcceptedApplication(cfg, request), AcceptedUri(cfg, request)),
                      Resolve(resolver, message)]
                     + ResolverCalls(resolver, message).value + [Persist(shop), Flush])
  {
    DispatchedIff(cfg, shops, request);
    AcceptedRun(cfg, shops, request);
    var p := request.parsedBody;
    var application := AcceptedApplication(cfg, request);
    var key := AcceptedKey(cfg, request);
    var shop := DispatchedShop(cfg, shops, request);
    var upserted := UpsertedShops(shops, key, shop);
    var resolver := cfg.resolvers[p["action"]];
    var message := DispatchedMessage(cfg, shops, request);
    var upsert := UpsertCall(shops, key, application, AcceptedUri(cfg, request));
    var rest := AfterUpsert(cfg, upserted, request, application, key, shop);
    AfterUpsertCompletes(cfg, upserted, request, application, key, shop);
    var calls := ResolverCalls(resolver, message).value;
    assert rest == Run(Dispatched, upserted[key := shop], [Resolve(resolver, message)] + calls + [Persist(shop), Flush]);
    assert DispatchSpec(cfg, shops, request) == Run(rest.outcome, rest.shops, [upsert] + rest.effects);
    Reassociate(upsert, Resolve(resolver, message), calls, [Persist(shop), Flush]);
    assert upserted[key := shop] == shops[key := shop];
  }

  /** Sequence concatenation, regrouped: a hint for the solver. */
  lemma Reassociate(a: Effect, b: Effect, c: seq<Effect>, d: seq<Effect>)
    ensures [a] + ([b] + c + d) == [a, b] + c + d
  {
  }

  /** A completed dispatch leaves one shop under (shop name, application): the one found,
      with the new URI and otherwise unchanged, or a new one for the application and the URI.
      Every other shop is left alone. */
  lemma DispatchedShops(cfg: Config, shops: map<ShopKey, Shop>, request: ServerRequest)
    requires DispatchSpec(cfg, shops, request).outcome == Dispatched
    ensures Accepted(cfg, request)
    ensures var run := DispatchSpec(cfg, shops, request);
            var key := AcceptedKey(cfg, request);
            var uri := AcceptedUri(cfg, request);
            && run.shops.Keys == shops.Keys + {key}
            && (key in shops ==> run.shops[key] == shops[key].(uri := uri))
            && (key !in shops ==> run.shops[key] == NewShop(AcceptedApplication(cfg, request), uri))
            && (forall k :: k in shops && k != key ==> run.shops[k] == shops[k])
  {
    DispatchedRun(cfg, shops, request);
  }

  /** A completed dispatch makes one create or one `setUri`, exactly one `resolve`, on the
      parameters minus the protocol ones and the shop it leaves, and one `persist` of that
      shop and one `flush`, last. */
  lemma DispatchedCalls(cfg: Config, shops: map<ShopKey, Shop>, request: ServerRequest)
    requires DispatchSpec(cfg, shops, request).outcome == Dispatched
    ensures Accepted(cfg, request)
    ensures var run := DispatchSpec(cfg, shops, request);
            var p := request.parsedBody;
            var key := AcceptedKey(cfg, request);
            var t := run.effects;
            && Count(t, CreateKind) == (if key in shops then 0 else 1)
            && Count(t, SetUriKind) == (if key in shops then 1 else 0)
            && Count(t, ResolveKind) == 1
            && Count(t, PersistKind) == 1
            && Count(t, FlushKind) == 1
            && |t| >= 4
            && t[1].Resolve? && t[1].resolver == cfg.resolvers[p["action"]]
            && t[1].message.shop == DispatchedShop(cfg, shops, request)
            && t[1].message.params.Keys == p.Keys - ProtocolParams
            && (forall k :: k in t[1].message.params ==> t[1].message.params[k] == p[k])
            && t[|t| - 2] == Persist(DispatchedShop(cfg, shops, request))
            && t[|t| - 1] == Flush
  {
    DispatchedRun(cfg, shops, request);
    var key := AcceptedKey(cfg, request);
    var resolver := cfg.resolvers[request.parsedBody["action"]];
    var message := DispatchedMessage(cfg, shops, request);
    ResolverCallsShape(resolver, message);
    SuccessTraceCounts(UpsertCall(shops, key, AcceptedApplication(cfg, request), AcceptedUri(cfg, request)),
                       Resolve(resolver, message), ResolverCalls(resolver, message).value,
                       DispatchedShop(cfg, shops, request));
  }

  /** When the registry turns the action away, the shop's URI has already been overwritten but
      nothing is resolved, persisted or flushed. An action outside the action map escapes as
      the registry's own `InvalidArgumentException`; a known action with no resolver becomes
      `forNotSupportedAction`, chained to the registry's exception. */
  lemma UnsupportedActionSkipsPersistence(cfg: Config, shops: map<ShopKey, Shop>, request: ServerRequest)
    requires Accepted(cfg, request)
    requires GetResolver(cfg.resolvers, request.parsedBody["action"]).Failure?
    ensures var run := DispatchSpec(cfg, shops, request);
            var key := AcceptedKey(cfg, request);
            var uri := AcceptedUri(cfg, request);
            && run.shops.Keys == shops.Keys
            && (key in shops ==> run.shops == shops[key := shops[key].(uri := uri)])
            && (key !in shops ==> run.shops == shops)
            && run.effects == [UpsertCall(shops, key, AcceptedApplication(cfg, request), uri)]
            && Count(run.effects, ResolveKind) == 0
            && Count(run.effects, PersistKind) == 0
            && Count(run.effects, FlushKind) == 0
    ensures var run := DispatchSpec(cfg, shops, request);
            var action := request.parsedBody["action"];
            action !in Actions ==> run.outcome == Failed(ActionNotSupported(NotSupportedMessage(action)))
    ensures var run := DispatchSpec(cfg, shops, request);
            var action := request.parsedBody["action"];
            action in Actions ==>
              run.outcome == Failed(Unable(ForNotSupportedAction(request, Some(NonExistingServiceException(action)))))
  {
    AcceptedRun(cfg, shops, request);
    var upsert := UpsertCall(shops, AcceptedKey(cfg, request), AcceptedApplication(cfg, request), AcceptedUri(cfg, request));
    CountSingle(upsert, ResolveKind);
    CountSingle(upsert, PersistKind);
    CountSingle(upsert, FlushKind);
  }

  /** An upsert followed by `resolve` neither persists nor flushes. */
  lemma UpsertThenResolveSavesNothing(t: seq<Effect>)
    requires |t| == 2 && (t[0].CreateShop? || t[0].SetUri?) && t[1].Resolve?
    ensures Count(t, PersistKind) == 0 && Count(t, FlushKind) == 0
  {
    CountAbsent(t, PersistKind);
    CountAbsent(t, FlushKind);
  }

  /** A resolver that does not handle the class of the action's message throws after the
      `resolve` call: the shop is neither persisted nor flushed. */
  lemma ResolverErrorSkipsPersistence(cfg: Config, shops: map<ShopKey, Shop>, request: ServerRequest)
    requires Accepted(cfg, request)
    requires var action := request.parsedBody["action"];
             action in Actions && action in cfg.resolvers
             && !Accepts(cfg.resolvers[action], MapActionToClass(action).value)
    ensures var run := DispatchSpec(cfg, shops, request);
            var action := request.parsedBody["action"];
            && run.outcome == Failed(ResolverFailed(NotAnInstanceOf(MapActionToClass(action).value)))
            && run.effects ==
                 [ UpsertCall(shops, AcceptedKey(cfg, request), AcceptedApplication(cfg, request), AcceptedUri(cfg, request)),
                   Resolve(cfg.resolvers[action], DispatchedMessage(cfg, shops, request)) ]
            && Count(run.effects, PersistKind) == 0 && Count(run.effects, FlushKind) == 0
  {
    AcceptedRun(cfg, shops, request);
    var message := DispatchedMessage(cfg, shops, request);
    assert message.messageClass == MapActionToClass(request.parsedBody["action"]).value;
    ResolverCallsShape(cfg.resolvers[request.parsedBody["action"]], message);
    UpsertThenResolveSavesNothing(DispatchSpec(cfg, shops, request).effects);
  }

  /** A billing install handed to the billing-install resolver completes with exactly these
      calls: the upsert, `resolve`, the state machine's `get` for the shop and `apply` of the
      pay transition, `persist`, `flush`. */
  lemma BillingInstallDispatchPays(cfg: Config, shops: map<ShopKey, Shop>, request: ServerRequest)
    requires Accepted(cfg, request)
    requires request.parsedBody["action"] == ActionBillingInstall
    requires ActionBillingInstall in cfg.resolvers && cfg.resolvers[ActionBillingInstall] == BillingInstallResolver
    ensures var run := DispatchSpec(cfg, shops, request);
            var shop := DispatchedShop(cfg, shops, request);
            && run.outcome == Dispatched
            && run.effects ==
                 [ UpsertCall(shops, AcceptedKey(cfg, request), AcceptedApplication(cfg, request), AcceptedUri(cfg, request)),
                   Resolve(BillingInstallResolver, DispatchedMessage(cfg, shops, request)),
                   StateMachineGet(shop, ShopBillingGraph),
                   StateMachineApply(TransitionPay),
                   Persist(shop),
                   Flush ]
  {
    DispatchedIff(cfg, shops, request);
    DispatchedRun(cfg, shops, request);
  }

  /** Dispatching twice for the same shop name and application leaves a single shop under
      that key, with the second request's URI; the second dispatch creates no shop. */
  lemma RepeatedDispatchKeepsOneShop(cfg: Config, shops: map<ShopKey, Shop>, first: ServerRequest, second: ServerRequest)
    requires DispatchSpec(cfg, shops, first).outcome == Dispatched
    requires Accepted(cfg, second) && AcceptedKey(cfg, second) == AcceptedKey(cfg, first)
    requires DispatchSpec(cfg, DispatchSpec(cfg, shops, first).shops, second).outcome == Dispatched
    ensures var after := DispatchSpec(cfg, DispatchSpec(cfg, shops, first).shops, second);
            var key := AcceptedKey(cfg, first);
            && after.shops.Keys == shops.Keys + {key}
            && after.shops[key].uri == AcceptedUri(cfg, second)
            && Count(after.effects, CreateKind) == 0
            && Count(after.effects, SetUriKind) == 1
  {
    var between := DispatchSpec(cfg, shops, first).shops;
    DispatchedShops(cfg, shops, first);
    DispatchedShops(cfg, between, second);
    DispatchedCalls(cfg, between, second);
  }

  /** A dispatch changes at most the entry under the request's (shop name, application) key,
      and only by filing the upserted shop there. */
  lemma DispatchTouchesOneKey(cfg: Config, shops: map<ShopKey, Shop>, request: ServerRequest)
    ensures var run := DispatchSpec(cfg, shops, request);
            || run.shops == shops
            || (Accepted(cfg, request) &&
                run.shops == shops[AcceptedKey(cfg, request) := DispatchedShop(cfg, shops, request)])
  {
    if Accepted(cfg, request) {
      AcceptedRun(cfg, shops, request);
      var key := AcceptedKey(cfg, request);
      var shop := DispatchedShop(cfg, shops, request);
      var upserted := UpsertedShops(shops, key, shop);
      AfterUpsertCompletes(cfg, upserted, request, AcceptedApplication(cfg, request), key, shop);
      assert upserted == shops || upserted == shops[key := shop];
      assert upserted[key := shop] == shops[key := shop];
    } else {
      FailedChecksHaveNoEffects(cfg, shops, request);
    }
  }

  lemma FilingKeepsKeyed(shops: map<ShopKey, Shop>, key: ShopKey, shop: Shop)
    requires Keyed(shops) && shop.application.code == key.application
    ensures Keyed(shops[key := shop])
  {
  }

  /** A dispatch keeps every shop filed under its own application. */
  lemma DispatchKeepsShopsKeyed(cfg: Config, shops: map<ShopKey, Shop>, request: ServerRequest)
    requires Keyed(shops)
    ensures Keyed(DispatchSpec(cfg, shops, request).shops)
  {
    DispatchTouchesOneKey(cfg, shops, request);
    if Accepted(cfg, request) {
      var key := AcceptedKey(cfg, request);
      assert DispatchedShop(cfg, shops, request).application.code == key.application;
      FilingKeepsKeyed(shops, key, DispatchedShop(cfg, shops, request));
    }
  }
}
