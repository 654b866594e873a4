/** `Billing\Dispatcher`: receives a marketplace webhook, checks it, creates or updates the
    shop it concerns, hands a typed message to the action's resolver and saves the shop. */
module Dispatching {
  import opened Wrappers
  import opened Entities
  import opened PhpArrays
  import opened Signature
  import opened Payload
  import opened Requirements
  import opened UnableDispatchException
  import opened Collaborators
  import BillingInstall

  /** What the resolver registry's `get` throws: the `InvalidArgumentException` of the
      overridden `has`, or the registry's own `NonExistingServiceException`. */
  datatype LookupError = ActionNotWhitelisted(message: string) | NonExistingService(identifier: string)

  /** The message of the `InvalidArgumentException` thrown by `has`. */
  function NotSupportedMessage(identifier: string): string {
    "Action \"" + identifier + "\" is not supported"
  }

  /** `has`: throws for an identifier outside the action map, otherwise answers whether a
      resolver is registered under it. */
  function Has(resolvers: map<string, Resolver>, identifier: string): (r: Result<bool, string>)
    ensures r.Failure? <==> identifier !in Actions
    ensures r.Failure? ==> r.error == NotSupportedMessage(identifier)
    ensures r.Success? ==> (r.value <==> identifier in resolvers)
  {
    if identifier !in Actions then Failure(NotSupportedMessage(identifier))
    else Success(identifier in resolvers)
  }

  /** The registry's `get`, which asks `has` first. */
  function GetResolver(resolvers: map<string, Resolver>, identifier: string): (r: Result<Resolver, LookupError>)
    ensures identifier !in Actions ==> r == Failure(ActionNotWhitelisted(NotSupportedMessage(identifier)))
    ensures identifier in Actions && identifier !in resolvers ==> r == Failure(NonExistingService(identifier))
    ensures r.Success? <==> identifier in Actions && identifier in resolvers
    ensures r.Success? ==> r.value == resolvers[identifier]
  {
    match Has(resolvers, identifier)
    case Failure(message) => Failure(ActionNotWhitelisted(message))
    case Success(registered) =>
      if registered then Success(resolvers[identifier]) else Failure(NonExistingService(identifier))
  }

  /** The protocol parameters `getPayload` strips before building the message. */
  const ProtocolParams: set<string> := {"action", "shop", "shop_url", "application_code"}

  /** `getPayload`: the action's message class, built from the application, the shop and
      the parameters without the protocol ones (`hash`, `timestamp` and the rest stay). */
  function GetPayload(application: Application, shop: Shop, params: map<string, string>): (m: Message)
    requires "action" in params && params["action"] in Actions
    ensures MapActionToClass(params["action"]) == Some(m.messageClass)
    ensures m.application == application && m.shop == shop
    ensures m.params.Keys == params.Keys - ProtocolParams
    ensures forall k :: k in m.params ==> m.params[k] == params[k]
  {
    Message(MapActionToClass(params["action"]).value, application, shop, params - ProtocolParams)
  }

  /** Why a dispatch did not complete: an `UnableDispatchException`, the unwrapped
      `InvalidArgumentException` of `has`, a shop URL the URI factory rejected, or the
      resolver's own exception. */
  datatype DispatchError =
    | Unable(exception: UnableDispatch)
    | ActionNotSupported(message: string)
    | InvalidUri(shopUrl: string)
    | ResolverFailed(error: InvalidArgument)

  datatype Outcome = Dispatched | Failed(error: DispatchError)

  /** The dispatcher's collaborators: the application registry by code, the resolvers by
      action, the HMAC and the URI factory. */
  datatype Config = Config(applications: map<string, Application>, resolvers: map<string, Resolver>,
                           mac: Mac, parseUri: string -> Option<Uri>)

  /** Every shop is filed under its own application, so a (name, application) pair has at
      most one shop. */
  ghost predicate Keyed(shops: map<ShopKey, Shop>) {
    forall k :: k in shops ==> shops[k].application.code == k.application
  }

  /** The result of one dispatch: its outcome, the shops afterwards, the calls it made. */
  datatype Run = Run(outcome: Outcome, shops: map<ShopKey, Shop>, effects: seq<Effect>)

  /** `ShopFactory::createNewByApplicationAndUri`. */
  function NewShop(application: Application, uri: Uri): Shop {
    Shop(application, uri, map[])
  }

  /** The shop after the upsert: the one found with its URI replaced, or a new one. */
  function UpsertedShop(shops: map<ShopKey, Shop>, key: ShopKey, application: Application, uri: Uri): Shop {
    if key in shops then shops[key].(uri := uri) else NewShop(application, uri)
  }

  /** The shop table after the upsert: only a shop that was found is updated in place; a new
      one is filed when it is persisted. */
  function UpsertedShops(shops: map<ShopKey, Shop>, key: ShopKey, shop: Shop): map<ShopKey, Shop> {
    if key in shops then shops[key := shop] else shops
  }

  /** The call the upsert makes: `setUri` on the shop found, or the factory's create. */
  function UpsertCall(shops: map<ShopKey, Shop>, key: ShopKey, application: Application, uri: Uri): Effect {
    if key in shops then SetUri(key, uri) else CreateShop(application, uri)
  }

  /** The message classes a resolver handles. */
  predicate Accepts(resolver: Resolver, messageClass: MessageClass) {
    match resolver
    case BillingInstallResolver => messageClass == BillingInstall
    case OtherResolver(_, accepted) => messageClass in accepted
  }

  /** The calls a resolver makes on its collaborators, or the error it throws. The calls of
      another resolver are not recorded. */
  function ResolverCalls(resolver: Resolver, message: Message): Result<seq<Effect>, InvalidArgument> {
    match resolver
    case BillingInstallResolver => BillingInstall.StateMachineCalls(message)
    case OtherResolver(_, accepted) =>
      if message.messageClass in accepted then Success([]) else Failure(NotAnInstanceOf(message.messageClass))
  }

  /** The request passed every check up to and including the signature, and its shop URL
      parses. */
  ghost predicate Accepted(cfg: Config, request: ServerRequest) {
    var p := request.parsedBody;
    && request.requestMethod == "POST"
    && MissingParameter(p) == None
    && p["application_code"] in cfg.applications
    && SignatureValid(p, cfg.applications[p["application_code"]].appstoreSecret, cfg.mac)
    && cfg.parseUri(p["shop_url"]).Some?
  }

  ghost function AcceptedApplication(cfg: Config, request: ServerRequest): Application
    requires Accepted(cfg, request)
  {
    cfg.applications[request.parsedBody["application_code"]]
  }

  ghost function AcceptedUri(cfg: Config, request: ServerRequest): Uri
    requires Accepted(cfg, request)
  {
    cfg.parseUri(request.parsedBody["shop_url"]).value
  }

  ghost function AcceptedKey(cfg: Config, request: ServerRequest): ShopKey
    requires Accepted(cfg, request)
  {
    ShopKey(request.parsedBody["shop"], AcceptedApplication(cfg, request).code)
  }

  /** What `dispatch` does, step by step: method, requirements, application, signature;
      then shop URI, shop upsert, resolver lookup, payload, resolve, persist and flush. */
  ghost function DispatchSpec(cfg: Config, shops: map<ShopKey, Shop>, request: ServerRequest): Run {
    var params := request.parsedBody;
    if request.requestMethod != "POST" then
      Run(Failed(Unable(ForInvalidRequestMethod(request, None))), shops, [])
    else if MissingParameter(params).Some? then
      Run(Failed(Unable(ForUnfulfilledRequirements(request, Some(NotDefinedException(MissingParameter(params).value))))),
          shops, [])
    else if params["application_code"] !in cfg.applications then
      Run(Failed(Unable(ForNotExistApplication(request, Some(NonExistingServiceException(params["application_code"]))))),
          shops, [])
    else
      var application := cfg.applications[params["application_code"]];
      if !SignatureValid(params, application.appstoreSecret, cfg.mac) then
        Run(Failed(Unable(ForInvalidPayloadHash(request, application, None))), shops, [])
      else
        HandleVerified(cfg, shops, request, application)
  }

  /** The steps of `dispatch` after the signature check. */
  ghost function HandleVerified(cfg: Config, shops: map<ShopKey, Shop>, request: ServerRequest,
                                application: Application): Run
    requires MissingParameter(request.parsedBody) == None
  {
    var params := request.parsedBody;
    match cfg.parseUri(params["shop_url"])
    case None => Run(Failed(InvalidUri(params["shop_url"])), shops, [])
    case Some(shopUri) => UpsertAndResolve(cfg, shops, request, application, shopUri)
  }

  /** The steps of `dispatch` from the shop upsert on, once the shop URL has parsed. */
  ghost function UpsertAndResolve(cfg: Config, shops: map<ShopKey, Shop>, request: ServerRequest,
                                  application: Application, shopUri: Uri): Run
    requires MissingParameter(request.parsedBody) == None
  {
    var key := ShopKey(request.parsedBody["shop"], application.code);
    var shop := UpsertedShop(shops, key, application, shopUri);
    var rest := AfterUpsert(cfg, UpsertedShops(shops, key, shop), request, application, key, shop);
    Run(rest.outcome, rest.shops, [UpsertCall(shops, key, application, shopUri)] + rest.effects)
  }

  /** The steps of `dispatch` after the upsert of `shop`: resolver lookup, payload, resolve,
      then filing the shop under `key`, persist and flush. */
  ghost function AfterUpsert(cfg: Config, shops: map<ShopKey, Shop>, request: ServerRequest,
                             application: Application, key: ShopKey, shop: Shop): Run
    requires MissingParameter(request.parsedBody) == None
  {
    var params := request.parsedBody;
    match GetResolver(cfg.resolvers, params["action"])
    case Failure(ActionNotWhitelisted(m)) => Run(Failed(ActionNotSupported(m)), shops, [])
    case Failure(NonExistingService(id)) =>
      Run(Failed(Unable(ForNotSupportedAction(request, Some(NonExistingServiceException(id))))), shops, [])
    case Success(resolver) =>
      var message := GetPayload(application, shop, params);
      match ResolverCalls(resolver, message)
      case Failure(err) => Run(Failed(ResolverFailed(err)), shops, [Resolve(resolver, message)])
      case Success(calls) =>
        Run(Dispatched, shops[key := shop], [Resolve(resolver, message)] + calls + [Persist(shop), Flush])
  }

  class Dispatcher {
    const config: Config
    /** The object manager's event log: every call this dispatcher makes on a collaborator. */
    const log: CallLog
    /** The shop repository, by (shop name, application code). */
    var shops: map<ShopKey, Shop>

    ghost predicate Valid()
      reads this
    {
      Keyed(shops)
    }

    constructor (config: Config, log: CallLog, shops: map<ShopKey, Shop>)
      requires Keyed(shops)
      ensures Valid()
      ensures this.config == config && this.log == log && this.shops == shops
    {
      this.config := config;
      this.log := log;
      this.shops := shops;
    }

    /** `dispatch`. */
    method Dispatch(serverRequest: ServerRequest) returns (outcome: Outcome)
      requires Valid()
      modifies this, log
      ensures Valid()
      ensures var run := DispatchSpec(config, old(shops), serverRequest);
              && outcome == run.outcome
              && shops == run.shops
              && log.effects == old(log.effects) + run.effects
    {
      if serverRequest.requestMethod != "POST" {
        return Failed(Unable(ForInvalidRequestMethod(serverRequest, None)));
      }
      var params := serverRequest.parsedBody;
      var missing := VerifyRequirements(params);
      if missing.Some? {
        return Failed(Unable(ForUnfulfilledRequirements(serverRequest, Some(NotDefinedException(missing.value)))));
      }
      var code := params["application_code"];
      if code !in config.applications {
        return Failed(Unable(ForNotExistApplication(serverRequest, Some(NonExistingServiceException(code)))));
      }
      var application := config.applications[code];
      var verified := VerifyPayload(params, application.appstoreSecret, config.mac);
      if !verified {
        return Failed(Unable(ForInvalidPayloadHash(serverRequest, application, None)));
      }
      outcome := HandleSigned(serverRequest, application);
    }

    /** The steps of `dispatch` after the signature check. */
    method HandleSigned(serverRequest: ServerRequest, application: Application) returns (outcome: Outcome)
      requires Valid() && MissingParameter(serverRequest.parsedBody) == None
      modifies this, log
      ensures Valid()
      ensures var run := HandleVerified(config, old(shops), serverRequest, application);
              && outcome == run.outcome
              && shops == run.shops
              && log.effects == old(log.effects) + run.effects
    {
      var params := serverRequest.parsedBody;
      var parsed := config.parseUri(params["shop_url"]);
      if parsed.None? {
        return Failed(InvalidUri(params["shop_url"]));
      }
      outcome := UpsertAndLookup(serverRequest, application, parsed.value);
    }

    /** Upserts the shop, then looks the resolver up and runs it. */
    method UpsertAndLookup(serverRequest: ServerRequest, application: Application, shopUri: Uri)
      returns (outcome: Outcome)
      requires Valid() && MissingParameter(serverRequest.parsedBody) == None
      modifies this, log
      ensures Valid()
      ensures var run := UpsertAndResolve(config, old(shops), serverRequest, application, shopUri);
              && outcome == run.outcome
              && shops == run.shops
              && log.effects == old(log.effects) + run.effects
    {
      var key := ShopKey(serverRequest.parsedBody["shop"], application.code);
      var shop := Upsert(key, application, shopUri);
      ghost var upserted := log.effects;
      outcome := LookupAndSave(serverRequest, application, key, shop);
      ghost var rest := AfterUpsert(config, UpsertedShops(old(shops), key, shop), serverRequest, application, key, shop);
      assert log.effects == upserted + rest.effects;
      assert upserted + rest.effects == old(log.effects) + ([UpsertCall(old(shops), key, application, shopUri)] + rest.effects);
    }

    /** The steps after the upsert: resolver lookup, payload, resolve, persist and flush. */
    method LookupAndSave(serverRequest: ServerRequest, application: Application, key: ShopKey, shop: Shop)
      returns (outcome: Outcome)
      requires Valid() && MissingParameter(serverRequest.parsedBody) == None
      requires shop.application.code == key.application
      modifies this, log
      ensures Valid()
      ensures var run := AfterUpsert(config, old(shops), serverRequest, application, key, shop);
              && outcome == run.outcome
              && shops == run.shops
              && log.effects == old(log.effects) + run.effects
    {
      var params := serverRequest.parsedBody;
      var found := GetResolver(config.resolvers, params["action"]);
      if found.Failure? {
        match found.error
        case ActionNotWhitelisted(m) =>
          return Failed(ActionNotSupported(m));
        case NonExistingService(id) =>
          return Failed(Unable(ForNotSupportedAction(serverRequest, Some(NonExistingServiceException(id)))));
      }
      var resolver := found.value;
      var message := GetPayload(application, shop, params);
      outcome := ResolveAndSave(key, shop, resolver, message);
    }

    /** Hands the message to the resolver; when it returns, files the shop under `key`,
        then persists and flushes it. */
    method ResolveAndSave(key: ShopKey, shop: Shop, resolver: Resolver, message: Message) returns (outcome: Outcome)
      requires Valid() && shop.application.code == key.application
      modifies this, log
      ensures Valid()
      ensures match ResolverCalls(resolver, message)
              case Failure(err) =>
                && outcome == Failed(ResolverFailed(err))
                && shops == old(shops)
                && log.effects == old(log.effects) + [Resolve(resolver, message)]
              case Success(calls) =>
                && outcome == Dispatched
                && shops == old(shops)[key := shop]
                && log.effects == old(log.effects) + [Resolve(resolver, message)] + calls + [Persist(shop), Flush]
    {
      log.Record(Resolve(resolver, message));
      if resolver == BillingInstallResolver {
        var resolved := BillingInstall.Resolve(message, log);
        if resolved.Failure? {
          return Failed(ResolverFailed(resolved.error));
        }
      } else if message.messageClass !in resolver.accepted {
        return Failed(ResolverFailed(NotAnInstanceOf(message.messageClass)));
      }
      shops := shops[key := shop];
      log.Record(Persist(shop));
      log.Record(Flush);
      outcome := Dispatched;
    }

    /** Finds the shop by name and application: a new shop bound to the application and the
        URI when there is none, otherwise the shop found, whose URI is overwritten at once. */
    method Upsert(key: ShopKey, application: Application, shopUri: Uri) returns (shop: Shop)
      requires Valid() && key.application == application.code
      modifies this, log
      ensures Valid() && shop.application.code == key.application
      ensures shop == UpsertedShop(old(shops), key, application, shopUri)
      ensures shops == UpsertedShops(old(shops), key, shop)
      ensures log.effects == old(log.effects) + [UpsertCall(old(shops), key, application, shopUri)]
    {
      if key !in shops {
        shop := NewShop(application, shopUri);
        log.Record(CreateShop(application, shopUri));
      } else {
        shop := shops[key].(uri := shopUri);
        shops := shops[key := shop];
        log.Record(SetUri(key, shopUri));
      }
    }
  }
}
