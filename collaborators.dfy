/** The collaborators the dispatcher and its resolvers call into, seen through the calls
    they receive: the shop factory, the shops themselves, the resolvers, the billing state
    machine and the object manager. */
module Collaborators {
  import opened Entities
  import opened Payload

  /** `ShopBillingTransitions::GRAPH` and `ShopBillingTransitions::TRANSITION_PAY`. */
  datatype Graph = ShopBillingGraph
  datatype Transition = TransitionPay

  /** A message resolver registered with the dispatcher: the billing-install resolver of
      this model, or another resolver. Another resolver is taken to check its message's class
      as the billing-install one does, accepting the classes in `accepted`; its other
      behaviour is outside the model. */
  datatype Resolver = BillingInstallResolver | OtherResolver(name: string, accepted: set<MessageClass>)

  /** What `Assert::isInstanceOf` throws (an `InvalidArgumentException`) for a message of a
      class the resolver does not handle. */
  datatype InvalidArgument = NotAnInstanceOf(given: MessageClass)

  /** One call into a collaborator. */
  datatype Effect =
    | CreateShop(application: Application, uri: Uri)   // ShopFactory::createNewByApplicationAndUri
    | SetUri(key: ShopKey, uri: Uri)                    // Shop::setUri on the shop found under key
    | Resolve(resolver: Resolver, message: Message)     // MessageResolver::resolve
    | StateMachineGet(shop: Shop, graph: Graph)         // SM factory get
    | StateMachineApply(transition: Transition)         // StateMachine::apply
    | Persist(shop: Shop)                               // ObjectManager::persist
    | Flush                                             // ObjectManager::flush

  /** The kind of a call, for counting. */
  datatype EffectKind = CreateKind | SetUriKind | ResolveKind | GetKind | ApplyKind | PersistKind | FlushKind

  function KindOf(e: Effect): EffectKind {
    match e
    case CreateShop(_, _) => CreateKind
    case SetUri(_, _) => SetUriKind
    case Resolve(_, _) => ResolveKind
    case StateMachineGet(_, _) => GetKind
    case StateMachineApply(_) => ApplyKind
    case Persist(_) => PersistKind
    case Flush => FlushKind
  }

  /** How many calls of kind `k` a trace holds. */
  function Count(es: seq<Effect>, k: EffectKind): nat
    decreases |es|
  {
    if es == [] then 0
    else Count(es[..|es| - 1], k) + (if KindOf(es[|es| - 1]) == k then 1 else 0)
  }

  lemma {:induction false} CountConcat(a: seq<Effect>, b: seq<Effect>, k: EffectKind)
    ensures Count(a + b, k) == Count(a, k) + Count(b, k)
    decreases |b|
  {
    if b != [] {
      assert (a + b)[..|a + b| - 1] == a + b[..|b| - 1];
      CountConcat(a, b[..|b| - 1], k);
    } else {
      assert a + b == a;
    }
  }

  lemma CountSingle(e: Effect, k: EffectKind)
    ensures Count([e], k) == if KindOf(e) == k then 1 else 0
  {
    assert [e][..0] == [];
  }

  /** A trace with no call of kind `k` counts none. */
  lemma {:induction false} CountAbsent(es: seq<Effect>, k: EffectKind)
    requires forall i :: 0 <= i < |es| ==> KindOf(es[i]) != k
    ensures Count(es, k) == 0
    decreases |es|
  {
    if es != [] {
      CountAbsent(es[..|es| - 1], k);
    }
  }

  /** The record of every call the collaborators have received, oldest first. */
  class CallLog {
    var effects: seq<Effect>

    constructor ()
      ensures effects == []
    {
      effects := [];
    }

    method Record(e: Effect)
      modifies this
      ensures effects == old(effects) + [e]
    {
      effects := effects + [e];
    }
  }
}
