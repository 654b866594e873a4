/** `Billing\Resolver\BillingInstallResolver`: pays the shop's billing when its billing
    install message arrives. */
module BillingInstall {
  import opened Wrappers
  import opened Payload
  import opened Collaborators

  /** The calls `resolve` makes on the state machine for a message, or the error it throws
      before making any. */
  function StateMachineCalls(message: Message): Result<seq<Effect>, InvalidArgument> {
    if message.messageClass != BillingInstall then Failure(NotAnInstanceOf(message.messageClass))
    else Success([StateMachineGet(message.shop, ShopBillingGraph), StateMachineApply(TransitionPay)])
  }

  /** `resolve`: checks the message type, asks the factory for the shop's billing state
      machine and applies the pay transition to it. */
  method Resolve(message: Message, log: CallLog) returns (r: Result<(), InvalidArgument>)
    modifies log
    ensures StateMachineCalls(message).Failure? ==>
              r == Failure(StateMachineCalls(message).error) && log.effects == old(log.effects)
    ensures StateMachineCalls(message).Success? ==>
              r.Success? && log.effects == old(log.effects) + StateMachineCalls(message).value
  {
    if message.messageClass != BillingInstall {
      return Failure(NotAnInstanceOf(message.messageClass));
    }
    log.Record(StateMachineGet(message.shop, ShopBillingGraph));
    log.Record(StateMachineApply(TransitionPay));
    r := Success(());
  }

  /** What the resolver's test pins down: a message of another class is rejected with no
      call at all; a billing install makes exactly one `get`, for the message's shop and the
      billing graph, then exactly one `apply`, of the pay transition, and nothing else. */
  lemma ResolveCallsPinned(message: Message)
    ensures StateMachineCalls(message).Failure? <==> message.messageClass != BillingInstall
    ensures StateMachineCalls(message).Success? ==>
              var calls := StateMachineCalls(message).value;
              && |calls| == Count(calls, GetKind) + Count(calls, ApplyKind)
              && Count(calls, GetKind) == 1 && Count(calls, ApplyKind) == 1
              && calls[0] == StateMachineGet(message.shop, ShopBillingGraph)
              && calls[|calls| - 1] == StateMachineApply(TransitionPay)
  {
    var calls := [StateMachineGet(message.shop, ShopBillingGraph), StateMachineApply(TransitionPay)];
    assert calls == [calls[0]] + [calls[1]];
    forall k: EffectKind ensures Count(calls, k) == Count([calls[0]], k) + Count([calls[1]], k) {
      CountConcat([calls[0]], [calls[1]], k);
    }
    CountSingle(calls[0], GetKind);
    CountSingle(calls[0], ApplyKind);
    CountSingle(calls[1], GetKind);
    CountSingle(calls[1], ApplyKind);
    assert Count(calls, GetKind) == 1 && Count(calls, ApplyKind) == 1;
  }
}
