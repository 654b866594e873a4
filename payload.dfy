/** Webhook actions and the typed messages (`Billing\Payload\*`) built for them. */
module Payload {
  import opened Wrappers
  import opened Entities

  const ActionBillingInstall: string := "billing_install"
  const ActionBillingSubscription: string := "billing_subscription"
  const ActionInstall: string := "install"
  const ActionUninstall: string := "uninstall"
  const ActionUpgrade: string := "upgrade"

  /** The keys of `Dispatcher::$mapActionToClass`: the only actions the dispatcher knows. */
  const Actions: set<string> :=
    {ActionBillingInstall, ActionBillingSubscription, ActionInstall, ActionUninstall, ActionUpgrade}

  /** The payload classes `Payload\BillingInstall`, ..., `Payload\Upgrade`. */
  datatype MessageClass = BillingInstall | BillingSubscription | Install | Uninstall | Upgrade

  /** A payload message: the application, the shop and the remaining request parameters. */
  datatype Message = Message(messageClass: MessageClass, application: Application, shop: Shop,
                             params: map<string, string>)

  /** `$mapActionToClass[$action]`, or null for an action outside the map. */
  function MapActionToClass(action: string): (c: Option<MessageClass>)
    ensures c.Some? <==> action in Actions
    ensures action == ActionBillingInstall ==> c == Some(BillingInstall)
    ensures action == ActionBillingSubscription ==> c == Some(BillingSubscription)
    ensures action == ActionInstall ==> c == Some(Install)
    ensures action == ActionUninstall ==> c == Some(Uninstall)
    ensures action == ActionUpgrade ==> c == Some(Upgrade)
  {
    if action == ActionBillingInstall then Some(BillingInstall)
    else if action == ActionBillingSubscription then Some(BillingSubscription)
    else if action == ActionInstall then Some(Install)
    else if action == ActionUninstall then Some(Uninstall)
    else if action == ActionUpgrade then Some(Upgrade)
    else None
  }

  /** Each action has its own payload class. */
  lemma MapActionToClassInjective(a: string, b: string)
    requires a in Actions && b in Actions && a != b
    ensures MapActionToClass(a) != MapActionToClass(b)
  {
  }
}
