/** The required-parameter check of `Dispatcher::verifyRequirements`. */
module Requirements {
  import opened Wrappers
  import opened PhpArrays
  import opened Payload

  /** The parameters every webhook must carry, in the order they are checked. */
  const BaseRequired: seq<string> := ["action", "shop", "shop_url", "hash", "timestamp", "application_code"]

  /** The parameters an action adds after the base ones. */
  function ExtraRequired(action: string): seq<string> {
    if action == ActionBillingSubscription then ["subscription_end_time"]
    else if action == ActionInstall then ["application_version", "auth_code"]
    else if action == ActionUpgrade then ["application_version"]
    else []
  }

  /** The list `$requiredParams` once the switch on the action has run. */
  function RequiredParams(action: string): seq<string> {
    BaseRequired + ExtraRequired(action)
  }

  /** The list the check walks, or just the base list when there is no usable action. */
  function RequiredFor(params: map<string, string>): seq<string> {
    if Filled(params, "action") then RequiredParams(params["action"]) else BaseRequired
  }

  /** The index of the first key of `keys` that is absent or empty. */
  function FirstUnfilled(keys: seq<string>, params: map<string, string>): (r: Option<nat>)
    ensures r.None? <==> forall j :: 0 <= j < |keys| ==> Filled(params, keys[j])
    ensures r.Some? ==> r.value < |keys| && !Filled(params, keys[r.value])
    ensures r.Some? ==> forall j :: 0 <= j < r.value ==> Filled(params, keys[j])
    decreases |keys|
  {
    if keys == [] then None
    else if !Filled(params, keys[0]) then Some(0)
    else match FirstUnfilled(keys[1..], params)
      case None => None
      case Some(i) => Some(i + 1)
  }

  /** The parameter `verifyRequirements` complains about, or `None` when it passes. */
  function MissingParameter(params: map<string, string>): (r: Option<string>)
    ensures r.None? <==> Filled(params, "action") &&
                         forall k :: k in RequiredParams(params["action"]) ==> Filled(params, k)
    ensures !Filled(params, "action") ==> r == Some("action")
    ensures r.Some? ==> exists i :: 0 <= i < |RequiredFor(params)| && RequiredFor(params)[i] == r.value &&
                          !Filled(params, r.value) &&
                          forall j :: 0 <= j < i ==> Filled(params, RequiredFor(params)[j])
    ensures r.None? ==> Filled(params, "action") && Filled(params, "shop") && Filled(params, "shop_url") &&
                        Filled(params, "hash") && Filled(params, "timestamp") && Filled(params, "application_code")
  {
    if !Filled(params, "action") then
      assert RequiredFor(params)[0] == "action";
      Some("action")
    else
      var required := RequiredParams(params["action"]);
      match FirstUnfilled(required, params)
      case None =>
        assert required[1] == "shop" && required[2] == "shop_url" && required[3] == "hash";
        assert required[4] == "timestamp" && required[5] == "application_code";
        None
      case Some(i) =>
        assert RequiredFor(params) == required;
        assert RequiredFor(params)[i] == required[i];
        Some(required[i])
  }

  /** `verifyRequirements`: builds the list for the action, then reports the first required
      parameter that is absent or empty. */
  method VerifyRequirements(params: map<string, string>) returns (missing: Option<string>)
    ensures missing == MissingParameter(params)
  {
    var requiredParams := ["action", "shop", "shop_url", "hash", "timestamp", "application_code"];
    if "action" in params && !IsEmpty(params["action"]) {
      var action := params["action"];
      if action == ActionBillingSubscription {
        requiredParams := requiredParams + ["subscription_end_time"];
      } else if action == ActionInstall {
        requiredParams := requiredParams + ["application_version"];
        requiredParams := requiredParams + ["auth_code"];
      } else if action == ActionUpgrade {
        requiredParams := requiredParams + ["application_version"];
      }
    } else {
      return Some("action");
    }
    assert requiredParams == RequiredParams(params["action"]);
    for i := 0 to |requiredParams|
      invariant forall j :: 0 <= j < i ==> Filled(params, requiredParams[j])
    {
      var requiredParam := requiredParams[i];
      if requiredParam !in params || IsEmpty(params[requiredParam]) {
        assert FirstUnfilled(requiredParams, params) == Some(i) by {
          FirstUnfilledIsFirst(requiredParams, params, i);
        }
        return Some(requiredParam);
      }
    }
    missing := None;
  }

  /** Any key that is unfilled and preceded only by filled keys is the one reported. */
  lemma {:induction false} FirstUnfilledIsFirst(keys: seq<string>, params: map<string, string>, i: nat)
    requires i < |keys| && !Filled(params, keys[i])
    requires forall j :: 0 <= j < i ==> Filled(params, keys[j])
    ensures FirstUnfilled(keys, params) == Some(i)
    decreases i
  {
    if i > 0 {
      FirstUnfilledIsFirst(keys[1..], params, i - 1);
    }
  }

  /** An `install` without a usable `application_version` or `auth_code` is rejected even
      when every base parameter is filled; likewise `upgrade` without `application_version`
      and `billing_subscription` without `subscription_end_time`. */
  lemma ActionSpecificParametersRequired(params: map<string, string>)
    ensures Filled(params, "action") && params["action"] == ActionInstall &&
            !(Filled(params, "application_version") && Filled(params, "auth_code"))
            ==> MissingParameter(params).Some?
    ensures Filled(params, "action") && params["action"] == ActionUpgrade &&
            !Filled(params, "application_version")
            ==> MissingParameter(params).Some?
    ensures Filled(params, "action") && params["action"] == ActionBillingSubscription &&
            !Filled(params, "subscription_end_time")
            ==> MissingParameter(params).Some?
  {
    assert RequiredParams(ActionInstall)[6] == "application_version";
    assert RequiredParams(ActionInstall)[7] == "auth_code";
    assert RequiredParams(ActionUpgrade)[6] == "application_version";
    assert RequiredParams(ActionBillingSubscription)[6] == "subscription_end_time";
  }

  /** "0" is as missing as an absent key: for a required key, the check fails either way. */
  lemma ZeroCountsAsMissing(params: map<string, string>, k: string)
    requires k in BaseRequired
    ensures MissingParameter(params[k := "0"]).Some?
    ensures MissingParameter(params - {k}).Some?
  {
  }

  /** When the only defect is one unfilled non-action key, the check names that key, and
      filling it with a non-empty value makes the check pass. */
  lemma FillingTheGapPasses(params: map<string, string>, k: string, v: string)
    requires Filled(params, "action") && k != "action" && !IsEmpty(v)
    requires k in RequiredParams(params["action"])
    requires forall r :: r in RequiredParams(params["action"]) && r != k ==> Filled(params, r)
    ensures !Filled(params, k) ==> MissingParameter(params) == Some(k)
    ensures MissingParameter(params[k := v]) == None
  {
    assert params[k := v]["action"] == params["action"];
  }
}
