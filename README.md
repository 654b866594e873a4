# Shop AppStore webhook dispatch, in Dafny

This project models the billing webhook pipeline of the DreamCommerce Shop AppStore
component, together with the item list and the two exception types that go with it.

`Billing\Dispatcher::dispatch` takes an inbound marketplace webhook and runs these steps, in
this order:

1. It rejects any request method other than `POST`.
2. It checks the required parameters for the action.
3. It looks up the application by its code.
4. It checks the HMAC signature of the parameters.
5. It creates the shop or updates its URI.
6. It looks up the resolver for the action.
7. It hands the resolver a typed payload message.
8. It persists and flushes the shop.

`BillingInstallResolver` is one such resolver. It applies the pay transition on the shop's
billing state machine. `UnableDispatchException` and `AuthenticationFailedException` are
value objects: a fixed code and message, plus the context they record.
`Model\AbstractItemList` is a list with a cursor, a counter and integer offsets.

The modules follow the source:

- `PhpArrays`:
  - `empty()`/`isset` on a string array;
  - `ksort`, as a method that picks the least remaining key each time. The lemmas show that
    the key order is a strict total order.
- `Signature`: `verifyPayload`. Its loop and `substr` are proved to build the `&`-join of
  the `k=v` pairs in ascending key order, without `hash`.
- `Requirements`: `verifyRequirements`, proved against the function `MissingParameter`.
- `Payload`: the action map and the message classes.
- `UnableDispatchException` and `AuthenticationFailedException`: the two exception types.
- `Collaborators` holds two things:
  - the calls the dispatcher makes on its collaborators;
  - a `CallLog` object that records them in order.
- `BillingInstall`: the resolver.
- `Dispatching`: the `Dispatcher` class. Its `Dispatch` method changes the shop table and the
  call log, and is proved equal to the step-by-step function `DispatchSpec`.
- `DispatchProperties`: what one dispatch, and two in a row, promise. These are lemmas on
  `DispatchSpec`.
- `ItemLists`: the class `ItemList`. Its two mutators of the items, `OffsetSet` and
  `OffsetUnset`, are tied to transition functions on a `State` value, which lets the lemmas
  reason about any sequence of those calls. `Rewind`, `Next` and `OffsetGet` state the new
  cursor directly.

The collaborators are parameters of the model:

- the HMAC is a function `(secret, message) -> digest`;
- the application registry is a map from code to application;
- the resolver registry is a map from action to resolver;
- the URI factory is a function that may reject its input;
- the shop repository is a map from (shop name, application code) to shop.

The PSR server request is reduced to its method and its parsed body, a string-to-string map.

`verifyPayload` throws its `UnableDispatchException` itself. `dispatch` does not catch the
exception that escapes `has` for an action outside the action map. The model keeps both
behaviours: that second error appears as `ActionNotSupported`, not wrapped in an
`UnableDispatchException`.

## Model

| member | source | states |
|---|---|---|
| PhpArrays.IsEmpty | src/DreamCommerce/Component/ShopAppstore/Billing/Dispatcher.php:151 | PHP's empty() on a string: true for "" and "0" only |
| PhpArrays.Filled | src/DreamCommerce/Component/ShopAppstore/Billing/Dispatcher.php:169 | isset and not empty: the key is present and its value is neither "" nor "0" |
| PhpArrays.KeyLessIrreflexive | src/DreamCommerce/Component/ShopAppstore/Billing/Dispatcher.php:181 | no key sorts before itself |
| PhpArrays.KeyLessAsymmetric | src/DreamCommerce/Component/ShopAppstore/Billing/Dispatcher.php:181 | two keys never sort before each other |
| PhpArrays.KeyLessTransitive | src/DreamCommerce/Component/ShopAppstore/Billing/Dispatcher.php:181 | the key order is transitive |
| PhpArrays.KeyLessTotal | src/DreamCommerce/Component/ShopAppstore/Billing/Dispatcher.php:181 | of two distinct keys, one sorts first |
| PhpArrays.MinKey | src/DreamCommerce/Component/ShopAppstore/Billing/Dispatcher.php:181 | the key chosen is in the set and sorts before every other key of it |
| PhpArrays.LeastIsMinKey | src/DreamCommerce/Component/ShopAppstore/Billing/Dispatcher.php:181 | any key that sorts before all the others is the least key |
| PhpArrays.SortedKeysSpec | src/DreamCommerce/Component/ShopAppstore/Billing/Dispatcher.php:181 | the sorted listing has every key of the set, once each, in strictly ascending order |
| PhpArrays.SortedKeysDistinct | src/DreamCommerce/Component/ShopAppstore/Billing/Dispatcher.php:181 | the sorted listing holds exactly the keys of the set, none of them twice |
| PhpArrays.SortedKeysUnique | src/DreamCommerce/Component/ShopAppstore/Billing/Dispatcher.php:181 | any strictly ascending listing of the same keys is that listing, so the order the keys arrived in does not matter |
| PhpArrays.LeastKey | src/DreamCommerce/Component/ShopAppstore/Billing/Dispatcher.php:181 | one pass over a non-empty key set finds its least key |
| PhpArrays.Ksort | src/DreamCommerce/Component/ShopAppstore/Billing/Dispatcher.php:181 | the keys of the array are returned in ascending order |
| Signature.PrefixedIsSeparatedJoin | src/DreamCommerce/Component/ShopAppstore/Billing/Dispatcher.php:183-187 | the loop string is "" for no keys; otherwise it is "&" followed by the "&"-join of the pairs, so dropping its first character leaves no leading separator |
| Signature.DropFirst | src/DreamCommerce/Component/ShopAppstore/Billing/Dispatcher.php:187 | substr(s, 1) is s without its first character, and "" for "" |
| Signature.JoinPairs | src/DreamCommerce/Component/ShopAppstore/Billing/Dispatcher.php:183-187 | the loop over the sorted keys and the substr after it build the "&"-join of the k=v pairs, in key order |
| Signature.Unsigned | src/DreamCommerce/Component/ShopAppstore/Billing/Dispatcher.php:178 | every parameter except hash is signed, with its value unchanged |
| Signature.ProvidedHash | src/DreamCommerce/Component/ShopAppstore/Billing/Dispatcher.php:177-190 | the provided hash is the hash parameter, or "" when it is absent |
| Signature.VerifyPayload | src/DreamCommerce/Component/ShopAppstore/Billing/Dispatcher.php:175-193 | the check passes exactly when the HMAC of the canonical string under the secret equals the provided hash |
| Signature.CanonicalIgnoresHash | src/DreamCommerce/Component/ShopAppstore/Billing/Dispatcher.php:177-178 | the signed string depends neither on the value of hash nor on whether hash is there |
| Signature.SignedParamsVerify | src/DreamCommerce/Component/ShopAppstore/Billing/Dispatcher.php:189-192 | setting hash to the digest of the canonical string always passes; any other hash fails |
| Signature.SortedJoinChangesAt | src/DreamCommerce/Component/ShopAppstore/Billing/Dispatcher.php:181-187 | overwriting one value of the sorted pairs with a different value changes the joined string |
| Signature.ChangedValueChangesCanonical | src/DreamCommerce/Component/ShopAppstore/Billing/Dispatcher.php:177-189 | changing the value of any signed parameter changes the signed string |
| Signature.CanonicalOfTwoPairs | src/DreamCommerce/Component/ShopAppstore/Billing/Dispatcher.php:181-187 | two signed parameters are signed as their k=v pairs in key order, joined by "&" |
| Signature.CanonicalIsNotInjective | src/DreamCommerce/Component/ShopAppstore/Billing/Dispatcher.php:184-187 | values are not encoded, so for any two signed keys a < b the distinct parameter sets {a: v&b=w} and {a: v, b: w} sign the same string |
| Payload.MapActionToClass | src/DreamCommerce/Component/ShopAppstore/Billing/Dispatcher.php:29-35 | exactly the five mapped actions have a message class |
| Payload.MapActionToClassInjective | src/DreamCommerce/Component/ShopAppstore/Billing/Dispatcher.php:29-35 | distinct actions map to distinct message classes |
| Requirements.FirstUnfilled | src/DreamCommerce/Component/ShopAppstore/Billing/Dispatcher.php:168-172 | none is reported exactly when every key is present and non-empty; otherwise the index reported is unfilled and every earlier key is filled |
| Requirements.MissingParameter | src/DreamCommerce/Component/ShopAppstore/Billing/Dispatcher.php:147-173 | passes exactly when the action and every key required for it are filled; an absent or empty action is reported as "action" before anything else; any other report names the first unfilled key in list order |
| Requirements.VerifyRequirements | src/DreamCommerce/Component/ShopAppstore/Billing/Dispatcher.php:147-173 | building the list and looping over it reports what MissingParameter says |
| Requirements.FirstUnfilledIsFirst | src/DreamCommerce/Component/ShopAppstore/Billing/Dispatcher.php:168-172 | an unfilled key preceded only by filled keys is the one reported |
| Requirements.ActionSpecificParametersRequired | src/DreamCommerce/Component/ShopAppstore/Billing/Dispatcher.php:152-163 | install needs application_version and auth_code; upgrade needs application_version; billing_subscription needs subscription_end_time |
| Requirements.ZeroCountsAsMissing | src/DreamCommerce/Component/ShopAppstore/Billing/Dispatcher.php:151-169 | a base parameter set to "0" fails the check just as an absent one does |
| Requirements.FillingTheGapPasses | src/DreamCommerce/Component/ShopAppstore/Billing/Dispatcher.php:168-172 | when a single required key is unfilled, that key is reported, and filling it makes the check pass |
| UnableDispatchException.UnableDispatch.Code | src/DreamCommerce/Component/ShopAppstore/Exception/Billing/UnableDispatchException.php:14-18 | the code of each named constructor; every code lies in 10..14 |
| UnableDispatchException.UnableDispatch.Message | src/DreamCommerce/Component/ShopAppstore/Exception/Billing/UnableDispatchException.php:35-95 | the fixed message each named constructor passes; CodesIdentifyKind shows it tells the kinds apart |
| UnableDispatchException.UnableDispatch.GetServerRequest | src/DreamCommerce/Component/ShopAppstore/Exception/Billing/UnableDispatchException.php:100-103 | the server request the exception was built for; the For* rows show it is the one given |
| UnableDispatchException.UnableDispatch.GetApplication | src/DreamCommerce/Component/ShopAppstore/Exception/Billing/UnableDispatchException.php:108-111 | only the invalid-hash kind has an application |
| UnableDispatchException.UnableDispatch.GetPrevious | src/DreamCommerce/Component/ShopAppstore/Exception/Billing/UnableDispatchException.php:35-95 | the previous exception, chained unchanged; the For* rows show it is the one given |
| UnableDispatchException.ForInvalidRequestMethod | src/DreamCommerce/Component/ShopAppstore/Exception/Billing/UnableDispatchException.php:35-41 | code 10, its message, the request, no application, previous chained unchanged |
| UnableDispatchException.ForInvalidPayloadHash | src/DreamCommerce/Component/ShopAppstore/Exception/Billing/UnableDispatchException.php:49-56 | code 11, its message, the request and the application, previous chained unchanged |
| UnableDispatchException.ForNotExistApplication | src/DreamCommerce/Component/ShopAppstore/Exception/Billing/UnableDispatchException.php:63-69 | code 12, its message, the request, no application, previous chained unchanged |
| UnableDispatchException.ForNotSupportedAction | src/DreamCommerce/Component/ShopAppstore/Exception/Billing/UnableDispatchException.php:76-82 | code 14, its message, the request, no application, previous chained unchanged |
| UnableDispatchException.ForUnfulfilledRequirements | src/DreamCommerce/Component/ShopAppstore/Exception/Billing/UnableDispatchException.php:89-95 | code 13, its message, the request, no application, previous chained unchanged |
| UnableDispatchException.CodesIdentifyKind | src/DreamCommerce/Component/ShopAppstore/Exception/Billing/UnableDispatchException.php:14-18 | codes lie in 10..14; two exceptions share a code exactly when they share a kind, and likewise for the message |
| AuthenticationFailedException.AuthenticationFailed.GetErrorCode | src/DreamCommerce/Component/ShopAppstore/Api/Exception/AuthenticationFailedException.php:51-54 | the provider's error code, null unless the body set it (see ErrorFieldsRoundTrip) |
| AuthenticationFailedException.AuthenticationFailed.GetErrorDescription | src/DreamCommerce/Component/ShopAppstore/Api/Exception/AuthenticationFailedException.php:59-62 | the provider's error description, null unless the body set it (see ErrorFieldsRoundTrip) |
| AuthenticationFailedException.ForInvalidResponseBody | src/DreamCommerce/Component/ShopAppstore/Api/Exception/AuthenticationFailedException.php:32-46 | code 10 and "Authentication failed"; the request, response and previous are stored; the error code and description are set exactly when the body sets them, and then to the body's values |
| AuthenticationFailedException.ErrorFieldsRoundTrip | src/DreamCommerce/Component/ShopAppstore/Api/Exception/AuthenticationFailedException.php:38-62 | the getters give back exactly the body's error and error_description, null included, whatever other keys the body has |
| BillingInstall.Resolve | src/DreamCommerce/Component/ShopAppstore/Billing/Resolver/BillingInstallResolver.php:31-37 | a message of another class is rejected with no call; a billing install makes exactly the state-machine calls of StateMachineCalls |
| BillingInstall.ResolveCallsPinned | src/DreamCommerce/Component/ShopAppstore/Tests/Billing/Resolver/BillingInstallResolverTest.php:54-89 | rejected exactly for another message class; otherwise exactly one get, for the message's shop and the billing graph, first, then exactly one apply, of the pay transition, last, and nothing else |
| Dispatching.Has | src/DreamCommerce/Component/ShopAppstore/Billing/Dispatcher.php:134-141 | throws, with the "Action ... is not supported" message, exactly for identifiers outside the action map; otherwise answers whether a resolver is registered |
| Dispatching.GetResolver | src/DreamCommerce/Component/ShopAppstore/Billing/Dispatcher.php:118-141 | an unmapped action gives the has error; a mapped but unregistered one gives NonExistingService; otherwise the registered resolver |
| Dispatching.GetPayload | src/DreamCommerce/Component/ShopAppstore/Billing/Dispatcher.php:201-211 | the action's message class, the application and the shop, with params minus action, shop, shop_url and application_code; values unchanged |
| Dispatching.DispatchSpec | src/DreamCommerce/Component/ShopAppstore/Billing/Dispatcher.php:85-129 | one dispatch step by step: method, requirements, application, signature, URI, upsert, resolver lookup, resolve, persist and flush, as an outcome, the new shop table and the calls made; the DispatchProperties lemmas state what it promises |
| Dispatching.Dispatcher.constructor | src/DreamCommerce/Component/ShopAppstore/Billing/Dispatcher.php:69-80 | stores the collaborators and the shop table |
| Dispatching.Dispatcher.Dispatch | src/DreamCommerce/Component/ShopAppstore/Billing/Dispatcher.php:85-129 | the outcome, the new shop table and the calls appended to the log are those of DispatchSpec; every shop stays filed under its own application |
| Dispatching.Dispatcher.HandleSigned | src/DreamCommerce/Component/ShopAppstore/Billing/Dispatcher.php:108-128 | once the signature holds, a shop URL the factory rejects ends the dispatch with no call; otherwise the outcome, shops and calls are those of HandleVerified |
| Dispatching.Dispatcher.UpsertAndLookup | src/DreamCommerce/Component/ShopAppstore/Billing/Dispatcher.php:111-128 | the upsert call comes first, then the calls from the resolver lookup on; the outcome and shops are those of UpsertAndResolve |
| Dispatching.Dispatcher.LookupAndSave | src/DreamCommerce/Component/ShopAppstore/Billing/Dispatcher.php:118-128 | an unmapped action escapes unwrapped and an unregistered one becomes forNotSupportedAction, both with no call; otherwise the payload is built and resolved as AfterUpsert says |
| Dispatching.Dispatcher.Upsert | src/DreamCommerce/Component/ShopAppstore/Billing/Dispatcher.php:111-116 | an existing shop gets the new URI at once, with one setUri call; otherwise one shop is created for the application and URI, and not yet filed |
| Dispatching.Dispatcher.ResolveAndSave | src/DreamCommerce/Component/ShopAppstore/Billing/Dispatcher.php:125-128 | one resolve call; if the resolver throws, the shop is not filed and nothing is persisted; otherwise its calls, then the shop is filed, persisted and flushed |
| DispatchProperties.FailuresInOrder | src/DreamCommerce/Component/ShopAppstore/Billing/Dispatcher.php:87-123 | each error kind happens exactly when that check is the first to fail, in the order method, requirements (naming the first missing parameter), application, hash, action |
| DispatchProperties.FailedChecksHaveNoEffects | src/DreamCommerce/Component/ShopAppstore/Billing/Dispatcher.php:87-109 | a request that fails a check before the upsert changes no shop and makes no call |
| DispatchProperties.ResolverCallsShape | src/DreamCommerce/Component/ShopAppstore/Billing/Resolver/BillingInstallResolver.php:33-36 | a resolver completes exactly when it handles the message's class (billing install for the billing-install resolver); otherwise it throws the InvalidArgumentException naming that class; the only recorded calls go to the state machine |
| DispatchProperties.AcceptedRun | src/DreamCommerce/Component/ShopAppstore/Billing/Dispatcher.php:85-128 | a request that passes the method, requirements, application, hash and URL checks is dispatched as the upsert followed by the resolver lookup |
| DispatchProperties.AfterUpsertCompletes | src/DreamCommerce/Component/ShopAppstore/Billing/Dispatcher.php:118-128 | after the upsert, the dispatch completes exactly when a registered resolver accepts the action; then it resolves, runs the resolver's calls, files the shop, persists and flushes; the shops change at most under the key |
| DispatchProperties.DispatchedIff | src/DreamCommerce/Component/ShopAppstore/Billing/Dispatcher.php:85-128 | a dispatch completes exactly when every check passes, a resolver is registered for the action and that resolver accepts the message |
| DispatchProperties.DispatchedRun | src/DreamCommerce/Component/ShopAppstore/Billing/Dispatcher.php:108-128 | a completed dispatch files the upserted shop and makes, in order, the upsert call, resolve with the payload, the resolver's calls, persist and flush |
| DispatchProperties.DispatchedShops | src/DreamCommerce/Component/ShopAppstore/Billing/Dispatcher.php:111-127 | a completed dispatch leaves one shop under the key: the one found with the new URI, or a new one for the application and URI; no other shop changes |
| DispatchProperties.DispatchedCalls | src/DreamCommerce/Component/ShopAppstore/Billing/Dispatcher.php:111-128 | a completed dispatch makes one create or one setUri, exactly one resolve with the parameters minus the protocol ones, then one persist of the shop and one flush, last |
| DispatchProperties.UnsupportedActionSkipsPersistence | src/DreamCommerce/Component/ShopAppstore/Billing/Dispatcher.php:111-141 | an unsupported action leaves the existing shop's URI overwritten, but nothing is resolved, persisted or flushed. An unmapped action escapes unwrapped; a mapped but unregistered one becomes forNotSupportedAction, chained to the registry's exception |
| DispatchProperties.ResolverErrorSkipsPersistence | src/DreamCommerce/Component/ShopAppstore/Billing/Dispatcher.php:125-128 | a resolver that does not handle the action's message class throws after resolve is called: the calls are exactly the upsert and resolve, with no persist and no flush |
| DispatchProperties.BillingInstallDispatchPays | src/DreamCommerce/Component/ShopAppstore/Billing/Dispatcher.php:108-128 | a billing install given to its resolver makes exactly the calls upsert, resolve, get, apply pay, persist, flush |
| DispatchProperties.RepeatedDispatchKeepsOneShop | src/DreamCommerce/Component/ShopAppstore/Billing/Dispatcher.php:111-116 | two dispatches for the same shop and application leave one shop under that key, holding the second URI; the second creates no shop |
| DispatchProperties.DispatchTouchesOneKey | src/DreamCommerce/Component/ShopAppstore/Billing/Dispatcher.php:111-128 | a dispatch leaves the shop table alone or files the upserted shop under the request's key, and changes nothing else |
| DispatchProperties.DispatchKeepsShopsKeyed | src/DreamCommerce/Component/ShopAppstore/Billing/Dispatcher.php:111-116 | no shop is ever filed under another application's key |
| ItemLists.CurrentOf | src/DreamCommerce/Component/ShopAppstore/Model/AbstractItemList.php:63-70 | the item under the cursor while the cursor is below the counter and the index exists; otherwise the TypeError raised by returning null |
| ItemLists.AfterSet | src/DreamCommerce/Component/ShopAppstore/Model/AbstractItemList.php:104-110 | a null offset appends the value and counts it; any other offset changes nothing |
| ItemLists.Removed | src/DreamCommerce/Component/ShopAppstore/Model/AbstractItemList.php:115-116 | the items without the one removed, the rest in their order, re-indexed from 0 |
| ItemLists.AfterUnset | src/DreamCommerce/Component/ShopAppstore/Model/AbstractItemList.php:112-123 | an existing index is removed and re-indexed; the counter drops by one; the cursor steps back if above 0; an absent index changes nothing |
| ItemLists.ReplayKeepsBalance | src/DreamCommerce/Component/ShopAppstore/Model/AbstractItemList.php:104-123 | any sequence of sets and unsets keeps the counter minus the item count fixed, and keeps a non-negative cursor non-negative |
| ItemLists.ReplayFromEmpty | src/DreamCommerce/Component/ShopAppstore/Model/AbstractItemList.php:104-123 | from an empty list, any sequence of sets and unsets leaves the counter equal to the number of items |
| ItemLists.CurrentWithinCount | src/DreamCommerce/Component/ShopAppstore/Model/AbstractItemList.php:63-85 | while the counter trails the items by a fixed amount, there is a current item exactly when the cursor lies in [0, count) |
| ItemLists.ItemList.constructor | src/DreamCommerce/Component/ShopAppstore/Model/AbstractItemList.php:30-43 | stores the items with cursor and counter at 0, so valid() is false even for non-empty input |
| ItemLists.ItemList.GetIds | src/DreamCommerce/Component/ShopAppstore/Model/AbstractItemList.php:48-56 | the items' ids, in item order, one per item |
| ItemLists.ItemList.Rewind | src/DreamCommerce/Component/ShopAppstore/Model/AbstractItemList.php:58-61 | the cursor goes back to 0 |
| ItemLists.ItemList.Next | src/DreamCommerce/Component/ShopAppstore/Model/AbstractItemList.php:77-80 | the cursor advances by one |
| ItemLists.ItemList.Current | src/DreamCommerce/Component/ShopAppstore/Model/AbstractItemList.php:63-70 | in a consistent list, an item is current exactly when the cursor lies in [0, count), and it is the item at the cursor |
| ItemLists.ItemList.Key | src/DreamCommerce/Component/ShopAppstore/Model/AbstractItemList.php:72-75 | the key is the cursor, whether or not an item is under it |
| ItemLists.ItemList.ValidPointer | src/DreamCommerce/Component/ShopAppstore/Model/AbstractItemList.php:82-85 | valid() compares the cursor with the counter only; in a consistent list with a cursor at 0 or above it holds exactly when current() succeeds |
| ItemLists.ItemList.Count | src/DreamCommerce/Component/ShopAppstore/Model/AbstractItemList.php:87-90 | the counter is the number of items minus those the constructor stored, so it equals the number of items for a list that started empty |
| ItemLists.ItemList.OffsetExists | src/DreamCommerce/Component/ShopAppstore/Model/AbstractItemList.php:92-95 | holds exactly for the indexes of the re-indexed items |
| ItemLists.ItemList.OffsetGet | src/DreamCommerce/Component/ShopAppstore/Model/AbstractItemList.php:97-102 | moves the cursor to the offset and returns current(), which succeeds exactly when the offset lies in [0, count), giving the item at the offset |
| ItemLists.ItemList.OffsetSet | src/DreamCommerce/Component/ShopAppstore/Model/AbstractItemList.php:104-110 | the new fields are those of AfterSet, and the list stays consistent |
| ItemLists.ItemList.OffsetUnset | src/DreamCommerce/Component/ShopAppstore/Model/AbstractItemList.php:112-123 | the new fields are those of AfterUnset, and the list stays consistent |

## Left out

- The HMAC-SHA512 digest (`hash_hmac`) is a foreign cryptographic call. It is the parameter
  `mac`, and what that parameter computes is not modelled.
- Ksort: orders every key lexicographically by character. PHP turns numeric-looking keys into
  integers and orders those numerically. Parameters are assumed to have non-numeric keys.
- PHP loose comparison in the `switch` on the action is left out. Actions are compared as
  exact strings.
- Body values other than strings (nested arrays, numbers) are left out. The parsed body is a
  string-to-string map.
- `AwaitShopClient` and its retry and back-off loop are not part of this model. Its
  sleeping is I/O.
- The URI factory's parsing is reduced to a parameter `string -> Option<Uri>`. A rejected
  shop URL ends the dispatch with `InvalidUri`, before any shop is touched.
- The Sylius service registries are reduced to maps, looked up through `has`.
- Doctrine's `persist` and `flush`, and the state-machine library, are reduced to recorded
  calls. What they change in the database and in the billing state is not modelled.
- Resolvers other than `BillingInstallResolver` are `OtherResolver`. Each is assumed to check
  its message's class as `BillingInstallResolver` does: it throws `InvalidArgumentException`
  for a class outside its `accepted` set and otherwise returns. Only the `resolve` call on
  them is recorded. Their own calls, and any other exception they might throw, are not part
  of this model.
- Dispatching.Dispatcher.Dispatch: does not model exceptions thrown by the repository, the
  factory, the object manager or the state machine, since their implementations are not
  part of this model.
- `ShopFactory`, `ShopBillingTransitions` and `DispatcherInterface` are not part of this model.
  - The new shop's other properties are left empty.
  - `GRAPH` and `TRANSITION_PAY` are symbolic values.
  - The action strings are `billing_install`, `billing_subscription`, `install`, `uninstall`
    and `upgrade`.
- A newly created shop is assumed to be found later under the request's shop name: the
  model files it under (shop name, application code) when it is persisted. The factory is
  given only the application and the URI, and the source does not show where that name is
  set. `RepeatedDispatchKeepsOneShop` and `DispatchedShops` rest on this assumption when
  the first dispatch creates the shop.
- Entities are values, so shop aliasing is not modelled. An existing shop's URI change shows
  up in the shop table at once, as `setUri` on the fetched object does.
- The PSR server request is reduced to its method and parsed body. The PSR HTTP request and
  response in `AuthenticationFailedException` are reduced to a few identifying fields.
- The resource constant classes (`Api/Resource/*.php`) are not modelled: they hold only
  constants and name getters. The factory interfaces (`Factory/*.php`) are not modelled:
  they hold only declarations.
- ItemList: offsets are integers. PHP's `(int)` cast of other offset types is not modelled.
  A constructor array whose keys are not 0..n-1 is not modelled. Null items are not modelled.
- ItemLists.ItemList.OffsetExists: `isset` would also be false for a null item. Items are
  never null in the model.
