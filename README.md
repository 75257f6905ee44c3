# TrackingManager: a verified model

This project models the tracking manager of Pimcore's e-commerce framework
(`bundles/EcommerceFrameworkBundle/Tracking/TrackingManager.php`). The
manager keeps a registry of tracking backends ("trackers") and forwards
e-commerce events to them: category page views, product impressions and
views, cart updates, cart additions and removals (each with a deprecated
single-argument form), checkout start, checkout steps and checkout
completion.

It has three cooperating parts:

- **Registry.** Trackers are appended in registration order, and that order
  is the dispatch order.
- **Active-set cache.** The environment reports two tenants, the assortment
  tenant and the checkout tenant. A missing or falsy one becomes
  `"default"`. A tracker is active when its assortment list is empty or
  contains the assortment tenant, OR its checkout list is empty or contains
  the checkout tenant. The active set is cached under the tenant pair and is
  recomputed only when the pair changes.
- **Fan-out.** Each `track*` operation calls, in order, every active tracker
  that implements the operation's interface. Checkout completion is guarded
  at most once per order. The order's `os_tracked` property is checked, then
  set and saved before any tracker is called.

Files:

- `wrappers.dfy`: `Option`, which stands for PHP's nullable strings.
- `subsequence.dfy`: an order-preserving `Filter` over sequences, with
  lemmas. They cover membership, multiplicity, concatenation, composition and
  the exact positions kept.
- `collaborators.dfy`: the environment (the two reported tenants), the
  order (`os_tracked` in memory and in storage, and a save counter) and
  opaque `Value` handles for carts, products, pages and other foreign
  objects.
- `tracking_spec.dfy`: the specification:
  - capabilities, trackers, events, and the log of calls the manager makes;
  - `TenantOrDefault`, the `IsActive` filter and `ActiveSubsequence`;
  - the one-entry cache as a pure `Lookup`;
  - `Deliveries`, the calls one fan-out makes.
- `tracking_manager.dfy`: the class `TrackingManager` with the source's
  fields, its loops proved against the specification, and client methods.
  The client methods run checkout completion twice, serve a stale cache
  after a registration (the late tracker is active under the current pair
  and is still not called), and switch tenants.

The manager's side effects are modeled as a field `calls`. It records every
tracker handler call (`Handled(tracker, event)`) and every order save
(`Saved(order)`), in the order they are made. The environment is an object
whose two fields the caller may reassign between calls.

Where a natural reading of the manager differs from its code, the model
follows the code:

- One might expect a tracker to need a match on both axes (AND). The code
  combines the axes with OR, so a tracker with an empty list on either axis
  is active under every tenant pair. Take tracker A with assortment
  `["eu"]` and checkout `[]`. Under the pair ("us", "b2b") it is still
  active, because its empty checkout list admits "b2b", so the expectation
  that only B is active there does not hold. `TwoTrackerScenario` and
  `TenantSwitchRun` prove the code's answer.
- One might expect no fan-out after a failed save of the order. The code
  does not look at `save()`'s result (line 274). A failed save in Pimcore
  surfaces as an exception, which this model does not have. `Save` always
  returns.
- One might read the tenant lists as sets. The code uses PHP arrays with
  `in_array`, so the model uses `seq<string>` and membership.
- One might expect only an absent tenant to become `"default"`. The code's
  `?:` also replaces the falsy strings `""` and `"0"`, and so does the
  model.

## Model

| member | source | states |
|---|---|---|
| Tracking.TrackingManager.constructor | bundles/EcommerceFrameworkBundle/Tracking/TrackingManager.php:54-61 | the initial list is registered in order, nothing is cached (both tenants unset, empty set), no call made |
| Tracking.TrackingManager.RegisterTracker | bundles/EcommerceFrameworkBundle/Tracking/TrackingManager.php:68-71 | appends the tracker at the end (duplicates allowed); the cache and the cached pair are untouched, and the object invariant is kept |
| Tracking.TrackingManager.GetTrackers | bundles/EcommerceFrameworkBundle/Tracking/TrackingManager.php:78-81 | returns the whole registry, inactive trackers included |
| Tracking.TrackingManager.GetActiveTrackers | bundles/EcommerceFrameworkBundle/Tracking/TrackingManager.php:88-114 | the new cache is `Lookup` of the old one under the current defaulted tenants. A hit changes nothing. A miss stores the pair and the active subsequence of the whole registry. The result is the cache, and the registry and calls are unchanged |
| Tracking.TrackingManager.CollectActive | bundles/EcommerceFrameworkBundle/Tracking/TrackingManager.php:97-110 | the recompute loop: the cached set becomes exactly the active subsequence of the whole registry under the pair |
| Tracking.TrackingManager.Notify | bundles/EcommerceFrameworkBundle/Tracking/TrackingManager.php:124-128 | the shared fan-out loop: appends exactly `Deliveries(active, e)` to the calls |
| Tracking.TrackingManager.TrackCategoryPageView | bundles/EcommerceFrameworkBundle/Tracking/TrackingManager.php:122-129 | queries the cache once, then calls every active `ICategoryPageView` tracker in order with (category, page) |
| Tracking.TrackingManager.TrackProductImpression | bundles/EcommerceFrameworkBundle/Tracking/TrackingManager.php:138-145 | the same, for trackers tagged `ProductInterfaceImpression` as written |
| Tracking.TrackingManager.TrackProductView | bundles/EcommerceFrameworkBundle/Tracking/TrackingManager.php:154-161 | the same, for `IProductView` |
| Tracking.TrackingManager.TrackCartUpdate | bundles/EcommerceFrameworkBundle/Tracking/TrackingManager.php:168-175 | the same, for `ICartUpdate` |
| Tracking.TrackingManager.TrackCartProductActionAdd | bundles/EcommerceFrameworkBundle/Tracking/TrackingManager.php:184-191 | the same, for `ICartProductActionAdd`, with (cart, product, quantity) |
| Tracking.TrackingManager.TrackProductActionAdd | bundles/EcommerceFrameworkBundle/Tracking/TrackingManager.php:201-208 | the same, for the deprecated `IProductActionAdd` only |
| Tracking.TrackingManager.TrackCartProductActionRemove | bundles/EcommerceFrameworkBundle/Tracking/TrackingManager.php:217-224 | the same, for `ICartProductActionRemove` |
| Tracking.TrackingManager.TrackProductActionRemove | bundles/EcommerceFrameworkBundle/Tracking/TrackingManager.php:234-241 | the same, for the deprecated `IProductActionRemove` only |
| Tracking.TrackingManager.TrackCheckout | bundles/EcommerceFrameworkBundle/Tracking/TrackingManager.php:250-257 | the same, for `ICheckout` |
| Tracking.TrackingManager.TrackCheckoutComplete | bundles/EcommerceFrameworkBundle/Tracking/TrackingManager.php:266-281 | on a tracked order nothing changes: no call, no save, no cache query. Otherwise `os_tracked` is set and stored, the order is saved exactly once and the save is logged before every `ICheckoutComplete` call |
| Tracking.TrackingManager.TrackCheckoutStep | bundles/EcommerceFrameworkBundle/Tracking/TrackingManager.php:293-300 | the standard fan-out, for `ICheckoutStep`, with (step, cart, stepNumber, checkoutOption) |
| Tracking.TrackCheckoutCompleteTwice | bundles/EcommerceFrameworkBundle/Tracking/TrackingManager.php:268-280 | two completions of one order produce at most one save and one fan-out; the order ends tracked |
| Tracking.StaleCacheRun | bundles/EcommerceFrameworkBundle/Tracking/TrackingManager.php:93-113 | tracker D, registered after a query and active under the current pair (a recompute would keep all of A, B and D), is not called while the pair stays the same: both product views reach A and B only |
| Tracking.TenantSwitchRun | bundles/EcommerceFrameworkBundle/Tracking/TrackingManager.php:88-114 | a tenant switch recomputes the active set from the current registry |
| Collaborators.Order.SetOsTracked | bundles/EcommerceFrameworkBundle/Tracking/TrackingManager.php:273 | sets the in-memory `os_tracked` property only |
| Collaborators.Order.Save | bundles/EcommerceFrameworkBundle/Tracking/TrackingManager.php:274 | storage takes the in-memory property and the save count grows by one |
| TrackingSpec.Event.Required | bundles/EcommerceFrameworkBundle/Tracking/TrackingManager.php:125-296 | each kind of event is handled by exactly one interface, its own: a capability is required by an event if and only if it is that event's tag (`ProductInterfaceImpression` for impressions, as written) |
| TrackingSpec.IsActive | bundles/EcommerceFrameworkBundle/Tracking/TrackingManager.php:99-107 | an empty list or a list naming the tenant on either axis makes a tracker active |
| TrackingSpec.ActiveSubsequence | bundles/EcommerceFrameworkBundle/Tracking/TrackingManager.php:97-110 | the active set is no longer than the registry, and every tracker in it is registered and active |
| TrackingSpec.IsHit | bundles/EcommerceFrameworkBundle/Tracking/TrackingManager.php:93 | a cache whose pair has an unset (`null`) tenant is never a hit |
| TrackingSpec.Deliveries | bundles/EcommerceFrameworkBundle/Tracking/TrackingManager.php:124-128 | a fan-out makes at most one call per active tracker, and every call is a handler call for the event on an active tracker that has the event's capability |
| TrackingSpec.TenantOrDefault | bundles/EcommerceFrameworkBundle/Tracking/TrackingManager.php:90-91 | the effective tenant is never falsy, and it is either the reported tenant or `"default"` |
| TrackingSpec.TenantIsDefault | bundles/EcommerceFrameworkBundle/Tracking/TrackingManager.php:90-91 | the effective tenant is `"default"` exactly when nothing, `""`, `"0"` or `"default"` is reported |
| TrackingSpec.TenantOrDefaultIdempotent | bundles/EcommerceFrameworkBundle/Tracking/TrackingManager.php:90-91 | defaulting an already defaulted tenant changes nothing |
| TrackingSpec.ActiveSubsequenceIsSubsequence | bundles/EcommerceFrameworkBundle/Tracking/TrackingManager.php:97-110 | the active set is the registry read at strictly ascending positions, and those are exactly the positions of active trackers |
| TrackingSpec.ActiveSubsequenceMembership | bundles/EcommerceFrameworkBundle/Tracking/TrackingManager.php:98-109 | a tracker is in the active set if and only if it is registered and active |
| TrackingSpec.ActiveSubsequenceMultiplicity | bundles/EcommerceFrameworkBundle/Tracking/TrackingManager.php:98-109 | an active tracker occurs as often as it was registered, and an inactive one never occurs |
| TrackingSpec.UnrestrictedAxisAlwaysActive | bundles/EcommerceFrameworkBundle/Tracking/TrackingManager.php:99-108 | a registered tracker with either tenant list empty is active under every tenant pair |
| TrackingSpec.InactiveOnlyIfBothAxesExclude | bundles/EcommerceFrameworkBundle/Tracking/TrackingManager.php:99-107 | a tracker is inactive if and only if both of its lists are non-empty and neither contains its tenant |
| TrackingSpec.EmptyRegistryNothingActive | bundles/EcommerceFrameworkBundle/Tracking/TrackingManager.php:97-110 | an empty registry gives an empty active set |
| TrackingSpec.Lookup | bundles/EcommerceFrameworkBundle/Tracking/TrackingManager.php:93-113 | after a query the cached pair is the current pair, and the set is either the old cached set or the freshly filtered registry |
| TrackingSpec.FirstLookupRecomputes | bundles/EcommerceFrameworkBundle/Tracking/TrackingManager.php:38-43 | the initial `null` pair never matches, so the first query filters the registry |
| TrackingSpec.LookupTwiceIsHit | bundles/EcommerceFrameworkBundle/Tracking/TrackingManager.php:93-113 | a second query under the same pair returns the first result, even after new registrations |
| TrackingSpec.LookupMissRecomputes | bundles/EcommerceFrameworkBundle/Tracking/TrackingManager.php:93-110 | a query under a different pair stores that pair and the active set of the current registry |
| TrackingSpec.LookupSeesPrefix | bundles/EcommerceFrameworkBundle/Tracking/TrackingManager.php:68-71 | when the cache holds the active set of the registry without its last `stale` entries (or nothing, before any query, with all entries counted as stale), a query yields the active set of exactly that prefix on a hit and of the whole registry on a miss |
| TrackingSpec.DeliveriesAreCapableTrackers | bundles/EcommerceFrameworkBundle/Tracking/TrackingManager.php:124-128 | a fan-out calls exactly the capable trackers of the active set, in active-set order, each with the event itself |
| TrackingSpec.DeliveriesMultiplicity | bundles/EcommerceFrameworkBundle/Tracking/TrackingManager.php:124-128 | each occurrence of a capable tracker gets exactly one call and a tracker without the capability none. Every call is a handler call for that event |
| TrackingSpec.DeliveriesFromRegistry | bundles/EcommerceFrameworkBundle/Tracking/TrackingManager.php:97-128 | the trackers called are, in registration order, exactly those both active and capable |
| TrackingSpec.DeprecatedKindsAreSeparate | bundles/EcommerceFrameworkBundle/Tracking/TrackingManager.php:184-241 | the deprecated add/remove and the cart-aware add/remove reach trackers by their own interface only, and neither is inferred from the other |
| TrackingSpec.NothingActiveNothingCalled | bundles/EcommerceFrameworkBundle/Tracking/TrackingManager.php:124-128 | a fan-out over an empty active set calls nothing |
| TrackingSpec.TwoTrackerScenario | bundles/EcommerceFrameworkBundle/Tracking/TrackingManager.php:97-161 | trackers A (assortment "eu") and B (checkout "b2b") are both active under ("eu", "default") and under ("us", "b2b"). A product view reaches both and checkout completion reaches B only |
| Subsequence.Filter | bundles/EcommerceFrameworkBundle/Tracking/TrackingManager.php:97-110 | the filtered sequence is no longer than the input, and equal to it when no element is dropped |
| Subsequence.FilterMembership | bundles/EcommerceFrameworkBundle/Tracking/TrackingManager.php:98-109 | an element is kept if and only if it occurs and passes |
| Subsequence.FilterAppend | bundles/EcommerceFrameworkBundle/Tracking/TrackingManager.php:98-109 | filtering distributes over concatenation |
| Subsequence.FilterKeepsAll | bundles/EcommerceFrameworkBundle/Tracking/TrackingManager.php:98-109 | when everything passes, the input is returned unchanged |
| Subsequence.FilterDropsAll | bundles/EcommerceFrameworkBundle/Tracking/TrackingManager.php:98-109 | when nothing passes, the result is empty |
| Subsequence.FilterMultiplicity | bundles/EcommerceFrameworkBundle/Tracking/TrackingManager.php:98-109 | no duplication: multiplicities are kept for passing values and are zero for the rest |
| Subsequence.FilterFilter | bundles/EcommerceFrameworkBundle/Tracking/TrackingManager.php:124-128 | filtering by activity, then by capability, is filtering once by both |
| Subsequence.FilterIsSubsequence | bundles/EcommerceFrameworkBundle/Tracking/TrackingManager.php:98-109 | `Filter` keeps exactly the passing positions, ascending |

## Left out

- Tracker handler bodies, and what trackers send to third parties. A handler call is recorded in `calls` and does nothing else.
- Carts, products, categories, pages, checkout steps, step numbers, checkout options and quantities are opaque `Value` handles. No arithmetic is done on the `int|float` quantity.
- Default argument values (`$page = null`, `$quantity = 1`, `$stepNumber = null`, `$checkoutOption = null`, `$trackers = []`). Every argument is passed explicitly.
- Tenant resolution by `IEnvironment`. The environment is two assignable fields holding the reported tenants.
- The order's property bag beyond `os_tracked`. It is a boolean, so the truthiness of other values in that property is not modeled. Persistence beyond a stored copy of the flag and a save counter is also not modeled.
- Exceptions from tracker handlers or from `save()`. In PHP they abort the rest of a fan-out, and Dafny has none.
- PHP's loose comparison in `in_array`, under which, for example, `"1"` equals `"01"`. Membership is plain string equality.
- `instanceof` and PHP type hints. Capabilities are a set of tags per tracker. Whether an interface named `ProductInterfaceImpression` exists is outside the file, and the tag is kept as written. The docblock of `trackProductImpression` names `IProductImpression` (line 134) while the test at line 141 is against `ProductInterfaceImpression`; the docblock of `trackProductView` names `ProductInterfaceView` (line 152) while line 157 tests `IProductView`. If no `ProductInterfaceImpression` is declared, PHP's `instanceof` is silently false and no tracker ever receives an impression; the model reproduces that only for trackers that do not carry the tag.
- Object identity of trackers. Trackers are values distinguished by an `id`, so registering the same tracker twice gives two equal entries.
- Concurrency and the sharing of the cache between requests. The class is single-threaded.
