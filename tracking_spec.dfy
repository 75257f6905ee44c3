/**
  The specification the tracking manager is proved against: trackers and
  their capabilities, the tenant filter that decides which trackers are
  active, the one-entry cache of the active set, and the calls a fan-out
  makes.
 */
module TrackingSpec {
  import opened Wrappers
  import opened Subsequence
  import opened Collaborators

  /**
    The eleven tracker interfaces the manager tests with `instanceof`, one
    per event kind. `ProductInterfaceImpression` is the name the
    product-impression fan-out tests, kept as written.
   */
  datatype Capability =
    | CategoryPageView
    | ProductInterfaceImpression
    | ProductView
    | CartUpdate
    | CartProductActionAdd
    | ProductActionAdd
    | CartProductActionRemove
    | ProductActionRemove
    | Checkout
    | CheckoutComplete
    | CheckoutStep

  /**
    A registered tracker: an identity, the interfaces it implements and its
    two tenant lists (an empty list places no restriction on that axis).
   */
  datatype Tracker = Tracker(
    id: nat,
    capabilities: set<Capability>,
    assortmentTenants: seq<string>,
    checkoutTenants: seq<string>)

  /** One tracking event with the arguments passed on to each handler. */
  datatype Event =
    | CategoryPageViewEvent(category: Value, page: Value)
    | ProductImpressionEvent(product: Value)
    | ProductViewEvent(product: Value)
    | CartUpdateEvent(cart: Value)
    | CartProductActionAddEvent(cart: Value, product: Value, quantity: Value)
    | ProductActionAddEvent(product: Value, quantity: Value)
    | CartProductActionRemoveEvent(cart: Value, product: Value, quantity: Value)
    | ProductActionRemoveEvent(product: Value, quantity: Value)
    | CheckoutEvent(cart: Value)
    | CheckoutCompleteEvent(order: Order)
    | CheckoutStepEvent(step: Value, cart: Value, stepNumber: Value, checkoutOption: Value)
  {
    /**
      The interface a tracker must implement to receive this event. Each
      event kind has its own interface: the deprecated add and remove forms
      share none with the cart-aware ones.
     */
    function Required(): (c: Capability)
      ensures (c == CategoryPageView) == CategoryPageViewEvent?
      ensures (c == ProductInterfaceImpression) == ProductImpressionEvent?
      ensures (c == ProductView) == ProductViewEvent?
      ensures (c == CartUpdate) == CartUpdateEvent?
      ensures (c == CartProductActionAdd) == CartProductActionAddEvent?
      ensures (c == ProductActionAdd) == ProductActionAddEvent?
      ensures (c == CartProductActionRemove) == CartProductActionRemoveEvent?
      ensures (c == ProductActionRemove) == ProductActionRemoveEvent?
      ensures (c == Checkout) == CheckoutEvent?
      ensures (c == CheckoutComplete) == CheckoutCompleteEvent?
      ensures (c == CheckoutStep) == CheckoutStepEvent?
    {
      match this
      case CategoryPageViewEvent(_, _) => CategoryPageView
      case ProductImpressionEvent(_) => ProductInterfaceImpression
      case ProductViewEvent(_) => ProductView
      case CartUpdateEvent(_) => CartUpdate
      case CartProductActionAddEvent(_, _, _) => CartProductActionAdd
      case ProductActionAddEvent(_, _) => ProductActionAdd
      case CartProductActionRemoveEvent(_, _, _) => CartProductActionRemove
      case ProductActionRemoveEvent(_, _) => ProductActionRemove
      case CheckoutEvent(_) => Checkout
      case CheckoutCompleteEvent(_) => CheckoutComplete
      case CheckoutStepEvent(_, _, _, _) => CheckoutStep
    }
  }

  /** A call the manager makes on a collaborator, in the order it makes them. */
  datatype Call =
    | Handled(tracker: Tracker, event: Event)
    | Saved(order: Order)

  // ---------------------------------------------------------------------
  // Tenants

  /** The strings PHP treats as false. */
  predicate Falsy(s: string)
  {
    s == "" || s == "0"
  }

  /** `$tenant ?: 'default'`: a missing or falsy tenant becomes `"default"`. */
  function TenantOrDefault(reported: Option<string>): (tenant: string)
    ensures !Falsy(tenant)
    ensures tenant == "default" || reported == Some(tenant)
  {
    if reported.None? || Falsy(reported.value) then "default" else reported.value
  }

  /** Defaulting a tenant that is already a defaulted tenant changes nothing. */
  lemma TenantOrDefaultIdempotent(reported: Option<string>)
    ensures TenantOrDefault(Some(TenantOrDefault(reported))) == TenantOrDefault(reported)
  {
  }

  /** The effective tenant is `"default"` exactly when none, a falsy one or `"default"` itself is reported. */
  lemma TenantIsDefault(reported: Option<string>)
    ensures TenantOrDefault(reported) == "default" <==>
      (reported.None? || Falsy(reported.value) || reported.value == "default")
  {
  }

  // ---------------------------------------------------------------------
  // The tenant filter

  /** A tenant list admits a tenant when it is empty or contains it. */
  predicate Admits(tenants: seq<string>, tenant: string)
  {
    |tenants| == 0 || tenant in tenants
  }

  /** A tracker is active when EITHER of its two tenant lists admits the current tenant. */
  predicate IsActive(t: Tracker, assortment: string, checkout: string)
    ensures |t.assortmentTenants| == 0 || assortment in t.assortmentTenants ==> IsActive(t, assortment, checkout)
    ensures |t.checkoutTenants| == 0 || checkout in t.checkoutTenants ==> IsActive(t, assortment, checkout)
  {
    Admits(t.assortmentTenants, assortment) || Admits(t.checkoutTenants, checkout)
  }

  function ActiveIn(assortment: string, checkout: string): Tracker -> bool
  {
    (t: Tracker) => IsActive(t, assortment, checkout)
  }

  /** The trackers of `registry` active for the tenant pair, in registration order. */
  function ActiveSubsequence(registry: seq<Tracker>, assortment: string, checkout: string): (active: seq<Tracker>)
    ensures |active| <= |registry|
    ensures forall t :: t in active ==> t in registry && IsActive(t, assortment, checkout)
  {
    FilterPasses(registry, ActiveIn(assortment, checkout));
    Filter(registry, ActiveIn(assortment, checkout))
  }

  /**
    The active set is the subsequence of the registry at the ascending
    positions `Selected(...)`, which are exactly the positions of active
    trackers: nothing reordered, nothing repeated, nothing active skipped.
   */
  lemma {:induction false} ActiveSubsequenceIsSubsequence(registry: seq<Tracker>, assortment: string, checkout: string)
    ensures var positions, active := Selected(registry, ActiveIn(assortment, checkout)),
                                     ActiveSubsequence(registry, assortment, checkout);
      && |positions| == |active|
      && (forall j :: 0 <= j < |positions| ==> positions[j] < |registry| && active[j] == registry[positions[j]])
      && (forall j, k :: 0 <= j < k < |positions| ==> positions[j] < positions[k])
      && (forall i :: 0 <= i < |registry| ==> (i in positions <==> IsActive(registry[i], assortment, checkout)))
  {
    FilterIsSubsequence(registry, ActiveIn(assortment, checkout));
  }

  /** A tracker is in the active set exactly when it is registered and active. */
  lemma ActiveSubsequenceMembership(registry: seq<Tracker>, assortment: string, checkout: string, t: Tracker)
    ensures t in ActiveSubsequence(registry, assortment, checkout) <==>
      t in registry && IsActive(t, assortment, checkout)
  {
    FilterMembership(registry, ActiveIn(assortment, checkout), t);
  }

  /** An active tracker registered n times is in the active set n times; an inactive one never. */
  lemma ActiveSubsequenceMultiplicity(registry: seq<Tracker>, assortment: string, checkout: string, t: Tracker)
    ensures multiset(ActiveSubsequence(registry, assortment, checkout))[t] ==
      if IsActive(t, assortment, checkout) then multiset(registry)[t] else 0
  {
    FilterMultiplicity(registry, ActiveIn(assortment, checkout), t);
  }

  /**
    Because the axes are joined by OR, a tracker with either tenant list
    empty is active under every tenant pair, whatever its other list says.
   */
  lemma UnrestrictedAxisAlwaysActive(registry: seq<Tracker>, t: Tracker, assortment: string, checkout: string)
    requires t in registry
    requires |t.assortmentTenants| == 0 || |t.checkoutTenants| == 0
    ensures t in ActiveSubsequence(registry, assortment, checkout)
  {
    ActiveSubsequenceMembership(registry, assortment, checkout, t);
  }

  /** A tracker is left out only when both of its lists are non-empty and neither admits the tenant. */
  lemma InactiveOnlyIfBothAxesExclude(t: Tracker, assortment: string, checkout: string)
    ensures !IsActive(t, assortment, checkout) <==>
      (|t.assortmentTenants| > 0 && assortment !in t.assortmentTenants &&
       |t.checkoutTenants| > 0 && checkout !in t.checkoutTenants)
  {
  }

  /** With nothing registered there is nothing active. */
  lemma EmptyRegistryNothingActive(assortment: string, checkout: string)
    ensures ActiveSubsequence([], assortment, checkout) == []
  {
  }

  // ---------------------------------------------------------------------
  // The active-set cache

  /**
    The cached tenant pair (`None` for the initial `null`) and the active
    set computed for it.
   */
  datatype CacheState = CacheState(assortment: Option<string>, checkout: Option<string>, active: seq<Tracker>)

  /** The cache before the first query. */
  const EmptyCache := CacheState(None, None, [])

  /** The cached pair is the current pair; an unset (`null`) tenant matches no tenant. */
  predicate IsHit(cache: CacheState, assortment: string, checkout: string)
    ensures cache.assortment.None? || cache.checkout.None? ==> !IsHit(cache, assortment, checkout)
  {
    cache.assortment == Some(assortment) && cache.checkout == Some(checkout)
  }

  /** One query of the active set under the current pair and the current registry. */
  function Lookup(cache: CacheState, registry: seq<Tracker>, assortment: string, checkout: string): (next: CacheState)
    ensures IsHit(next, assortment, checkout)
    ensures next.active == cache.active || next.active == ActiveSubsequence(registry, assortment, checkout)
  {
    if IsHit(cache, assortment, checkout) then cache
    else CacheState(Some(assortment), Some(checkout), ActiveSubsequence(registry, assortment, checkout))
  }

  /** The first query always computes the active set: `null` equals no tenant. */
  lemma FirstLookupRecomputes(registry: seq<Tracker>, assortment: string, checkout: string)
    ensures Lookup(EmptyCache, registry, assortment, checkout).active ==
      ActiveSubsequence(registry, assortment, checkout)
  {
  }

  /**
    A second query under the same pair is a hit and returns the same set
    even when trackers were registered in between.
   */
  lemma LookupTwiceIsHit(cache: CacheState, registry: seq<Tracker>, later: seq<Tracker>,
                         assortment: string, checkout: string)
    ensures var first := Lookup(cache, registry, assortment, checkout);
      Lookup(first, later, assortment, checkout) == first
  {
  }

  /** A query under a pair other than the cached one recomputes from the current registry. */
  lemma LookupMissRecomputes(cache: CacheState, registry: seq<Tracker>, assortment: string, checkout: string)
    requires !IsHit(cache, assortment, checkout)
    ensures Lookup(cache, registry, assortment, checkout) ==
      CacheState(Some(assortment), Some(checkout), ActiveSubsequence(registry, assortment, checkout))
  {
  }

  /**
    Whatever was cached, a query returns the active set of the registry as
    it stood at the last recompute. Here `stale` trackers were registered
    since then: a hit returns the active set of the registry without them,
    a miss (always the case for the initial unset pair) that of the whole
    registry.
   */
  lemma {:induction false} LookupSeesPrefix(cache: CacheState, registry: seq<Tracker>, stale: nat,
                                            assortment: string, checkout: string)
    requires stale <= |registry|
    requires cache.assortment.None? <==> cache.checkout.None?
    requires cache.assortment.None? ==> cache.active == [] && stale == |registry|
    requires cache.assortment.Some? && cache.checkout.Some? ==>
      cache.active == ActiveSubsequence(registry[..|registry| - stale], cache.assortment.value, cache.checkout.value)
    ensures Lookup(cache, registry, assortment, checkout).active ==
      ActiveSubsequence(registry[..if IsHit(cache, assortment, checkout) then |registry| - stale else |registry|],
                        assortment, checkout)
  {
    if !IsHit(cache, assortment, checkout) {
      assert registry[..|registry|] == registry;
    }
  }

  // ---------------------------------------------------------------------
  // Fan-out

  /** The trackers that implement the interface the event requires. */
  function CapableOf(e: Event): Tracker -> bool
  {
    (t: Tracker) => e.Required() in t.capabilities
  }

  /** The handler calls one fan-out of `e` over `active` makes, in order. */
  function Deliveries(active: seq<Tracker>, e: Event): (calls: seq<Call>)
    ensures |calls| <= |active|
    ensures forall j :: 0 <= j < |calls| ==>
      calls[j].Handled? && calls[j].event == e && calls[j].tracker in active &&
      e.Required() in calls[j].tracker.capabilities
  {
    if active == [] then []
    else
      var last := active[|active| - 1];
      Deliveries(active[..|active| - 1], e) + (if e.Required() in last.capabilities then [Handled(last, e)] else [])
  }

  /** Extending the active set by one tracker extends the calls by its call, if it is capable. */
  lemma DeliveriesSnoc(active: seq<Tracker>, t: Tracker, e: Event)
    ensures Deliveries(active + [t], e) ==
      Deliveries(active, e) + (if e.Required() in t.capabilities then [Handled(t, e)] else [])
  {
    assert (active + [t])[..|active + [t]| - 1] == active;
  }

  /**
    A fan-out calls exactly the capable trackers of the active set, in
    active-set order, each with the event itself.
   */
  lemma {:induction false} DeliveriesAreCapableTrackers(active: seq<Tracker>, e: Event)
    ensures |Deliveries(active, e)| == |Filter(active, CapableOf(e))|
    ensures forall j :: 0 <= j < |Deliveries(active, e)| ==>
      Deliveries(active, e)[j] == Handled(Filter(active, CapableOf(e))[j], e)
  {
    if active != [] {
      DeliveriesAreCapableTrackers(active[..|active| - 1], e);
    }
  }

  /**
    One call per occurrence of a capable tracker in the active set, none for
    a tracker without the capability, and nothing but handler calls for `e`.
   */
  lemma {:induction false} DeliveriesMultiplicity(active: seq<Tracker>, e: Event, t: Tracker)
    ensures multiset(Deliveries(active, e))[Handled(t, e)] ==
      if e.Required() in t.capabilities then multiset(active)[t] else 0
    ensures forall c :: c in Deliveries(active, e) ==>
      c.Handled? && c.event == e && c.tracker in active && e.Required() in c.tracker.capabilities
  {
    if active != [] {
      var init, last := active[..|active| - 1], active[|active| - 1];
      assert active == init + [last];
      DeliveriesMultiplicity(init, e, t);
    }
  }

  /** The trackers called from the registry are those both active and capable, in registration order. */
  lemma DeliveriesFromRegistry(registry: seq<Tracker>, assortment: string, checkout: string, e: Event)
    ensures var called := Filter(registry, (t: Tracker) => IsActive(t, assortment, checkout) && e.Required() in t.capabilities);
      && |Deliveries(ActiveSubsequence(registry, assortment, checkout), e)| == |called|
      && forall j :: 0 <= j < |called| ==>
           Deliveries(ActiveSubsequence(registry, assortment, checkout), e)[j] == Handled(called[j], e)
  {
    var both := (t: Tracker) => IsActive(t, assortment, checkout) && e.Required() in t.capabilities;
    FilterFilter(registry, ActiveIn(assortment, checkout), CapableOf(e), both);
    DeliveriesAreCapableTrackers(ActiveSubsequence(registry, assortment, checkout), e);
  }

  /**
    The deprecated add and remove interfaces are not inferred from the
    cart-aware ones, nor the other way round: a tracker receives exactly the
    kinds it implements.
   */
  lemma DeprecatedKindsAreSeparate(t: Tracker, cart: Value, product: Value, quantity: Value)
    ensures Deliveries([t], ProductActionAddEvent(product, quantity)) ==
      if ProductActionAdd in t.capabilities then [Handled(t, ProductActionAddEvent(product, quantity))] else []
    ensures Deliveries([t], CartProductActionAddEvent(cart, product, quantity)) ==
      if CartProductActionAdd in t.capabilities then [Handled(t, CartProductActionAddEvent(cart, product, quantity))] else []
    ensures Deliveries([t], ProductActionRemoveEvent(product, quantity)) ==
      if ProductActionRemove in t.capabilities then [Handled(t, ProductActionRemoveEvent(product, quantity))] else []
    ensures Deliveries([t], CartProductActionRemoveEvent(cart, product, quantity)) ==
      if CartProductActionRemove in t.capabilities then [Handled(t, CartProductActionRemoveEvent(cart, product, quantity))] else []
  {
    assert [t][..0] == [];
  }

  /** With nothing active a fan-out calls nothing. */
  lemma NothingActiveNothingCalled(e: Event)
    ensures Deliveries([], e) == []
  {
  }

  // ---------------------------------------------------------------------
  // The two-tracker scenario

  /** Restricted to assortment tenant "eu", receives product views. */
  const TrackerA := Tracker(1, {ProductView}, ["eu"], [])

  /** Restricted to checkout tenant "b2b", receives product views and checkout completion. */
  const TrackerB := Tracker(2, {ProductView, CheckoutComplete}, [], ["b2b"])

  /**
    Under ("eu", "default") both trackers are active and a product view
    reaches both. Under ("us", "b2b") both are still active: A's assortment
    list rejects "us", but its empty checkout list admits every checkout
    tenant, and one admitting axis suffices.
   */
  lemma TwoTrackerScenario(product: Value, order: Order)
    ensures ActiveSubsequence([TrackerA, TrackerB], "eu", "default") == [TrackerA, TrackerB]
    ensures ActiveSubsequence([TrackerA, TrackerB], "us", "b2b") == [TrackerA, TrackerB]
    ensures Deliveries([TrackerA, TrackerB], ProductViewEvent(product)) ==
      [Handled(TrackerA, ProductViewEvent(product)), Handled(TrackerB, ProductViewEvent(product))]
    ensures Deliveries([TrackerA, TrackerB], CheckoutCompleteEvent(order)) ==
      [Handled(TrackerB, CheckoutCompleteEvent(order))]
  {
    FilterKeepsAll([TrackerA, TrackerB], ActiveIn("eu", "default"));
    FilterKeepsAll([TrackerA, TrackerB], ActiveIn("us", "b2b"));
    assert [TrackerA, TrackerB][..1] == [TrackerA];
  }
}
