/**
  The tracking manager: a registry of trackers, a cache of the trackers
  active for the current tenant pair, and one fan-out per event kind that
  calls every active tracker implementing that kind's interface.
  `calls` records, in order, every handler call and every order save the
  manager makes; it stands for the side effects that leave the manager.
 */
module Tracking {
  import opened Wrappers
  import opened Subsequence
  import opened Collaborators
  import opened TrackingSpec

  class TrackingManager {
    var trackers: seq<Tracker>
    var activeTrackerCache: seq<Tracker>
    var cachedAssortmentTenant: Option<string>
    var cachedCheckoutTenant: Option<string>
    const environment: Environment
    var calls: seq<Call>
    /** How many trackers were registered when the cache was last computed. */
    ghost var cachedRegistryLength: nat

    /**
      The tenant pair is cached as a whole or not at all, and the cache is the
      active set of the registry as it stood at the last recompute.
     */
    ghost predicate Valid()
      reads this
    {
      && (cachedAssortmentTenant.None? <==> cachedCheckoutTenant.None?)
      && cachedRegistryLength <= |trackers|
      && (cachedAssortmentTenant.None? ==> activeTrackerCache == [] && cachedRegistryLength == 0)
      && (cachedAssortmentTenant.Some? && cachedCheckoutTenant.Some? ==>
            activeTrackerCache == ActiveSubsequence(trackers[..cachedRegistryLength],
                                                    cachedAssortmentTenant.value, cachedCheckoutTenant.value))
    }

    function Cache(): CacheState
      reads this
    {
      CacheState(cachedAssortmentTenant, cachedCheckoutTenant, activeTrackerCache)
    }

    function CurrentAssortmentTenant(): string
      reads environment
    {
      TenantOrDefault(environment.assortmentTenant)
    }

    function CurrentCheckoutTenant(): string
      reads environment
    {
      TenantOrDefault(environment.checkoutTenant)
    }

    /**
      What every fan-out leaves behind: the cache has been queried once under
      the current tenants, and the calls made are `before` followed by one
      handler call per capable active tracker.
     */
    ghost predicate Served(cacheBefore: CacheState, before: seq<Call>, e: Event)
      reads this, environment
    {
      && Valid()
      && Cache() == Lookup(cacheBefore, trackers, CurrentAssortmentTenant(), CurrentCheckoutTenant())
      && calls == before + Deliveries(activeTrackerCache, e)
    }

    /** Registers the given trackers in order; nothing is cached yet. */
    constructor (initial: seq<Tracker>, environment: Environment)
      ensures Valid()
      ensures trackers == initial && Cache() == EmptyCache && calls == []
      ensures this.environment == environment
    {
      trackers := [];
      activeTrackerCache := [];
      cachedAssortmentTenant, cachedCheckoutTenant := None, None;
      this.environment := environment;
      calls := [];
      cachedRegistryLength := 0;
      new;
      for i := 0 to |initial|
        invariant Valid()
        invariant trackers == initial[..i] && Cache() == EmptyCache && calls == []
      {
        RegisterTracker(initial[i]);
        assert initial[..i + 1] == initial[..i] + [initial[i]];
      }
    }

    /** Appends a tracker, duplicates included; the cache is left as it is. */
    method RegisterTracker(t: Tracker)
      requires Valid()
      modifies this
      ensures Valid()
      ensures trackers == old(trackers) + [t]
      ensures Cache() == old(Cache()) && calls == old(calls)
      ensures cachedRegistryLength == old(cachedRegistryLength)
    {
      trackers := trackers + [t];
      assert trackers[..cachedRegistryLength] == old(trackers)[..cachedRegistryLength];
    }

    /** All registered trackers, active or not, in registration order. */
    method GetTrackers() returns (registered: seq<Tracker>)
      ensures registered == trackers
    {
      registered := trackers;
    }

    /**
      The trackers active for the current tenants: recomputed from the whole
      registry when the pair differs from the cached one, otherwise the cached
      set, with nothing changed.
     */
    method GetActiveTrackers() returns (active: seq<Tracker>)
      requires Valid()
      modifies this
      ensures Valid()
      ensures Cache() == Lookup(old(Cache()), trackers, CurrentAssortmentTenant(), CurrentCheckoutTenant())
      ensures active == activeTrackerCache
      ensures trackers == old(trackers) && calls == old(calls)
      ensures old(IsHit(Cache(), CurrentAssortmentTenant(), CurrentCheckoutTenant())) ==> unchanged(this)
    {
      var assortment := TenantOrDefault(environment.assortmentTenant);
      var checkout := TenantOrDefault(environment.checkoutTenant);
      if Some(assortment) != cachedAssortmentTenant || Some(checkout) != cachedCheckoutTenant {
        cachedCheckoutTenant := Some(checkout);
        cachedAssortmentTenant := Some(assortment);
        CollectActive(assortment, checkout);
        cachedRegistryLength := |trackers|;
        assert trackers[..cachedRegistryLength] == trackers;
      }
      active := activeTrackerCache;
    }

    /**
      Rebuilds the cached active set for the tenant pair by one pass over the
      registry: a tracker is kept when either of its tenant lists is empty or
      names the tenant.
     */
    method CollectActive(assortment: string, checkout: string)
      modifies this`activeTrackerCache
      ensures activeTrackerCache == ActiveSubsequence(trackers, assortment, checkout)
    {
      activeTrackerCache := [];
      for i := 0 to |trackers|
        invariant activeTrackerCache == Filter(trackers[..i], ActiveIn(assortment, checkout))
        modifies this`activeTrackerCache
      {
        var t := trackers[i];
        var isActive := false;
        if |t.assortmentTenants| == 0 || assortment in t.assortmentTenants {
          isActive := true;
        }
        if |t.checkoutTenants| == 0 || checkout in t.checkoutTenants {
          isActive := true;
        }
        assert isActive == ActiveIn(assortment, checkout)(t);
        if isActive {
          activeTrackerCache := activeTrackerCache + [t];
        }
        assert trackers[..i + 1] == trackers[..i] + [t];
        FilterSnoc(trackers[..i], t, ActiveIn(assortment, checkout));
      }
      assert trackers[..|trackers|] == trackers;
      assert activeTrackerCache == Filter(trackers, ActiveIn(assortment, checkout));
    }

    /** Calls the handler of `e` on every tracker of `active` that implements it, in order. */
    method Notify(active: seq<Tracker>, e: Event)
      modifies this`calls
      ensures calls == old(calls) + Deliveries(active, e)
    {
      ghost var before := calls;
      var needed := e.Required();
      for i := 0 to |active|
        invariant calls == before + Deliveries(active[..i], e)
      {
        var t := active[i];
        assert active[..i + 1] == active[..i] + [t];
        DeliveriesSnoc(active[..i], t, e);
        if needed in t.capabilities {
          calls := calls + [Handled(t, e)];
        }
      }
      assert active[..|active|] == active;
    }

    method TrackCategoryPageView(category: Value, page: Value)
      requires Valid()
      modifies this
      ensures trackers == old(trackers)
      ensures Served(old(Cache()), old(calls), CategoryPageViewEvent(category, page))
    {
      var active := GetActiveTrackers();
      Notify(active, CategoryPageViewEvent(category, page));
    }

    method TrackProductImpression(product: Value)
      requires Valid()
      modifies this
      ensures trackers == old(trackers)
      ensures Served(old(Cache()), old(calls), ProductImpressionEvent(product))
    {
      var active := GetActiveTrackers();
      Notify(active, ProductImpressionEvent(product));
    }

    method TrackProductView(product: Value)
      requires Valid()
      modifies this
      ensures trackers == old(trackers)
      ensures Served(old(Cache()), old(calls), ProductViewEvent(product))
    {
      var active := GetActiveTrackers();
      Notify(active, ProductViewEvent(product));
    }

    method TrackCartUpdate(cart: Value)
      requires Valid()
      modifies this
      ensures trackers == old(trackers)
      ensures Served(old(Cache()), old(calls), CartUpdateEvent(cart))
    {
      var active := GetActiveTrackers();
      Notify(active, CartUpdateEvent(cart));
    }

    method TrackCartProductActionAdd(cart: Value, product: Value, quantity: Value)
      requires Valid()
      modifies this
      ensures trackers == old(trackers)
      ensures Served(old(Cache()), old(calls), CartProductActionAddEvent(cart, product, quantity))
    {
      var active := GetActiveTrackers();
      Notify(active, CartProductActionAddEvent(cart, product, quantity));
    }

    /** The deprecated form: reaches only trackers implementing the deprecated interface. */
    method TrackProductActionAdd(product: Value, quantity: Value)
      requires Valid()
      modifies this
      ensures trackers == old(trackers)
      ensures Served(old(Cache()), old(calls), ProductActionAddEvent(product, quantity))
    {
      var active := GetActiveTrackers();
      Notify(active, ProductActionAddEvent(product, quantity));
    }

    method TrackCartProductActionRemove(cart: Value, product: Value, quantity: Value)
      requires Valid()
      modifies this
      ensures trackers == old(trackers)
      ensures Served(old(Cache()), old(calls), CartProductActionRemoveEvent(cart, product, quantity))
    {
      var active := GetActiveTrackers();
      Notify(active, CartProductActionRemoveEvent(cart, product, quantity));
    }

    /** The deprecated form: reaches only trackers implementing the deprecated interface. */
    method TrackProductActionRemove(product: Value, quantity: Value)
      requires Valid()
      modifies this
      ensures trackers == old(trackers)
      ensures Served(old(Cache()), old(calls), ProductActionRemoveEvent(product, quantity))
    {
      var active := GetActiveTrackers();
      Notify(active, ProductActionRemoveEvent(product, quantity));
    }

    method TrackCheckout(cart: Value)
      requires Valid()
      modifies this
      ensures trackers == old(trackers)
      ensures Served(old(Cache()), old(calls), CheckoutEvent(cart))
    {
      var active := GetActiveTrackers();
      Notify(active, CheckoutEvent(cart));
    }

    /**
      At most once per order: an order already marked `os_tracked` is left
      alone and nothing is called, the cache not even queried. Otherwise the
      order is marked and saved once, and only then are the trackers called.
     */
    method TrackCheckoutComplete(order: Order)
      requires Valid()
      modifies this, order
      ensures Valid()
      ensures old(order.osTracked) ==> unchanged(this, order)
      ensures !old(order.osTracked) ==>
        && order.osTracked && order.storedOsTracked
        && order.saves == old(order.saves) + 1
        && trackers == old(trackers)
        && Served(old(Cache()), old(calls) + [Saved(order)], CheckoutCompleteEvent(order))
    {
      if order.osTracked {
        return;
      }
      order.SetOsTracked(true);
      order.Save();
      calls := calls + [Saved(order)];
      var active := GetActiveTrackers();
      Notify(active, CheckoutCompleteEvent(order));
    }

    method TrackCheckoutStep(step: Value, cart: Value, stepNumber: Value, checkoutOption: Value)
      requires Valid()
      modifies this
      ensures trackers == old(trackers)
      ensures Served(old(Cache()), old(calls), CheckoutStepEvent(step, cart, stepNumber, checkoutOption))
    {
      var active := GetActiveTrackers();
      Notify(active, CheckoutStepEvent(step, cart, stepNumber, checkoutOption));
    }
  }

  /**
    Completing the same checkout twice saves the order once and calls the
    checkout-complete handlers once.
   */
  method TrackCheckoutCompleteTwice(manager: TrackingManager, order: Order)
    requires manager.Valid()
    modifies manager, order
    ensures manager.Valid()
    ensures order.osTracked
    ensures order.saves == old(order.saves) + (if old(order.osTracked) then 0 else 1)
    ensures old(order.osTracked) ==> manager.calls == old(manager.calls)
    ensures !old(order.osTracked) ==>
      manager.calls == old(manager.calls) + [Saved(order)] +
                       Deliveries(manager.activeTrackerCache, CheckoutCompleteEvent(order))
  {
    manager.TrackCheckoutComplete(order);
    ghost var afterFirst := manager.calls;
    manager.TrackCheckoutComplete(order);
    assert manager.calls == afterFirst;
  }

  /**
    A client run: two trackers and a product view under one tenant pair,
    then D is registered. D is active under that pair, so a recompute would
    call it, but the tenants did not change, the cached set is served and
    the second view reaches A and B only.
   */
  method StaleCacheRun(product: Value) returns (log: seq<Call>)
    ensures log == Views([TrackerA, TrackerB], product) + Views([TrackerA, TrackerB], product)
    ensures ActiveSubsequence([TrackerA, TrackerB, TrackerD], "eu", "default") == [TrackerA, TrackerB, TrackerD]
  {
    var environment := new Environment(Some("eu"), None);
    var manager := new TrackingManager([TrackerA, TrackerB], environment);
    StaleFacts(product);
    manager.TrackProductView(product);
    ghost var first := manager.calls;
    assert first == Views([TrackerA, TrackerB], product);
    manager.RegisterTracker(TrackerD);
    assert IsHit(manager.Cache(), manager.CurrentAssortmentTenant(), manager.CurrentCheckoutTenant());
    manager.TrackProductView(product);
    log := manager.calls;
  }

  /**
    A client run: a product view under ("eu", "default") reaches A and B but
    not C; after a switch to ("us", "b2b") the active set is recomputed and
    all three are called.
   */
  method TenantSwitchRun(product: Value) returns (log: seq<Call>)
    ensures log == Views([TrackerA, TrackerB], product) + Views([TrackerA, TrackerB, TrackerC], product)
  {
    var environment := new Environment(Some("eu"), None);
    var manager := new TrackingManager([TrackerA, TrackerB, TrackerC], environment);
    SwitchFacts(product);
    manager.TrackProductView(product);
    ghost var first := manager.calls;
    assert first == Views([TrackerA, TrackerB], product);
    environment.assortmentTenant, environment.checkoutTenant := Some("us"), Some("b2b");
    assert !IsHit(manager.Cache(), manager.CurrentAssortmentTenant(), manager.CurrentCheckoutTenant());
    manager.TrackProductView(product);
    log := manager.calls;
  }

  /** The tenant filter and fan-out facts `StaleCacheRun` relies on. */
  lemma StaleFacts(product: Value)
    ensures TenantOrDefault(Some("eu")) == "eu" && TenantOrDefault(None) == "default"
    ensures ActiveSubsequence([TrackerA, TrackerB], "eu", "default") == [TrackerA, TrackerB]
    ensures Deliveries([TrackerA, TrackerB], ProductViewEvent(product)) == Views([TrackerA, TrackerB], product)
    ensures ActiveSubsequence([TrackerA, TrackerB, TrackerD], "eu", "default") == [TrackerA, TrackerB, TrackerD]
  {
    ActiveAndViewed([TrackerA, TrackerB], "eu", "default", product);
    ActiveAndViewed([TrackerA, TrackerB, TrackerD], "eu", "default", product);
  }

  /** The tenant filter and fan-out facts `TenantSwitchRun` relies on. */
  lemma SwitchFacts(product: Value)
    ensures TenantOrDefault(Some("eu")) == "eu" && TenantOrDefault(None) == "default"
    ensures TenantOrDefault(Some("us")) == "us" && TenantOrDefault(Some("b2b")) == "b2b"
    ensures "eu" != "us"
    ensures !IsHit(CacheState(Some("eu"), Some("default"), []), "us", "b2b")
    ensures ActiveSubsequence([TrackerA, TrackerB, TrackerC], "eu", "default") == [TrackerA, TrackerB]
    ensures ActiveSubsequence([TrackerA, TrackerB, TrackerC], "us", "b2b") == [TrackerA, TrackerB, TrackerC]
    ensures Deliveries([TrackerA, TrackerB], ProductViewEvent(product)) == Views([TrackerA, TrackerB], product)
    ensures Deliveries([TrackerA, TrackerB, TrackerC], ProductViewEvent(product)) ==
      Views([TrackerA, TrackerB, TrackerC], product)
  {
    TenantNames();
    CInactiveUnderEu();
    ActiveAndViewed([TrackerA, TrackerB], "eu", "default", product);
    AllActiveUnderUs(product);
  }

  /** The tenant names of the client runs are neither empty nor `"0"`, and pairwise distinct where it matters. */
  lemma TenantNames()
    ensures TenantOrDefault(Some("eu")) == "eu" && TenantOrDefault(None) == "default"
    ensures TenantOrDefault(Some("us")) == "us" && TenantOrDefault(Some("b2b")) == "b2b"
    ensures "eu" != "us"
  {
    assert "eu"[0] != "0"[0] && "us"[0] != "0"[0] && "eu"[0] != "us"[0];
    assert |"b2b"| != |"0"| && |"b2b"| != |""|;
  }

  /** Under ("us", "b2b") all three trackers are active and all view products. */
  lemma AllActiveUnderUs(product: Value)
    ensures ActiveSubsequence([TrackerA, TrackerB, TrackerC], "us", "b2b") == [TrackerA, TrackerB, TrackerC]
    ensures Deliveries([TrackerA, TrackerB, TrackerC], ProductViewEvent(product)) ==
      Views([TrackerA, TrackerB, TrackerC], product)
  {
    ActiveAndViewed([TrackerA, TrackerB, TrackerC], "us", "b2b", product);
  }

  /** C is restricted on both axes and is not active under ("eu", "default"). */
  lemma CInactiveUnderEu()
    ensures ActiveSubsequence([TrackerA, TrackerB, TrackerC], "eu", "default") ==
      ActiveSubsequence([TrackerA, TrackerB], "eu", "default")
  {
    assert !IsActive(TrackerC, "eu", "default") by {
      assert "eu" != "b2b-shop" by { assert |"eu"| != |"b2b-shop"|; }
      assert "default" != "b2b" by { assert |"default"| != |"b2b"|; }
    }
    FilterSnoc([TrackerA, TrackerB], TrackerC, ActiveIn("eu", "default"));
    assert [TrackerA, TrackerB] + [TrackerC] == [TrackerA, TrackerB, TrackerC];
  }

  /** The product-view calls made on each of `ts`, in order. */
  function Views(ts: seq<Tracker>, product: Value): seq<Call>
  {
    seq(|ts|, j requires 0 <= j < |ts| => Handled(ts[j], ProductViewEvent(product)))
  }

  /** When every tracker is active and views products, all are active and all are called. */
  lemma {:induction false} ActiveAndViewed(ts: seq<Tracker>, assortment: string, checkout: string, product: Value)
    requires forall j :: 0 <= j < |ts| ==> IsActive(ts[j], assortment, checkout) && ProductView in ts[j].capabilities
    ensures ActiveSubsequence(ts, assortment, checkout) == ts
    ensures Deliveries(ts, ProductViewEvent(product)) == Views(ts, product)
  {
    FilterKeepsAll(ts, ActiveIn(assortment, checkout));
    if ts != [] {
      var init := ts[..|ts| - 1];
      ActiveAndViewed(init, assortment, checkout, product);
      assert Views(ts, product) == Views(init, product) + [Handled(ts[|ts| - 1], ProductViewEvent(product))];
    }
  }

  /** Registered after the first query; restricted to checkout tenant "b2b". */
  const TrackerC := Tracker(3, {ProductView}, ["b2b-shop"], ["b2b"])

  /** Registered after the first query; unrestricted, so active under every tenant pair. */
  const TrackerD := Tracker(4, {ProductView}, [], [])
}
