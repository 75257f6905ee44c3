/**
  The collaborators the tracking manager talks to but does not own: the
  environment that reports the current tenants, and the order whose
  `os_tracked` property guards checkout-complete tracking. Carts, products,
  categories, pages, checkout steps and quantities are foreign objects that
  the manager only passes on; they are modeled as opaque handles.
 */
module Collaborators {
  import opened Wrappers

  /** An opaque foreign object handed through to a tracker unchanged. */
  datatype Value = Value(handle: int)

  /**
    The environment's view of the current tenants. `None` stands for PHP's
    `null`; a caller switches tenants by assigning the fields.
   */
  class Environment {
    var assortmentTenant: Option<string>
    var checkoutTenant: Option<string>

    constructor (assortmentTenant: Option<string>, checkoutTenant: Option<string>)
      ensures this.assortmentTenant == assortmentTenant && this.checkoutTenant == checkoutTenant
    {
      this.assortmentTenant := assortmentTenant;
      this.checkoutTenant := checkoutTenant;
    }
  }

  /**
    An order as far as tracking sees it: the in-memory value of its
    `os_tracked` property, the value last written to storage, and how many
    times it has been saved.
   */
  class Order {
    var osTracked: bool
    var storedOsTracked: bool
    var saves: nat

    constructor (osTracked: bool)
      ensures this.osTracked == osTracked && storedOsTracked == osTracked && saves == 0
    {
      this.osTracked := osTracked;
      storedOsTracked := osTracked;
      saves := 0;
    }

    /** Sets the in-memory `os_tracked` property; storage is not touched. */
    method SetOsTracked(value: bool)
      modifies this
      ensures osTracked == value
      ensures storedOsTracked == old(storedOsTracked) && saves == old(saves)
    {
      osTracked := value;
    }

    /** Persists the order: storage now holds the in-memory property. */
    method Save()
      modifies this
      ensures storedOsTracked == osTracked && osTracked == old(osTracked)
      ensures saves == old(saves) + 1
    {
      storedOsTracked := osTracked;
      saves := saves + 1;
    }
  }
}
