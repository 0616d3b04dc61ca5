/** The resource SKU client: lists the compute SKUs of the subscription page
    by page, and answers whether a VM size supports accelerated networking. */
module ResourceSkus {
  import opened Wrappers
  import opened Errors
  import opened Text

  datatype Capability = Capability(name: Option<string>, value: Option<string>)

  /** compute.ResourceSku, reduced to the fields the client inspects. */
  datatype ResourceSku = ResourceSku(name: Option<string>, capabilities: Option<seq<Capability>>)

  /** What the provider's SKU listing does: opening it may fail; otherwise it
      yields `items` in order, and advancing past item `failAfter`, if any,
      fails with `stepError`. */
  datatype Listing = Listing(
    openError: Option<Error>,
    items: seq<ResourceSku>,
    failAfter: Option<nat>,
    stepError: Error)

  const AcceleratedNetworkingCapability := "AcceleratedNetworkingEnabled"

  /** List: the SKUs in iteration order; when advancing fails, the SKUs
      collected so far come back together with the error. */
  method List(listing: Listing) returns (skus: seq<ResourceSku>, err: Option<Error>)
    ensures listing.openError.Some? ==>
              skus == [] && err == Some(Wrap("could not list resource skus", listing.openError.value))
    ensures listing.openError.None? && listing.failAfter.Some? && listing.failAfter.value < |listing.items| ==>
              skus == listing.items[..listing.failAfter.value + 1]
              && err == Some(Wrap("could not iterate resource skus", listing.stepError))
    ensures listing.openError.None? && !(listing.failAfter.Some? && listing.failAfter.value < |listing.items|) ==>
              skus == listing.items && err.None?
  {
    if listing.openError.Some? {
      return [], Some(Wrap("could not list resource skus", listing.openError.value));
    }
    skus := [];
    var i := 0;
    while i < |listing.items|
      invariant 0 <= i <= |listing.items|
      invariant skus == listing.items[..i]
      invariant listing.failAfter.Some? ==> i <= listing.failAfter.value
    {
      skus := skus + [listing.items[i]];
      if listing.failAfter == Some(i) {
        return skus, Some(Wrap("could not iterate resource skus", listing.stepError));
      }
      i := i + 1;
    }
    assert listing.items[..i] == listing.items;
    return skus, None;
  }

  /** The index of the first SKU called `name`, if any. */
  function FirstNamed(skus: seq<ResourceSku>, name: string): (i: Option<nat>)
    ensures i.Some? ==> i.value < |skus| && skus[i.value].name == Some(name)
                        && forall j | 0 <= j < i.value :: skus[j].name != Some(name)
    ensures i.None? ==> forall j | 0 <= j < |skus| :: skus[j].name != Some(name)
  {
    if skus == [] then None
    else if skus[0].name == Some(name) then Some(0)
    else match FirstNamed(skus[1..], name)
      case Some(k) => Some(k + 1)
      case None => None
  }

  predicate Enables(c: Capability) {
    c.name == Some(AcceleratedNetworkingCapability) && c.value.Some? && EqualFold(c.value.value, "True")
  }

  /** A SKU supports accelerated networking when one of its capabilities is
      AcceleratedNetworkingEnabled with the value "True", in any case. */
  predicate Accelerated(sku: ResourceSku) {
    sku.capabilities.Some? && exists c | c in sku.capabilities.value :: Enables(c)
  }

  /** The answer for `name`: only the first SKU of that name counts. */
  predicate Supports(skus: seq<ResourceSku>, name: string) {
    var i := FirstNamed(skus, name);
    i.Some? && Accelerated(skus[i.value])
  }

  /** Only the first SKU of a name is looked at: whatever SKUs follow it do
      not change the answer. */
  lemma {:induction false} LaterSkusIgnored(skus: seq<ResourceSku>, later: seq<ResourceSku>, name: string)
    requires exists j | 0 <= j < |skus| :: skus[j].name == Some(name)
    ensures Supports(skus + later, name) == Supports(skus, name)
    ensures FirstNamed(skus + later, name) == FirstNamed(skus, name)
  {
    if skus[0].name != Some(name) {
      var j :| 0 <= j < |skus| && skus[j].name == Some(name);
      assert skus[1..][j - 1].name == Some(name);
      LaterSkusIgnored(skus[1..], later, name);
      assert (skus + later)[1..] == skus[1..] + later;
    }
  }

  /** HasAcceleratedNetworking: an empty name is answered false without
      listing; a listing error is returned with false; otherwise the first
      SKU with the name decides. `listed` records whether the listing was
      consulted. */
  method HasAcceleratedNetworking(listing: Listing, name: string) returns (has: bool, err: Option<Error>, ghost listed: bool)
    ensures name == "" ==> !has && err.None? && !listed
    ensures name != "" ==> listed
    ensures name != "" && listing.openError.Some? ==>
              !has && err == Some(Wrap("could not list resource skus", listing.openError.value))
    ensures name != "" && listing.openError.None? && listing.failAfter.Some? && listing.failAfter.value < |listing.items| ==>
              !has && err == Some(Wrap("could not iterate resource skus", listing.stepError))
    ensures name != "" && listing.openError.None? && !(listing.failAfter.Some? && listing.failAfter.value < |listing.items|) ==>
              err.None? && (has <==> Supports(listing.items, name))
  {
    if name == "" {
      return false, None, false;
    }
    listed := true;
    var skus, e := List(listing);
    if e.Some? {
      return false, e, listed;
    }
    var i := 0;
    while i < |skus|
      invariant 0 <= i <= |skus|
      invariant forall j | 0 <= j < i :: skus[j].name != Some(name)
    {
      var sku := skus[i];
      if sku.name == Some(name) {
        assert FirstNamed(skus, name) == Some(i);
        if sku.capabilities.Some? {
          var caps := sku.capabilities.value;
          var k := 0;
          while k < |caps|
            invariant 0 <= k <= |caps|
            invariant forall m | 0 <= m < k :: !Enables(caps[m])
          {
            var c := caps[k];
            if c.name == Some(AcceleratedNetworkingCapability) && c.value.Some? && EqualFold(c.value.value, "True") {
              assert c in caps && Enables(c);
              return true, None, listed;
            }
            k := k + 1;
          }
        }
        break;
      }
      i := i + 1;
    }
    return false, None, listed;
  }
}
