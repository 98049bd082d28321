/** Reconcile: the map-by-id updates the board applies to its local list,
    after a remote write succeeds or while a row is being edited. */
module Reconcile {
  import opened Orders

  /** The fields of an order, to say which ones an update touches. */
  datatype Field = Id | CustomerField | CartItems | TotalPrice | Status | ShippingProvider | TrackingNumber

  /** A partial update of one order. SetStatus and SetShipping are also the
      two field sets the board writes to the store. */
  datatype Patch =
    | SetStatus(status: string)
    | SetShipping(provider: string, tracking: string)
    | SetProvider(provider: string)
    | SetTracking(tracking: string)

  /** The fields a patch writes. */
  function Touches(p: Patch): set<Field> {
    match p
    case SetStatus(_) => {Status}
    case SetShipping(_, _) => {ShippingProvider, TrackingNumber}
    case SetProvider(_) => {ShippingProvider}
    case SetTracking(_) => {TrackingNumber}
  }

  /** Two orders agree on every field outside `touched`. */
  predicate AgreeOutside(a: Order, b: Order, touched: set<Field>) {
    && (Id !in touched ==> a.id == b.id)
    && (CustomerField !in touched ==> a.customer == b.customer)
    && (CartItems !in touched ==> a.cartItems == b.cartItems)
    && (TotalPrice !in touched ==> a.totalPrice == b.totalPrice)
    && (Status !in touched ==> a.status == b.status)
    && (ShippingProvider !in touched ==> a.shippingProvider == b.shippingProvider)
    && (TrackingNumber !in touched ==> a.trackingNumber == b.trackingNumber)
  }

  /** `{ ...o, field: value }`: the patched fields take the new values and
      every other field is kept. */
  function Apply(o: Order, p: Patch): (r: Order)
    ensures AgreeOutside(o, r, Touches(p))
    ensures p.SetStatus? ==> r.status == p.status
    ensures p.SetShipping? ==> r.shippingProvider == Some(p.provider) && r.trackingNumber == Some(p.tracking)
    ensures p.SetProvider? ==> r.shippingProvider == Some(p.provider)
    ensures p.SetTracking? ==> r.trackingNumber == Some(p.tracking)
  {
    match p
    case SetStatus(s) => o.(status := s)
    case SetShipping(sp, tn) => o.(shippingProvider := Some(sp), trackingNumber := Some(tn))
    case SetProvider(sp) => o.(shippingProvider := Some(sp))
    case SetTracking(tn) => o.(trackingNumber := Some(tn))
  }

  /** `orders.map(o => o.id === id ? { ...o, ... } : o)`: the list keeps its
      length and order, every order with that id is patched, every other
      order is kept as it is. */
  function PatchById(orders: seq<Order>, id: string, p: Patch): (r: seq<Order>)
    ensures |r| == |orders|
    ensures forall i :: 0 <= i < |orders| && orders[i].id == id ==> r[i] == Apply(orders[i], p)
    ensures forall i :: 0 <= i < |orders| && orders[i].id != id ==> r[i] == orders[i]
  {
    seq(|orders|, i requires 0 <= i < |orders| => if orders[i].id == id then Apply(orders[i], p) else orders[i])
  }

  /** What the save button sends: the row's current local values, with ""
      for a field that is absent. */
  function SaveArgs(o: Order): (r: Patch)
    ensures r.SetShipping?
    ensures o.shippingProvider.Some? ==> r.provider == o.shippingProvider.value
    ensures o.trackingNumber.Some? ==> r.tracking == o.trackingNumber.value
    ensures o.shippingProvider.None? ==> r.provider == ""
    ensures o.trackingNumber.None? ==> r.tracking == ""
  {
    SetShipping(StringOr(o.shippingProvider, ""), StringOr(o.trackingNumber, ""))
  }

  /** Every order carries both shipping fields. */
  predicate ShippingPresent(orders: seq<Order>) {
    forall i :: 0 <= i < |orders| ==> orders[i].shippingProvider.Some? && orders[i].trackingNumber.Some?
  }

  /** A patch changes no id, so it keeps the ids distinct and the shipping
      fields present. */
  lemma PatchByIdKeepsIds(orders: seq<Order>, id: string, p: Patch)
    ensures forall i :: 0 <= i < |orders| ==> PatchById(orders, id, p)[i].id == orders[i].id
    ensures DistinctIds(orders) ==> DistinctIds(PatchById(orders, id, p))
    ensures ShippingPresent(orders) ==> ShippingPresent(PatchById(orders, id, p))
  {
  }

  /** An update whose id matches no order leaves the list as it was. */
  lemma PatchByIdMissingId(orders: seq<Order>, id: string, p: Patch)
    requires forall i :: 0 <= i < |orders| ==> orders[i].id != id
    ensures PatchById(orders, id, p) == orders
  {
  }

  /** Applying the same update twice is the same as applying it once. */
  lemma PatchByIdIdempotent(orders: seq<Order>, id: string, p: Patch)
    ensures PatchById(PatchById(orders, id, p), id, p) == PatchById(orders, id, p)
  {
  }

  /** Saving a row with its own current values leaves that row as it is,
      and the whole list too when ids are distinct. */
  lemma SaveOwnValuesIsNoOp(orders: seq<Order>, i: nat)
    requires i < |orders|
    requires orders[i].shippingProvider.Some? && orders[i].trackingNumber.Some?
    ensures PatchById(orders, orders[i].id, SaveArgs(orders[i]))[i] == orders[i]
    ensures DistinctIds(orders) ==> PatchById(orders, orders[i].id, SaveArgs(orders[i])) == orders
  {
  }

  /** After both local edits, every order with that id carries the edited
      values and every other order is as it was. */
  lemma EditedAt(orders: seq<Order>, id: string, sp: string, tn: string, j: nat)
    requires j < |orders|
    ensures
      var edited := PatchById(PatchById(orders, id, SetProvider(sp)), id, SetTracking(tn));
      edited[j] == if orders[j].id == id
                   then orders[j].(shippingProvider := Some(sp), trackingNumber := Some(tn))
                   else orders[j]
  {
  }

  /** Editing a row's provider to `sp` and its tracking number to `tn` and
      then saving it: the save sends exactly (sp, tn), and mirroring the
      successful write changes nothing locally. */
  lemma EditsThenSave(orders: seq<Order>, i: nat, sp: string, tn: string)
    requires i < |orders|
    ensures
      var id := orders[i].id;
      var edited := PatchById(PatchById(orders, id, SetProvider(sp)), id, SetTracking(tn));
      && SaveArgs(edited[i]) == SetShipping(sp, tn)
      && PatchById(edited, id, SetShipping(sp, tn)) == edited
  {
  }

  /** The two local edits touch different fields, so their order does not matter. */
  lemma LocalEditsCommute(orders: seq<Order>, id: string, sp: string, tn: string)
    ensures PatchById(PatchById(orders, id, SetProvider(sp)), id, SetTracking(tn))
         == PatchById(PatchById(orders, id, SetTracking(tn)), id, SetProvider(sp))
  {
  }
}
