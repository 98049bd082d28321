/** Orders: the records the order board works on, and the normalisation that
    turns each fetched document of the "orders" collection into an order. */
module Orders {

  datatype Option<T> = None | Some(value: T)

  /** One line of an order's cart; copied verbatim from the store. */
  datatype CartItem = CartItem(id: string, name: string, price: int, quantity: int)

  /** The customer sub-record as the store holds it. Each sub-field may be
      missing: normalisation replaces the customer as a whole only when the
      whole record is absent, and never fills in a single sub-field. */
  datatype Customer = Customer(name: Option<string>, address: Option<string>, phone: Option<string>)

  /** The fields of a stored document that the board reads; None is a field
      that is absent (undefined or null). */
  datatype DocData = DocData(
    customer: Option<Customer>,
    items: Option<seq<CartItem>>,
    total: Option<int>,
    status: Option<string>,
    shippingProvider: Option<string>,
    trackingNumber: Option<string>)

  /** A document as the store returns it: its key and its data. */
  datatype Doc = Doc(id: string, data: DocData)

  /** An order in the board's local list. */
  datatype Order = Order(
    id: string,
    customer: Customer,
    cartItems: seq<CartItem>,
    totalPrice: int,
    status: string,
    shippingProvider: Option<string>,
    trackingNumber: Option<string>)

  /** The statuses the status selector offers. */
  const STATUS_OPTIONS: seq<string> := ["กำลังเตรียม", "กำลังจัดส่ง"]
  /** The carriers the shipping-provider selector offers. */
  const SHIPPING_OPTIONS: seq<string> := ["SPX", "KERRY", "FLASH"]
  /** The status given to a document without one ("in progress"). */
  const PENDING_STATUS: string := "กำลังดำเนินการ"
  /** The customer given to a document without one. */
  const UNKNOWN_CUSTOMER: Customer := Customer(Some("Unknown"), Some("N/A"), Some("N/A"))

  /** JavaScript's `x || d` on a string field: absent and "" are both falsy. */
  function StringOr(x: Option<string>, d: string): (r: string)
    ensures x.Some? && x.value != "" ==> r == x.value
    ensures (x.Some? && r == x.value) || r == d
    ensures r == "" ==> d == ""
  {
    if x.Some? && x.value != "" then x.value else d
  }

  /** JavaScript's `x || 0` on a numeric field: absent and 0 are both falsy. */
  function NumberOrZero(x: Option<int>): (r: int)
    ensures x.None? ==> r == 0
    ensures x.Some? ==> r == x.value
  {
    if x.Some? && x.value != 0 then x.value else 0
  }

  /** An order shaped as normalisation leaves it: a non-empty status and
      both shipping fields present. */
  predicate Normalised(o: Order) {
    o.status != "" && o.shippingProvider.Some? && o.trackingNumber.Some?
  }

  /** The per-document step of the load: defaults for falsy fields, present
      values copied verbatim, the document key as the order id. */
  function Normalise(d: Doc): (o: Order)
    ensures o.id == d.id
    ensures d.data.customer.None? ==> o.customer == UNKNOWN_CUSTOMER
    ensures d.data.customer.Some? ==> o.customer == d.data.customer.value
    ensures d.data.items.None? ==> o.cartItems == []
    ensures d.data.items.Some? ==> o.cartItems == d.data.items.value
    ensures d.data.total.None? ==> o.totalPrice == 0
    ensures d.data.total.Some? ==> o.totalPrice == d.data.total.value
    ensures d.data.status.None? || d.data.status == Some("") ==> o.status == PENDING_STATUS
    ensures d.data.status.Some? && d.data.status.value != "" ==> o.status == d.data.status.value
    ensures d.data.shippingProvider.None? ==> o.shippingProvider == Some("")
    ensures d.data.shippingProvider.Some? ==> o.shippingProvider == d.data.shippingProvider
    ensures d.data.trackingNumber.None? ==> o.trackingNumber == Some("")
    ensures d.data.trackingNumber.Some? ==> o.trackingNumber == d.data.trackingNumber
    ensures Normalised(o)
  {
    Order(
      d.id,
      if d.data.customer.Some? then d.data.customer.value else UNKNOWN_CUSTOMER,
      if d.data.items.Some? then d.data.items.value else [],
      NumberOrZero(d.data.total),
      StringOr(d.data.status, PENDING_STATUS),
      Some(StringOr(d.data.shippingProvider, "")),
      Some(StringOr(d.data.trackingNumber, "")))
  }

  /** `docs.map(...)`: one normalised order per document, in document order. */
  function NormaliseAll(docs: seq<Doc>): (r: seq<Order>)
    ensures |r| == |docs|
    ensures forall i :: 0 <= i < |docs| ==> r[i] == Normalise(docs[i])
  {
    if docs == [] then [] else [Normalise(docs[0])] + NormaliseAll(docs[1..])
  }

  /** The orders of a list carry pairwise different ids. */
  predicate DistinctIds(orders: seq<Order>) {
    forall i, j :: 0 <= i < j < |orders| ==> orders[i].id != orders[j].id
  }

  /** The documents of a query carry pairwise different keys. */
  predicate DistinctKeys(docs: seq<Doc>) {
    forall i, j :: 0 <= i < j < |docs| ==> docs[i].id != docs[j].id
  }

  /** The document that holds exactly an order's fields. */
  function ToDoc(o: Order): Doc {
    Doc(o.id, DocData(Some(o.customer), Some(o.cartItems), Some(o.totalPrice),
                      Some(o.status), o.shippingProvider, o.trackingNumber))
  }

  /** Normalisation is a retraction onto normalised orders: storing a
      normalised order and loading it again gives it back unchanged. */
  lemma NormaliseToDocRoundTrip(o: Order)
    requires Normalised(o)
    ensures Normalise(ToDoc(o)) == o
  {
  }

  /** Normalising an already normalised record changes nothing. */
  lemma NormaliseIdempotent(d: Doc)
    ensures Normalise(ToDoc(Normalise(d))) == Normalise(d)
  {
  }

  /** The load keeps the document keys as ids, in order, so distinct keys
      give distinct ids, and every loaded order is normalised. */
  lemma NormaliseAllKeepsIds(docs: seq<Doc>)
    ensures forall i :: 0 <= i < |docs| ==> NormaliseAll(docs)[i].id == docs[i].id
    ensures forall i :: 0 <= i < |docs| ==> Normalised(NormaliseAll(docs)[i])
    ensures DistinctKeys(docs) ==> DistinctIds(NormaliseAll(docs))
  {
  }

  /** The default status is not one of the statuses the selector offers. */
  lemma PendingStatusNotOffered()
    ensures PENDING_STATUS !in STATUS_OPTIONS
    ensures forall s :: s in STATUS_OPTIONS ==> s != ""
  {
  }

  /** The documented example: a document with no customer and no status. */
  lemma ExampleDocument()
    ensures
      var item := CartItem("i1", "Widget", 5, 2);
      var d := Doc("o1", DocData(None, Some([item]), Some(10), None, None, None));
      Normalise(d) == Order("o1", Customer(Some("Unknown"), Some("N/A"), Some("N/A")),
                            [item], 10, PENDING_STATUS, Some(""), Some(""))
  {
  }
}
