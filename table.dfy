/** Table: the order board component. Its four state slots (the order list,
    the load error, the page index and the single "currently editing" slot)
    are the fields of a class; each event handler is a method that takes the
    store's answer as a parameter and returns the call it issued. */
module Table {
  import opened Orders
  import opened Reconcile
  import opened Paging

  /** The store collection the board reads and writes. */
  const COLLECTION: string := "orders"

  /** A value thrown by the read: an Error object carries a message. */
  datatype Thrown = ErrorObject(message: string) | OtherValue

  /** The store's answer to reading the whole collection. */
  datatype LoadOutcome = Loaded(docs: seq<Doc>) | LoadThrew(cause: Thrown)

  /** The store's answer to a field update. */
  datatype WriteOutcome = Written | Rejected

  /** A call the board issues to the store. An update carries the partial
      field set it writes. */
  datatype RemoteCall = GetDocs(collection: string) | UpdateDoc(collection: string, key: string, fields: Patch)

  /** The table body: one error row, or the order rows of the current page. */
  datatype Body = ErrorRow(message: string) | DataRows(rows: seq<Order>)

  /** What the table shows: its body and the row count the paginator gets. */
  datatype TableView = TableView(body: Body, count: nat)

  /** The text every load failure message starts with. */
  const FETCH_PREFIX: string := "Failed to fetch orders: "

  /** The message of a failed load: the fixed prefix, then the Error's
      message, or "Unknown error" for any other thrown value. */
  function FetchErrorMessage(cause: Thrown): (m: string)
    ensures |FETCH_PREFIX| <= |m|
    ensures m[..|FETCH_PREFIX|] == FETCH_PREFIX
    ensures cause.ErrorObject? ==> m[|FETCH_PREFIX|..] == cause.message
    ensures cause.OtherValue? ==> m[|FETCH_PREFIX|..] == "Unknown error"
    ensures m != ""
  {
    FETCH_PREFIX + match cause
                                 case ErrorObject(m) => m
                                 case OtherValue => "Unknown error"
  }

  /** The message an empty collection produces. */
  lemma NoOrdersMessage()
    ensures FetchErrorMessage(ErrorObject("No orders found")) == "Failed to fetch orders: No orders found"
  {
  }

  /** JavaScript truthiness of the error slot: null and "" are falsy. */
  predicate Truthy(error: Option<string>)
    ensures error.None? ==> !Truthy(error)
    ensures error == Some("") ==> !Truthy(error)
    ensures error.Some? && error.value != "" ==> Truthy(error)
  {
    error.Some? && error.value != ""
  }

  /** The rendered table. A set error replaces every order row by the one
      error row; the paginator always counts the whole list. */
  function Render(orders: seq<Order>, error: Option<string>, page: nat): (v: TableView)
    ensures v.count == |orders|
    ensures Truthy(error) <==> v.body.ErrorRow?
    ensures v.body.ErrorRow? ==> v.body.message == error.value
    ensures !Truthy(error) ==> v.body == DataRows(PageRows(orders, page))
    ensures v.body.DataRows? ==> |v.body.rows| <= ROWS_PER_PAGE
    ensures v.body.DataRows? ==>
              forall k :: 0 <= k < |v.body.rows| ==>
                page * ROWS_PER_PAGE + k < |orders| && v.body.rows[k] == orders[page * ROWS_PER_PAGE + k]
  {
    TableView(if Truthy(error) then ErrorRow(error.value) else DataRows(PageRows(orders, page)), |orders|)
  }

  /** Row i of the list is on screen: no error, and i is on the current page. */
  predicate RowShown(orders: seq<Order>, error: Option<string>, page: nat, i: nat) {
    !Truthy(error) && i < |orders| && page * ROWS_PER_PAGE <= i < page * ROWS_PER_PAGE + ROWS_PER_PAGE
  }

  /** Row i's provider and tracking controls are enabled (`disabled` is
      `editingOrderId !== order.id`). */
  predicate Editable(orders: seq<Order>, editing: Option<string>, i: nat)
    requires i < |orders|
    ensures editing.None? ==> !Editable(orders, editing, i)
    ensures Editable(orders, editing, i) <==> editing.Some? && editing.value == orders[i].id
  {
    editing == Some(orders[i].id)
  }

  /** A row is shown exactly when it is one of the rendered data rows, at
      its offset within the page. */
  lemma RowShownIff(orders: seq<Order>, error: Option<string>, page: nat, i: nat)
    requires i < |orders|
    ensures RowShown(orders, error, page, i) <==>
      var b := Render(orders, error, page).body;
      && b.DataRows?
      && page * ROWS_PER_PAGE <= i
      && i - page * ROWS_PER_PAGE < |b.rows|
  {
  }

  /** The single slot makes every enabled row share one id, so with
      distinct ids at most one row can be edited. */
  lemma AtMostOneEditableRow(orders: seq<Order>, editing: Option<string>, i: nat, j: nat)
    requires i < |orders| && j < |orders|
    requires Editable(orders, editing, i) && Editable(orders, editing, j)
    ensures orders[i].id == orders[j].id
    ensures DistinctIds(orders) ==> i == j
  {
  }

  class OrdersTable {
    var orders: seq<Order>
    var error: Option<string>
    var page: nat
    var editingOrderId: Option<string>

    /** Every order carries both shipping fields, and a set error is never
        the empty string. */
    ghost predicate Valid()
      reads this
    {
      ShippingPresent(orders) && (error.Some? ==> error.value != "")
    }

    /** The state on mount. */
    constructor ()
      ensures Valid()
      ensures orders == [] && error == None && page == 0 && editingOrderId == None
    {
      orders := [];
      error := None;
      page := 0;
      editingOrderId := None;
    }

    /** The table as currently rendered. */
    function View(): TableView
      reads this
    {
      Render(orders, error, page)
    }

    /** The load on mount: one read of the whole collection. An empty
        collection and a thrown read both set the error and keep the list;
        otherwise the list is replaced by the normalised documents. */
    method FetchOrders(outcome: LoadOutcome) returns (call: RemoteCall)
      requires Valid()
      modifies this
      ensures Valid()
      ensures call == GetDocs(COLLECTION)
      ensures page == old(page) && editingOrderId == old(editingOrderId)
      ensures outcome.Loaded? && outcome.docs == [] ==>
                orders == old(orders) && error == Some("Failed to fetch orders: No orders found")
      ensures outcome.Loaded? && outcome.docs != [] ==>
                orders == NormaliseAll(outcome.docs) && error == old(error)
      ensures outcome.LoadThrew? ==>
                orders == old(orders) && error == Some(FetchErrorMessage(outcome.cause))
    {
      call := GetDocs(COLLECTION);
      match outcome
      case LoadThrew(cause) =>
        error := Some(FetchErrorMessage(cause));
      case Loaded(docs) =>
        if docs == [] {
          error := Some(FetchErrorMessage(ErrorObject("No orders found")));
          NoOrdersMessage();
        } else {
          orders := NormaliseAll(docs);
        }
    }

    /** The paginator's page change. */
    method ChangePage(newPage: nat)
      requires Valid()
      modifies this
      ensures Valid()
      ensures page == newPage
      ensures orders == old(orders) && error == old(error) && editingOrderId == old(editingOrderId)
    {
      page := newPage;
    }

    /** A status change: one update of the status field alone; on success
        the new status is mirrored into every order with that id, on
        failure the list is left as it was. */
    method HandleStatusChange(orderId: string, newStatus: string, outcome: WriteOutcome) returns (call: RemoteCall)
      requires Valid()
      modifies this
      ensures Valid()
      ensures call == UpdateDoc(COLLECTION, orderId, SetStatus(newStatus))
      ensures orders == if outcome.Written? then PatchById(old(orders), orderId, SetStatus(newStatus)) else old(orders)
      ensures error == old(error) && page == old(page) && editingOrderId == old(editingOrderId)
    {
      call := UpdateDoc(COLLECTION, orderId, SetStatus(newStatus));
      if outcome.Written? {
        PatchByIdKeepsIds(orders, orderId, SetStatus(newStatus));
        orders := PatchById(orders, orderId, SetStatus(newStatus));
      }
    }

    /** A save: one update of the provider and tracking fields; on success
        they are mirrored into every order with that id and the edit slot
        is cleared, on failure neither the list nor the slot changes. */
    method HandleSave(orderId: string, provider: string, tracking: string, outcome: WriteOutcome)
      returns (call: RemoteCall)
      requires Valid()
      modifies this
      ensures Valid()
      ensures call == UpdateDoc(COLLECTION, orderId, SetShipping(provider, tracking))
      ensures outcome.Written? ==>
                orders == PatchById(old(orders), orderId, SetShipping(provider, tracking)) && editingOrderId == None
      ensures outcome.Rejected? ==> orders == old(orders) && editingOrderId == old(editingOrderId)
      ensures error == old(error) && page == old(page)
    {
      call := UpdateDoc(COLLECTION, orderId, SetShipping(provider, tracking));
      if outcome.Written? {
        PatchByIdKeepsIds(orders, orderId, SetShipping(provider, tracking));
        orders := PatchById(orders, orderId, SetShipping(provider, tracking));
        editingOrderId := None;
      }
    }

    /** The edit button of a shown row that is not being edited: the slot
        takes that row's id, replacing any other row's; no order changes. */
    method ClickEdit(i: nat)
      requires Valid() && RowShown(orders, error, page, i) && !Editable(orders, editingOrderId, i)
      modifies this
      ensures Valid()
      ensures orders == old(orders) && error == old(error) && page == old(page)
      ensures editingOrderId == Some(orders[i].id)
      ensures Editable(orders, editingOrderId, i)
    {
      editingOrderId := Some(orders[i].id);
    }

    /** The provider selector of the row being edited: only that field of
        the orders with the row's id changes locally; nothing is sent. */
    method ChangeProvider(i: nat, value: string)
      requires Valid() && RowShown(orders, error, page, i) && Editable(orders, editingOrderId, i)
      modifies this
      ensures Valid()
      ensures orders == PatchById(old(orders), old(orders)[i].id, SetProvider(value))
      ensures error == old(error) && page == old(page) && editingOrderId == old(editingOrderId)
    {
      PatchByIdKeepsIds(orders, orders[i].id, SetProvider(value));
      orders := PatchById(orders, orders[i].id, SetProvider(value));
    }

    /** The tracking field of the row being edited: only that field of the
        orders with the row's id changes locally; nothing is sent. */
    method ChangeTracking(i: nat, value: string)
      requires Valid() && RowShown(orders, error, page, i) && Editable(orders, editingOrderId, i)
      modifies this
      ensures Valid()
      ensures orders == PatchById(old(orders), old(orders)[i].id, SetTracking(value))
      ensures error == old(error) && page == old(page) && editingOrderId == old(editingOrderId)
    {
      PatchByIdKeepsIds(orders, orders[i].id, SetTracking(value));
      orders := PatchById(orders, orders[i].id, SetTracking(value));
    }

    /** The save button of the row being edited: saves the row's current
        local values, so a successful save leaves the row as it was and
        clears the slot; a failed one changes nothing. */
    method ClickSave(i: nat, outcome: WriteOutcome) returns (call: RemoteCall)
      requires Valid() && RowShown(orders, error, page, i) && Editable(orders, editingOrderId, i)
      modifies this
      ensures Valid()
      ensures call == UpdateDoc(COLLECTION, old(orders)[i].id, SaveArgs(old(orders)[i]))
      ensures outcome.Written? ==>
                && orders == PatchById(old(orders), old(orders)[i].id, SaveArgs(old(orders)[i]))
                && orders[i] == old(orders)[i]
                && editingOrderId == None
      ensures outcome.Written? && DistinctIds(old(orders)) ==> orders == old(orders)
      ensures outcome.Rejected? ==> orders == old(orders) && editingOrderId == old(editingOrderId)
      ensures error == old(error) && page == old(page)
    {
      var o := orders[i];
      SaveOwnValuesIsNoOp(orders, i);
      call := HandleSave(o.id, StringOr(o.shippingProvider, ""), StringOr(o.trackingNumber, ""), outcome);
    }
  }

  /** One session against a store that answers with a single document and
      accepts every write. */
  method Session() {
    var table := new OrdersTable();
    var item := CartItem("i1", "Widget", 5, 2);
    var d := Doc("o1", DocData(None, Some([item]), Some(10), None, None, None));
    var call := table.FetchOrders(Loaded([d]));
    assert table.orders == [Normalise(d)];
    assert table.orders[0].customer == UNKNOWN_CUSTOMER && table.orders[0].status == PENDING_STATUS;
    assert table.View().body == DataRows(table.orders);

    table.ClickEdit(0);
    table.ChangeProvider(0, "KERRY");
    table.ChangeTracking(0, "TH123");
    call := table.ClickSave(0, Written);
    assert call == UpdateDoc(COLLECTION, "o1", SetShipping("KERRY", "TH123"));
    assert table.orders[0].shippingProvider == Some("KERRY");
    assert table.orders[0].trackingNumber == Some("TH123");
    assert table.editingOrderId == None;

    call := table.HandleStatusChange("o1", "กำลังจัดส่ง", Rejected);
    assert table.orders[0].status == PENDING_STATUS;
  }
}
