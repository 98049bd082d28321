# Order board: verified model of the `OrdersTable` component

This project models the component that makes up the order-administration page. That component is `OrdersTable` in `src/App.tsx`. It does four things:

- It reads the "orders" collection of a document store once, on mount.
- It turns each document into an order, filling in defaults for missing fields.
- It shows the orders in a table of six rows per page.
- It lets an operator change an order's status, or edit and save its shipping provider and tracking number.

The model is split into four modules:

- `Orders` (orders.dfy) holds the records and the per-document normalisation, written as pure functions.
- `Reconcile` (reconcile.dfy) holds the map-by-id updates `prev.map(o => o.id === id ? {...o, …} : o)`. One function, `PatchById`, models them, with a `Patch` value naming the fields written.
- `Paging` (paging.dfy) holds the page slice `orders.slice(page * 6, page * 6 + 6)` and its properties.
- `Table` (table.dfy) holds the class `OrdersTable`, whose fields are the four state slots: `orders`, `error`, `page` and `editingOrderId`. Each event handler is a method. A method takes the store's answer as a parameter (`LoadOutcome`, `WriteOutcome`) and returns the `RemoteCall` it issued. Handlers that issue no call return nothing.

JavaScript's `||` is written out. An absent string field and `""` both take the default. An absent total and `0` both give `0`. The customer is replaced as a whole, by `{Unknown, N/A, N/A}`, only when it is absent. A present customer with missing sub-fields is kept as it is. For this reason the sub-fields of `Customer` are `Option<string>`.

The default status "กำลังดำเนินการ" is not one of the two statuses the selector offers. The model keeps it exactly, and `PendingStatusNotOffered` states the fact.

The row controls are modelled as methods whose `requires` say when the control exists or is enabled:

- a row's buttons and inputs exist only while the row is on the current page and no error is shown;
- the edit button appears only when the row is not being edited;
- the save button appears only when the row is being edited;
- the provider and tracking inputs are disabled unless the row is being edited.

The handlers themselves (`HandleStatusChange`, `HandleSave`) have no such preconditions, just as in the source.

## Model

| member | source | states |
|---|---|---|
| `Orders.StringOr` | src/App.tsx:65-67 | JavaScript's logical-or default on a string field: a non-empty present value is kept, otherwise the default is used. The result is the present value or the default, and it is empty only when the default is. The same expression appears at src/App.tsx:164, 178 and 186. |
| `Orders.NumberOrZero` | src/App.tsx:64 | The logical-or default of the total: an absent total gives 0, and a present one is kept. A present 0 also gives 0, so this is the present value or 0. |
| `Orders.Normalise` | src/App.tsx:57-68 | The order id is the document key. An absent customer becomes {name "Unknown", address "N/A", phone "N/A"}, and a present one is copied whole. Absent items give [] and absent total gives 0; present ones are copied. An absent or empty status gives "กำลังดำเนินการ", and a non-empty one is copied. Absent provider/tracking give "", and present ones are copied. The result is always normalised. |
| `Orders.NormaliseAll` | src/App.tsx:57-69 | The load gives one order per document, in document order: element i is the normalisation of document i. |
| `Orders.NormaliseToDocRoundTrip` | src/App.tsx:59-68 | Storing a normalised order as a document and normalising it again gives the same order back. |
| `Orders.NormaliseIdempotent` | src/App.tsx:59-68 | Normalising an already normalised record changes nothing. |
| `Orders.NormaliseAllKeepsIds` | src/App.tsx:57-69 | Loaded ids are the document keys in order. Every loaded order is normalised. Distinct keys give distinct ids. |
| `Orders.PendingStatusNotOffered` | src/App.tsx:65 | The default status is not among the selector's options (src/App.tsx:41), and no offered status is empty. |
| `Orders.ExampleDocument` | src/App.tsx:57-68 | A document with no customer, one item, total 10 and no status normalises to customer Unknown/N/A/N/A, that item, total 10, the pending status and empty provider/tracking. |
| `Reconcile.Apply` | src/App.tsx:88-92 | `{...o, field: v}`: the id never changes. Only the patched fields change, and they take the given values. Every other field is kept. This covers the status patch, the save patch (src/App.tsx:106) and the two local edits (src/App.tsx:166, 180). |
| `Reconcile.PatchById` | src/App.tsx:88-92 | The list keeps its length and order. Every order whose id matches is patched, and every other order is identical. |
| `Reconcile.SaveArgs` | src/App.tsx:186 | The save button sends the row's current provider and tracking number. A present value is sent as it is, and an absent one is sent as "". |
| `Reconcile.PatchByIdKeepsIds` | src/App.tsx:104-108 | A by-id update keeps every id, keeps ids distinct and keeps both shipping fields present. |
| `Reconcile.PatchByIdMissingId` | src/App.tsx:88-92 | An update whose id matches no order leaves the list unchanged. |
| `Reconcile.PatchByIdIdempotent` | src/App.tsx:104-108 | Mirroring the same write twice is the same as mirroring it once. |
| `Reconcile.SaveOwnValuesIsNoOp` | src/App.tsx:104-108 | Saving a row with its own current values (src/App.tsx:186) leaves that row as it was. With distinct ids it leaves the whole list as it was. |
| `Reconcile.EditedAt` | src/App.tsx:165-181 | After a provider edit and a tracking edit, every order with the row's id carries both new values, and every other order is unchanged. |
| `Reconcile.EditsThenSave` | src/App.tsx:165-186 | After editing provider to p and tracking to t, the save sends exactly (p, t). Mirroring that successful write changes nothing locally. |
| `Reconcile.LocalEditsCommute` | src/App.tsx:165-181 | The provider edit and the tracking edit touch different fields, so they commute. |
| `Paging.Slice` | src/App.tsx:141 | `slice(start, end)` with clamped bounds: a range inside the list gives the subsequence, and an empty or out-of-range start gives []. |
| `Paging.PageRows` | src/App.tsx:141 | A page has at most 6 rows, exactly min(6, n - 6·page) of them when page·6 < n and none otherwise. Row k is list element page·6 + k. |
| `Paging.PageNonEmptyIff` | src/App.tsx:196 | A page has rows if and only if its index is below ceil(n / 6), the page count the paginator derives from `count`. |
| `Paging.PagesArePrefix` | src/App.tsx:141 | The first k pages together are exactly the first min(6k, n) orders. |
| `Paging.AllPagesCoverList` | src/App.tsx:196 | All pages together are the whole list: every order is shown once, in list order. |
| `Paging.RowOnPage` | src/App.tsx:141 | Order i is on page i / 6, at position i % 6. |
| `Paging.ThirteenRows` | src/App.tsx:141 | With 13 orders there are 3 pages: [0,6), [6,12), [12,13). Page 3 is empty. |
| `Table.FetchErrorMessage` | src/App.tsx:74 | A load failure message is "Failed to fetch orders: " followed by the Error's message, or by "Unknown error" for any other thrown value. It is never empty. |
| `Table.Truthy` | src/App.tsx:136 | The `error ?` test: a null error slot and an empty string are falsy, and any other string is truthy. |
| `Table.Editable` | src/App.tsx:163-177 | `disabled={editingOrderId !== order.id}`: a row's provider and tracking controls are enabled exactly when the slot holds that row's id. An empty slot enables no row. |
| `Table.NoOrdersMessage` | src/App.tsx:55-74 | An empty collection yields exactly "Failed to fetch orders: No orders found". |
| `Table.Render` | src/App.tsx:136-141 | An error (a truthy error slot) shows exactly the error row and no order rows. Otherwise the body is exactly the current page's rows: at most 6 of them, with row k being order page·6 + k. The paginator's count is always the list length (src/App.tsx:196). |
| `Table.RowShownIff` | src/App.tsx:136-142 | A row's controls exist if and only if the order is one of the rendered data rows of the current page. |
| `Table.AtMostOneEditableRow` | src/App.tsx:163-177 | The single slot (src/App.tsx:49) means that all enabled rows share one id. With distinct ids, at most one row is enabled. |
| `Table.OrdersTable.constructor` | src/App.tsx:45-49 | The state on mount: no orders, no error, page 0, nothing being edited. |
| `Table.OrdersTable.FetchOrders` | src/App.tsx:52-75 | Issues one read of "orders". An empty result sets the error to "Failed to fetch orders: No orders found" and keeps the list. A thrown read sets "Failed to fetch orders: " followed by the message, or by "Unknown error" for a non-Error value, and keeps the list. Otherwise the list is replaced by the normalised documents and the error is left as it was. |
| `Table.OrdersTable.ChangePage` | src/App.tsx:81 | Sets the page only. |
| `Table.OrdersTable.HandleStatusChange` | src/App.tsx:83-97 | Issues one update of {status}. On success the list is the by-id status patch of the old list, and on failure it is unchanged. Error, page and edit slot never change. |
| `Table.OrdersTable.HandleSave` | src/App.tsx:99-115 | Issues one update of {shippingProvider, trackingNumber}. On success the list is the by-id patch and the edit slot is cleared. On failure neither changes. |
| `Table.OrdersTable.ClickEdit` | src/App.tsx:185-188 | The slot becomes exactly that row's id, overwriting any other. No order, error or page changes, and no call is issued. |
| `Table.OrdersTable.ChangeProvider` | src/App.tsx:162-167 | Only the provider of the orders with the row's id changes. Everything else, including the edit slot, is kept, and no call is issued. |
| `Table.OrdersTable.ChangeTracking` | src/App.tsx:176-181 | Only the tracking number of the orders with the row's id changes. Everything else is kept, and no call is issued. |
| `Table.OrdersTable.ClickSave` | src/App.tsx:185-186 | Sends the row's current local values. On success the row is unchanged, because it already held them; the list is unchanged too when ids are distinct, and the slot is cleared. On failure nothing changes. |

`Table.Session` exercises one session: load one document, edit, save, then a rejected status change. It carries no contract.

## Left out

- The document store (`getDocs`, `updateDoc`, `doc`, `collection`) and `./firebaseConfig`: a foreign service. Each handler takes the store's answer as a parameter and returns the call it issues. `./firebaseConfig` is not part of this model.
- React hooks, JSX, MUI components and styling: only the structure of the table body (error row or data rows) and the paginator's count are modelled. The content of individual cells is not modelled, for example the items line "Widget (x2)".
- `alert` and `console.error` on failures: side effects only. The model keeps only the state they leave behind.
- The `timestamp` field (src/App.tsx:62): it needs date conversion and locale formatting, and it is not part of an order.
- `totalPrice.toFixed()` (src/App.tsx:153): floating-point formatting. Prices and totals are integers in the model.
- JavaScript falsiness for values of the wrong type (for example `NaN` as a total, or a non-object customer): each document field is either absent or a value of its declared type.
- Interleaving of several saves or status updates still in flight: each handler is modelled as running to completion atomically.
- vite.config.ts: build and dev-server configuration, with no logic.
