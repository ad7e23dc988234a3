# Product store of an in-memory CRUD service

The service keeps its products in one list, `AppState.products`. Each HTTP
handler locks the list, scans it or changes it, and returns a response.
This project models that list and the five product handlers: list, create,
get by id, update by id and delete by id. It also proves how the handlers
relate to one another.

- `Models.dfy`: the records. `Product` holds an id, a name, a `Category`
  embedded by value, a `u32` price and quantity, and two timestamps.
  `Category` holds an id, a name and two timestamps. There is also the
  `Outcome` tag a handler reports: `Created`, `Ok`, `NotFound(msg)` or
  `NoContent`.
- `Store.dfy`: each handler's effect on the list, written as functions of the
  list before the call: `Create`, `Lookup`, `Update`, `Delete` and
  `DeleteOutcome`, all built on `FirstMatch`, the first position whose id
  matches. Lemmas relate the operations: create then get, create then delete,
  update then get, delete then get, and the not-found cases. Lemmas over any
  run of requests give the store's size (its old size plus the creates
  minus the deletes that found their record) and show that ids stay
  distinct. For a run made only of creates, the store holds its old records
  followed by the created ones in request order; no order lemma covers runs
  that mix creates with updates or deletes.
- `Handlers.dfy`: the class `AppState` with the `products` and `categories`
  fields and one method per handler. Each method's new state and outcome are
  stated through the `Store` functions. The linear scan `Position` is a loop
  proved equal to `FirstMatch`.

Identifiers and instants are abstract `nat`s: the store only compares
identifiers for equality, and it only copies instants.
`Uuid::new_v4()` becomes the `freshId` parameter of create, and `Utc::now()`
becomes the `now` parameter. The code does not make ids unique. So every
uniqueness result assumes that `freshId` is not among the stored ids at the
moment of the create.

The model follows what the code does, even where the handlers' declarations
and names suggest something else:

- `update_product` is declared to return `impl IntoResponse`
  (src/main.rs:105), yet its body is one `if let … { … }` that yields `()`
  whether or not a record matched. So it builds no reply of its own, and on a
  missing id it changes nothing and reports nothing, unlike get, which
  answers a missing id with "product not found" (src/main.rs:95).
- A record has an `updated_at` field, yet update never changes it.
- `list_products` is named as if it returns the list. The `;` after
  `Json(products.clone())` throws the list away.
- Delete removes only the first record with the id. When ids repeat, a later
  record with the same id stays visible. That is why `DeleteThenGet` assumes
  distinct ids.

## Model

| member | source | states |
|---|---|---|
| Store.FirstMatch | src/main.rs:116 | the position it returns holds the id and no earlier record holds it; it returns None exactly when no record holds the id |
| Store.NewRecord | src/main.rs:72-81 | the created record takes name, price, category and quantity from the payload, sets id to the fresh id and both timestamps to `now`, and ignores the payload's own id and timestamps |
| Store.Create | src/main.rs:83 | the list grows by exactly one record, at the end, and every earlier record stays the same and in the same place |
| Store.Lookup | src/main.rs:90-98 | get returns Ok with a record exactly when the id is stored; that record has the id and no earlier record has it; otherwise get returns NotFound("product not found") |
| Store.Revised | src/main.rs:108-110 | an update takes name, quantity and price from the payload and keeps id, category, created_at and updated_at |
| Store.Update | src/main.rs:107-111 | the length is unchanged; only the first match is revised; every other record is unchanged; ids keep their positions; with no match the list is identical |
| Store.Delete | src/main.rs:116-117 | with a match, the first match is removed: length minus one, records before it in place, records after it shifted down by one, and the multiset of records loses just that one; with no match the list is identical |
| Store.DeleteOutcome | src/main.rs:116-130 | delete reports NoContent exactly when the id is stored, otherwise NotFound("product was not found") |
| Store.CreateThenGet | src/main.rs:67-99 | if the fresh id is not stored, get by that id after create returns the created record |
| Store.CreateThenDelete | src/main.rs:67-131 | if the fresh id is not stored, delete by that id after create reports NoContent and restores the list as it was |
| Store.UpdateThenGet | src/main.rs:87-112 | get after update returns the revised record in place of the old first match; a miss stays a miss |
| Store.DeleteThenGet | src/main.rs:87-131 | if ids are distinct, get after delete by an id returns NotFound |
| Store.NotFoundSymmetry | src/main.rs:87-131 | for an id that is not stored, get and delete return their NotFound messages, and update and delete leave the list identical |
| Store.CreateKeepsIdsDistinct | src/main.rs:72-83 | create with a fresh id not already stored keeps the stored ids distinct |
| Store.UpdateKeepsIdsDistinct | src/main.rs:107-111 | update keeps the stored ids distinct |
| Store.DeleteKeepsIdsDistinct | src/main.rs:116-117 | delete keeps the stored ids distinct |
| Store.RunSize | src/main.rs:62-131 | after any sequence of product requests, the store's size equals its old size plus the creates minus the deletes whose id was stored when they ran |
| Store.RunOfCreates | src/main.rs:83 | after a run made only of creates, the store holds its old records followed by the created records in request order |
| Store.RunKeepsIdsDistinct | src/main.rs:62-131 | over any sequence of product requests in which each create's fresh id is not stored at that moment, distinct ids stay distinct |
| Handlers.Position | src/main.rs:116 | the linear scan returns exactly the first match of the id |
| Handlers.AppState.constructor | src/main.rs:31-34 | the product and category lists both start empty |
| Handlers.AppState.ListProducts | src/main.rs:62-64 | the snapshot equals the current list, and the method changes nothing |
| Handlers.AppState.CreateProduct | src/main.rs:67-85 | the new list is `Store.Create` of the old one; the outcome is Created with the new record; categories are unchanged |
| Handlers.AppState.GetProduct | src/main.rs:87-99 | the outcome is `Store.Lookup` of the list; the method changes nothing |
| Handlers.AppState.UpdateProduct | src/main.rs:101-112 | the new list is `Store.Update` of the old one; categories are unchanged |
| Handlers.AppState.DeleteProduct | src/main.rs:114-131 | the new list is `Store.Delete` of the old one; the outcome is `Store.DeleteOutcome`; categories are unchanged |
| Handlers.Scenario | src/main.rs:67-131 | for a fresh id that is not stored, create, get, delete and get again through the handlers return Created with the new record, then Ok with that record, then NoContent, then NotFound("product not found"), and the list ends as it began |

## Left out

- Router setup, the server bind and `main` (src/main.rs:28-60): framework wiring and I/O.
- The `Arc<Mutex<…>>` locks and the `.unwrap()` on a poisoned lock. Each handler is one atomic sequential method.
- JSON encoding and decoding, and the HTTP status codes: foreign library code. Only the outcome tag is modelled.
- UUID generation and the system clock. They are the `freshId` and `now` parameters.
- The category handlers (src/main.rs:133-141): empty stubs. The `categories` list exists, and no product handler touches it.
- Store.RunOfCreates: insertion order is stated only for runs made solely of creates. For runs that mix in updates and deletes, the order is carried only step by step, by the `ensures` of `Store.Update` and `Store.Delete`; no lemma over a whole mixed run states it.
- Handlers.AppState.ListProducts: the response the handler builds is thrown away at src/main.rs:64, so nothing is said about what the client receives.
- Handlers.AppState.DeleteProduct: `delete_product` is declared with no return type, yet its `if let … else` at src/main.rs:116-130 is the function's last expression and builds a response. Read as Rust, that is a type mismatch against `()`, so the NoContent/NotFound tag is this model's reading of what was meant, not a value the program returns. The model says nothing about what the client receives.
- Handlers.AppState.UpdateProduct: the handler returns nothing, so the method has no outcome.
