/**
 * The application state and its product handlers. Each handler runs
 * while holding the product lock, so here each one is a single
 * sequential method on the state.
 */
module Handlers {
  import opened Models
  import Store

  /** A linear scan for the first record with identifier `id`. Both `find`
      and `position` in the handlers are this scan. */
  method Position(s: seq<Product>, id: Uuid) returns (pos: Option<nat>)
    ensures pos == Store.FirstMatch(s, id)
  {
    var i := 0;
    while i < |s|
      invariant 0 <= i <= |s|
      invariant forall j :: 0 <= j < i ==> s[j].id != id
    {
      if s[i].id == id {
        return Some(i);
      }
      i := i + 1;
    }
    return None;
  }

  /** The shared state: one product list and one category list. The product
      handlers never touch the category list. */
  class AppState {
    var categories: seq<Category>
    var products: seq<Product>

    /** Both lists start empty. */
    constructor ()
      ensures categories == [] && products == []
    {
      categories := [];
      products := [];
    }

    /** list_products: takes a snapshot of the store, in insertion order, and
        changes nothing. */
    method ListProducts() returns (snapshot: seq<Product>)
      ensures snapshot == products
    {
      snapshot := products;
    }

    /** create_product: appends one new record built from the payload, with
        `freshId` as its identifier and `now` as both timestamps. */
    method CreateProduct(payload: Product, freshId: Uuid, now: Instant) returns (outcome: Outcome)
      modifies this
      ensures products == Store.Create(old(products), payload, freshId, now)
      ensures outcome == Created(Store.NewRecord(payload, freshId, now))
      ensures categories == old(categories)
    {
      var record := Product(freshId, payload.name, payload.category, payload.price, now, now, payload.quantity);
      products := products + [record];
      outcome := Created(record);
    }

    /** get_product: the first record with identifier `id`, or NotFound; the
        store is left as it is. */
    method GetProduct(id: Uuid) returns (outcome: Outcome)
      ensures outcome == Store.Lookup(products, id)
    {
      var pos := Position(products, id);
      match pos {
        case Some(k) => outcome := Ok(products[k]);
        case None => outcome := NotFound(Store.ProductNotFound);
      }
    }

    /** update_product: overwrites name, quantity and price of the first record
        with identifier `id`; with no match it does nothing. The handler
        reports nothing either way. */
    method UpdateProduct(id: Uuid, payload: Product)
      modifies this
      ensures products == Store.Update(old(products), id, payload)
      ensures categories == old(categories)
    {
      var pos := Position(products, id);
      if pos.Some? {
        var k := pos.value;
        var p := products[k];
        products := products[k := p.(name := payload.name, quantity := payload.quantity, price := payload.price)];
      }
    }

    /** delete_product: removes the first record with identifier `id`
        (NoContent), or reports NotFound and leaves the store as it is. */
    method DeleteProduct(id: Uuid) returns (outcome: Outcome)
      modifies this
      ensures products == Store.Delete(old(products), id)
      ensures outcome == Store.DeleteOutcome(old(products), id)
      ensures categories == old(categories)
    {
      var pos := Position(products, id);
      if pos.Some? {
        var k := pos.value;
        products := products[..k] + products[k + 1..];
        outcome := NoContent;
      } else {
        outcome := NotFound(Store.ProductWasNotFound);
      }
    }
  }

  /** The create / get / delete / get sequence through the handlers, for a
      fresh identifier not already stored. */
  method Scenario(state: AppState, payload: Product, freshId: Uuid, now: Instant)
    returns (created: Outcome, got: Outcome, deleted: Outcome, gone: Outcome)
    requires !Store.Contains(state.products, freshId)
    modifies state
    ensures created == Created(Store.NewRecord(payload, freshId, now))
    ensures got == Ok(Store.NewRecord(payload, freshId, now))
    ensures deleted == NoContent
    ensures gone == NotFound(Store.ProductNotFound)
    ensures state.products == old(state.products)
  {
    var before := state.products;
    created := state.CreateProduct(payload, freshId, now);
    Store.CreateThenGet(before, payload, freshId, now);
    got := state.GetProduct(freshId);
    Store.CreateThenDelete(before, payload, freshId, now);
    deleted := state.DeleteProduct(freshId);
    Store.NotFoundSymmetry(state.products, freshId, payload);
    gone := state.GetProduct(freshId);
  }
}
