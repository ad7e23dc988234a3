/**
 * The effect of each product handler on the stored sequence, as functions of
 * the sequence before the call, and the properties that relate the handlers.
 */
module Store {
  import opened Models

  /** Error text of a failed lookup. */
  const ProductNotFound := "product not found"
  /** Error text of a failed delete (it differs from the lookup's). */
  const ProductWasNotFound := "product was not found"

  predicate Contains(s: seq<Product>, id: Uuid) {
    exists j :: 0 <= j < |s| && s[j].id == id
  }

  /** No two stored records share an identifier. */
  predicate DistinctIds(s: seq<Product>) {
    forall i, j :: 0 <= i < |s| && 0 <= j < |s| && i != j ==> s[i].id != s[j].id
  }

  /** The position of the first record whose identifier is `id`, if any. */
  function FirstMatch(s: seq<Product>, id: Uuid): (r: Option<nat>)
    ensures r.Some? ==> r.value < |s| && s[r.value].id == id
    ensures r.Some? ==> forall j :: 0 <= j < r.value ==> s[j].id != id
    ensures r.None? <==> !Contains(s, id)
    decreases |s|
  {
    if |s| == 0 then None
    else if s[0].id == id then Some(0)
    else
      match FirstMatch(s[1..], id)
      case None => None
      case Some(k) => Some(k + 1)
  }

  // ---------------------------------------------------------------- create

  /** The record create stores: the payload's name, price, category and quantity,
      a fresh identifier, and `now` as both timestamps. The payload's own
      identifier and timestamps are dropped. */
  function NewRecord(payload: Product, freshId: Uuid, now: Instant): (r: Product)
    ensures r.id == freshId && r.createdAt == now && r.updatedAt == now
    ensures r.name == payload.name && r.price == payload.price
    ensures r.category == payload.category && r.quantity == payload.quantity
  {
    Product(freshId, payload.name, payload.category, payload.price, now, now, payload.quantity)
  }

  /** The store after create: exactly one record more, at the end. */
  function Create(s: seq<Product>, payload: Product, freshId: Uuid, now: Instant): (r: seq<Product>)
    ensures |r| == |s| + 1
    ensures forall j :: 0 <= j < |s| ==> r[j] == s[j]
    ensures r[|s|] == NewRecord(payload, freshId, now)
  {
    s + [NewRecord(payload, freshId, now)]
  }

  // ------------------------------------------------------------------- get

  /** The outcome of get: the first record with the identifier, or NotFound. */
  function Lookup(s: seq<Product>, id: Uuid): (r: Outcome)
    ensures r.Ok? || r == NotFound(ProductNotFound)
    ensures r.Ok? <==> Contains(s, id)
    ensures r.Ok? ==> r.product.id == id
    ensures r.Ok? ==> exists k :: 0 <= k < |s| && s[k] == r.product && forall j :: 0 <= j < k ==> s[j].id != id
  {
    match FirstMatch(s, id)
    case Some(k) => Ok(s[k])
    case None => NotFound(ProductNotFound)
  }

  // ---------------------------------------------------------------- update

  /** A record with name, quantity and price taken from the payload. */
  function Revised(p: Product, payload: Product): (r: Product)
    ensures r.name == payload.name && r.quantity == payload.quantity && r.price == payload.price
    ensures r.id == p.id && r.category == p.category
    ensures r.createdAt == p.createdAt && r.updatedAt == p.updatedAt
  {
    p.(name := payload.name, quantity := payload.quantity, price := payload.price)
  }

  /** The store after update: the first match revised, everything else as it was;
      with no match, the store is unchanged. */
  function Update(s: seq<Product>, id: Uuid, payload: Product): (r: seq<Product>)
    ensures |r| == |s|
    ensures !Contains(s, id) ==> r == s
    ensures forall k :: FirstMatch(s, id) == Some(k) ==>
              r[k] == Revised(s[k], payload) &&
              forall j :: 0 <= j < |s| && j != k ==> r[j] == s[j]
    ensures forall j :: 0 <= j < |s| ==> r[j].id == s[j].id
  {
    match FirstMatch(s, id)
    case Some(k) => s[k := Revised(s[k], payload)]
    case None => s
  }

  // ---------------------------------------------------------------- delete

  /** The store after delete: the first match removed and the rest kept in
      their order; with no match, the store is unchanged. */
  function Delete(s: seq<Product>, id: Uuid): (r: seq<Product>)
    ensures !Contains(s, id) ==> r == s
    ensures Contains(s, id) ==> |r| == |s| - 1
    ensures forall k :: FirstMatch(s, id) == Some(k) ==>
              (forall j :: 0 <= j < k ==> r[j] == s[j]) &&
              (forall j :: k <= j < |r| ==> r[j] == s[j + 1]) &&
              multiset(r) + multiset{s[k]} == multiset(s)
  {
    match FirstMatch(s, id)
    case Some(k) =>
      assert s == s[..k] + [s[k]] + s[k + 1..];
      s[..k] + s[k + 1..]
    case None => s
  }

  /** The outcome of delete. */
  function DeleteOutcome(s: seq<Product>, id: Uuid): (r: Outcome)
    ensures r == NoContent <==> Contains(s, id)
    ensures r == NoContent || r == NotFound(ProductWasNotFound)
  {
    if FirstMatch(s, id).Some? then NoContent else NotFound(ProductWasNotFound)
  }

  // ------------------------------------------------ relating the handlers

  /** A created record can be read back by its fresh identifier. */
  lemma CreateThenGet(s: seq<Product>, payload: Product, freshId: Uuid, now: Instant)
    requires !Contains(s, freshId)
    ensures Lookup(Create(s, payload, freshId, now), freshId) == Ok(NewRecord(payload, freshId, now))
  {
  }

  /** Deleting the record just created restores the store. */
  lemma CreateThenDelete(s: seq<Product>, payload: Product, freshId: Uuid, now: Instant)
    requires !Contains(s, freshId)
    ensures Delete(Create(s, payload, freshId, now), freshId) == s
    ensures DeleteOutcome(Create(s, payload, freshId, now), freshId) == NoContent
  {
  }

  /** Reading back after an update gives the revised record; a miss stays a miss. */
  lemma UpdateThenGet(s: seq<Product>, id: Uuid, payload: Product)
    ensures Lookup(Update(s, id, payload), id) ==
              match Lookup(s, id)
              case Ok(p) => Ok(Revised(p, payload))
              case other => other
  {
  }

  /** When identifiers are distinct, a deleted identifier is no longer visible. */
  lemma DeleteThenGet(s: seq<Product>, id: Uuid)
    requires DistinctIds(s)
    ensures Lookup(Delete(s, id), id) == NotFound(ProductNotFound)
  {
  }

  /** An identifier that is not stored is reported missing by get and delete,
      and leaves the store unchanged under update and delete. */
  lemma NotFoundSymmetry(s: seq<Product>, id: Uuid, payload: Product)
    requires !Contains(s, id)
    ensures Lookup(s, id) == NotFound(ProductNotFound)
    ensures Update(s, id, payload) == s
    ensures Delete(s, id) == s && DeleteOutcome(s, id) == NotFound(ProductWasNotFound)
  {
  }

  lemma CreateKeepsIdsDistinct(s: seq<Product>, payload: Product, freshId: Uuid, now: Instant)
    requires DistinctIds(s) && !Contains(s, freshId)
    ensures DistinctIds(Create(s, payload, freshId, now))
  {
  }

  lemma UpdateKeepsIdsDistinct(s: seq<Product>, id: Uuid, payload: Product)
    requires DistinctIds(s)
    ensures DistinctIds(Update(s, id, payload))
  {
  }

  lemma DeleteKeepsIdsDistinct(s: seq<Product>, id: Uuid)
    requires DistinctIds(s)
    ensures DistinctIds(Delete(s, id))
  {
  }

  // ------------------------------------------------- sequences of requests

  /** One call to a product handler, with the fresh identifier and the clock
      reading that create uses given as data. */
  datatype Request =
    | ListReq
    | CreateReq(payload: Product, freshId: Uuid, now: Instant)
    | GetReq(id: Uuid)
    | UpdateReq(id: Uuid, payload: Product)
    | DeleteReq(id: Uuid)

  /** The store after one request; list and get leave it alone. */
  function Step(s: seq<Product>, q: Request): (r: seq<Product>) {
    match q
    case ListReq => s
    case CreateReq(payload, freshId, now) => Create(s, payload, freshId, now)
    case GetReq(_) => s
    case UpdateReq(id, payload) => Update(s, id, payload)
    case DeleteReq(id) => Delete(s, id)
  }

  /** The store after the requests, applied in order. */
  function Run(s: seq<Product>, qs: seq<Request>): (r: seq<Product>)
    decreases |qs|
  {
    if qs == [] then s else Run(Step(s, qs[0]), qs[1..])
  }

  /** Every create in the run gets an identifier not stored at that moment. */
  predicate FreshCreates(s: seq<Product>, qs: seq<Request>)
    decreases |qs|
  {
    qs == [] ||
    ((qs[0].CreateReq? ==> !Contains(s, qs[0].freshId)) && FreshCreates(Step(s, qs[0]), qs[1..]))
  }

  /** Identifiers stay distinct across any run whose creates get fresh identifiers. */
  lemma {:induction false} RunKeepsIdsDistinct(s: seq<Product>, qs: seq<Request>)
    requires DistinctIds(s) && FreshCreates(s, qs)
    ensures DistinctIds(Run(s, qs))
    decreases |qs|
  {
    if qs != [] {
      match qs[0] {
        case ListReq =>
        case CreateReq(payload, freshId, now) => CreateKeepsIdsDistinct(s, payload, freshId, now);
        case GetReq(_) =>
        case UpdateReq(id, payload) => UpdateKeepsIdsDistinct(s, id, payload);
        case DeleteReq(id) => DeleteKeepsIdsDistinct(s, id);
      }
      RunKeepsIdsDistinct(Step(s, qs[0]), qs[1..]);
    }
  }

  /** The number of creates in the requests. */
  function Creates(qs: seq<Request>): (n: nat)
    decreases |qs|
  {
    if qs == [] then 0 else (if qs[0].CreateReq? then 1 else 0) + Creates(qs[1..])
  }

  /** The number of deletes in the run whose identifier is stored when they run. */
  function Hits(s: seq<Product>, qs: seq<Request>): (n: nat)
    decreases |qs|
  {
    if qs == [] then 0
    else (if qs[0].DeleteReq? && Contains(s, qs[0].id) then 1 else 0) + Hits(Step(s, qs[0]), qs[1..])
  }

  /** The store's size after a run: what it held, plus the creates, minus the
      deletes that found their record. */
  lemma {:induction false} RunSize(s: seq<Product>, qs: seq<Request>)
    ensures |Run(s, qs)| + Hits(s, qs) == |s| + Creates(qs)
    decreases |qs|
  {
    if qs != [] {
      RunSize(Step(s, qs[0]), qs[1..]);
    }
  }

  /** The records a run of creates stores, in request order. */
  function CreatedRecords(qs: seq<Request>): (r: seq<Product>)
    requires forall i :: 0 <= i < |qs| ==> qs[i].CreateReq?
    decreases |qs|
  {
    if qs == [] then []
    else [NewRecord(qs[0].payload, qs[0].freshId, qs[0].now)] + CreatedRecords(qs[1..])
  }

  /** After a run of creates, the store holds what it held followed by the new
      records in creation order. */
  lemma {:induction false} RunOfCreates(s: seq<Product>, qs: seq<Request>)
    requires forall i :: 0 <= i < |qs| ==> qs[i].CreateReq?
    ensures Run(s, qs) == s + CreatedRecords(qs)
    decreases |qs|
  {
    if qs != [] {
      RunOfCreates(Step(s, qs[0]), qs[1..]);
      assert Step(s, qs[0]) == s + [NewRecord(qs[0].payload, qs[0].freshId, qs[0].now)];
    }
  }
}
