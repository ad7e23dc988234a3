/** The records the product store keeps, and the outcome a handler reports. */
module Models {

  /** Rust's `u32`; price and quantity are only ever copied, never computed on. */
  newtype U32 = x: int | 0 <= x < 0x1_0000_0000

  /** A UUID. The store only compares identifiers for equality, so it stays abstract. */
  type Uuid = nat

  /** A UTC instant. The store only copies instants, never compares or computes
      with them, so it stays abstract too. */
  type Instant = nat

  datatype Category = Category(id: Uuid, name: string, createdAt: Instant, updatedAt: Instant)

  /** A product embeds its category by value: it is a snapshot, not a reference. */
  datatype Product = Product(
    id: Uuid,
    name: string,
    category: Category,
    price: U32,
    createdAt: Instant,
    updatedAt: Instant,
    quantity: U32)

  datatype Option<T> = None | Some(value: T)

  /** What a handler reports, without the HTTP status code or the JSON body. */
  datatype Outcome =
    | Created(product: Product)
    | Ok(product: Product)
    | NotFound(msg: string)
    | NoContent
}
