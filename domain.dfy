/**
 The records the resolvers work on, as values: an order (pedido) with its
 line items, the three order states, and the identifiers that stand for
 MongoDB object ids.
 */
module Domain {

  /** Object ids of the products, customers and salespeople collections. */
  type ProductId = string
  type ClienteId = string
  type VendedorId = string

  /** Status of an order; the schema admits exactly these three values. */
  datatype Estado = Pendiente | Completado | Cancelado

  /** One line item of an order: the product it names and how many units. */
  datatype LineItem = LineItem(id: ProductId, cantidad: nat)

  /** An order record, and also the form a client submits to create or update one. */
  datatype Pedido = Pedido(
    pedido: seq<LineItem>,
    total: int,
    cliente: ClienteId,
    estado: Estado,
    vendedor: VendedorId
  )

  datatype Option<T> = None | Some(value: T)
}
