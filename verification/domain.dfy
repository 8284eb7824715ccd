/** The entities of the storefront: catalog products, basket lines, orders,
    repair tickets and the two-level service catalog (categories holding
    priced service items). Amounts are whole rand, so prices, stock,
    quantities and totals are integers. */
module Domain {

  /** A value that may be absent: an optional field of a record, or a key
      left out of a partial update. */
  datatype Option<T> = None | Some(value: T) {
    /** What a spread leaves in a field: the carried value if there is one,
        else the field's `current` value. */
    function Otherwise(current: T): T {
      if Some? then value else current
    }
  }

  // ---------------------------------------------------------------- products

  datatype ProductType = Laptop | Component | Accessory | Software

  datatype Brand = Dell | HP | Lenovo | Samsung | Kingston | OtherBrand

  datatype Condition = New | Refurbished

  /** Optional technical details of a product; each entry may be missing. */
  datatype Specs = Specs(cpu: Option<string>, ram: Option<string>, storage: Option<string>)

  /** A sellable catalog entry. The source's `type` field is called
      `productType` here because `type` is a keyword. */
  datatype Product = Product(
    id: string,
    name: string,
    category: string,
    productType: ProductType,
    brand: Brand,
    condition: Condition,
    price: int,
    stock: int,
    image: string,
    description: string,
    specs: Option<Specs>)

  /** A basket line: a snapshot of the product taken when it was first added,
      plus how many of it are in the basket. */
  datatype CartItem = CartItem(product: Product, quantity: int)

  // ------------------------------------------------------------------ orders

  datatype OrderStatus = Pending | Paid | Shipped | Delivered

  datatype PaymentMethod = Stripe | PayPal

  datatype Order = Order(
    id: string,
    customerName: string,
    email: string,
    address: string,
    items: seq<CartItem>,
    total: int,
    status: OrderStatus,
    date: string,
    paymentMethod: PaymentMethod)

  /** What a caller hands to order placement: an order without the `id`,
      `date` and `status` the store fills in itself. */
  datatype OrderDraft = OrderDraft(
    customerName: string,
    email: string,
    address: string,
    items: seq<CartItem>,
    total: int,
    paymentMethod: PaymentMethod)

  // ----------------------------------------------------------------- tickets

  datatype TicketStatus = NewTicket | InProgress | Completed | Cancelled

  /** A customer repair inquiry. */
  datatype ServiceRequest = ServiceRequest(
    id: string,
    customerName: string,
    contactMethod: string,
    contactValue: string,
    serviceType: string,
    description: string,
    status: TicketStatus,
    dateCreated: string,
    notes: Option<string>,
    aiAnalysis: Option<string>,
    assignedTo: Option<string>)

  // --------------------------------------------------------- service catalog

  /** One priced offering inside a service category. */
  datatype ServiceItem = ServiceItem(id: string, name: string, price: int, description: string)

  /** A named group of service items; the item list is one unit that
      updates replace as a whole. */
  datatype ServiceCategory = ServiceCategory(
    id: string,
    category: string,
    description: string,
    services: seq<ServiceItem>)

  // ---------------------------------------------------------- identity keys

  /** The identity each collection is keyed by. */
  function ProductId(p: Product): string { p.id }

  /** A basket line is identified by its product's id (the line spreads the
      product's fields, so `item.id` is the product id). */
  function ItemId(item: CartItem): string { item.product.id }

  function CategoryId(c: ServiceCategory): string { c.id }

  function ServiceItemId(s: ServiceItem): string { s.id }
}
