/** The order record shared by the checkout endpoint and the dashboard pages
    (the `Order` interface of app/index.ts, with the `customer_email` column the
    pages also read). Amounts are integers in the store's currency units. */
module Orders {

  /** The four states an order can be in. */
  datatype OrderStatus = Paid | Pending | Shipped | Cancelled

  datatype Order = Order(
    id: string,
    storeId: string,
    customerName: string,
    customerEmail: string,
    status: OrderStatus,
    totalAmount: int,
    createdAt: string)
}
