/** The order statuses of the schema, shared by stock and refunds. */
module OrderState {

  datatype OrderStatus = PendingPayment | Processing | Paid | OrderFailed | Cancelled | Refunded
}
