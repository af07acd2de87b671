/**
  The records the console exchanges with the server: customers, purchases,
  payments and the paginated list envelope. JavaScript numbers are `real`;
  identifiers assigned by the server are integers.
 */
module Domain {
  import opened Wrappers
  import opened JsNumber

  datatype PurchaseStatus = Activo | Pagado | Cancelado

  datatype PaymentMethod = Efectivo | Transferencia | Otro {
    /** The enumeration constant as the server spells it. */
    function Code(): string {
      match this
      case Efectivo => "EFECTIVO"
      case Transferencia => "TRANSFERENCIA"
      case Otro => "OTRO"
    }
  }

  datatype Customer = Customer(
    id: int,
    name: string,
    email: string,
    phone: string,
    notes: Option<string>)

  datatype Purchase = Purchase(
    id: int,
    customerId: int,
    customerName: string,
    description: string,
    totalAmount: real,
    paidAmount: real,
    remainingAmount: real,
    status: PurchaseStatus,
    createdAt: string,
    installmentEnabled: bool,
    installmentCount: Option<int>,
    installmentAmount: Option<real>)

  /** A page of a server-side list. */
  datatype PageEnvelope<T> = PageEnvelope(content: seq<T>, totalPages: int, last: bool)

  /** Body of both the create and the update request for a customer. */
  datatype CustomerRequest = CustomerRequest(name: string, email: string, phone: string, notes: string)

  /** Body of the payment creation request. `method` is the raw value of the
      form's select, sent as `method` without checking it against `PaymentMethod`. */
  datatype PaymentCreateRequest = PaymentCreateRequest(
    amount: real,
    paymentMethod: string,
    paidAt: Option<string>,
    note: Option<string>)

  /** Body of the purchase creation request. `customerId` is `Number` of the
      select's value; `installmentCount` is absent when installments are off. */
  datatype PurchaseCreateRequest = PurchaseCreateRequest(
    customerId: Num,
    description: string,
    totalAmount: real,
    installmentEnabled: bool,
    installmentCount: Option<real>)
}
