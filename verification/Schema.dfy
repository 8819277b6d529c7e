/** The rows of the order pipeline: orders, driver tasks, payments, bypass requests,
    order items and status history, with the fixed transition tables between statuses. */
module Schema {
  datatype Option<+T> = None | Some(value: T)

  type OrderId = nat
  type EmployeeId = nat
  type CustomerId = nat
  type ItemId = nat
  /** Seconds on one clock shared by the application and the database. */
  type Time = int
  type Cents = int

  /** The eleven values allowed by the CHECK constraint on orders.status, in pipeline order. */
  datatype Status =
    | WaitingPickupDriver
    | LaundryToOutlet
    | LaundryArrivedOutlet
    | Washing
    | Ironing
    | Packing
    | WaitingPayment
    | ReadyForDelivery
    | DeliveryToCustomer
    | ReceivedByCustomer
    | Completed

  function Rank(s: Status): nat {
    match s
    case WaitingPickupDriver => 0
    case LaundryToOutlet => 1
    case LaundryArrivedOutlet => 2
    case Washing => 3
    case Ironing => 4
    case Packing => 5
    case WaitingPayment => 6
    case ReadyForDelivery => 7
    case DeliveryToCustomer => 8
    case ReceivedByCustomer => 9
    case Completed => 10
  }

  /** One stage forward; an order paid before packing finished skips waiting_payment. */
  predicate Edge(from: Status, to: Status) {
    Rank(to) == Rank(from) + 1 || (from == Packing && to == ReadyForDelivery)
  }

  type Station = s: Status | s.Washing? || s.Ironing? || s.Packing? witness Washing

  /** stationNextStatus; packing's default target is overridden when the order is already paid. */
  function StationNextStatus(s: Station): Status {
    match s
    case Washing => Ironing
    case Ironing => Packing
    case Packing => WaitingPayment
  }

  datatype TaskKind = Pickup | Delivery

  function ClaimOldStatus(k: TaskKind): Status {
    match k case Pickup => WaitingPickupDriver case Delivery => ReadyForDelivery
  }

  function ClaimNextStatus(k: TaskKind): Status {
    match k case Pickup => LaundryToOutlet case Delivery => DeliveryToCustomer
  }

  function CompleteOldStatus(k: TaskKind): Status {
    match k case Pickup => LaundryToOutlet case Delivery => DeliveryToCustomer
  }

  function CompleteNextStatus(k: TaskKind): Status {
    match k case Pickup => LaundryArrivedOutlet case Delivery => ReceivedByCustomer
  }

  datatype Order = Order(
    customer: CustomerId, status: Status, fee: Cents, total: Cents,
    pickupSchedule: Option<Time>, autoConfirmAt: Option<Time>)

  datatype TaskStatus = Available | InProgress | Done

  datatype DriverTask = DriverTask(
    status: TaskStatus, driver: Option<EmployeeId>, takenAt: Option<Time>, completedAt: Option<Time>)

  /** A row as CreateDriverTask inserts it. */
  const NEW_TASK := DriverTask(Available, None, None, None)

  datatype PaymentStatus = PaymentPending | Paid | Failed | Refunded | Expired

  /** gateway_transaction_id: the order's invoice number and the millisecond of the request. */
  datatype GatewayId = GatewayId(order: OrderId, stamp: nat)

  datatype Payment = Payment(
    amount: Cents, status: PaymentStatus, gateway: GatewayId, paidAt: Option<Time>)

  datatype Actor = ByCustomer(customer: CustomerId) | ByEmployee(employee: EmployeeId) | BySystem

  datatype HistoryRow = HistoryRow(before: Option<Status>, after: Status, actor: Actor)

  /** A stored order item: quantity in hundredths (NUMERIC(6,2)) and price in cents. */
  datatype OrderItem = OrderItem(item: ItemId, quantity: int, price: Cents)

  /** How many pieces of a clothing type or of a laundry item. */
  datatype Count = Count(id: ItemId, quantity: int)

  datatype BypassStatus = Pending | Approved | Rejected

  datatype Bypass = Bypass(
    station: Station, requestedBy: EmployeeId, attempt: nat,
    status: BypassStatus, reviewedBy: Option<EmployeeId>)

  const MAX_BYPASS_ATTEMPTS_PER_STATION: nat := 2
  const AUTO_CONFIRM_DELAY: Time := 48 * 3600
}
