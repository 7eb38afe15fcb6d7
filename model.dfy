/** Records, enumerations and error kinds shared by every service of the store. */
module Model {

  datatype Option<+T> = None | Some(value: T)

  /** What a service call produced: its value, or the exception it raised. */
  datatype Result<+T> = Ok(value: T) | Err(error: Error)

  /** The exceptions the services raise, one constructor per distinct message. */
  datatype Error =
    | CartEmpty                                          // "Cart is empty. Cannot create order."
    | ProductNotFound(productId: string)
    | NotEnoughStock(available: int)                     // cart: "Insufficient stock. Available: n"
    | InsufficientStockFor(productName: string)          // order: "Insufficient stock for product: name"
    | OrderNotFound(orderId: string)
    | OrderNotCreated(current: OrderStatus)
    | AmountMismatch
    | CannotCancelPaid
    | AlreadyCancelled
    | PaymentNotFoundForOrder(orderKey: Option<string>)
    | PaymentNotFoundForRazorpayOrder(razorpayOrderId: Option<string>)
    | NonUniqueResult                                    // an Optional finder matched several documents
    | NoEnumConstant(name: string)                       // Enum.valueOf on an unknown name
    | NullPointer
    | ClassCast
    | GatewayFailure(message: string)
    | InvalidWebhookRequest

  datatype OrderStatus = Created | Paid | Failed | Cancelled

  datatype PaymentStatus = Pending | Success | Failed

  /** The enum constant's name, as `toString` prints it. */
  function PaymentStatusName(s: PaymentStatus): string {
    match s
    case Pending => "PENDING"
    case Success => "SUCCESS"
    case Failed => "FAILED"
  }

  /** `PaymentStatus.valueOf`: exact-case lookup of a constant by name. */
  function PaymentStatusValueOf(name: string): (r: Option<PaymentStatus>)
    ensures forall s: PaymentStatus :: r == Some(s) <==> name == PaymentStatusName(s)
  {
    if name == "PENDING" then Some(PaymentStatus.Pending)
    else if name == "SUCCESS" then Some(PaymentStatus.Success)
    else if name == "FAILED" then Some(PaymentStatus.Failed)
    else None
  }

  datatype Product = Product(id: string, name: string, description: Option<string>, price: int, stock: int)

  datatype CartItem = CartItem(id: string, userId: string, productId: string, quantity: int)

  datatype Order = Order(id: string, userId: string, totalAmount: int, status: OrderStatus, createdAt: int)

  datatype OrderItem = OrderItem(id: string, orderId: string, productId: string, quantity: int, price: int)

  /** `paymentId` is the provider's external reference; it is null until a gateway or webhook sets it. */
  datatype Payment = Payment(id: string, orderId: string, amount: int, status: PaymentStatus,
                             paymentId: Option<string>, createdAt: int)

  /** A fresh opaque identifier, standing for `UUID.randomUUID()`: a string that no record uses yet. */
  method FreshId(used: set<string>) returns (id: string)
    ensures id !in used
  {
    var longest: nat := 0;
    var rest := used;
    while rest != {}
      invariant rest <= used
      invariant forall s :: s in used && s !in rest ==> |s| <= longest
      decreases |rest|
    {
      var s :| s in rest;
      if |s| > longest {
        longest := |s|;
      }
      rest := rest - {s};
    }
    id := seq(longest + 1, _ => 'u');
  }
}
