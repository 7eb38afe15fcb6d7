/** OrderService: converts a cart into an order, tracks the order's status and cancels orders. */
module Orders {
  import opened Model
  import Inventory
  import Carts

  /** Every order is stored under its own id. */
  ghost predicate OrdersWellFormed(orders: map<string, Order>) {
    forall id :: id in orders ==> orders[id].id == id
  }

  /** `orderItemRepository.findByOrderId`: the items of one order, in stored order. */
  function ItemsOf(items: seq<OrderItem>, orderId: string): seq<OrderItem>
    decreases |items|
  {
    if items == [] then []
    else
      var init := ItemsOf(items[..|items| - 1], orderId);
      if items[|items| - 1].orderId == orderId then init + [items[|items| - 1]] else init
  }

  /** `findByOrderId` returns exactly the stored items that carry the order id. */
  lemma {:induction false} ItemsOfMembers(items: seq<OrderItem>, orderId: string)
    ensures forall x :: x in ItemsOf(items, orderId) <==> x in items && x.orderId == orderId
    decreases |items|
  {
    if items != [] {
      var init := items[..|items| - 1];
      ItemsOfMembers(init, orderId);
      assert items == init + [items[|items| - 1]];
    }
  }

  /** The sum of unit price × quantity over order items. */
  function ItemsTotal(items: seq<OrderItem>): int
    decreases |items|
  {
    if items == [] then 0
    else ItemsTotal(items[..|items| - 1]) + items[|items| - 1].price * items[|items| - 1].quantity
  }

  /** The order total stored with every order is the sum over that order's items. */
  ghost predicate TotalsConsistent(orders: map<string, Order>, items: seq<OrderItem>) {
    forall id :: id in orders ==> orders[id].totalAmount == ItemsTotal(ItemsOf(items, id))
  }

  function ItemIds(items: seq<OrderItem>): set<string> {
    set x | x in items :: x.id
  }

  function ItemOrderIds(items: seq<OrderItem>): set<string> {
    set x | x in items :: x.orderId
  }

  /** One iteration of `createOrder`'s first loop: the line's cost at the current price, or why it fails. */
  function LineCost(line: CartItem, products: map<string, Product>): Result<int> {
    if line.productId !in products then Err(ProductNotFound(line.productId))
    else if products[line.productId].stock < line.quantity then Err(InsufficientStockFor(products[line.productId].name))
    else Ok(products[line.productId].price * line.quantity)
  }

  /** `createOrder`'s first loop: the error of the first failing line, else the running total. */
  function CheckoutTotal(lines: seq<CartItem>, products: map<string, Product>): Result<int>
    decreases |lines|
  {
    if lines == [] then Ok(0)
    else
      match CheckoutTotal(lines[..|lines| - 1], products)
      case Err(e) => Err(e)
      case Ok(total) =>
        match LineCost(lines[|lines| - 1], products)
        case Err(e) => Err(e)
        case Ok(cost) => Ok(total + cost)
  }

  predicate Available(line: CartItem, products: map<string, Product>) {
    line.productId in products && products[line.productId].stock >= line.quantity
  }

  /** The checkout succeeds exactly when every line's product exists with enough stock. */
  lemma {:induction false} CheckoutOkIff(lines: seq<CartItem>, products: map<string, Product>)
    ensures CheckoutTotal(lines, products).Ok? <==> forall i :: 0 <= i < |lines| ==> Available(lines[i], products)
    decreases |lines|
  {
    if lines != [] {
      var init := lines[..|lines| - 1];
      CheckoutOkIff(init, products);
      assert forall i :: 0 <= i < |init| ==> init[i] == lines[i];
    }
  }

  /** Once a prefix of the cart fails, the whole checkout fails with that prefix's error. */
  lemma {:induction false} CheckoutPrefixFails(lines: seq<CartItem>, products: map<string, Product>, k: nat)
    requires k <= |lines|
    requires CheckoutTotal(lines[..k], products).Err?
    ensures CheckoutTotal(lines, products) == CheckoutTotal(lines[..k], products)
    decreases |lines|
  {
    if k < |lines| {
      var init := lines[..|lines| - 1];
      assert init[..k] == lines[..k];
      CheckoutPrefixFails(init, products, k);
    } else {
      assert lines[..k] == lines;
    }
  }

  /** The stored products after `createOrder`'s second loop has decremented stock line by line. */
  function Debit(products: map<string, Product>, lines: seq<CartItem>): map<string, Product>
    decreases |lines|
  {
    if lines == [] then products
    else
      var last := lines[|lines| - 1];
      Inventory.Adjust(Debit(products, lines[..|lines| - 1]), last.productId, -last.quantity)
  }

  /** The total quantity the lines order of one product. */
  function Demand(lines: seq<CartItem>, productId: string): int
    decreases |lines|
  {
    if lines == [] then 0
    else
      var last := lines[|lines| - 1];
      Demand(lines[..|lines| - 1], productId) + (if last.productId == productId then last.quantity else 0)
  }

  /** Decrementing line by line takes each product's whole demand off its stock and touches nothing else. */
  lemma {:induction false} DebitAt(products: map<string, Product>, lines: seq<CartItem>)
    ensures Debit(products, lines).Keys == products.Keys
    ensures forall id :: id in products ==>
              Debit(products, lines)[id] == products[id].(stock := products[id].stock - Demand(lines, id))
    decreases |lines|
  {
    if lines != [] {
      DebitAt(products, lines[..|lines| - 1]);
    }
  }

  /** Taking stock off never changes which products exist or their other fields. */
  lemma {:induction false} DebitKeepsPrice(products: map<string, Product>, lines: seq<CartItem>, productId: string)
    requires productId in products
    ensures productId in Debit(products, lines)
    ensures Debit(products, lines)[productId].price == products[productId].price
    decreases |lines|
  {
    if lines != [] {
      DebitKeepsPrice(products, lines[..|lines| - 1], productId);
    }
  }

  /** Lines naming distinct products demand exactly one line's quantity of each named product. */
  lemma {:induction false} DemandOfDistinct(lines: seq<CartItem>, k: nat)
    requires k < |lines|
    requires forall i, j :: 0 <= i < j < |lines| ==> lines[i].productId != lines[j].productId
    ensures Demand(lines, lines[k].productId) == lines[k].quantity
    decreases |lines|
  {
    var n := |lines|;
    var init := lines[..n - 1];
    if k == n - 1 {
      DemandAbsent(init, lines[k].productId);
    } else {
      assert init[k] == lines[k];
      DemandOfDistinct(init, k);
    }
  }

  lemma {:induction false} DemandAbsent(lines: seq<CartItem>, productId: string)
    requires forall i :: 0 <= i < |lines| ==> lines[i].productId != productId
    ensures Demand(lines, productId) == 0
    decreases |lines|
  {
    if lines != [] {
      DemandAbsent(lines[..|lines| - 1], productId);
    }
  }

  /** Order items `newItems` are the snapshot `createOrder` writes for `lines`: one per line, in order,
      with the new order's id, the line's product and quantity, and the price read at creation. */
  ghost predicate Snapshot(newItems: seq<OrderItem>, orderId: string, lines: seq<CartItem>, products: map<string, Product>) {
    && |newItems| == |lines|
    && forall k :: 0 <= k < |newItems| ==> ItemFor(newItems[k], orderId, lines[k], products)
  }

  /** The item `createOrder` writes for one cart line. */
  ghost predicate ItemFor(item: OrderItem, orderId: string, line: CartItem, products: map<string, Product>) {
    && item.orderId == orderId
    && item.productId == line.productId
    && item.quantity == line.quantity
    && line.productId in products
    && item.price == products[line.productId].price
  }

  lemma SnapshotStep(prev: seq<OrderItem>, item: OrderItem, orderId: string, lines: seq<CartItem>, j: nat,
                     products: map<string, Product>)
    requires j < |lines| && Snapshot(prev, orderId, lines[..j], products)
    requires item.orderId == orderId && item.productId == lines[j].productId && item.quantity == lines[j].quantity
    requires lines[j].productId in products && item.price == products[lines[j].productId].price
    ensures Snapshot(prev + [item], orderId, lines[..j + 1], products)
  {
  }

  lemma DebitStep(products: map<string, Product>, lines: seq<CartItem>, j: nat)
    requires j < |lines|
    ensures Debit(products, lines[..j + 1]) == Inventory.Adjust(Debit(products, lines[..j]), lines[j].productId, -lines[j].quantity)
  {
    assert lines[..j + 1][..j] == lines[..j];
  }

  /** The total `createOrder` computes equals the sum over the items it writes. */
  lemma {:induction false} CheckoutTotalIsItemsTotal(lines: seq<CartItem>, products: map<string, Product>, newItems: seq<OrderItem>, orderId: string)
    requires CheckoutTotal(lines, products).Ok?
    requires Snapshot(newItems, orderId, lines, products)
    ensures ItemsTotal(newItems) == CheckoutTotal(lines, products).value
    decreases |lines|
  {
    if lines != [] {
      var n := |lines|;
      assert Snapshot(newItems[..n - 1], orderId, lines[..n - 1], products);
      CheckoutTotalIsItemsTotal(lines[..n - 1], products, newItems[..n - 1], orderId);
    }
  }

  /** `cancelOrder`'s loop: adds each item's quantity back to its product, failing at the first item whose
      product is gone. */
  function Restock(products: map<string, Product>, items: seq<OrderItem>): Result<map<string, Product>>
    decreases |items|
  {
    if items == [] then Ok(products)
    else
      match Restock(products, items[..|items| - 1])
      case Err(e) => Err(e)
      case Ok(restocked) =>
        var last := items[|items| - 1];
        if last.productId in restocked then Ok(Inventory.Adjust(restocked, last.productId, last.quantity))
        else Err(ProductNotFound(last.productId))
  }

  /** The total quantity the items return of one product. */
  function Returned(items: seq<OrderItem>, productId: string): int
    decreases |items|
  {
    if items == [] then 0
    else
      var last := items[|items| - 1];
      Returned(items[..|items| - 1], productId) + (if last.productId == productId then last.quantity else 0)
  }

  /** Restocking succeeds exactly when every item's product exists; it then adds each product's returned
      quantity to its stock and touches nothing else. */
  lemma {:induction false} RestockAt(products: map<string, Product>, items: seq<OrderItem>)
    ensures Restock(products, items).Ok? <==> forall i :: 0 <= i < |items| ==> items[i].productId in products
    ensures Restock(products, items).Ok? ==>
              && Restock(products, items).value.Keys == products.Keys
              && forall id :: id in products ==>
                   Restock(products, items).value[id] == products[id].(stock := products[id].stock + Returned(items, id))
    decreases |items|
  {
    if items != [] {
      var init := items[..|items| - 1];
      RestockAt(products, init);
      assert forall i :: 0 <= i < |init| ==> init[i] == items[i];
    }
  }

  /** Once a prefix of the items fails to restock, the whole restock fails with that prefix's error. */
  lemma {:induction false} RestockPrefixFails(products: map<string, Product>, items: seq<OrderItem>, k: nat)
    requires k <= |items|
    requires Restock(products, items[..k]).Err?
    ensures Restock(products, items) == Restock(products, items[..k])
    decreases |items|
  {
    if k < |items| {
      var init := items[..|items| - 1];
      assert init[..k] == items[..k];
      RestockPrefixFails(products, init, k);
    } else {
      assert items[..k] == items;
    }
  }

  lemma {:induction false} SnapshotReturnsDemand(newItems: seq<OrderItem>, orderId: string, lines: seq<CartItem>,
                                                 products: map<string, Product>, productId: string)
    requires Snapshot(newItems, orderId, lines, products)
    ensures Returned(newItems, productId) == Demand(lines, productId)
    decreases |lines|
  {
    if lines != [] {
      var n := |lines|;
      assert Snapshot(newItems[..n - 1], orderId, lines[..n - 1], products);
      SnapshotReturnsDemand(newItems[..n - 1], orderId, lines[..n - 1], products, productId);
    }
  }

  /** Restocking the items `createOrder` wrote undoes its stock decrements exactly. */
  lemma CancelUndoesCheckout(products: map<string, Product>, lines: seq<CartItem>, newItems: seq<OrderItem>, orderId: string)
    requires CheckoutTotal(lines, products).Ok?
    requires Snapshot(newItems, orderId, lines, products)
    ensures Restock(Debit(products, lines), newItems) == Ok(products)
  {
    var debited := Debit(products, lines);
    DebitAt(products, lines);
    RestockAt(debited, newItems);
    assert forall i :: 0 <= i < |newItems| ==> newItems[i].productId in debited;
    var restored := Restock(debited, newItems).value;
    forall id | id in products
      ensures restored[id] == products[id]
    {
      SnapshotReturnsDemand(newItems, orderId, lines, products, id);
    }
    assert restored == products;
  }

  lemma {:induction false} ItemsOfAppend(items: seq<OrderItem>, more: seq<OrderItem>, orderId: string)
    ensures ItemsOf(items + more, orderId) == ItemsOf(items, orderId) + ItemsOf(more, orderId)
    decreases |more|
  {
    if more == [] {
      assert items + more == items;
    } else {
      var n := |more|;
      assert (items + more)[..|items + more| - 1] == items + more[..n - 1];
      ItemsOfAppend(items, more[..n - 1], orderId);
    }
  }

  lemma {:induction false} ItemsOfAll(items: seq<OrderItem>, orderId: string)
    requires forall i :: 0 <= i < |items| ==> items[i].orderId == orderId
    ensures ItemsOf(items, orderId) == items
    decreases |items|
  {
    if items != [] {
      var init := items[..|items| - 1];
      assert forall i :: 0 <= i < |init| ==> init[i] == items[i];
      ItemsOfAll(init, orderId);
    }
  }

  lemma {:induction false} ItemsOfNone(items: seq<OrderItem>, orderId: string)
    requires forall i :: 0 <= i < |items| ==> items[i].orderId != orderId
    ensures ItemsOf(items, orderId) == []
    decreases |items|
  {
    if items != [] {
      var init := items[..|items| - 1];
      assert forall i :: 0 <= i < |init| ==> init[i] == items[i];
      ItemsOfNone(init, orderId);
    }
  }

  /** `updateOrderStatus`: the order with the new status from whatever status it had, or not found. */
  function SetOrderStatus(orders: map<string, Order>, orderId: string, status: OrderStatus): (r: Result<map<string, Order>>)
    ensures r.Ok? <==> orderId in orders
    ensures r.Err? ==> r.error == OrderNotFound(orderId)
    ensures r.Ok? ==> r.value.Keys == orders.Keys && r.value[orderId] == orders[orderId].(status := status)
    ensures r.Ok? ==> forall id :: id in orders && id != orderId ==> r.value[id] == orders[id]
  {
    if orderId in orders then Ok(orders[orderId := orders[orderId].(status := status)])
    else Err(OrderNotFound(orderId))
  }

  /** Setting the same status twice leaves the orders as setting it once. */
  lemma SetOrderStatusIdempotent(orders: map<string, Order>, orderId: string, status: OrderStatus)
    requires SetOrderStatus(orders, orderId, status).Ok?
    ensures SetOrderStatus(SetOrderStatus(orders, orderId, status).value, orderId, status)
         == SetOrderStatus(orders, orderId, status)
  {
    var once := SetOrderStatus(orders, orderId, status).value;
    assert once[orderId := once[orderId].(status := status)] == once;
  }

  datatype Cancellation = Cancellation(order: Order, products: map<string, Product>)

  /** `cancelOrder`: rejects a missing, PAID or CANCELLED order; a CREATED or FAILED one gets every item's
      quantity back in stock and becomes CANCELLED. */
  function CancelOutcome(orders: map<string, Order>, items: seq<OrderItem>, products: map<string, Product>, orderId: string)
    : Result<Cancellation>
  {
    if orderId !in orders then Err(OrderNotFound(orderId))
    else if orders[orderId].status == Paid then Err(CannotCancelPaid)
    else if orders[orderId].status == Cancelled then Err(AlreadyCancelled)
    else
      match Restock(products, ItemsOf(items, orderId))
      case Err(e) => Err(e)
      case Ok(restocked) => Ok(Cancellation(orders[orderId].(status := Cancelled), restocked))
  }

  /** A cancelled order cannot be cancelled again, so its stock is never restored twice. */
  lemma SecondCancelFails(orders: map<string, Order>, items: seq<OrderItem>, products: map<string, Product>, orderId: string)
    requires CancelOutcome(orders, items, products, orderId).Ok?
    ensures var c := CancelOutcome(orders, items, products, orderId).value;
            CancelOutcome(orders[orderId := c.order], items, c.products, orderId) == Err(AlreadyCancelled)
  {
  }

  /** Cancelling succeeds from CREATED and also from FAILED, whenever the items' products exist. */
  lemma CancelAcceptsCreatedAndFailed(orders: map<string, Order>, items: seq<OrderItem>, products: map<string, Product>, orderId: string)
    requires orderId in orders && orders[orderId].status in {Created, OrderStatus.Failed}
    requires forall it :: it in items && it.orderId == orderId ==> it.productId in products
    ensures CancelOutcome(orders, items, products, orderId).Ok?
    ensures CancelOutcome(orders, items, products, orderId).value.order.status == Cancelled
  {
    var its := ItemsOf(items, orderId);
    ItemsOfMembers(items, orderId);
    assert forall i :: 0 <= i < |its| ==> its[i] in its;
    RestockAt(products, its);
  }

  /** Creating an order from a cart and then cancelling it returns every product's stock, and every other
      field, to its value before the order. */
  lemma CreateThenCancelRestoresStock(orders: map<string, Order>, items: seq<OrderItem>, products: map<string, Product>,
                                      lines: seq<CartItem>, order: Order, newItems: seq<OrderItem>)
    requires CheckoutTotal(lines, products).Ok?
    requires order.status == Created
    requires forall it :: it in items ==> it.orderId != order.id
    requires Snapshot(newItems, order.id, lines, products)
    ensures CancelOutcome(orders[order.id := order], items + newItems, Debit(products, lines), order.id)
         == Ok(Cancellation(order.(status := Cancelled), products))
  {
    ItemsOfAppend(items, newItems, order.id);
    forall i | 0 <= i < |items|
      ensures items[i].orderId != order.id
    {
      assert items[i] in items;
    }
    ItemsOfNone(items, order.id);
    ItemsOfAll(newItems, order.id);
    assert ItemsOf(items + newItems, order.id) == newItems;
    CancelUndoesCheckout(products, lines, newItems, order.id);
  }

  /** After a checkout of a user's well-formed cart, each ordered product's stock is down by exactly its
      line's quantity. */
  lemma CheckoutStock(products: map<string, Product>, cart: seq<CartItem>, userId: string, k: nat)
    requires Carts.WellFormedCart(cart)
    requires k < |Carts.UserLines(cart, userId)|
    requires CheckoutTotal(Carts.UserLines(cart, userId), products).Ok?
    ensures var line := Carts.UserLines(cart, userId)[k];
            && line.productId in products
            && line.productId in Debit(products, Carts.UserLines(cart, userId))
            && Debit(products, Carts.UserLines(cart, userId))[line.productId].stock == products[line.productId].stock - line.quantity
            && Debit(products, Carts.UserLines(cart, userId))[line.productId].stock >= 0
  {
    var lines := Carts.UserLines(cart, userId);
    Carts.UserLinesDistinctProducts(cart, userId);
    CheckoutOkIff(lines, products);
    assert Available(lines[k], products);
    DebitAt(products, lines);
    DemandOfDistinct(lines, k);
  }

  /** Saving a new order with the snapshot of its cart keeps every stored total equal to the sum over
      that order's items, and the new id aside, nothing about other orders' items changes. */
  lemma NewOrderKeepsTotals(orders: map<string, Order>, items: seq<OrderItem>, order: Order,
                            newItems: seq<OrderItem>, lines: seq<CartItem>, products: map<string, Product>)
    requires OrdersWellFormed(orders) && TotalsConsistent(orders, items)
    requires order.id !in ItemOrderIds(items)
    requires CheckoutTotal(lines, products) == Ok(order.totalAmount)
    requires Snapshot(newItems, order.id, lines, products)
    ensures OrdersWellFormed(orders[order.id := order])
    ensures TotalsConsistent(orders[order.id := order], items + newItems)
    ensures forall it :: it in items ==> it.orderId != order.id
  {
    forall it | it in items
      ensures it.orderId != order.id
    {
      assert it.orderId in ItemOrderIds(items);
    }
    assert forall i :: 0 <= i < |items| ==> items[i] in items;
    CheckoutTotalIsItemsTotal(lines, products, newItems, order.id);
    var all := orders[order.id := order];
    forall id | id in all
      ensures all[id].totalAmount == ItemsTotal(ItemsOf(items + newItems, id))
    {
      ItemsOfAfterOrder(items, newItems, order.id, id);
    }
  }

  /** `findByOrderId` after an order's items are appended: that order's items are exactly the new ones,
      and every other order keeps its items. */
  lemma ItemsOfAfterOrder(items: seq<OrderItem>, newItems: seq<OrderItem>, orderId: string, id: string)
    requires forall i :: 0 <= i < |items| ==> items[i].orderId != orderId
    requires forall i :: 0 <= i < |newItems| ==> newItems[i].orderId == orderId
    ensures ItemsOf(items + newItems, id) == if id == orderId then newItems else ItemsOf(items, id)
  {
    ItemsOfAppend(items, newItems, id);
    if id == orderId {
      ItemsOfNone(items, id);
      ItemsOfAll(newItems, id);
    } else {
      ItemsOfNone(newItems, id);
    }
  }

  datatype ItemView = ItemView(productId: string, quantity: int, price: int)

  /** The order as `getOrderDetails` and `getOrderHistory` present it. */
  datatype OrderView = OrderView(id: string, userId: string, totalAmount: int, status: OrderStatus, createdAt: int,
                                 items: seq<ItemView>)

  function ViewTotal(views: seq<ItemView>): int
    decreases |views|
  {
    if views == [] then 0
    else ViewTotal(views[..|views| - 1]) + views[|views| - 1].price * views[|views| - 1].quantity
  }

  function ItemViews(items: seq<OrderItem>): (r: seq<ItemView>)
    ensures |r| == |items|
    ensures ViewTotal(r) == ItemsTotal(items)
    ensures forall i :: 0 <= i < |items| ==> r[i] == ItemView(items[i].productId, items[i].quantity, items[i].price)
    decreases |items|
  {
    if items == [] then []
    else
      var last := items[|items| - 1];
      var r := ItemViews(items[..|items| - 1]) + [ItemView(last.productId, last.quantity, last.price)];
      assert r[..|r| - 1] == ItemViews(items[..|items| - 1]);
      r
  }

  function Details(order: Order, items: seq<OrderItem>): OrderView {
    OrderView(order.id, order.userId, order.totalAmount, order.status, order.createdAt, ItemViews(ItemsOf(items, order.id)))
  }

  class OrderService {
    var orders: map<string, Order>
    var items: seq<OrderItem>
    const cart: Carts.CartService
    const inventory: Inventory.ProductService

    ghost predicate Valid()
      reads this, cart, inventory
    {
      && cart.inventory == inventory
      && cart.Valid()
      && inventory.Valid()
      && OrdersWellFormed(orders)
      && TotalsConsistent(orders, items)
    }

    constructor (cart: Carts.CartService, inventory: Inventory.ProductService)
      requires cart.inventory == inventory && cart.Valid() && inventory.Valid()
      ensures Valid() && orders == map[] && items == []
      ensures this.cart == cart && this.inventory == inventory
    {
      orders := map[];
      items := [];
      this.cart := cart;
      this.inventory := inventory;
    }

    /** `createOrder`'s first loop: reads each line's product and fails on the first one that is missing
        or short of stock; otherwise sums price × quantity. Nothing is written. */
    method PriceCart(lines: seq<CartItem>) returns (r: Result<int>)
      ensures r == CheckoutTotal(lines, inventory.products)
    {
      var total := 0;
      var i := 0;
      while i < |lines|
        invariant 0 <= i <= |lines|
        invariant CheckoutTotal(lines[..i], inventory.products) == Ok(total)
      {
        var line := lines[i];
        assert lines[..i + 1][..i] == lines[..i];
        var product := inventory.GetProductById(line.productId);
        if product.None? {
          CheckoutPrefixFails(lines, inventory.products, i + 1);
          return Err(ProductNotFound(line.productId));
        }
        if product.value.stock < line.quantity {
          CheckoutPrefixFails(lines, inventory.products, i + 1);
          return Err(InsufficientStockFor(product.value.name));
        }
        total := total + product.value.price * line.quantity;
        i := i + 1;
      }
      assert lines[..i] == lines;
      r := Ok(total);
    }

    /** `createOrder`'s second loop: saves one item per line under a fresh id, with the price read now,
        and takes the line's quantity off its product's stock. */
    method WriteItems(orderId: string, lines: seq<CartItem>)
      requires inventory.Valid()
      requires forall i :: 0 <= i < |lines| ==> lines[i].productId in inventory.products
      modifies this, inventory
      ensures inventory.Valid() && inventory.listing == old(inventory.listing)
      ensures orders == old(orders)
      ensures |items| == |old(items)| + |lines| && items[..|old(items)|] == old(items)
      ensures items == old(items) + items[|old(items)|..]
      ensures Snapshot(items[|old(items)|..], orderId, lines, old(inventory.products))
      ensures inventory.products == Debit(old(inventory.products), lines)
    {
      ghost var products := inventory.products;
      ghost var base := items;
      ghost var written: seq<OrderItem> := [];
      var j := 0;
      while j < |lines|
        invariant 0 <= j <= |lines|
        invariant items == base + written
        invariant Snapshot(written, orderId, lines[..j], products)
        invariant inventory.products == Debit(products, lines[..j])
        invariant inventory.Valid() && inventory.listing == old(inventory.listing)
        invariant orders == old(orders)
      {
        var line := lines[j];
        DebitKeepsPrice(products, lines[..j], line.productId);
        var item := WriteItem(orderId, line);
        SnapshotStep(written, item, orderId, lines, j, products);
        written := written + [item];
        DebitStep(products, lines, j);
        j := j + 1;
      }
      assert lines[..j] == lines;
      assert items[|base|..] == written;
    }

    /** One iteration of `createOrder`'s second loop. */
    method WriteItem(orderId: string, line: CartItem) returns (item: OrderItem)
      requires inventory.Valid() && line.productId in inventory.products
      modifies this, inventory
      ensures inventory.Valid() && inventory.listing == old(inventory.listing)
      ensures orders == old(orders) && items == old(items) + [item]
      ensures item == OrderItem(item.id, orderId, line.productId, line.quantity, old(inventory.products)[line.productId].price)
      ensures inventory.products == Inventory.Adjust(old(inventory.products), line.productId, -line.quantity)
    {
      var product := inventory.GetProductById(line.productId);
      var itemId := FreshId(ItemIds(items));
      item := OrderItem(itemId, orderId, line.productId, line.quantity, product.value.price);
      items := items + [item];
      var _ := inventory.UpdateProductStock(line.productId, line.quantity);
    }

    /** `createOrder`: refuses an empty cart, prices the cart before any write, then places the order. */
    method CreateOrder(userId: string, now: int) returns (r: Result<Order>)
      requires Valid()
      modifies this, cart, inventory
      ensures Valid()
      ensures inventory.listing == old(inventory.listing)
      ensures r.Err? ==> unchanged(this, cart, inventory)
      ensures Carts.UserLines(old(cart.lines), userId) == [] ==> r == Err(CartEmpty)
      ensures var lines := Carts.UserLines(old(cart.lines), userId);
              lines != [] && CheckoutTotal(lines, old(inventory.products)).Err? ==>
                r == Err(CheckoutTotal(lines, old(inventory.products)).error)
      ensures var lines, products := Carts.UserLines(old(cart.lines), userId), old(inventory.products);
              lines != [] && CheckoutTotal(lines, products).Ok? ==>
                && r.Ok?
                && r.value == Order(r.value.id, userId, CheckoutTotal(lines, products).value, Created, now)
                && r.value.id !in old(orders)
                && (forall it :: it in old(items) ==> it.orderId != r.value.id)
                && orders == old(orders)[r.value.id := r.value]
                && |items| == |old(items)| + |lines|
                && items[..|old(items)|] == old(items)
                && Snapshot(items[|old(items)|..], r.value.id, lines, products)
                && inventory.products == Debit(products, lines)
                && cart.lines == Carts.WithoutUser(old(cart.lines), userId)
    {
      var lines := cart.GetUserCart(userId);
      if |lines| == 0 {
        return Err(CartEmpty);
      }
      var total := PriceCart(lines);
      if total.Err? {
        return Err(total.error);
      }
      var order := PlaceOrder(userId, now, lines, total.value);
      r := Ok(order);
    }

    /** The writes of `createOrder` once the cart is priced: a CREATED order under a fresh id, one item per
        cart line, the stock decrements, and the cleared cart. */
    method PlaceOrder(userId: string, now: int, lines: seq<CartItem>, total: int) returns (order: Order)
      requires Valid()
      requires lines == Carts.UserLines(cart.lines, userId)
      requires CheckoutTotal(lines, inventory.products) == Ok(total)
      modifies this, cart, inventory
      ensures Valid()
      ensures inventory.listing == old(inventory.listing)
      ensures order == Order(order.id, userId, total, Created, now)
      ensures order.id !in old(orders)
      ensures forall it :: it in old(items) ==> it.orderId != order.id
      ensures orders == old(orders)[order.id := order]
      ensures |items| == |old(items)| + |lines|
      ensures items[..|old(items)|] == old(items)
      ensures Snapshot(items[|old(items)|..], order.id, lines, old(inventory.products))
      ensures inventory.products == Debit(old(inventory.products), lines)
      ensures cart.lines == Carts.WithoutUser(old(cart.lines), userId)
    {
      var orderId := FreshId(orders.Keys + ItemOrderIds(items));
      order := Order(orderId, userId, total, Created, now);
      orders := orders[orderId := order];
      ghost var base := items;
      ghost var products := inventory.products;
      CheckoutOkIff(lines, products);
      assert forall i :: 0 <= i < |lines| ==> Available(lines[i], products);
      WriteItems(orderId, lines);
      cart.ClearCart(userId);
      NewOrderKeepsTotals(old(orders), base, order, items[|base|..], lines, products);
    }

    /** `getOrderById`. */
    function GetOrderById(orderId: string): (r: Result<Order>)
      reads this
      ensures r.Ok? <==> orderId in orders
      ensures r.Ok? ==> r.value == orders[orderId]
      ensures r.Err? ==> r.error == OrderNotFound(orderId)
    {
      if orderId in orders then Ok(orders[orderId]) else Err(OrderNotFound(orderId))
    }

    /** `updateOrderStatus`: sets the status from any current status, or fails on an unknown id. */
    method UpdateOrderStatus(orderId: string, status: OrderStatus) returns (r: Result<()>)
      modifies this
      ensures items == old(items)
      ensures match SetOrderStatus(old(orders), orderId, status)
              case Err(e) => r == Err(e) && orders == old(orders)
              case Ok(updated) => r == Ok(()) && orders == updated
      ensures OrdersWellFormed(old(orders)) ==> OrdersWellFormed(orders)
      ensures TotalsConsistent(old(orders), items) ==> TotalsConsistent(orders, items)
    {
      var found := GetOrderById(orderId);
      if found.Err? {
        return Err(found.error);
      }
      orders := orders[orderId := found.value.(status := status)];
      r := Ok(());
    }

    /** `cancelOrder`'s loop: re-reads each item's product and saves it with the item's quantity added
        back. A product missing half-way throws, and the transaction's stock writes are rolled back. */
    method RestockItems(its: seq<OrderItem>) returns (r: Result<()>)
      requires inventory.Valid()
      modifies inventory
      ensures inventory.Valid() && inventory.listing == old(inventory.listing)
      ensures match Restock(old(inventory.products), its)
              case Err(e) => r == Err(e) && inventory.products == old(inventory.products)
              case Ok(restocked) => r == Ok(()) && inventory.products == restocked
    {
      var snapshot := inventory.products;
      var k := 0;
      while k < |its|
        invariant 0 <= k <= |its|
        invariant Restock(snapshot, its[..k]) == Ok(inventory.products)
        invariant inventory.products.Keys == snapshot.Keys
        invariant inventory.Valid() && inventory.listing == old(inventory.listing)
      {
        var item := its[k];
        assert its[..k + 1][..k] == its[..k];
        var product := inventory.GetProductById(item.productId);
        if product.None? {
          RestockPrefixFails(snapshot, its, k + 1);
          inventory.Rollback(snapshot);
          return Err(ProductNotFound(item.productId));
        }
        var p := product.value;
        var _ := inventory.CreateProduct(Some(p.id), p.name, p.description, p.price, p.stock + item.quantity);
        k := k + 1;
      }
      assert its[..k] == its;
      r := Ok(());
    }

    /** `cancelOrder`: fails on a missing, PAID or CANCELLED order; otherwise restocks its items and
        marks the order CANCELLED. */
    method CancelOrder(orderId: string) returns (r: Result<Order>)
      requires Valid()
      modifies this, inventory
      ensures Valid()
      ensures items == old(items) && inventory.listing == old(inventory.listing)
      ensures match CancelOutcome(old(orders), old(items), old(inventory.products), orderId)
              case Err(e) => r == Err(e) && orders == old(orders) && inventory.products == old(inventory.products)
              case Ok(c) => r == Ok(c.order) && orders == old(orders)[orderId := c.order] && inventory.products == c.products
    {
      var found := GetOrderById(orderId);
      if found.Err? {
        return Err(found.error);
      }
      var order := found.value;
      if order.status == Paid {
        return Err(CannotCancelPaid);
      }
      if order.status == Cancelled {
        return Err(AlreadyCancelled);
      }
      var restocked := RestockItems(ItemsOf(items, orderId));
      if restocked.Err? {
        return Err(restocked.error);
      }
      order := order.(status := Cancelled);
      orders := orders[orderId := order];
      r := Ok(order);
    }

    /** `getOrdersByUserId`: the user's stored orders, each as `getOrderById` returns it. */
    function GetOrdersByUserId(userId: string): (r: set<Order>)
      reads this
      requires OrdersWellFormed(orders)
      ensures forall o :: o in r ==> o.userId == userId && GetOrderById(o.id) == Ok(o)
      ensures forall id :: id in orders && orders[id].userId == userId ==> orders[id] in r
    {
      set o | o in orders.Values && o.userId == userId
    }

    /** `getOrderDetails`: the order's fields and its items' product, quantity and price, in stored order;
        the total shown is the sum over the items shown. */
    function GetOrderDetails(orderId: string): (r: Result<OrderView>)
      reads this, cart, inventory
      requires Valid()
      ensures r.Err? <==> orderId !in orders
      ensures r.Err? ==> r.error == OrderNotFound(orderId)
      ensures r.Ok? ==>
                && var o := orders[orderId];
                && r.value.id == orderId && r.value.userId == o.userId && r.value.status == o.status
                && r.value.totalAmount == o.totalAmount && r.value.createdAt == o.createdAt
                && |r.value.items| == |ItemsOf(items, orderId)|
                && (forall k :: 0 <= k < |r.value.items| ==>
                      var it := ItemsOf(items, orderId)[k];
                      r.value.items[k] == ItemView(it.productId, it.quantity, it.price))
                && r.value.totalAmount == ViewTotal(r.value.items)
    {
      match GetOrderById(orderId)
      case Err(e) => Err(e)
      case Ok(o) => Ok(Details(o, items))
    }

    /** `getOrderHistory`: the details of every order of the user. */
    function GetOrderHistory(userId: string): (r: set<OrderView>)
      reads this, cart, inventory
      requires Valid()
      ensures forall v :: v in r ==> v.userId == userId && GetOrderDetails(v.id) == Ok(v)
      ensures forall id :: id in orders && orders[id].userId == userId ==> GetOrderDetails(id).value in r
    {
      set o | o in GetOrdersByUserId(userId) :: Details(o, items)
    }
  }
}
