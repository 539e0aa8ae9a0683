/** src/order/services/order.service.ts: looking up, checking out and
    updating orders. */
module OrderServices {
  import opened Models
  import opened Schema
  import opened CartRepositories
  import opened OrderRepositories

  /** Whether the transaction's connection fails, and at which statement. The
      two writes and the COMMIT can fail for a reason the constraints do not
      show (connection loss, a server error); this parameter lets the model
      reach that path. A transaction whose COMMIT does not complete leaves
      nothing behind, as a rollback does. */
  datatype Interruption = Uninterrupted | LostAtInsert | LostAtStatusUpdate | LostAtCommit

  /** The fields create reads from its argument (order.service.ts:38). */
  datatype CheckoutData = CheckoutData(
    userId: Uuid,
    cartId: Uuid,
    total: int,
    delivery: Json,
    comments: Option<string>,
    payment: Json)

  /** The order checkout stores: id from the caller's uuid, status OPEN, the
      total exactly as supplied. */
  function CheckoutOrder(data: CheckoutData, orderId: Uuid, now: Timestamp): Order {
    Order(orderId, data.userId, data.cartId, data.payment, data.delivery, data.comments,
          OrderStatus.Open, data.total, now, now)
  }

  class OrderService {
    const orderRepository: OrderRepository
    const cartRepository: CartRepository

    constructor (orderRepository: OrderRepository, cartRepository: CartRepository)
      ensures this.orderRepository == orderRepository && this.cartRepository == cartRepository
    {
      this.orderRepository := orderRepository;
      this.cartRepository := cartRepository;
    }

    /** Both repositories work on the same database. */
    ghost predicate Valid()
      reads orderRepository.db
    {
      orderRepository.db == cartRepository.db && orderRepository.db.Valid()
    }

    /** findById (order.service.ts:14-30). */
    method FindById(orderId: Uuid) returns (r: Result<Order>)
      requires Valid()
      ensures r.Ok? <==> orderId in orderRepository.db.orders
      ensures r.Ok? ==> r.value == orderRepository.db.orders[orderId]
      ensures r.Err? ==> r.error == OrderNotFound
    {
      var order := orderRepository.FindById(orderId);
      if order.None? {
        r := Err(OrderNotFound);
      } else {
        r := Ok(order.value);
      }
    }

    /** create (order.service.ts:32-64): BEGIN, insert the order, mark the cart
        ORDERED, COMMIT; ROLLBACK on any failure. `orderId` is the uuidv4()
        of line 37. The cart's status is not checked. */
    method Create(data: CheckoutData, orderId: Uuid, now: Timestamp, interruption: Interruption)
      returns (r: Result<Order>)
      requires Valid()
      modifies orderRepository.db
      ensures Valid()
      ensures r.Ok? <==>
        && interruption == Uninterrupted
        && FitsNumeric10_2(data.total)
        && orderId !in old(orderRepository.db.orders)
        && data.cartId in old(orderRepository.db.carts)
      ensures r.Ok? ==>
        && r.value == CheckoutOrder(data, orderId, now)
        && orderRepository.db.orders == old(orderRepository.db.orders)[orderId := r.value]
        && orderRepository.db.carts == old(orderRepository.db.carts)[data.cartId :=
             old(orderRepository.db.carts)[data.cartId].(status := CartStatus.Ordered, updatedAt := now)]
        && orderRepository.db.cartItems == old(orderRepository.db.cartItems)
      ensures r.Err? ==> orderRepository.db.Contents() == old(orderRepository.db.Contents())
      ensures r.Ok? ==> forall u :: OpenCarts(orderRepository.db.carts, u) == old(OpenCarts(orderRepository.db.carts, u)) - {data.cartId}
      ensures old(AtMostOneOpenCartPerUser(orderRepository.db.carts)) ==> AtMostOneOpenCartPerUser(orderRepository.db.carts)
      ensures orderRepository.db.nextCartId == old(orderRepository.db.nextCartId)
    {
      var db := orderRepository.db;
      var snapshot := db.Begin();
      var created: Result<Order>;
      if interruption == LostAtInsert {
        created := Err(ConnectionLost);
      } else {
        created := orderRepository.CreateOrder(
          OrderData(orderId, data.userId, data.cartId, data.total, data.delivery,
                    data.comments, OrderStatus.Open, data.payment), now);
      }
      if created.Err? {
        db.Rollback(snapshot);
        return Err(created.error);
      }
      var flipped: Outcome;
      if interruption == LostAtStatusUpdate {
        flipped := Failure(ConnectionLost);
      } else {
        flipped := cartRepository.UpdateCartStatus(data.cartId, CartStatusName(CartStatus.Ordered), now);
      }
      if flipped.Failure? {
        db.Rollback(snapshot);
        return Err(flipped.error);
      }
      if interruption == LostAtCommit {
        db.Rollback(snapshot);
        return Err(ConnectionLost);
      }
      forall u {
        OrderingLeavesOpenCarts(snapshot.carts, data.cartId, now, u);
      }
      r := created;
    }

    /** update (order.service.ts:66-82): the order must exist before
        updateOrder runs. */
    method Update(orderId: Uuid, data: seq<Entry>, now: Timestamp) returns (r: Outcome)
      requires Valid()
      modifies orderRepository.db
      ensures Valid()
      ensures orderId !in old(orderRepository.db.orders) ==>
        r == Failure(OrderNotFound) && orderRepository.db.Contents() == old(orderRepository.db.Contents())
      ensures orderId in old(orderRepository.db.orders) ==>
        var u := UpdateResult(old(orderRepository.db.orders), old(orderRepository.db.carts), orderId, data, now);
        && (r.Success? <==> u.Ok?)
        && (r.Failure? ==> r.error == u.error)
        && orderRepository.db.orders == if u.Ok? then Replaced(old(orderRepository.db.orders), orderId, u.value)
                                        else old(orderRepository.db.orders)
      ensures orderRepository.db.carts == old(orderRepository.db.carts)
      ensures orderRepository.db.cartItems == old(orderRepository.db.cartItems)
    {
      var existing := orderRepository.FindById(orderId);
      if existing.None? {
        return Failure(OrderNotFound);
      }
      r := orderRepository.UpdateOrder(orderId, data, now);
    }
  }

  /** Nothing stops a second checkout of the same cart: it succeeds and the
      cart then has two orders. */
  method CheckoutTwice(service: OrderService, data: CheckoutData, first: Uuid, second: Uuid, now: Timestamp)
    returns (a: Result<Order>, b: Result<Order>)
    requires service.Valid()
    requires data.cartId in service.orderRepository.db.carts && FitsNumeric10_2(data.total)
    requires first != second
    requires first !in service.orderRepository.db.orders && second !in service.orderRepository.db.orders
    modifies service.orderRepository.db
    ensures a.Ok? && b.Ok?
    ensures a.value.cartId == data.cartId && b.value.cartId == data.cartId
    ensures a.value == CheckoutOrder(data, first, now) && b.value == CheckoutOrder(data, second, now)
    ensures first in service.orderRepository.db.orders && second in service.orderRepository.db.orders
    ensures service.orderRepository.db.orders[first] == a.value && service.orderRepository.db.orders[second] == b.value
    ensures service.orderRepository.db.orders ==
      old(service.orderRepository.db.orders)[first := a.value][second := b.value]
    ensures data.cartId in service.orderRepository.db.carts && service.orderRepository.db.carts[data.cartId].status == CartStatus.Ordered
  {
    a := service.Create(data, first, now, Uninterrupted);
    b := service.Create(data, second, now, Uninterrupted);
  }
}
