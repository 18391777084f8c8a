/** The order store: the list of orders kept in browser storage (empty when
    nothing is stored), with lookups by user and by id, creation as pending,
    status updates in place and the seeding of two sample orders per user.
    Amounts are in integer cents and timestamps in milliseconds. */
module Orders {
  import opened Common

  datatype OrderItem = OrderItem(product: Product, quantity: int, price: int)

  datatype Status = Pending | Processing | Shipped | Delivered | Cancelled

  datatype Address = Address(fullName: string, address: string, city: string, state: string, zipCode: string)

  datatype Order = Order(
    id: string, userId: string, items: seq<OrderItem>, total: int, status: Status,
    shippingAddress: Address, paymentMethod: string, createdAt: int)

  /** `filter(order => order.userId === userId)`. */
  function ByUser(orders: seq<Order>, userId: string): (r: seq<Order>)
    ensures forall o :: o in r <==> o in orders && o.userId == userId
  {
    if orders == [] then []
    else if orders[0].userId == userId then [orders[0]] + ByUser(orders[1..], userId)
    else ByUser(orders[1..], userId)
  }

  /** `findIndex(order => order.id === id)`, `-1` when there is none. */
  function FindIndex(orders: seq<Order>, id: string): (k: int)
    ensures -1 <= k < |orders|
    ensures k >= 0 ==> orders[k].id == id && forall i :: 0 <= i < k ==> orders[i].id != id
    ensures k == -1 ==> forall i :: 0 <= i < |orders| ==> orders[i].id != id
  {
    if orders == [] then -1
    else if orders[0].id == id then 0
    else var k := FindIndex(orders[1..], id); if k == -1 then -1 else k + 1
  }

  /** `getOrderById`: the first order with the id. */
  function ById(orders: seq<Order>, id: string): (r: Option<Order>)
    ensures r.None? <==> forall i :: 0 <= i < |orders| ==> orders[i].id != id
    ensures r.Some? ==> r.value.id == id && r.value in orders
    ensures forall k :: 0 <= k < |orders| && orders[k].id == id && (forall i :: 0 <= i < k ==> orders[i].id != id)
                        ==> r == Some(orders[k])
  {
    var k := FindIndex(orders, id);
    if k == -1 then None else Some(orders[k])
  }

  /** `updateOrderStatus` on a list: the new list and the returned flag. */
  function UpdateStatus(orders: seq<Order>, id: string, status: Status): (r: (seq<Order>, bool))
    ensures |r.0| == |orders|
    ensures r.1 <==> exists i :: 0 <= i < |orders| && orders[i].id == id
    ensures !r.1 ==> r.0 == orders
  {
    var k := FindIndex(orders, id);
    if k == -1 then (orders, false) else (orders[k := orders[k].(status := status)], true)
  }

  const SampleAddress := Address("Test User", "123 Main St", "New York", "NY", "10001")

  const Headphones := Product("prod-001", "Wireless Noise-Canceling Headphones", 29999, "Audio", 15, 48)
  const Keyboard := Product("prod-003", "Mechanical Gaming Keyboard", 15999, "Gaming", 25, 47)
  const Mouse := Product("prod-007", "Gaming Mouse Pro", 8999, "Gaming", 33, 46)

  const DayMs: int := 24 * 60 * 60 * 1000

  /** The two sample orders for a user. Their ids are fixed, so every seeded user
      gets orders with the same two ids. */
  function SampleOrders(userId: string, now: int): seq<Order> {
    [ Order("ORD-sample-001", userId, [OrderItem(Headphones, 1, 29999)], 29999, Delivered,
            SampleAddress, "Credit Card", now - 7 * DayMs),
      Order("ORD-sample-002", userId, [OrderItem(Keyboard, 1, 15999), OrderItem(Mouse, 2, 17998)], 33997, Shipped,
            SampleAddress, "PayPal", now - 2 * DayMs) ]
  }

  /** `seedSampleOrders` on a list. */
  function Seed(orders: seq<Order>, userId: string, now: int): (r: seq<Order>)
    ensures orders <= r
    ensures |ByUser(orders, userId)| > 0 ==> r == orders
    ensures |ByUser(orders, userId)| == 0 ==> r == orders + SampleOrders(userId, now)
  {
    if |ByUser(orders, userId)| > 0 then orders else orders + SampleOrders(userId, now)
  }

  function ItemsTotal(items: seq<OrderItem>): int {
    if items == [] then 0 else items[0].price + ItemsTotal(items[1..])
  }

  /** Every line's price is its product's price times its quantity, and the total
      is the sum of the line prices. */
  predicate Consistent(o: Order) {
    && (forall i :: 0 <= i < |o.items| ==> o.items[i].price == o.items[i].product.price * o.items[i].quantity)
    && o.total == ItemsTotal(o.items)
  }

  // ---- lemmas ------------------------------------------------------------------------

  lemma {:induction false} ByUserAppend(a: seq<Order>, b: seq<Order>, userId: string)
    ensures ByUser(a + b, userId) == ByUser(a, userId) + ByUser(b, userId)
  {
    if a == [] {
      assert a + b == b;
    } else {
      assert (a + b)[1..] == a[1..] + b;
      ByUserAppend(a[1..], b, userId);
    }
  }

  /** A new order shows up last among its user's orders and nowhere else. */
  lemma CreateThenByUser(orders: seq<Order>, order: Order, userId: string)
    ensures ByUser(orders + [order], userId) ==
            ByUser(orders, userId) + (if order.userId == userId then [order] else [])
  {
    ByUserAppend(orders, [order], userId);
    assert [order][1..] == [];
  }

  /** An unknown id changes nothing and reports false; otherwise only the first
      order with the id changes, and only its status. */
  lemma UpdateStatusSpec(orders: seq<Order>, id: string, status: Status)
    ensures var (after, found) := UpdateStatus(orders, id, status);
            && |after| == |orders|
            && (found <==> exists i :: 0 <= i < |orders| && orders[i].id == id)
            && (!found ==> after == orders)
            && (found ==> var k := FindIndex(orders, id);
                          && after[k] == orders[k].(status := status)
                          && forall i :: 0 <= i < |orders| && i != k ==> after[i] == orders[i])
  {
  }

  /** The sample data is internally consistent: 299.99 = 1 x 299.99, and
      339.97 = 1 x 159.99 + 2 x 89.99. */
  lemma SampleOrdersConsistent(userId: string, now: int)
    ensures forall o :: o in SampleOrders(userId, now) ==> Consistent(o) && o.userId == userId
  {
    var s := SampleOrders(userId, now);
    assert ItemsTotal(s[0].items) == 29999;
    assert s[1].items[1..][1..] == [];
    assert ItemsTotal(s[1].items[1..]) == 17998;
    assert ItemsTotal(s[1].items) == 33997;
  }

  /** Whether or not the user had orders, seeding leaves them with some, so a
      second seeding changes nothing. */
  lemma {:induction false} SeedIdempotent(orders: seq<Order>, userId: string, now: int, later: int)
    ensures |ByUser(Seed(orders, userId, now), userId)| > 0
    ensures Seed(Seed(orders, userId, now), userId, later) == Seed(orders, userId, now)
  {
    if |ByUser(orders, userId)| == 0 {
      var s := SampleOrders(userId, now);
      ByUserAppend(orders, s, userId);
      assert s[0] in ByUser(s, userId);
    }
  }

  /** A user without orders, once seeded, has exactly the two sample orders, in
      their listed order; every other user's orders are unchanged. */
  lemma {:induction false} SeedAppendsSamples(orders: seq<Order>, userId: string, now: int, other: string)
    requires |ByUser(orders, userId)| == 0
    ensures ByUser(Seed(orders, userId, now), userId) == SampleOrders(userId, now)
    ensures other != userId ==> ByUser(Seed(orders, userId, now), other) == ByUser(orders, other)
  {
    var s := SampleOrders(userId, now);
    ByUserAppend(orders, s, userId);
    ByUserAppend(orders, s, other);
    assert s[1..][1..] == [];
    assert ByUser(s[1..][1..], userId) == [] && ByUser(s[1..][1..], other) == [];
    assert ByUser(s[1..], userId) == [s[1]];
    assert ByUser(s, userId) == s;
    if other != userId {
      assert ByUser(s[1..], other) == [];
      assert ByUser(s, other) == [];
    }
  }

  /** Order ids are not unique across users: when two users are seeded, looking
      up a sample id finds the first user's order. */
  lemma SampleIdsShared(first: string, second: string, now: int, later: int)
    requires first != second
    ensures var orders := Seed(Seed([], first, now), second, later);
            && |orders| == 4
            && orders[0].id == orders[2].id == "ORD-sample-001"
            && ById(orders, "ORD-sample-001") == Some(orders[0])
            && orders[0].userId == first
  {
    var once := Seed([], first, now);
    assert once == SampleOrders(first, now);
    assert once[1..][1..] == [];
    assert ByUser(once[1..], second) == [];
    assert ByUser(once, second) == [];
  }

  // ---- the store -----------------------------------------------------------------

  class OrderStore {
    /** The stored orders; nothing stored reads as the empty list. */
    var orders: seq<Order>

    constructor ()
      ensures orders == []
    {
      orders := [];
    }

    function GetOrdersByUserId(userId: string): (r: seq<Order>)
      reads this
      ensures forall o :: o in r <==> o in orders && o.userId == userId
      ensures r == ByUser(orders, userId)
    {
      ByUser(orders, userId)
    }

    function GetOrderById(id: string): (r: Option<Order>)
      reads this
      ensures r.None? <==> forall i :: 0 <= i < |orders| ==> orders[i].id != id
      ensures r.Some? ==> r.value in orders && r.value.id == id
      ensures forall k :: 0 <= k < |orders| && orders[k].id == id && (forall i :: 0 <= i < k ==> orders[i].id != id)
                          ==> r == Some(orders[k])
      ensures r == ById(orders, id)
    {
      ById(orders, id)
    }

    /** `createOrder`. The id and the timestamp are supplied by the caller. */
    method CreateOrder(userId: string, items: seq<OrderItem>, total: int, shippingAddress: Address,
                       paymentMethod: string, id: string, now: int) returns (order: Order)
      modifies this
      ensures order == Order(id, userId, items, total, Pending, shippingAddress, paymentMethod, now)
      ensures orders == old(orders) + [order]
    {
      order := Order(id, userId, items, total, Pending, shippingAddress, paymentMethod, now);
      orders := orders + [order];
    }

    /** `updateOrderStatus`: assigns the status of the first order with the id in place. */
    method UpdateOrderStatus(id: string, status: Status) returns (found: bool)
      modifies this
      ensures (orders, found) == UpdateStatus(old(orders), id, status)
    {
      var k := FindIndex(orders, id);
      if k == -1 {
        return false;
      }
      orders := orders[k := orders[k].(status := status)];
      return true;
    }

    method SeedSampleOrders(userId: string, now: int)
      modifies this
      ensures orders == Seed(old(orders), userId, now)
      ensures |GetOrdersByUserId(userId)| > 0
      ensures |ByUser(old(orders), userId)| == 0 ==> GetOrdersByUserId(userId) == SampleOrders(userId, now)
    {
      SeedIdempotent(orders, userId, now, now);
      var existing := ByUser(orders, userId);
      if |existing| > 0 {
        return;
      }
      SeedAppendsSamples(orders, userId, now, userId);
      orders := orders + SampleOrders(userId, now);
    }
  }
}
