/**
 * The order payload of src/api/ordersApi.js: `createOrder` copies the order's fields and
 * strips each product down to its name, price and quantity before the POST, which is not
 * modelled; the request body is the result.
 */
module OrdersApi {
  import CartContext
  import opened AdminOrders

  /** The customer fields of the checkout form, copied into the order unchanged. */
  datatype Customer = Customer(
    customerName: string, customerEmail: string, customerPhone: string,
    city: string, customerAddress: string, paymentMethod: string)

  /** The order the checkout hands over, with the cart lines as its products. */
  datatype OrderData = OrderData(customer: Customer, date: string, status: string, products: seq<CartContext.CartLine>)

  /** The request body: the same fields, each product reduced to `{ name, price, quantity }`. */
  datatype Payload = Payload(customer: Customer, date: string, status: string, products: seq<OrderItem>)

  /** `{ name: p.name, price: p.price, quantity: p.quantity }`. */
  function Strip(l: CartContext.CartLine): (r: OrderItem)
    ensures r.name == l.name && r.price == l.price && r.quantity == l.quantity
  {
    OrderItem(l.name, l.price, l.quantity)
  }

  /** `createOrder(orderData)`'s payload. */
  function CreateOrder(order: OrderData): (r: Payload)
    ensures r.customer == order.customer && r.date == order.date && r.status == order.status
    ensures |r.products| == |order.products|
    ensures forall i :: 0 <= i < |r.products| ==>
      && r.products[i].name == order.products[i].name
      && r.products[i].price == order.products[i].price
      && r.products[i].quantity == order.products[i].quantity
  {
    Payload(order.customer, order.date, order.status,
            seq(|order.products|, i requires 0 <= i < |order.products| => Strip(order.products[i])))
  }

  /** The stripped products are worth what the cart was: their order total is the cart total. */
  lemma {:induction false} PayloadTotalIsCartTotal(lines: seq<CartContext.CartLine>)
    ensures ItemsTotal(CreateOrder(OrderData(Customer("", "", "", "", "", ""), "", "", lines)).products)
         == CartContext.CartTotal(lines)
  {
    var items := CreateOrder(OrderData(Customer("", "", "", "", "", ""), "", "", lines)).products;
    if |lines| > 0 {
      var init := lines[..|lines| - 1];
      PayloadTotalIsCartTotal(init);
      var initItems := CreateOrder(OrderData(Customer("", "", "", "", "", ""), "", "", init)).products;
      assert items[..|items| - 1] == initItems;
    }
  }

  /** The total does not depend on the order's other fields. */
  lemma StoredTotalIsCartTotal(order: OrderData)
    ensures ItemsTotal(CreateOrder(order).products) == CartContext.CartTotal(order.products)
  {
    PayloadTotalIsCartTotal(order.products);
    assert CreateOrder(order).products
        == CreateOrder(OrderData(Customer("", "", "", "", "", ""), "", "", order.products)).products;
  }
}
