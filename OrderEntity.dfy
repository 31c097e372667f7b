/** The order entity: its line items, the amount they add up to, and the
    pending payment created from that amount. */
module OrderEntity {
  import opened Wrappers

  /** Entity identifiers (UUIDs in the source), kept abstract. */
  type Uuid = nat

  /** One line item of an order, as far as the amount is concerned. */
  datatype OrderProduct = OrderProduct(price: int, quantity: int)

  /** The status a newly created payment carries; the other statuses of
      the enum play no part in the order entity. */
  datatype PaymentStatus = Pending

  datatype Payment = Payment(paymentStatus: PaymentStatus, amount: int, userName: string)

  /** The order's type; the enum's constants are not part of this model. */
  datatype OrderType = OrderType(name: string)

  /** What one line item contributes to the amount. */
  function LineTotal(p: OrderProduct): int {
    p.price * p.quantity
  }

  /** Reference definition of an order's amount: the sum of
      price * quantity over the items, taken in list order. */
  function Sum(items: seq<OrderProduct>): int {
    if items == [] then 0 else LineTotal(items[0]) + Sum(items[1..])
  }

  /** Appending an item adds exactly its line total to the sum. */
  lemma {:induction false} SumAppend(items: seq<OrderProduct>, p: OrderProduct)
    ensures Sum(items + [p]) == Sum(items) + LineTotal(p)
  {
    if items == [] {
      assert [] + [p] == [p];
    } else {
      assert (items + [p])[1..] == items[1..] + [p];
      SumAppend(items[1..], p);
    }
  }

  /** A mutable list of line items (the entity's `List<OrderProduct>`).
      It is an object, so two names may denote the same list. */
  class ProductList {
    var elems: seq<OrderProduct>

    constructor (init: seq<OrderProduct>)
      ensures elems == init
    {
      elems := init;
    }

    method Add(p: OrderProduct)
      modifies this
      ensures elems == old(elems) + [p]
    {
      elems := elems + [p];
    }

    method Clear()
      modifies this
      ensures elems == []
    {
      elems := [];
    }
  }

  class Order {
    var order: Uuid
    var userName: string
    var storeId: Uuid
    var destId: Uuid
    var payment: Option<Payment>
    var orderType: OrderType
    var orderProducts: ProductList

    /** The all-arguments constructor the entity's builder uses. */
    constructor (order: Uuid, userName: string, storeId: Uuid, destId: Uuid,
                 payment: Option<Payment>, orderType: OrderType, orderProducts: ProductList)
      ensures this.order == order && this.userName == userName
      ensures this.storeId == storeId && this.destId == destId
      ensures this.payment == payment && this.orderType == orderType
      ensures this.orderProducts == orderProducts
    {
      this.order := order;
      this.userName := userName;
      this.storeId := storeId;
      this.destId := destId;
      this.payment := payment;
      this.orderType := orderType;
      this.orderProducts := orderProducts;
    }

    /** The amount the current line items add up to. */
    ghost function Amount(): int
      reads this, orderProducts
    {
      Sum(orderProducts.elems)
    }

    /** Appends one item at the end of the list; nothing else changes. */
    method AddOrderProductsList(orderProduct: OrderProduct)
      modifies orderProducts
      ensures orderProducts.elems == old(orderProducts.elems) + [orderProduct]
      ensures Amount() == old(Amount()) + LineTotal(orderProduct)
      ensures unchanged(this)
    {
      ghost var before := orderProducts.elems;
      orderProducts.Add(orderProduct);
      SumAppend(before, orderProduct);
    }

    /** Attaches a pending payment for the current amount, made out to the
        order's user; only `payment` changes. */
    method CreatePayment()
      modifies this`payment
      ensures payment == Some(Payment(Pending, Sum(orderProducts.elems), userName))
      ensures orderProducts == old(orderProducts) && unchanged(orderProducts)
      ensures userName == old(userName) && storeId == old(storeId) && destId == old(destId)
      ensures orderType == old(orderType) && order == old(order)
    {
      var amount := GetAmount(orderProducts);
      payment := Some(Payment(Pending, amount, userName));
    }

    /** Accumulates price * quantity over the given list, front to back. */
    method GetAmount(products: ProductList) returns (amount: int)
      ensures amount == Sum(products.elems)
    {
      amount := 0;
      var i := 0;
      while i < |products.elems|
        invariant 0 <= i <= |products.elems|
        invariant amount == Sum(products.elems[..i])
      {
        assert products.elems[..i + 1] == products.elems[..i] + [products.elems[i]];
        SumAppend(products.elems[..i], products.elems[i]);
        amount := amount + products.elems[i].price * products.elems[i].quantity;
        i := i + 1;
      }
      assert products.elems[..i] == products.elems;
    }

    /** Clears the list and refills it from `updateList`, in order. When
        `updateList` is the order's own list, clearing empties both and the
        list stays empty. Nothing but the order's list changes. */
    method UpdateOrderProductList(updateList: ProductList)
      modifies orderProducts
      ensures updateList != orderProducts ==> orderProducts.elems == old(updateList.elems)
      ensures updateList == orderProducts ==> orderProducts.elems == []
      ensures updateList != orderProducts ==> unchanged(updateList)
      ensures unchanged(this)
    {
      orderProducts.Clear();
      var i := 0;
      while i < |updateList.elems|
        invariant 0 <= i <= |updateList.elems|
        invariant updateList == orderProducts ==> updateList.elems == []
        invariant updateList != orderProducts ==>
          updateList.elems == old(updateList.elems) && orderProducts.elems == updateList.elems[..i]
        decreases |updateList.elems| - i
      {
        assert updateList.elems[..i + 1] == updateList.elems[..i] + [updateList.elems[i]];
        orderProducts.Add(updateList.elems[i]);
        i := i + 1;
      }
      assert updateList != orderProducts ==> updateList.elems[..i] == updateList.elems;
    }
  }
}
