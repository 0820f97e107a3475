/**
 * The payment API handlers: create (or re-pay) an order, query it, list,
 * close and refund. Each handler checks the order's status, calls the
 * payment provider and updates the registry only as the outcome allows.
 *
 * The provider is outside the model: each handler returns the call it
 * issued (None when a check rejected the request first) and takes that
 * call's outcome as an input. Generated order and refund numbers, order
 * ids and clock readings are inputs as well.
 */
module Payment {
  import opened Service
  import opened Http

  /** The decoded body of a create-order request; `outTradeNo` is "" for a new order. */
  datatype CreateOrderRequest = CreateOrderRequest(productName: string, amount: int, outTradeNo: string)

  /** The request's binding rules: product_name is required, amount is required and at least 1. */
  predicate Bindable(req: CreateOrderRequest)
  {
    req.productName != "" && req.amount >= 1
  }

  /** A native prepay call to the provider. */
  datatype PrepayCall = PrepayCall(outTradeNo: string, description: string, amount: int)

  /** A refund call to the provider. */
  datatype RefundCall = RefundCall(outTradeNo: string, outRefundNo: string, refundFee: int)

  /** The provider's answer to an order query: an error, or the trade state (possibly absent) and transaction id. */
  datatype TradeQuery = QueryFailed | QueryAnswered(tradeState: Option<string>, transactionId: string)

  /**
   * The amount to refund: the requested fee, except that a request of 0 or
   * of more than the order amount refunds the whole amount.
   */
  function RefundFee(requested: int, amount: int): (fee: int)
    ensures fee <= amount
    ensures requested == 0 || requested > amount ==> fee == amount
    ensures requested != 0 && requested <= amount ==> fee == requested
    ensures 0 <= requested && 0 < amount ==> 0 < fee
  {
    if requested == 0 || requested > amount then amount else requested
  }

  class PaymentHandler {
    const orderStore: OrderStore

    constructor (orderStore: OrderStore)
      ensures this.orderStore == orderStore
    {
      this.orderStore := orderStore;
    }

    /**
     * A new order is stored as NOTPAY before the prepay call, so it stays
     * stored when that call fails. A re-pay request names a stored NOTPAY
     * order and prepays it with its stored description and amount; it never
     * changes the registry.
     */
    method CreateOrder(req: CreateOrderRequest, newTradeNo: string, newId: string, now: Time, prepayOk: bool)
      returns (code: int, prepay: Option<PrepayCall>)
      requires orderStore.Valid()
      modifies orderStore
      ensures orderStore.Valid()
      ensures !Bindable(req) ==>
        && code == StatusBadRequest
        && prepay == None
        && orderStore.orders == old(orderStore.orders)
      ensures Bindable(req) && req.outTradeNo != "" ==>
        var m := old(orderStore.orders);
        && orderStore.orders == m
        && (req.outTradeNo !in m ==> code == StatusNotFound && prepay == None)
        && (req.outTradeNo in m && m[req.outTradeNo].status != NotPay ==>
              code == StatusBadRequest && prepay == None)
        && (req.outTradeNo in m && m[req.outTradeNo].status == NotPay ==>
              && prepay == Some(PrepayCall(req.outTradeNo, m[req.outTradeNo].description, m[req.outTradeNo].amount))
              && code == (if prepayOk then StatusOK else StatusInternalServerError))
      ensures Bindable(req) && req.outTradeNo == "" ==>
        && orderStore.orders == old(orderStore.orders)[newTradeNo :=
             Order(newId, newTradeNo, req.productName, req.amount, NotPay, now, None, "", "", 0, None)]
        && prepay == Some(PrepayCall(newTradeNo, req.productName, req.amount))
        && code == (if prepayOk then StatusOK else StatusInternalServerError)
    {
      if !Bindable(req) {
        return StatusBadRequest, None;
      }
      var outTradeNo, description, amount;
      if req.outTradeNo != "" {
        var existing := orderStore.Get(req.outTradeNo);
        if existing.None? {
          return StatusNotFound, None;
        }
        if existing.value.status != NotPay {
          return StatusBadRequest, None;
        }
        outTradeNo, description, amount := req.outTradeNo, existing.value.description, existing.value.amount;
      } else {
        outTradeNo, description, amount := newTradeNo, req.productName, req.amount;
        var order := Order(newId, outTradeNo, description, amount, NotPay, now, None, "", "", 0, None);
        orderStore.Save(order);
      }
      prepay := Some(PrepayCall(outTradeNo, description, amount));
      if !prepayOk {
        return StatusInternalServerError, prepay;
      }
      return StatusOK, prepay;
    }

    /**
     * Answers with the stored order. A NOTPAY order is first refreshed from
     * the provider: trade state SUCCESS records the payment, CLOSED closes
     * it, anything else (or a failed query) changes nothing.
     */
    method QueryOrder(orderId: string, upstream: TradeQuery, now: Time)
      returns (code: int, queried: bool, shown: Option<Order>)
      requires orderStore.Valid()
      modifies orderStore
      ensures orderStore.Valid()
      ensures orderId !in old(orderStore.orders) ==>
        code == StatusNotFound && !queried && shown == None
      ensures orderId in old(orderStore.orders) ==>
        && code == StatusOK
        && queried == (old(orderStore.orders)[orderId].status == NotPay)
        && orderId in orderStore.orders
        && shown == Some(orderStore.orders[orderId])
      ensures var m := old(orderStore.orders);
        orderStore.orders ==
          if orderId in m && m[orderId].status == NotPay && upstream.QueryAnswered? then
            if upstream.tradeState == Some("SUCCESS") then PayInfoUpdated(m, orderId, upstream.transactionId, now)
            else if upstream.tradeState == Some("CLOSED") then StatusUpdated(m, orderId, Closed, now)
            else m
          else m
    {
      var order := orderStore.Get(orderId);
      if order.None? {
        return StatusNotFound, false, None;
      }
      queried := false;
      if order.value.status == NotPay {
        queried := true;
        if upstream.QueryAnswered? && upstream.tradeState.Some? {
          var state := upstream.tradeState.value;
          if state == "SUCCESS" {
            var _ := orderStore.UpdatePayInfo(orderId, upstream.transactionId, now);
          } else if state == "CLOSED" {
            var _ := orderStore.UpdateStatus(orderId, Closed, now);
          }
          order := orderStore.Get(orderId);
        }
      }
      return StatusOK, queried, order;
    }

    /** Every stored order, newest first, with their count. */
    method ListOrders() returns (code: int, orders: seq<Order>, total: int)
      requires orderStore.Valid()
      ensures code == StatusOK
      ensures total == |orders| == |orderStore.orders|
      ensures multiset(orders) == multiset(orderStore.orders.Values)
      ensures NewestFirst(orders)
    {
      orders := orderStore.GetAll();
      return StatusOK, orders, |orders|;
    }

    /**
     * Closes a NOTPAY order: the close call goes to the provider only from
     * NOTPAY, and the order becomes CLOSED only once that call succeeds.
     */
    method CloseOrder(orderId: string, closeOk: bool, now: Time) returns (code: int, closeCalled: bool)
      requires orderStore.Valid()
      modifies orderStore
      ensures orderStore.Valid()
      ensures var m := old(orderStore.orders);
        code == (if orderId !in m then StatusNotFound
                 else if m[orderId].status != NotPay then StatusBadRequest
                 else if !closeOk then StatusInternalServerError
                 else StatusOK)
      ensures closeCalled <==> orderId in old(orderStore.orders) && old(orderStore.orders)[orderId].status == NotPay
      ensures orderStore.orders ==
        if code == StatusOK then StatusUpdated(old(orderStore.orders), orderId, Closed, now)
        else old(orderStore.orders)
    {
      var order := orderStore.Get(orderId);
      if order.None? {
        return StatusNotFound, false;
      }
      if order.value.status != NotPay {
        return StatusBadRequest, false;
      }
      closeCalled := true;
      if !closeOk {
        return StatusInternalServerError, closeCalled;
      }
      var _ := orderStore.UpdateStatus(orderId, Closed, now);
      return StatusOK, closeCalled;
    }

    /**
     * Refunds a SUCCESS order: the refund call, with the clamped fee, goes to
     * the provider only from SUCCESS, and the order becomes REFUNDING with
     * that refund number and fee only once the call succeeds.
     */
    method RefundOrder(orderId: string, requestedFee: int, outRefundNo: string, refundOk: bool)
      returns (code: int, refund: Option<RefundCall>)
      requires orderStore.Valid()
      modifies orderStore
      ensures orderStore.Valid()
      ensures var m := old(orderStore.orders);
        code == (if orderId !in m then StatusNotFound
                 else if m[orderId].status != Success then StatusBadRequest
                 else if !refundOk then StatusInternalServerError
                 else StatusOK)
      ensures var m := old(orderStore.orders);
        refund == if orderId in m && m[orderId].status == Success
                  then Some(RefundCall(orderId, outRefundNo, RefundFee(requestedFee, m[orderId].amount)))
                  else None
      ensures orderStore.orders ==
        if code == StatusOK then RefundInfoUpdated(old(orderStore.orders), orderId, outRefundNo, refund.value.refundFee)
        else old(orderStore.orders)
      ensures code == StatusOK ==> orderStore.orders[orderId].refundAmount <= orderStore.orders[orderId].amount
    {
      var order := orderStore.Get(orderId);
      if order.None? {
        return StatusNotFound, None;
      }
      if order.value.status != Success {
        return StatusBadRequest, None;
      }
      var refundFee := requestedFee;
      if refundFee == 0 || refundFee > order.value.amount {
        refundFee := order.value.amount;
      }
      refund := Some(RefundCall(orderId, outRefundNo, refundFee));
      if !refundOk {
        return StatusInternalServerError, refund;
      }
      var _ := orderStore.UpdateRefundInfo(orderId, outRefundNo, refundFee);
      return StatusOK, refund;
    }
  }
}
