/**
 * The provider's webhook: payment and refund outcome notifications.
 *
 * Signature verification and decryption belong to the provider's SDK and
 * are outside the model: a notification arrives as None when it fails
 * verification, and otherwise with its event type and its decrypted
 * resource (None when the resource cannot be decrypted or decoded).
 */
module Notify {
  import opened Service
  import opened Http

  /**
   * The fields of a decrypted resource that the handlers read: the payment
   * handler reads out_trade_no and transaction_id, the refund handler
   * out_trade_no and refund_status.
   */
  datatype Resource = Resource(outTradeNo: string, transactionId: string, refundStatus: string)

  /** A notification that passed verification. */
  datatype Notification = Notification(eventType: string, resource: Option<Resource>)

  /** The three refund outcome events. */
  predicate IsRefundEvent(eventType: string)
  {
    eventType == "REFUND.SUCCESS" || eventType == "REFUND.ABNORMAL" || eventType == "REFUND.CLOSED"
  }

  /**
   * The registry after a refund notification: refund status SUCCESS makes
   * the order REFUNDED and stamps its refund time; CLOSED returns it to
   * SUCCESS, which re-stamps its pay time; any other status changes nothing.
   */
  function RefundNotified(m: map<string, Order>, r: Resource, now: Time): (m': map<string, Order>)
    ensures OnlyEntryChanged(m, m', r.outTradeNo)
    ensures KeyedByTradeNo(m) ==> KeyedByTradeNo(m')
    ensures r.outTradeNo !in m || (r.refundStatus != "SUCCESS" && r.refundStatus != "CLOSED") ==> m' == m
    ensures r.outTradeNo in m && r.refundStatus == "SUCCESS" ==>
      var (o, o') := (m[r.outTradeNo], m'[r.outTradeNo]);
      o' == o.(status := Refunded, refundTime := Some(now))
    ensures r.outTradeNo in m && r.refundStatus == "CLOSED" ==>
      var (o, o') := (m[r.outTradeNo], m'[r.outTradeNo]);
      o' == o.(status := Success, payTime := Some(now))
  {
    if r.refundStatus == "SUCCESS" then StatusUpdated(m, r.outTradeNo, Refunded, now)
    else if r.refundStatus == "CLOSED" then StatusUpdated(m, r.outTradeNo, Success, now)
    else m
  }

  class NotifyHandler {
    const orderStore: OrderStore

    constructor (orderStore: OrderStore)
      ensures this.orderStore == orderStore
    {
      this.orderStore := orderStore;
    }

    /**
     * Dispatches on the event type. An unverifiable notification is refused
     * with 401, an unknown event type is acknowledged with 200; in both cases
     * the registry is unchanged.
     */
    method PaymentNotify(request: Option<Notification>, now: Time) returns (code: int)
      requires orderStore.Valid()
      modifies orderStore
      ensures orderStore.Valid()
      ensures request.None? ==> code == StatusUnauthorized && orderStore.orders == old(orderStore.orders)
      ensures request.Some? && request.value.eventType != "TRANSACTION.SUCCESS" && !IsRefundEvent(request.value.eventType) ==>
        code == StatusOK && orderStore.orders == old(orderStore.orders)
      ensures request.Some? && (request.value.eventType == "TRANSACTION.SUCCESS" || IsRefundEvent(request.value.eventType)) ==>
        && (request.value.resource.None? ==> code == StatusBadRequest && orderStore.orders == old(orderStore.orders))
        && (request.value.resource.Some? ==> code == StatusNoContent)
      ensures request.Some? && request.value.eventType == "TRANSACTION.SUCCESS" && request.value.resource.Some? ==>
        var r := request.value.resource.value;
        orderStore.orders == PayInfoUpdated(old(orderStore.orders), r.outTradeNo, r.transactionId, now)
      ensures request.Some? && IsRefundEvent(request.value.eventType) && request.value.resource.Some? ==>
        orderStore.orders == RefundNotified(old(orderStore.orders), request.value.resource.value, now)
      // Notifications never add or remove orders, and only ever leave an order SUCCESS or REFUNDED.
      ensures orderStore.orders.Keys == old(orderStore.orders).Keys
      ensures forall k | k in orderStore.orders ::
        orderStore.orders[k] == old(orderStore.orders)[k] || orderStore.orders[k].status in {Success, Refunded}
    {
      if request.None? {
        return StatusUnauthorized;
      }
      var eventType := request.value.eventType;
      if eventType == "TRANSACTION.SUCCESS" {
        code := HandlePaymentNotify(request.value, now);
      } else if IsRefundEvent(eventType) {
        code := HandleRefundNotify(request.value, now);
      } else {
        code := StatusOK;
      }
    }

    /** Records the notified payment on the named order; an unknown order number changes nothing. */
    method HandlePaymentNotify(n: Notification, now: Time) returns (code: int)
      requires orderStore.Valid()
      modifies orderStore
      ensures orderStore.Valid()
      ensures n.resource.None? ==> code == StatusBadRequest && orderStore.orders == old(orderStore.orders)
      ensures n.resource.Some? ==>
        && code == StatusNoContent
        && orderStore.orders == PayInfoUpdated(old(orderStore.orders), n.resource.value.outTradeNo, n.resource.value.transactionId, now)
    {
      if n.resource.None? {
        return StatusBadRequest;
      }
      var transaction := n.resource.value;
      var _ := orderStore.UpdatePayInfo(transaction.outTradeNo, transaction.transactionId, now);
      return StatusNoContent;
    }

    /**
     * Applies a refund outcome: refund status SUCCESS makes the order
     * REFUNDED, CLOSED returns it to SUCCESS, any other status changes
     * nothing.
     */
    method HandleRefundNotify(n: Notification, now: Time) returns (code: int)
      requires orderStore.Valid()
      modifies orderStore
      ensures orderStore.Valid()
      ensures n.resource.None? ==> code == StatusBadRequest && orderStore.orders == old(orderStore.orders)
      ensures n.resource.Some? ==>
        code == StatusNoContent && orderStore.orders == RefundNotified(old(orderStore.orders), n.resource.value, now)
    {
      if n.resource.None? {
        return StatusBadRequest;
      }
      var refund := n.resource.value;
      if refund.refundStatus == "SUCCESS" {
        var _ := orderStore.UpdateStatus(refund.outTradeNo, Refunded, now);
      } else if refund.refundStatus == "CLOSED" {
        var _ := orderStore.UpdateStatus(refund.outTradeNo, Success, now);
      }
      return StatusNoContent;
    }
  }
}
