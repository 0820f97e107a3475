/**
 * The in-memory order registry: a table of orders keyed by merchant order
 * number, with insert/overwrite, lookup, listing newest first, three
 * field-level updates and delete.
 *
 * Orders are values here; the table is a map that the store's methods
 * reassign. Clock readings are passed in as `now`.
 */
module Service {

  datatype Option<+T> = None | Some(value: T)

  /** The five status labels of an order. */
  datatype OrderStatus = NotPay | Success | Closed | Refunding | Refunded

  /** A point in time; `a < b` is `a.Before(b)`. */
  type Time = int

  /** One order. `payTime` and `refundTime` are None until stamped. */
  datatype Order = Order(
    id: string,
    outTradeNo: string,
    description: string,
    amount: int,
    status: OrderStatus,
    createTime: Time,
    payTime: Option<Time>,
    transactionId: string,
    refundNo: string,
    refundAmount: int,
    refundTime: Option<Time>)

  /** Every entry is stored under its own merchant order number. */
  ghost predicate KeyedByTradeNo(m: map<string, Order>)
  {
    forall k | k in m :: m[k].outTradeNo == k
  }

  /** The fields fixed when an order is created, which no update touches. */
  ghost predicate SameIdentity(a: Order, b: Order)
  {
    && a.id == b.id
    && a.outTradeNo == b.outTradeNo
    && a.description == b.description
    && a.amount == b.amount
    && a.createTime == b.createTime
  }

  /** `r` has the keys of `m` and agrees with it everywhere except possibly at `key`. */
  ghost predicate OnlyEntryChanged(m: map<string, Order>, r: map<string, Order>, key: string)
  {
    && r.Keys == m.Keys
    && forall k | k in m && k != key :: r[k] == m[k]
  }

  /** Listing order: no order is newer than one listed before it. */
  ghost predicate NewestFirst(s: seq<Order>)
  {
    forall i, j | 0 <= i < j < |s| :: s[i].createTime >= s[j].createTime
  }

  /** The table after `UpdateStatus(key, status)` at time `now`. */
  function StatusUpdated(m: map<string, Order>, key: string, status: OrderStatus, now: Time): (r: map<string, Order>)
    ensures OnlyEntryChanged(m, r, key)
    ensures key !in m ==> r == m
    ensures KeyedByTradeNo(m) ==> KeyedByTradeNo(r)
    ensures key in m ==>
      && SameIdentity(m[key], r[key])
      && r[key].status == status
      && r[key].payTime == (if status == Success then Some(now) else m[key].payTime)
      && r[key].refundTime == (if status == Refunded then Some(now) else m[key].refundTime)
      && r[key].transactionId == m[key].transactionId
      && r[key].refundNo == m[key].refundNo
      && r[key].refundAmount == m[key].refundAmount
  {
    if key !in m then m
    else
      var o := m[key];
      m[key := o.(status := status,
                  payTime := if status == Success then Some(now) else o.payTime,
                  refundTime := if status == Refunded then Some(now) else o.refundTime)]
  }

  /** The table after `UpdatePayInfo(key, transactionId)` at time `now`. */
  function PayInfoUpdated(m: map<string, Order>, key: string, transactionId: string, now: Time): (r: map<string, Order>)
    ensures OnlyEntryChanged(m, r, key)
    ensures key !in m ==> r == m
    ensures KeyedByTradeNo(m) ==> KeyedByTradeNo(r)
    ensures key in m ==>
      && SameIdentity(m[key], r[key])
      && r[key].status == Success
      && r[key].payTime == Some(now)
      && r[key].transactionId == transactionId
      && r[key].refundTime == m[key].refundTime
      && r[key].refundNo == m[key].refundNo
      && r[key].refundAmount == m[key].refundAmount
  {
    if key !in m then m
    else m[key := m[key].(transactionId := transactionId, status := Success, payTime := Some(now))]
  }

  /** The table after `UpdateRefundInfo(key, refundNo, refundAmount)`. */
  function RefundInfoUpdated(m: map<string, Order>, key: string, refundNo: string, refundAmount: int): (r: map<string, Order>)
    ensures OnlyEntryChanged(m, r, key)
    ensures key !in m ==> r == m
    ensures KeyedByTradeNo(m) ==> KeyedByTradeNo(r)
    ensures key in m ==>
      && SameIdentity(m[key], r[key])
      && r[key].status == Refunding
      && r[key].refundNo == refundNo
      && r[key].refundAmount == refundAmount
      && r[key].payTime == m[key].payTime
      && r[key].refundTime == m[key].refundTime
      && r[key].transactionId == m[key].transactionId
  {
    if key !in m then m
    else m[key := m[key].(refundNo := refundNo, refundAmount := refundAmount, status := Refunding)]
  }

  /** The registry. The source guards it with a read/write lock; here every call is atomic. */
  class OrderStore {
    var orders: map<string, Order>

    ghost predicate Valid()
      reads this
    {
      KeyedByTradeNo(orders)
    }

    constructor ()
      ensures Valid()
      ensures orders == map[]
    {
      orders := map[];
    }

    /** Inserts `order`, overwriting any entry with the same merchant order number. */
    method Save(order: Order)
      requires Valid()
      modifies this
      ensures Valid()
      ensures orders == old(orders)[order.outTradeNo := order]
    {
      orders := orders[order.outTradeNo := order];
    }

    /** Point lookup; the Go pair (order, ok) is an Option. */
    method Get(outTradeNo: string) returns (order: Option<Order>)
      requires Valid()
      ensures order.Some? <==> outTradeNo in orders
      ensures order.Some? ==> order.value == orders[outTradeNo] && order.value.outTradeNo == outTradeNo
    {
      if outTradeNo in orders {
        order := Some(orders[outTradeNo]);
      } else {
        order := None;
      }
    }

    /**
     * Every stored order exactly once, newest first. The values are copied in
     * map-iteration order (unspecified, so any key may come next) and then
     * sorted in place. Each listed order is the one stored under its own
     * number, and no number is listed twice (ListingMatchesLookup).
     */
    method GetAll() returns (result: seq<Order>)
      requires Valid()
      ensures |result| == |orders|
      ensures multiset(result) == multiset(orders.Values)
      ensures NewestFirst(result)
      ensures forall i | 0 <= i < |result| :: result[i].outTradeNo in orders && orders[result[i].outTradeNo] == result[i]
      ensures forall i, j | 0 <= i < j < |result| :: result[i].outTradeNo != result[j].outTradeNo
    {
      var a := new Order[|orders|];
      var remaining := orders.Keys;
      var i := 0;
      ghost var taken: set<Order> := {};
      while remaining != {}
        invariant remaining <= orders.Keys
        invariant i + |remaining| == a.Length
        invariant taken == set k | k in orders && k !in remaining :: orders[k]
        invariant multiset(a[..i]) == multiset(taken)
      {
        var k :| k in remaining;
        var order := orders[k];
        assert forall k' | k' in orders && k' !in remaining :: orders[k'] != order by {
          forall k' | k' in orders && k' !in remaining ensures orders[k'].outTradeNo != order.outTradeNo {
          }
        }
        a[i] := order;
        assert a[..i + 1] == a[..i] + [order];
        taken := taken + {order};
        remaining := remaining - {k};
        i := i + 1;
      }
      assert taken == orders.Values by {
        forall v | v in orders.Values ensures v in taken {
          var k :| k in orders && orders[k] == v;
        }
      }
      assert a[..] == a[..i];
      SortNewestFirst(a);
      result := a[..];
      ListingMatchesLookup(result, orders);
    }

    /** Sets the status, stamping the pay time on SUCCESS and the refund time on REFUNDED. */
    method UpdateStatus(outTradeNo: string, status: OrderStatus, now: Time) returns (ok: bool)
      requires Valid()
      modifies this
      ensures Valid()
      ensures ok <==> outTradeNo in old(orders)
      ensures orders == StatusUpdated(old(orders), outTradeNo, status, now)
    {
      if outTradeNo !in orders {
        return false;
      }
      var order := orders[outTradeNo].(status := status);
      if status == Success {
        order := order.(payTime := Some(now));
      } else if status == Refunded {
        order := order.(refundTime := Some(now));
      }
      orders := orders[outTradeNo := order];
      return true;
    }

    /** Records a payment: transaction id, status SUCCESS, pay time `now`. */
    method UpdatePayInfo(outTradeNo: string, transactionId: string, now: Time) returns (ok: bool)
      requires Valid()
      modifies this
      ensures Valid()
      ensures ok <==> outTradeNo in old(orders)
      ensures orders == PayInfoUpdated(old(orders), outTradeNo, transactionId, now)
    {
      if outTradeNo !in orders {
        return false;
      }
      var order := orders[outTradeNo];
      order := order.(transactionId := transactionId, status := Success, payTime := Some(now));
      orders := orders[outTradeNo := order];
      return true;
    }

    /** Records a refund request: refund number and amount, status REFUNDING. */
    method UpdateRefundInfo(outTradeNo: string, refundNo: string, refundAmount: int) returns (ok: bool)
      requires Valid()
      modifies this
      ensures Valid()
      ensures ok <==> outTradeNo in old(orders)
      ensures orders == RefundInfoUpdated(old(orders), outTradeNo, refundNo, refundAmount)
    {
      if outTradeNo !in orders {
        return false;
      }
      var order := orders[outTradeNo];
      order := order.(refundNo := refundNo, refundAmount := refundAmount, status := Refunding);
      orders := orders[outTradeNo := order];
      return true;
    }

    /** Removes the entry, if any. */
    method Delete(outTradeNo: string)
      requires Valid()
      modifies this
      ensures Valid()
      ensures orders == old(orders) - {outTradeNo}
    {
      orders := orders - {outTradeNo};
    }
  }

  /** Every element before index `i` is at least as new as every element after it. */
  ghost predicate SettledBefore(s: seq<Order>, i: int)
  {
    forall p, q | 0 <= p < q < |s| && p < i :: s[p].createTime >= s[q].createTime
  }

  /**
   * The exchange sort of GetAll: for each position i, every later element
   * newer than the one at i is swapped into i.
   */
  method SortNewestFirst(a: array<Order>)
    modifies a
    ensures NewestFirst(a[..])
    ensures multiset(a[..]) == multiset(old(a[..]))
  {
    var n := a.Length;
    var i := 0;
    while i < n - 1
      invariant 0 <= i <= n
      invariant SettledBefore(a[..], i)
      invariant multiset(a[..]) == multiset(old(a[..]))
    {
      var j := i + 1;
      while j < n
        invariant i < j <= n
        invariant SettledBefore(a[..], i)
        invariant forall q | i < q < j :: a[i].createTime >= a[q].createTime
        invariant multiset(a[..]) == multiset(old(a[..]))
      {
        if a[i].createTime < a[j].createTime {
          a[i], a[j] := a[j], a[i];
        }
        j := j + 1;
      }
      i := i + 1;
    }
  }

  /**
   * A listing that holds exactly the values of a table keyed by merchant order
   * number names each order under the number Get finds it by, and no number twice.
   */
  lemma ListingMatchesLookup(s: seq<Order>, m: map<string, Order>)
    requires KeyedByTradeNo(m)
    requires multiset(s) == multiset(m.Values)
    ensures forall i | 0 <= i < |s| :: s[i].outTradeNo in m && m[s[i].outTradeNo] == s[i]
    ensures forall i, j | 0 <= i < j < |s| :: s[i].outTradeNo != s[j].outTradeNo
  {
    forall i | 0 <= i < |s|
      ensures s[i].outTradeNo in m && m[s[i].outTradeNo] == s[i]
    {
      assert s[i] in multiset(s);
      var k :| k in m && m[k] == s[i];
    }
    forall i, j | 0 <= i < j < |s|
      ensures s[i] != s[j]
    {
      TwiceInMultiset(s, i, j);
    }
  }

  /** An element at two distinct positions occurs at least twice. */
  lemma TwiceInMultiset<T>(s: seq<T>, i: int, j: int)
    requires 0 <= i < j < |s|
    ensures s[i] == s[j] ==> multiset(s)[s[i]] >= 2
  {
    assert s == s[..i] + [s[i]] + s[i + 1..j] + [s[j]] + s[j + 1..];
  }

  /** Removing the element at `j` keeps the others in order and removes one occurrence. */
  lemma RemoveAt(t: seq<Order>, j: int, t': seq<Order>)
    requires 0 <= j < |t| && t' == t[..j] + t[j + 1..]
    ensures |t'| == |t| - 1
    ensures forall p | 0 <= p < j :: t'[p] == t[p]
    ensures forall p | j <= p < |t'| :: t'[p] == t[p + 1]
    ensures multiset(t') == multiset(t) - multiset{t[j]}
    ensures NewestFirst(t) ==> NewestFirst(t')
  {
    assert t == t[..j] + [t[j]] + t[j + 1..];
  }

  /** The newest order of a listing leads every newest-first arrangement of it. */
  lemma NewestLeads(s: seq<Order>, t: seq<Order>)
    requires multiset(s) == multiset(t) && |s| > 0
    requires NewestFirst(s) && NewestFirst(t)
    ensures |t| > 0 && s[0].createTime == t[0].createTime
  {
    assert s[0] in multiset(t);
    assert t[0] in multiset(s);
  }

  /** Taking the head of `s` out of both arrangements leaves two arrangements of the same orders. */
  lemma DropLeader(s: seq<Order>, t: seq<Order>, j: int, t': seq<Order>)
    requires multiset(s) == multiset(t) && |s| > 0
    requires NewestFirst(s) && NewestFirst(t)
    requires 0 <= j < |t| && t[j] == s[0] && t' == t[..j] + t[j + 1..]
    ensures multiset(s[1..]) == multiset(t')
    ensures NewestFirst(s[1..]) && NewestFirst(t')
  {
    RemoveAt(t, j, t');
    RemoveAt(s, 0, s[1..]);
  }

  /**
   * Listing order is determined up to ties: two newest-first arrangements of
   * the same orders have the same creation time at every position, whatever
   * order the table was iterated in.
   */
  lemma {:induction false} NewestFirstTimesAgree(s: seq<Order>, t: seq<Order>)
    requires multiset(s) == multiset(t)
    requires NewestFirst(s) && NewestFirst(t)
    ensures |s| == |t|
    ensures forall i | 0 <= i < |s| :: s[i].createTime == t[i].createTime
  {
    assert |s| == |multiset(s)| == |multiset(t)| == |t|;
    if |s| > 0 {
      NewestLeads(s, t);
      assert s[0] in multiset(t);
      var j :| 0 <= j < |t| && t[j] == s[0];
      var t' := t[..j] + t[j + 1..];
      DropLeader(s, t, j, t');
      NewestFirstTimesAgree(s[1..], t');
      RemoveAt(t, j, t');
      // Everything in t up to position j ties with s[0].
      forall p | 0 < p < |s| ensures s[p].createTime == t[p].createTime {
        assert s[p] == s[1..][p - 1];
        if p <= j {
          assert t[0].createTime >= t[p - 1].createTime >= t[j].createTime;
          assert t[0].createTime >= t[p].createTime >= t[j].createTime;
        }
      }
    }
  }
}
