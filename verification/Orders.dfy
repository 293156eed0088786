/** What a broker does with one order, and what the executors come to believe of it. */
module Orders {
  import opened Wrappers

  datatype OrderStatus = OrderStatus(filledQty: int, avgPrice: real)

  /** A call may fail with an exception at any point, even after the order reached the market; the order
      may be refused, or answered without an order number; or it is taken, and its status is confirmed
      and, after a cancel request, asked for once more. A status that cannot be read is absent. `filled`
      is what the order really fills in the end; nobody is told. */
  datatype Reply =
    | CallRaises(filled: int)
    | OrderRefused(filled: int)
    | OrderTaken(confirmed: Option<OrderStatus>, afterCancel: Option<OrderStatus>, filled: int)

  /** The fill an executor acts on: the status after the cancel, when there is one with shares. */
  function Believed(r: Reply, ordered: int): Option<OrderStatus> {
    if !r.OrderTaken? || r.confirmed.None? || r.confirmed.value.filledQty <= 0 then None
    else if r.confirmed.value.filledQty < ordered && r.afterCancel.Some? && r.afterCancel.value.filledQty > 0
    then r.afterCancel
    else r.confirmed
  }

  function BelievedQty(r: Reply, ordered: int): int {
    match Believed(r, ordered)
    case Some(status) => status.filledQty
    case None => 0
  }

  /** A status counts the shares filled so far: never more than in the end, and never fewer later on. */
  predicate Truthful(r: Reply, ordered: int) {
    && 0 <= r.filled <= ordered
    && (r.OrderTaken? ==>
          && (r.confirmed.Some? ==> 0 <= r.confirmed.value.filledQty <= r.filled)
          && (r.afterCancel.Some? ==> 0 <= r.afterCancel.value.filledQty <= r.filled)
          && (r.confirmed.Some? && r.afterCancel.Some? ==>
                r.confirmed.value.filledQty <= r.afterCancel.value.filledQty))
  }

  /** Nothing was filled; or the first status showed shares, and it or the second one showed all of them. */
  predicate LastWordHeard(r: Reply) {
    || r.filled == 0
    || (&& r.OrderTaken? && r.confirmed.Some? && r.confirmed.value.filledQty > 0
        && (r.confirmed.value.filledQty == r.filled
            || (r.afterCancel.Some? && r.afterCancel.value.filledQty == r.filled)))
  }

  /** What is believed is one status as a whole, quantity and price: the second one exactly when the first one
      shows some but not all shares and the second one can be read and shows any; nothing without a first status
      that shows shares. */
  lemma BelievedMeaning(r: Reply, ordered: int)
    ensures Believed(r, ordered).Some? <==> r.OrderTaken? && r.confirmed.Some? && r.confirmed.value.filledQty > 0
    ensures Believed(r, ordered).Some? ==>
              var second := && r.confirmed.value.filledQty < ordered
                            && r.afterCancel.Some? && r.afterCancel.value.filledQty > 0;
              Believed(r, ordered) == if second then r.afterCancel else r.confirmed
  {
  }

  /** An executor never believes in more shares than were filled, and it believes in all of them exactly
      when it heard the last word. */
  lemma BelievesNoMore(r: Reply, ordered: int)
    requires Truthful(r, ordered)
    ensures 0 <= BelievedQty(r, ordered) <= r.filled
    ensures BelievedQty(r, ordered) == r.filled <==> LastWordHeard(r)
  {
  }
}
