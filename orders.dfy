/**
 * A customer order: the four requested quantities, the four quantities
 * allocated to it from storage so far, and its place in the order lifecycle.
 */
module Orders {
  import opened Products

  /**
   * Lifecycle of an order. `Packed` exists only in the earliest revision,
   * whose packing service passes an order through it on the way to `Shipped`.
   */
  datatype OrderStatus =
    | Unprocessed | Arrived | Filled | WaitingToPack | Packed | Shipped | Discarded | Cancelled

  /** An order still unshipped this many seconds after it arrived is cancelled (72 hours). */
  const ORDER_EXPIRATION: nat := 72 * 60 * 60

  /** Expiration age used by the earliest revision. */
  const ORDER_EXPIRATION_EARLY: nat := 500

  class CustomerOrder {
    const idx: nat
    const arrivalTime: nat
    /** Requested quantities. */
    const qty: Quad
    /** Quantities allocated out of storage for this order so far. */
    var allocation: Quad
    var status: OrderStatus
    /** Time at which the order was handed to the facility. */
    var timeToArrive: nat

    /** No product is ever allocated beyond what was requested. */
    ghost predicate Valid()
      reads this
    {
      allocation.Le(qty)
    }

    constructor (idx: nat, arrivalTime: nat, qty: Quad)
      ensures this.idx == idx && this.arrivalTime == arrivalTime && this.qty == qty
      ensures allocation == Zero && status == Unprocessed && timeToArrive == 0
      ensures Valid()
    {
      this.idx := idx;
      this.arrivalTime := arrivalTime;
      this.qty := qty;
      allocation := Zero;
      status := Unprocessed;
      timeToArrive := 0;
    }

    /**
     * Penalty for not serving the order: requested quantities priced at the
     * unit lost-sales penalty. It reads only the requested quantities, so it
     * does not depend on the allocation or on the status.
     */
    function LostSalesPenalty(): (r: nat)
      ensures r == Weighted(qty, Penalty, AllProducts)
      ensures qty.Total() <= r <= 10 * qty.Total()
    {
      WeightedAll(qty, Penalty);
      qty.tshirt * 1 + qty.hoodie * 6 + qty.spants * 6 + qty.sneaks * 10
    }

    /**
     * Profit of shipping the order: requested quantities priced at the unit
     * gross profit, independent of the allocation and of the status.
     */
    function GrossProfit(): (r: nat)
      ensures r == Weighted(qty, Profit, AllProducts)
      ensures 4 * qty.Total() <= r <= 20 * qty.Total()
    {
      WeightedAll(qty, Profit);
      qty.tshirt * 4 + qty.hoodie * 10 + qty.spants * 10 + qty.sneaks * 20
    }

    /** The order has been allocated every unit it requested. */
    predicate CheckIfFilled()
      reads this
    {
      allocation.tshirt == qty.tshirt && allocation.hoodie == qty.hoodie
      && allocation.spants == qty.spants && allocation.sneaks == qty.sneaks
    }

    /** Number of units still to be allocated, per product. */
    function Outstanding(): (r: Quad)
      reads this
      requires Valid()
      ensures allocation.Plus(r) == qty
      ensures r == Zero <==> CheckIfFilled()
    {
      qty.Minus(allocation)
    }

    /** Age of the order at time `now`, in seconds. */
    function Age(now: int): int
    {
      now - arrivalTime
    }
  }
}
