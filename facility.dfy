/**
 * The fulfillment center: shared counters, the order store, the packing
 * station queues and slots, inbound parking and the holding tracker, and the
 * atomic steps that the receiver, the expiration monitor, the shift manager
 * and the pickers, stowers and packers take between their waits.
 *
 * Station ids are 1-based as in the simulation: station `i` owns
 * `stationQueues[i - 1]` and `slotHeld[i - 1]`; id 0 means "no station".
 */
module Facility {
  import opened Products
  import opened Orders
  import opened Storage
  import opened Schedules

  // ---------------------------------------------------------------------------
  // Most work waiting in inbound parking

  /** Work waiting for product `p`: its parking level times its unit weight. */
  function Work(level: Quad, p: Product): nat
  {
    level.Get(p) * Unit(Weight, p)
  }

  function Max(a: nat, b: nat): nat
  {
    if a >= b then a else b
  }

  /** The largest of the four work amounts. */
  function MaxWork(level: Quad): (m: nat)
    ensures forall p :: Work(level, p) <= m
    ensures exists p :: Work(level, p) == m
  {
    Max(Max(Max(Work(level, Tshirt), Work(level, Hoodie)), Work(level, Spants)), Work(level, Sneaks))
  }

  /** The products whose work equals the maximum, in product order. */
  function MaxWorkCandidates(level: Quad): (ps: seq<Product>)
    ensures 1 <= |ps| <= 4
    ensures forall i :: 0 <= i < |ps| ==> Work(level, ps[i]) == MaxWork(level)
    ensures forall p :: Work(level, p) == MaxWork(level) ==> p in ps
  {
    var m := MaxWork(level);
    (if Work(level, Tshirt) == m then [Tshirt] else [])
    + (if Work(level, Hoodie) == m then [Hoodie] else [])
    + (if Work(level, Spants) == m then [Spants] else [])
    + (if Work(level, Sneaks) == m then [Sneaks] else [])
  }

  datatype MaxWorkChoice = NoWork | MostWork(product: Product, remaining: nat)

  /**
   * Product with the most work waiting in parking; ties are broken by the
   * oracle `pick`, an index into the candidates.
   */
  function MaxWorkProductType(level: Quad, pick: nat): (c: MaxWorkChoice)
    requires pick < |MaxWorkCandidates(level)|
    ensures c.NoWork? <==> level == Zero
    ensures c.MostWork? ==> c.remaining == Work(level, c.product) && level.Get(c.product) > 0
    ensures c.MostWork? ==> forall q :: Work(level, q) <= c.remaining
  {
    var m := MaxWork(level);
    if m == 0 then
      assert level.Get(Tshirt) == 0 && level.Get(Hoodie) == 0;
      assert level.Get(Spants) == 0 && level.Get(Sneaks) == 0;
      NoWork
    else
      MostWork(MaxWorkCandidates(level)[pick], m)
  }

  /** Every product with the most work can be chosen by some oracle value. */
  lemma MaxWorkAnyCandidate(level: Quad, p: Product)
    requires level != Zero && Work(level, p) == MaxWork(level)
    ensures exists pick: nat :: pick < |MaxWorkCandidates(level)| && MaxWorkProductType(level, pick) == MostWork(p, MaxWork(level))
  {
    var ps := MaxWorkCandidates(level);
    var pick: nat :| pick < |ps| && ps[pick] == p;
    assert MaxWorkProductType(level, pick) == MostWork(p, MaxWork(level));
  }

  /**
   * Units a stower carries in one trip: as many as fit into 12 lb
   * (24 half-pounds), rounded down.
   */
  function MaxStowAmount(p: Product): (n: nat)
    ensures n * Unit(Weight, p) <= 24 < (n + 1) * Unit(Weight, p)
  {
    24 / Unit(Weight, p)
  }

  // ---------------------------------------------------------------------------
  // Packing station choice

  /** Queue length of every station, station 1 first. */
  function QueueLengths(queues: seq<seq<CustomerOrder>>): (ls: seq<nat>)
    ensures |ls| == |queues| && forall i :: 0 <= i < |queues| ==> ls[i] == |queues[i]|
  {
    seq(|queues|, i requires 0 <= i < |queues| => |queues[i]|)
  }

  function MinOf(xs: seq<nat>): (m: nat)
    requires |xs| > 0
    ensures exists i :: 0 <= i < |xs| && xs[i] == m
    ensures forall i :: 0 <= i < |xs| ==> m <= xs[i]
  {
    if |xs| == 1 then xs[0] else Min(MinOf(xs[..|xs| - 1]), xs[|xs| - 1])
  }

  /** Ids (1-based, ascending) of the stations whose queue length is `m`. */
  function StationsWith(lengths: seq<nat>, m: nat): (ids: seq<nat>)
    ensures forall k :: 0 <= k < |ids| ==> 1 <= ids[k] <= |lengths| && lengths[ids[k] - 1] == m
    ensures forall i :: 1 <= i <= |lengths| && lengths[i - 1] == m ==> i in ids
    ensures forall k, l :: 0 <= k < l < |ids| ==> ids[k] < ids[l]
  {
    if lengths == [] then []
    else
      var n := |lengths|;
      StationsWith(lengths[..n - 1], m) + (if lengths[n - 1] == m then [n] else [])
  }

  /** Stations with the shortest queue: the candidates of the random choice. */
  function ShortestQueues(queues: seq<seq<CustomerOrder>>): (ids: seq<nat>)
    requires |queues| > 0
    ensures |ids| > 0
  {
    var ls := QueueLengths(queues);
    var m := MinOf(ls);
    var i :| 0 <= i < |ls| && ls[i] == m;
    assert i + 1 in StationsWith(ls, m);
    StationsWith(ls, m)
  }

  /**
   * A station whose queue is shortest and strictly shorter than every queue
   * before it is the first candidate of the random choice.
   */
  lemma FirstShortestQueue(queues: seq<seq<CustomerOrder>>, id: nat)
    requires 1 <= id <= |queues|
    requires forall j :: 0 <= j < |queues| ==> |queues[id - 1]| <= |queues[j]|
    requires forall j :: 0 <= j < id - 1 ==> |queues[j]| > |queues[id - 1]|
    ensures ShortestQueues(queues)[0] == id
  {
    var ls := QueueLengths(queues);
    var m := MinOf(ls);
    var ids := ShortestQueues(queues);
    assert ls[id - 1] == m;
    assert id in ids;
    var k :| 0 <= k < |ids| && ids[k] == id;
    var first := ids[0];
    assert 1 <= first <= |ls| && ls[first - 1] == m;
    if first < id {
      assert false;
    }
    if first > id {
      assert false;
    }
  }

  /** Sum of all queue lengths. */
  function SumLengths(queues: seq<seq<CustomerOrder>>): nat
  {
    if queues == [] then 0 else SumLengths(queues[..|queues| - 1]) + |queues[|queues| - 1]|
  }

  lemma {:induction false} SumLengthsZero(queues: seq<seq<CustomerOrder>>)
    ensures SumLengths(queues) == 0 <==> forall i :: 0 <= i < |queues| ==> queues[i] == []
  {
    if queues != [] {
      var n := |queues|;
      SumLengthsZero(queues[..n - 1]);
      assert forall i :: 0 <= i < n - 1 ==> queues[..n - 1][i] == queues[i];
    }
  }

  // ---------------------------------------------------------------------------
  // Packing station slots

  /** First free station (1-based), or 0 when every station is held. */
  function FirstFree(slots: seq<bool>): (r: nat)
    ensures r <= |slots|
    ensures r == 0 <==> forall j :: 0 <= j < |slots| ==> slots[j]
    ensures r > 0 ==> !slots[r - 1] && forall j :: 0 <= j < r - 1 ==> slots[j]
  {
    if slots == [] then 0
    else
      var n := |slots|;
      var f := FirstFree(slots[..n - 1]);
      if f > 0 then f else if !slots[n - 1] then n else 0
  }

  /** Last free station (1-based), or 0 when every station is held. */
  function LastFree(slots: seq<bool>): (r: nat)
    ensures r <= |slots|
    ensures r == 0 <==> forall j :: 0 <= j < |slots| ==> slots[j]
    ensures r > 0 ==> !slots[r - 1] && forall j :: r <= j < |slots| ==> slots[j]
  {
    if slots == [] then 0
    else
      var n := |slots|;
      if !slots[n - 1] then n else LastFree(slots[..n - 1])
  }

  /** The slots after station `station` (0: none) is taken. */
  function Claim(slots: seq<bool>, station: nat): (r: seq<bool>)
    requires station <= |slots|
    ensures |r| == |slots|
  {
    if station == 0 then slots else slots[station - 1 := true]
  }

  /** The slots after the packer at `station` (0: none) leaves it. */
  function Release(slots: seq<bool>, station: nat): (r: seq<bool>)
    requires station <= |slots|
    ensures |r| == |slots|
  {
    if station == 0 then slots else slots[station - 1 := false]
  }

  function AllHeld(n: nat): (r: seq<bool>)
    ensures |r| == n && forall j :: 0 <= j < n ==> r[j]
  {
    seq(n, _ => true)
  }

  /** A packer who takes the first free station and later leaves it restores the slots. */
  lemma {:induction false} ClaimFirstThenRelease(slots: seq<bool>)
    ensures Release(Claim(slots, FirstFree(slots)), FirstFree(slots)) == slots
  {
    var f := FirstFree(slots);
    if f > 0 {
      assert !slots[f - 1];
      assert slots[f - 1 := true][f - 1 := false] == slots;
    }
  }

  /**
   * A packer who claims every free station and later leaves only the last one
   * keeps the others held, with nobody working at them.
   */
  lemma ClaimAllThenReleaseLeaks()
    ensures exists slots: seq<bool> ::
      |slots| == 2 && !slots[0] && !slots[1] && Release(AllHeld(|slots|), LastFree(slots))[0]
  {
    var slots := [false, false];
    assert LastFree(slots) == 2;
    assert Release(AllHeld(2), 2) == [true, false];
  }

  // ---------------------------------------------------------------------------
  // Workers

  /** One worker's shift. */
  class WorkerShift {
    const role: Role
    const endShiftTime: nat
    var working: bool
    /** Packing station of a packer, 0 while it has none. */
    var stationedAt: nat

    constructor (role: Role, now: nat, rev: Revision)
      ensures this.role == role && endShiftTime == now + ShiftLength(rev)
      ensures working && stationedAt == 0
    {
      this.role := role;
      endShiftTime := now + ShiftLength(rev);
      working := true;
      stationedAt := 0;
    }
  }

  /** What a picker found at the head of the order store. */
  datatype PickerOutcome = PickerIdle | Dropped | Unavailable | ToPick

  /** What a packer found at the head of its station queue. */
  datatype PackerOutcome = PackerIdle | Skipped | ToPack

  /** What a stower did with the parked inventory. */
  datatype StowerOutcome = StowerIdle | Stowed(product: Product, amount: nat, weightStowed: nat)

  /** Packing service of the earliest revision: pack time from the requested quantities, then shipped. */
  method PackingServiceEarly(order: CustomerOrder) returns (packTime: nat)
    modifies order`status
    ensures packTime == 30 + 10 * order.qty.Total()
    ensures order.status == Shipped
  {
    packTime := 30 + order.qty.tshirt * 10 + order.qty.hoodie * 10 + order.qty.spants * 10 + order.qty.sneaks * 10;
    order.status := Packed;
    order.status := Shipped;
  }

  /**
   * Expiration monitor of the earliest revision, ORDER_EXPIRATION_EARLY
   * seconds after arrival: an unshipped order is cancelled; nothing is
   * booked.
   */
  method ExpireOrderEarly(order: CustomerOrder)
    modifies order`status
    ensures order.status == if old(order.status) == Shipped then Shipped else Cancelled
  {
    if order.status != Shipped {
      order.status := Cancelled;
    }
  }

  class FulfillmentCenter {
    const inventory: InventoryStorage
    const numPackingStations: nat
    /** Arrived orders waiting for a picker, oldest first. */
    var orderStore: seq<CustomerOrder>
    var stationQueues: seq<seq<CustomerOrder>>
    /** Whether a packer is stationed at each station. */
    var slotHeld: seq<bool>
    /** Inventory delivered but not yet stowed. */
    var parking: Quad
    /** Units held by the facility, for the holding cost. */
    var tracker: Quad
    var currentShift: Shift
    var ordersShipped: nat
    var ordersCancelled: nat
    var ordersDiscarded: nat
    var grossProfit: nat
    var lostSalesPenalty: nat
    var deliveryExpense: nat
    var deliveryExpenseReturns: nat
    /** Full shifts paid at the base wage. */
    var baseShiftsBooked: nat
    /** Overtime paid, in seconds. */
    var overtimeSeconds: nat

    ghost predicate Valid()
      reads this
    {
      numPackingStations >= 1 && |stationQueues| == numPackingStations && |slotHeld| == numPackingStations
    }

    /**
     * A facility at the start of the simulation: initial stock in storage,
     * empty parking, empty queues, free stations and zero counters. The
     * holding tracker starts at the initial stock, except in the Oct 5
     * revision where it starts at zero.
     */
    constructor (rev: Revision, policy: Policy, numPackingStations: nat)
      requires numPackingStations >= 1
      ensures Valid() && fresh(inventory)
      ensures inventory.policy == policy
      ensures inventory.bins == if policy == Designated then DesignatedLayout(InitialQtys(rev)) else RandomLayout(InitialQtys(rev))
      ensures this.numPackingStations == numPackingStations
      ensures orderStore == [] && forall i :: 0 <= i < numPackingStations ==> stationQueues[i] == [] && !slotHeld[i]
      ensures parking == Zero && tracker == if rev == Oct5 then Zero else InitialQtys(rev)
      ensures currentShift == FirstShift(rev)
      ensures ordersShipped == 0 && ordersCancelled == 0 && ordersDiscarded == 0
      ensures grossProfit == 0 && lostSalesPenalty == 0
      ensures deliveryExpense == 0 && deliveryExpenseReturns == 0
      ensures baseShiftsBooked == 0 && overtimeSeconds == 0
    {
      inventory := new InventoryStorage(policy, InitialQtys(rev));
      this.numPackingStations := numPackingStations;
      orderStore := [];
      stationQueues := seq(numPackingStations, _ => []);
      slotHeld := seq(numPackingStations, _ => false);
      parking := Zero;
      tracker := if rev == Oct5 then Zero else InitialQtys(rev);
      currentShift := FirstShift(rev);
      ordersShipped, ordersCancelled, ordersDiscarded := 0, 0, 0;
      grossProfit, lostSalesPenalty := 0, 0;
      deliveryExpense, deliveryExpenseReturns := 0, 0;
      baseShiftsBooked, overtimeSeconds := 0, 0;
    }

    // -------------------------------------------------------------------------
    // Helpers

    /** Stop tracking the units allocated to `order`. */
    method RemoveFromInventoryTracker(order: CustomerOrder)
      requires order.allocation.Le(tracker)
      modifies this`tracker
      ensures tracker == old(tracker).Minus(order.allocation)
    {
      assert order.allocation.Get(Tshirt) <= tracker.Get(Tshirt) && order.allocation.Get(Hoodie) <= tracker.Get(Hoodie);
      assert order.allocation.Get(Spants) <= tracker.Get(Spants) && order.allocation.Get(Sneaks) <= tracker.Get(Sneaks);
      if order.allocation.tshirt > 0 {
        tracker := tracker.(tshirt := tracker.tshirt - order.allocation.tshirt);
      }
      if order.allocation.hoodie > 0 {
        tracker := tracker.(hoodie := tracker.hoodie - order.allocation.hoodie);
      }
      if order.allocation.spants > 0 {
        tracker := tracker.(spants := tracker.spants - order.allocation.spants);
      }
      if order.allocation.sneaks > 0 {
        tracker := tracker.(sneaks := tracker.sneaks - order.allocation.sneaks);
      }
    }

    /**
     * Station whose queue is shortest, chosen among all shortest queues by
     * the oracle `pick`.
     */
    method GetOptimalPackingStationQueue(pick: nat) returns (id: nat)
      requires |stationQueues| > 0
      requires pick < |ShortestQueues(stationQueues)|
      ensures 1 <= id <= |stationQueues|
      ensures forall j :: 0 <= j < |stationQueues| ==> |stationQueues[id - 1]| <= |stationQueues[j]|
      ensures id == ShortestQueues(stationQueues)[pick]
    {
      var n := |stationQueues|;
      var lengths: seq<nat> := [];
      for i := 0 to n
        invariant lengths == QueueLengths(stationQueues)[..i]
      {
        lengths := lengths + [|stationQueues[i]|];
      }
      assert lengths == QueueLengths(stationQueues);
      var minLength := MinOf(lengths);
      var minQueues: seq<nat> := [];
      for i := 1 to n + 1
        invariant minQueues == StationsWith(lengths[..i - 1], minLength)
      {
        assert lengths[..i][..i - 1] == lengths[..i - 1];
        if |stationQueues[i - 1]| == minLength {
          minQueues := minQueues + [i];
        }
      }
      assert lengths[..n] == lengths;
      id := minQueues[pick];
    }

    /**
     * Station choice of the earliest revision: scan from station 1 and move
     * only to a strictly shorter queue, so the lowest-numbered shortest
     * queue wins.
     */
    method GetOptimalPackingStationEarly() returns (id: nat)
      requires |stationQueues| > 0
      ensures 1 <= id <= |stationQueues|
      ensures forall j :: 0 <= j < |stationQueues| ==> |stationQueues[id - 1]| <= |stationQueues[j]|
      ensures forall j :: 0 <= j < id - 1 ==> |stationQueues[j]| > |stationQueues[id - 1]|
      ensures id == ShortestQueues(stationQueues)[0]
    {
      id := 1;
      var minOrders := |stationQueues[0]|;
      for i := 1 to |stationQueues| + 1
        invariant 1 <= id <= |stationQueues| && minOrders == |stationQueues[id - 1]|
        invariant forall j :: 0 <= j < i - 1 ==> minOrders <= |stationQueues[j]|
        invariant forall j :: 0 <= j < id - 1 ==> |stationQueues[j]| > minOrders
      {
        if i > 1 {
          var ordersInQueue := |stationQueues[i - 1]|;
          if ordersInQueue < minOrders {
            minOrders := ordersInQueue;
            id := i;
          }
        }
      }
      FirstShortestQueue(stationQueues, id);
    }

    /** Number of orders waiting over all packing stations. */
    method GetTotalPackingQueue() returns (total: nat)
      ensures total == SumLengths(stationQueues)
      ensures total == 0 <==> forall i :: 0 <= i < |stationQueues| ==> stationQueues[i] == []
    {
      total := 0;
      for i := 0 to |stationQueues|
        invariant total == SumLengths(stationQueues[..i])
      {
        assert stationQueues[..i + 1][..i] == stationQueues[..i];
        total := total + |stationQueues[i]|;
      }
      assert stationQueues[..|stationQueues|] == stationQueues;
      SumLengthsZero(stationQueues);
    }

    // -------------------------------------------------------------------------
    // Order arrival and expiration

    /**
     * The receiver takes the first order of the source, waits until its
     * arrival time (if that is still ahead), marks it arrived and appends it
     * to the order store. Only the Oct 15 and Oct 18 revisions record the
     * arrival time on the order.
     */
    method ReceiveNextOrder(source: seq<CustomerOrder>, now: nat, rev: Revision)
      returns (rest: seq<CustomerOrder>, arrivedAt: nat)
      requires |source| > 0
      modifies this`orderStore, source[0]
      ensures rest == source[1..]
      ensures arrivedAt >= now && arrivedAt >= source[0].arrivalTime
      ensures arrivedAt == now || arrivedAt == source[0].arrivalTime
      ensures source[0].status == Arrived
      ensures source[0].timeToArrive == if rev in {Oct15, Oct18} then arrivedAt else old(source[0].timeToArrive)
      ensures source[0].allocation == old(source[0].allocation)
      ensures orderStore == old(orderStore) + [source[0]]
    {
      var newOrder := source[0];
      rest := source[1..];
      var wait: nat := if newOrder.arrivalTime > now then newOrder.arrivalTime - now else 0;
      arrivedAt := now + wait;
      newOrder.status := Arrived;
      if rev == Oct15 || rev == Oct18 {
        newOrder.timeToArrive := arrivedAt;
      }
      orderStore := orderStore + [newOrder];
    }

    /**
     * The expiration monitor, ORDER_EXPIRATION seconds after arrival: an order
     * not shipped by then is cancelled, whatever its status (a discarded or
     * already cancelled order included), its penalty is booked and its
     * allocated units leave the tracker.
     */
    method ExpireOrder(order: CustomerOrder)
      requires order.status != Shipped ==> order.allocation.Le(tracker)
      modifies order`status, this`ordersCancelled, this`lostSalesPenalty, this`tracker
      ensures old(order.status) == Shipped ==>
        order.status == Shipped && ordersCancelled == old(ordersCancelled)
        && lostSalesPenalty == old(lostSalesPenalty) && tracker == old(tracker)
      ensures old(order.status) != Shipped ==>
        order.status == Cancelled && ordersCancelled == old(ordersCancelled) + 1
        && lostSalesPenalty == old(lostSalesPenalty) + order.LostSalesPenalty()
        && tracker == old(tracker).Minus(order.allocation)
    {
      if order.status != Shipped {
        order.status := Cancelled;
        ordersCancelled := ordersCancelled + 1;
        lostSalesPenalty := lostSalesPenalty + order.LostSalesPenalty();
        RemoveFromInventoryTracker(order);
      }
    }

    // -------------------------------------------------------------------------
    // Shift manager and worker shifts

    /** Shift change: rotate the label, then start the new shift's crew. */
    method ShiftChange(crew: Crew, rev: Revision) returns (roles: seq<Role>)
      modifies this`currentShift
      ensures currentShift == NextShift(old(currentShift))
      ensures roles == CrewRoles(crew, rev)
    {
      var lastShift := currentShift;
      if lastShift == Morning {
        currentShift := Afternoon;
      } else if lastShift == Afternoon {
        currentShift := Evening;
      } else if lastShift == Evening {
        currentShift := Morning;
      }
      roles := SpawnCrew(crew, rev);
    }

    /**
     * Top of a worker's loop: once `now` has reached the end of the shift the
     * worker goes home, books one base shift and its overtime (not in the
     * earliest revision), and a stationed packer frees its station.
     */
    method EndShiftIfDue(w: WorkerShift, now: nat, rev: Revision) returns (overtime: nat)
      requires w.working && w.stationedAt <= |slotHeld|
      modifies w`working, this`baseShiftsBooked, this`overtimeSeconds, this`slotHeld
      ensures w.working <==> now < w.endShiftTime
      ensures now < w.endShiftTime ==>
        overtime == 0 && baseShiftsBooked == old(baseShiftsBooked)
        && overtimeSeconds == old(overtimeSeconds) && slotHeld == old(slotHeld)
      ensures now >= w.endShiftTime ==> overtime == now - w.endShiftTime
      ensures now >= w.endShiftTime ==>
        baseShiftsBooked == old(baseShiftsBooked) + (if rev == Sep28 then 0 else 1)
        && overtimeSeconds == old(overtimeSeconds) + (if rev == Sep28 then 0 else overtime)
      ensures now >= w.endShiftTime ==>
        slotHeld == if w.role == Packer then Release(old(slotHeld), w.stationedAt) else old(slotHeld)
    {
      overtime := 0;
      if now >= w.endShiftTime {
        w.working := false;
        overtime := now - w.endShiftTime;
        if rev != Sep28 {
          baseShiftsBooked := baseShiftsBooked + 1;
          overtimeSeconds := overtimeSeconds + overtime;
        }
        if w.role == Packer && w.stationedAt != 0 {
          slotHeld := slotHeld[w.stationedAt - 1 := false];
        }
      }
    }

    /** An unstationed packer takes the first free station, if any (Oct 15 and Oct 18). */
    method AcquireStation(w: WorkerShift)
      modifies w`stationedAt, this`slotHeld
      ensures old(w.stationedAt) != 0 ==> w.stationedAt == old(w.stationedAt) && slotHeld == old(slotHeld)
      ensures old(w.stationedAt) == 0 ==>
        w.stationedAt == FirstFree(old(slotHeld)) && slotHeld == Claim(old(slotHeld), w.stationedAt)
    {
      if w.stationedAt == 0 {
        var i := 1;
        while i <= |slotHeld|
          invariant 1 <= i <= |slotHeld| + 1
          invariant forall j :: 0 <= j < i - 1 ==> slotHeld[j]
          invariant slotHeld == old(slotHeld) && w.stationedAt == 0
        {
          if !slotHeld[i - 1] {
            slotHeld := slotHeld[i - 1 := true];
            w.stationedAt := i;
            break;
          }
          i := i + 1;
        }
      }
    }

    /**
     * Station acquisition of the Oct 5 revision, whose loop does not stop at
     * the first free station: the packer claims every free station and ends
     * up stationed at the last one.
     */
    method AcquireStationAllFree(w: WorkerShift)
      modifies w`stationedAt, this`slotHeld
      ensures old(w.stationedAt) != 0 ==> w.stationedAt == old(w.stationedAt) && slotHeld == old(slotHeld)
      ensures old(w.stationedAt) == 0 ==>
        w.stationedAt == LastFree(old(slotHeld)) && slotHeld == AllHeld(|old(slotHeld)|)
    {
      if w.stationedAt == 0 {
        for i := 1 to |slotHeld| + 1
          invariant |slotHeld| == |old(slotHeld)|
          invariant forall j :: 0 <= j < i - 1 ==> slotHeld[j]
          invariant forall j :: i - 1 <= j < |slotHeld| ==> slotHeld[j] == old(slotHeld)[j]
          invariant w.stationedAt == LastFree(old(slotHeld)[..i - 1])
        {
          assert old(slotHeld)[..i][..i - 1] == old(slotHeld)[..i - 1];
          if !slotHeld[i - 1] {
            slotHeld := slotHeld[i - 1 := true];
            w.stationedAt := i;
          }
        }
        assert old(slotHeld)[..|slotHeld|] == old(slotHeld);
      }
    }

    // -------------------------------------------------------------------------
    // Picker

    /**
     * First part of a picker's task: take the oldest order from the store. A
     * cancelled order is dropped; an order the storage cannot fill is
     * discarded, with its penalty booked (not in the earliest revision); any
     * other order is returned for pickup. An empty store leaves the picker
     * idle for one second.
     */
    method PickerTakeOrder(rev: Revision) returns (outcome: PickerOutcome, order: CustomerOrder?)
      requires orderStore != [] ==> orderStore[0].allocation.Le(tracker)
      modifies this`orderStore, this`ordersDiscarded, this`lostSalesPenalty, this`tracker
      modifies orderStore[..if orderStore == [] then 0 else 1]
      ensures old(orderStore) == [] <==> outcome == PickerIdle
      ensures outcome == PickerIdle ==> orderStore == [] && order == null
      ensures outcome != PickerIdle ==> order == old(orderStore)[0] && orderStore == old(orderStore)[1..]
      ensures outcome != PickerIdle ==> order.allocation == old(order.allocation)
      ensures outcome == Dropped <==> outcome != PickerIdle && old(order.status) == Cancelled
      ensures outcome == Unavailable <==>
        outcome != PickerIdle && old(order.status) != Cancelled && !inventory.CheckInventory(order.qty)
      ensures outcome == Unavailable ==> order.status == Discarded
      ensures outcome == Unavailable ==>
        ordersDiscarded == old(ordersDiscarded) + (if rev == Sep28 then 0 else 1)
        && lostSalesPenalty == old(lostSalesPenalty) + (if rev == Sep28 then 0 else order.LostSalesPenalty())
        && tracker == (if rev == Sep28 then old(tracker) else old(tracker).Minus(order.allocation))
      ensures outcome != Unavailable ==>
        ordersDiscarded == old(ordersDiscarded) && lostSalesPenalty == old(lostSalesPenalty) && tracker == old(tracker)
      ensures outcome in {Dropped, ToPick} ==> order.status == old(order.status)
    {
      order := null;
      if |orderStore| > 0 {
        order := orderStore[0];
        orderStore := orderStore[1..];
        if order.status != Cancelled {
          if inventory.CheckInventory(order.qty) {
            outcome := ToPick;
          } else {
            order.status := Discarded;
            if rev != Sep28 {
              ordersDiscarded := ordersDiscarded + 1;
              lostSalesPenalty := lostSalesPenalty + order.LostSalesPenalty();
              RemoveFromInventoryTracker(order);
            }
            outcome := Unavailable;
          }
        } else {
          outcome := Dropped;
        }
      } else {
        outcome := PickerIdle;
      }
    }

    /**
     * Last part of a picker's task, 30 s after the pickup: an order that was
     * not cancelled meanwhile waits to be packed and joins the queue of one
     * shortest-queue station, chosen by the oracle `pick`.
     */
    method PickerHandOff(order: CustomerOrder, pick: nat) returns (station: nat)
      requires |stationQueues| > 0 && pick < |ShortestQueues(stationQueues)|
      modifies order`status, this`stationQueues
      ensures old(order.status) == Cancelled ==>
        order.status == Cancelled && station == 0 && stationQueues == old(stationQueues)
      ensures old(order.status) != Cancelled ==>
        order.status == WaitingToPack && station == ShortestQueues(old(stationQueues))[pick]
        && 1 <= station <= |stationQueues|
        && stationQueues == old(stationQueues)[station - 1 := old(stationQueues)[station - 1] + [order]]
      ensures old(order.status) != Cancelled ==>
        forall j :: 0 <= j < |stationQueues| ==> |old(stationQueues)[station - 1]| <= |old(stationQueues)[j]|
    {
      station := 0;
      if order.status != Cancelled {
        order.status := WaitingToPack;
        station := GetOptimalPackingStationQueue(pick);
        stationQueues := stationQueues[station - 1 := stationQueues[station - 1] + [order]];
      }
    }

    /**
     * Hand-off of the earliest revision: the order waits to be packed
     * whatever its status and joins the lowest-numbered shortest queue.
     */
    method PickerHandOffEarly(order: CustomerOrder) returns (station: nat)
      requires |stationQueues| > 0
      modifies order`status, this`stationQueues
      ensures order.status == WaitingToPack
      ensures 1 <= station <= |old(stationQueues)|
      ensures forall j :: 0 <= j < |old(stationQueues)| ==> |old(stationQueues)[station - 1]| <= |old(stationQueues)[j]|
      ensures forall j :: 0 <= j < station - 1 ==> |old(stationQueues)[j]| > |old(stationQueues)[station - 1]|
      ensures stationQueues == old(stationQueues)[station - 1 := old(stationQueues)[station - 1] + [order]]
    {
      order.status := WaitingToPack;
      station := GetOptimalPackingStationEarly();
      stationQueues := stationQueues[station - 1 := stationQueues[station - 1] + [order]];
    }

    // -------------------------------------------------------------------------
    // Packer

    /**
     * First part of a packer's task at `station`: take the oldest order of
     * its queue. An order waiting to be packed takes 30 s plus 10 s per
     * allocated unit; any other order is skipped, with a one-second idle in
     * the revisions before Oct 18. An empty queue idles for one second.
     */
    method PackerTakeOrder(station: nat, rev: Revision)
      returns (outcome: PackerOutcome, order: CustomerOrder?, elapsed: nat)
      requires 1 <= station <= |stationQueues|
      modifies this`stationQueues
      ensures old(stationQueues[station - 1]) == [] ==>
        outcome == PackerIdle && order == null && elapsed == 1 && stationQueues == old(stationQueues)
      ensures old(stationQueues[station - 1]) != [] ==>
        order == old(stationQueues[station - 1][0])
        && stationQueues == old(stationQueues)[station - 1 := old(stationQueues[station - 1][1..])]
        && (outcome == ToPack <==> order.status == WaitingToPack)
        && outcome != PackerIdle
      ensures outcome == ToPack ==> elapsed == 30 + 10 * order.allocation.Total()
      ensures outcome == Skipped ==> elapsed == if rev == Oct18 then 0 else 1
    {
      order := null;
      var orderQueue := stationQueues[station - 1];
      if |orderQueue| > 0 {
        order := orderQueue[0];
        stationQueues := stationQueues[station - 1 := orderQueue[1..]];
        if order.status == WaitingToPack {
          elapsed := 30 + order.allocation.tshirt * 10 + order.allocation.hoodie * 10
                        + order.allocation.spants * 10 + order.allocation.sneaks * 10;
          outcome := ToPack;
        } else {
          elapsed := if rev == Oct18 then 0 else 1;
          outcome := Skipped;
        }
      } else {
        elapsed := 1;
        outcome := PackerIdle;
      }
    }

    /**
     * Last part of a packer's task, after the pack time: the order ships
     * (whatever happened to it meanwhile), its profit is booked and its
     * allocated units leave the tracker.
     */
    method ShipOrder(order: CustomerOrder)
      requires order.allocation.Le(tracker)
      modifies order`status, this`ordersShipped, this`grossProfit, this`tracker
      ensures order.status == Shipped
      ensures ordersShipped == old(ordersShipped) + 1
      ensures grossProfit == old(grossProfit) + order.GrossProfit()
      ensures tracker == old(tracker).Minus(order.allocation)
    {
      order.status := Shipped;
      ordersShipped := ordersShipped + 1;
      grossProfit := grossProfit + order.GrossProfit();
      RemoveFromInventoryTracker(order);
    }

    // -------------------------------------------------------------------------
    // Stower

    /**
     * A stower's task: choose the product with the most work in parking
     * (ties broken by `pick`), carry as many units as fit into 12 lb out of
     * parking, walk 120 s and stow them. The logged weight is in
     * half-pounds in the Oct 18 revision and a unit count in Oct 15. With
     * nothing parked the stower idles for one second.
     */
    method StowerStep(pick: nat, rev: Revision) returns (outcome: StowerOutcome, processTime: nat)
      requires pick < |MaxWorkCandidates(parking)|
      modifies this`parking, inventory
      ensures MaxWorkProductType(old(parking), pick).NoWork? ==>
        outcome == StowerIdle && processTime == 1 && parking == old(parking)
        && inventory.bins == old(inventory.bins)
      ensures MaxWorkProductType(old(parking), pick).MostWork? ==>
        var p := MaxWorkProductType(old(parking), pick).product;
        outcome.Stowed? && outcome.product == p
        && outcome.amount == Min(MaxStowAmount(p), old(parking).Get(p)) && outcome.amount > 0
        && outcome.weightStowed == (if rev == Oct18 then outcome.amount * Unit(Weight, p) else outcome.amount)
        && parking == old(parking).With(p, old(parking).Get(p) - outcome.amount)
        && (forall q :: Column(inventory.bins, q) == Column(old(inventory.bins), q) + (if q == p then outcome.amount else 0))
        && processTime == 120 + (if inventory.policy == Designated then 240 else 420) + 10 * outcome.amount
    {
      var maxWorkProduct := MaxWorkProductType(parking, pick);
      if maxWorkProduct.MostWork? {
        var p := maxWorkProduct.product;
        var maxAmount := MaxStowAmount(p);
        var amount := Min(maxAmount, parking.Get(p));
        parking := parking.With(p, parking.Get(p) - amount);
        var stowTime;
        if inventory.policy == Designated {
          stowTime := inventory.StowDesignated(p, amount);
        } else {
          stowTime := inventory.StowRandom(p, amount);
        }
        processTime := 120 + stowTime;
        var logWeight := if rev == Oct18 then amount * Unit(Weight, p) else amount;
        outcome := Stowed(p, amount, logWeight);
      } else {
        processTime := 1;
        outcome := StowerIdle;
      }
    }

    // -------------------------------------------------------------------------
    // Inbound receiving dock

    /**
     * One delivery: book its fee, cap it when it does not fit into parking
     * (booking the fee again for the returned part) and put what is received
     * into parking and the tracker. The Oct 18 revision caps each product by
     * its own schedule; earlier revisions cap by the tshirt count.
     */
    method ReceiveShipment(schedule: Quad, freq: Frequency, rev: Revision) returns (receipt: Receipt)
      modifies this`parking, this`tracker, this`deliveryExpense, this`deliveryExpenseReturns
      ensures receipt == if rev == Oct18 then CapShipment(old(parking), schedule) else CapShipmentAsWritten(old(parking), schedule)
      ensures deliveryExpense == old(deliveryExpense) + DeliveryFee(freq)
      ensures deliveryExpenseReturns == old(deliveryExpenseReturns) + (if receipt.returned then DeliveryFee(freq) else 0)
      ensures parking == old(parking).Plus(receipt.inbound)
      ensures tracker == old(tracker).Plus(receipt.inbound)
    {
      deliveryExpense := deliveryExpense + DeliveryFee(freq);
      if rev == Oct18 {
        receipt := CapShipment(parking, schedule);
      } else {
        receipt := CapShipmentAsWritten(parking, schedule);
      }
      if receipt.returned {
        deliveryExpenseReturns := deliveryExpenseReturns + DeliveryFee(freq);
      }
      PutInbound(receipt.inbound);
    }

    /** Put a received delivery into parking and into the tracker, product by product. */
    method PutInbound(inbound: Quad)
      modifies this`parking, this`tracker
      ensures parking == old(parking).Plus(inbound)
      ensures tracker == old(tracker).Plus(inbound)
    {
      if inbound.tshirt > 0 {
        parking := parking.(tshirt := parking.tshirt + inbound.tshirt);
        tracker := tracker.(tshirt := tracker.tshirt + inbound.tshirt);
      }
      if inbound.hoodie > 0 {
        parking := parking.(hoodie := parking.hoodie + inbound.hoodie);
        tracker := tracker.(hoodie := tracker.hoodie + inbound.hoodie);
      }
      if inbound.spants > 0 {
        parking := parking.(spants := parking.spants + inbound.spants);
        tracker := tracker.(spants := tracker.spants + inbound.spants);
      }
      if inbound.sneaks > 0 {
        parking := parking.(sneaks := parking.sneaks + inbound.sneaks);
        tracker := tracker.(sneaks := tracker.sneaks + inbound.sneaks);
      }
    }
  }
}
