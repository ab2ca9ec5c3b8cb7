# Order fulfillment center simulation — Dafny model

This project models the core of a discrete-event simulation of an online
retailer's order fulfillment center. The simulation exists in four revisions
(Sep 28, Oct 5, Oct 15 and Oct 18). It stocks four products: tshirts, hoodies,
sweatpants ("spants") and sneakers ("sneaks"). The products sit in four
storage bins under one of two policies:

- **designated**: each product has its own bin;
- **random**: every product is spread over all four bins.

Customer orders arrive and expire. Pickers take orders from the order store,
check availability, walk the bins to pick units and hand orders to packing
stations. Packers stationed at a station pack and ship orders. Inbound
deliveries land in a parking area with a weight capacity. Stowers carry parked
units into the bins. A shift manager rotates shift labels and sends crews to
work. The facility keeps counters for:

- shipped, cancelled and discarded orders;
- gross profit;
- lost-sales penalty;
- delivery fees;
- wages;
- a tracker of the units held.

Each piece of the simulation that runs between two waits is atomic with respect
to all other tasks. Each such piece is one method here, over the state it
updates:

- the order (`Orders.CustomerOrder`);
- the bins (`Storage.InventoryStorage`);
- the facility (`Facility.FulfillmentCenter`);
- a worker's shift (`Facility.WorkerShift`).

Pure rules are functions, and their properties are lemmas:

- pricing;
- availability checks;
- pickup paths and times;
- hop rule;
- shift rotation;
- weekly totals;
- inbound capping;
- max-work product choice;
- station choice.

The Oct 18 revision is the primary one. Where an earlier revision behaves
differently, the model has either a separate member (suffix `Early` or
`Simple`) or a `Schedules.Revision` parameter.

Modelling conventions:

- **Weights** are in half-pounds, so all arithmetic is on naturals:
  - tshirt 1, hoodie 2, sweatpants 2, sneakers 3;
  - parking capacity 100000 (50000 lb);
  - stower load 24 (12 lb).
- **Random choices** become oracle parameters:
  - `randint`/`random.choice` tie-breaks become an index `pick` into the list of candidates;
  - the random walk of a random-policy picker becomes a sequence of `Draw`s.
- **Blocking requests**: a blocking `get` on a container becomes a precondition that the level suffices.
- **Current time**: passed in as `now`.

## Model

| member | source | states |
|---|---|---|
| Products.WeightOf | ofc_simulation_10_18_inbound_optimized.py:666-670 | weight of a per-product record is the sum of quantity × unit weight (1, 2, 2, 3 half-pounds), between 1× and 3× the unit count |
| Products.WeightedPlus | ofc_simulation_10_18_inbound_optimized.py:93-98 | a priced sum over products is additive in the quantities |
| Products.WeightedMonotone | ofc_simulation_10_18_inbound_optimized.py:111-116 | a priced sum over products is monotone in the quantities |
| Orders.CustomerOrder.constructor | ofc_simulation_10_18_inbound_optimized.py:50-80 | a new order has nothing allocated, status UNPROCESSED and no arrival time |
| Orders.CustomerOrder.LostSalesPenalty | ofc_simulation_10_18_inbound_optimized.py:93-98 | penalty = Σ requested × unit penalty (1, 6, 6, 10); reads only requested quantities, so it ignores allocation and status |
| Orders.CustomerOrder.GrossProfit | ofc_simulation_10_18_inbound_optimized.py:111-116 | profit = Σ requested × unit profit (4, 10, 10, 20); ignores allocation and status |
| Orders.CustomerOrder.Outstanding | ofc_simulation_10_18_inbound_optimized.py:126-131 | allocation plus outstanding is the request, and nothing is outstanding exactly when check_if_filled holds |
| Storage.DesignatedLayout | ofc_simulation_10_18_inbound_optimized.py:263-282 | each product's whole initial stock sits in its own bin and nowhere else |
| Storage.RandomLayout | ofc_simulation_10_18_inbound_optimized.py:412-436 | bins 1-3 get ⌊q/4⌋ of each product, bin 4 gets ⌊q/4⌋ + q mod 4, and the four bins sum to q |
| Storage.SharesSum | ofc_simulation_10_18_inbound_optimized.py:585-604 | the four random shares of an amount add up to the amount |
| Storage.DesignatedCheckMeaning | ofc_simulation_10_18_inbound_optimized.py:294-302 | the designated check passes iff every product's own bin holds at least the requested quantity |
| Storage.RandomCheckMeaning | ofc_simulation_10_18_inbound_optimized.py:448-464 | the random check passes iff each request is at most 2·bin1 + bin3 + bin4 (bin 1 counted twice, as written) |
| Storage.RandomCheckIgnoresBin2 | ofc_simulation_9_28.py:148-166 | the random check's answer does not depend on bin 2 |
| Storage.DesignatedPath | ofc_simulation_10_18_inbound_optimized.py:316-336 | the designated path is strictly ascending within 1..4, and visits a product's bin iff that product is requested; it is empty iff nothing is requested |
| Storage.DesignatedPickupTime | ofc_simulation_10_18_inbound_optimized.py:338-352 | 240 + 10·Σqty + 60·(last − first) lies between 240 + 10·Σqty and 420 + 10·Σqty, and equals the lower bound iff one bin is visited |
| Storage.Hop | ofc_simulation_10_18_inbound_optimized.py:542-547 | from bin 1 go to 2, from 4 go to 3, from an interior bin to a neighbour or stay; the result is always a bin |
| Storage.HopReachesNeighbours | ofc_simulation_10_18_inbound_optimized.py:545-547 | at an interior bin all three outcomes of the inclusive draw, staying included, are reachable |
| Storage.RandomPickupTime | ofc_simulation_10_18_inbound_optimized.py:553-565 | 240 + 10·Σqty + 60·moves is at least 240 + 10·Σqty once a bin was visited |
| Storage.Take | ofc_simulation_10_18_inbound_optimized.py:496-529 | a visit takes, per product, min(level, outstanding): never more than the bin holds or the order lacks |
| Storage.CoveredAndSufficientFills | ofc_simulation_10_18_inbound_optimized.py:488-539 | when every bin is empty of what the order still lacks and the stock sufficed at the start, the order is filled |
| Storage.Walk | ofc_simulation_10_18_inbound_optimized.py:488-550 | the walk visits a bin only while the order is unfilled and draws remain: allocation grows but stays within the request, bins + allocation are conserved per product, and the walk ends before its draws run out only with the order filled |
| Storage.WalkStopsAtFirstFill | ofc_simulation_10_18_inbound_optimized.py:488-489 | every visit of the walk is made while the order is still unfilled: the walk cut before visit i has the same first i visits and leaves the order unfilled |
| Storage.WalkPath | ofc_simulation_10_18_inbound_optimized.py:481-547 | the walk starts at the drawn start bin, stays within bins 1..4, and each next visit is the hop rule applied to the corresponding draw |
| Storage.WalkEmptiesVisited | ofc_simulation_10_18_inbound_optimized.py:496-529 | the walk only lowers bin levels, and every bin it visited holds none of a product the order still lacks |
| Storage.ShortOrderWalksForever | ofc_simulation_10_18_inbound_optimized.py:448-539 | as written: one tshirt in bin 1 passes the check for two tshirts, and no walk from any start fills that order; every draw is used up |
| Storage.RandomCheckAllBinsMeaning | ofc_simulation_10_18_inbound_optimized.py:448-464 | corrected check: passes iff the four bins together hold enough of every product |
| Storage.RandomCheckAllBinsWalkFills | ofc_simulation_10_18_inbound_optimized.py:488-539 | corrected check: a walk from an empty allocation that has visited all four bins has filled the order |
| Storage.TakeDesignated | ofc_simulation_10_18_inbound_optimized.py:321-336 | a designated pickup lowers each product's own bin by the request, touches nothing else, and lowers each product's total by exactly its request |
| Storage.InventoryStorage.constructor | ofc_simulation_10_18_inbound_optimized.py:404-436 | storage starts in the designated or random layout of the initial stock |
| Storage.InventoryStorage.PickDesignatedProducts | ofc_simulation_10_18_inbound_optimized.py:321-336 | the four product blocks allocate (if asked) and take each request from its own bin, and build the designated path |
| Storage.InventoryStorage.PickupDesignated | ofc_simulation_10_18_inbound_optimized.py:304-352 | after a checked pickup from zero allocation, allocation equals the request, bins + allocation are conserved per product, and the path and time are the designated ones |
| Storage.InventoryStorage.PickupSimple | ofc_simulation_9_28.py:89-128 | earliest pickup: same bins, path and time, nothing recorded as allocated, status FILLED unconditionally |
| Storage.InventoryStorage.AllocateFromLevel | ofc_simulation_10_18_inbound_optimized.py:496-502 | one product's allocation grows by min(level, outstanding) |
| Storage.InventoryStorage.PickFromBin | ofc_simulation_10_18_inbound_optimized.py:490-539 | one visit allocates Take(bin, outstanding) and removes exactly that from the bin; allocation stays within the request |
| Storage.InventoryStorage.VisitBin | ofc_simulation_10_18_inbound_optimized.py:494-529 | one visit never lowers the allocation, conserves bins plus allocation per product, and leaves every visited bin without any product the order still lacks |
| Storage.InventoryStorage.WalkBins | ofc_simulation_10_18_inbound_optimized.py:488-550 | the while-not-filled loop makes exactly the visits of Walk and leaves its bins and allocation |
| Storage.InventoryStorage.PickupRandom | ofc_simulation_10_18_inbound_optimized.py:478-565 | visits, bins and allocation are those of Walk, so the walk stops at the first visit that fills the order (or when the draws run out); it follows the hop rule from the start bin; bins + allocation are conserved; visited bins are emptied of what is still lacking; insufficient stock never fills; time is 240 + 10·Σqty + 60·(visits − 1) |
| Storage.InventoryStorage.FinishPickup | ofc_simulation_10_18_inbound_optimized.py:567-570 | after the pickup time the order is FILLED unless it was cancelled meanwhile |
| Storage.InventoryStorage.PutUnits | ofc_simulation_10_18_inbound_optimized.py:376-390 | the per-unit loop adds exactly n units to one bin in 10·n seconds |
| Storage.InventoryStorage.StowDesignated | ofc_simulation_10_15.py:347-382 | designated stow adds exactly `amount` to the product's own bin, nothing else, in 240 + 10·amount seconds |
| Storage.InventoryStorage.StowRandom | ofc_simulation_10_18_inbound_optimized.py:585-621 | random stow adds the shares ⌊a/4⌋, ⌊a/4⌋, ⌊a/4⌋, ⌊a/4⌋ + a mod 4 to bins 1-4, exactly `a` in all, in 420 + 10·a seconds |
| Schedules.NextShift | ofc_simulation_10_5.py:976-982 | the rotation always changes the label |
| Schedules.NextShiftPeriod | ofc_simulation_10_18_inbound_optimized.py:1251-1257 | morning → afternoon → evening → morning has period 3 and no shorter one |
| Schedules.FirstFlip | ofc_simulation_10_5.py:695 | starting from 'evening' the first change yields 'morning'; the earliest revision starts from 'morning' and yields 'afternoon' |
| Schedules.SpawnCrew | ofc_simulation_10_18_inbound_optimized.py:1260-1274 | the crew is started as pickers, then stowers, then packers, in the roster's numbers; Oct 15 starts no stowers, the earliest revision only pickers |
| Schedules.WeeklyTotals | ofc_simulation_10_5.py:643-660 | the weekly totals are the per-product sums of the daily entries |
| Schedules.SumQuadsAppend | ofc_simulation_10_15.py:684-700 | summing daily entries is additive over concatenation |
| Schedules.SumQuadsOfCopies | ofc_simulation_10_5.py:634-641 | n identical days sum to n times the day (seven days of 1000 give 7000 of each) |
| Schedules.BuildWeeklySchedule | ofc_simulation_10_18_inbound_optimized.py:692-707 | for every week 1..52 the weekly entry is the sum of that week's daily entries |
| Schedules.AllowedUnits | ofc_simulation_10_18_inbound_optimized.py:1150-1154 | the per-product cap is the largest unit count whose weight fits into the allowed weight |
| Schedules.CapShipment | ofc_simulation_10_18_inbound_optimized.py:1128-1154 | a delivery is capped iff its weight exceeds the room left; a capped product gets min(scheduled, units fitting ⌊W/4⌋); nothing exceeds the schedule |
| Schedules.CapShipmentWeight | ofc_simulation_10_18_inbound_optimized.py:1146-1154 | a capped delivery never weighs more than the scheduled one |
| Schedules.CapShipmentCanOverfill | ofc_simulation_10_18_inbound_optimized.py:1128-1154 | capping by a quarter of the shipment weight can still push parking over its capacity: full parking and 8 scheduled tshirts give 2 tshirts received |
| Schedules.CapShipmentAsWritten | ofc_simulation_10_15.py:1030-1053 | as written: hoodie, sweatpants and sneakers are capped by the capped tshirt count |
| Schedules.CapShipmentAsWrittenInventsUnits | ofc_simulation_10_5.py:884-888 | as written, a capped tshirt-only delivery brings in unscheduled hoodies and sweatpants |
| Facility.MaxWork | ofc_simulation_10_15.py:207-214 | the maximum of level × unit weight over the products is attained and is an upper bound |
| Facility.MaxWorkCandidates | ofc_simulation_10_15.py:215-217 | candidates are exactly the products attaining the maximum |
| Facility.MaxWorkProductType | ofc_simulation_10_15.py:200-225 | 'None' iff parking is empty; otherwise the chosen product has maximal work and something parked |
| Facility.MaxWorkAnyCandidate | ofc_simulation_10_18_inbound_optimized.py:239-243 | every product with maximal work can be chosen by some oracle value |
| Facility.MaxStowAmount | ofc_simulation_10_18_inbound_optimized.py:1512 | the stower carries ⌊12 lb / unit weight⌋ units: the most whose weight fits in 12 lb |
| Facility.MinOf | ofc_simulation_10_18_inbound_optimized.py:867 | the minimum queue length is attained and bounds all queue lengths |
| Facility.StationsWith | ofc_simulation_10_18_inbound_optimized.py:870-874 | the candidate list holds exactly the stations with the given queue length, in ascending order |
| Facility.FirstShortestQueue | ofc_simulation_9_28.py:201-214 | the deterministic choice is the first of the shortest-queue candidates |
| Facility.SumLengthsZero | ofc_simulation_10_18_inbound_optimized.py:883-892 | the total packing queue is zero iff every station queue is empty |
| Facility.FirstFree | ofc_simulation_10_18_inbound_optimized.py:1412-1424 | the first free station is free, every earlier one is held, and 0 means all are held |
| Facility.LastFree | ofc_simulation_10_5.py:1052-1061 | the last free station is free, every later one is held, and 0 means all are held |
| Facility.ClaimFirstThenRelease | ofc_simulation_10_18_inbound_optimized.py:1368-1372 | taking the first free station and releasing it at shift end restores the slots |
| Facility.ClaimAllThenReleaseLeaks | ofc_simulation_10_5.py:1035-1038 | claiming every free station and releasing only the last leaves a station held by nobody |
| Facility.PackingServiceEarly | ofc_simulation_9_28.py:444-455 | pack time 30 + 10·Σrequested; the order ends SHIPPED |
| Facility.ExpireOrderEarly | ofc_simulation_9_28.py:246-252 | an unshipped order is cancelled after expiry and nothing is booked |
| Facility.WorkerShift.constructor | ofc_simulation_10_18_inbound_optimized.py:1298 | a shift ends shift_length after it starts; the worker is working and unstationed |
| Facility.FulfillmentCenter.constructor | ofc_simulation_10_18_inbound_optimized.py:641-837 | initial stock laid out in storage, empty parking, queues and store, free stations, zero counters, label 'evening' (earliest: 'morning'), tracker at the initial stock (Oct 5: zero) |
| Facility.FulfillmentCenter.RemoveFromInventoryTracker | ofc_simulation_10_18_inbound_optimized.py:840-855 | the tracker drops by exactly the order's allocation |
| Facility.FulfillmentCenter.GetOptimalPackingStationQueue | ofc_simulation_10_15.py:854-878 | the chosen station's queue is the shortest, and the choice is the oracle's pick among all shortest queues |
| Facility.FulfillmentCenter.GetOptimalPackingStationEarly | ofc_simulation_9_28.py:201-214 | strict-< scan returns a shortest queue, shorter than every queue before it, i.e. the lowest-numbered shortest |
| Facility.FulfillmentCenter.GetTotalPackingQueue | ofc_simulation_10_18_inbound_optimized.py:883-892 | total is the sum of queue lengths, zero iff all queues are empty |
| Facility.FulfillmentCenter.ReceiveNextOrder | ofc_simulation_10_5.py:924-936 | the first source order is marked ARRIVED at max(arrival, now) and appended to the store |
| Facility.FulfillmentCenter.ExpireOrder | ofc_simulation_10_18_inbound_optimized.py:1216-1228 | any unshipped order, a discarded one included, becomes CANCELLED; the cancel counter grows by one, its penalty is booked again and its allocation leaves the tracker |
| Facility.FulfillmentCenter.ShiftChange | ofc_simulation_10_18_inbound_optimized.py:1251-1274 | the label rotates and the new crew is started |
| Facility.FulfillmentCenter.EndShiftIfDue | ofc_simulation_10_5.py:1026-1041 | a worker stops exactly when now ≥ end, with overtime now − end; one base shift and the overtime are booked once; a stationed packer's slot is freed |
| Facility.FulfillmentCenter.AcquireStation | ofc_simulation_10_18_inbound_optimized.py:1412-1424 | an unstationed packer takes the first free station and only that one |
| Facility.FulfillmentCenter.AcquireStationAllFree | ofc_simulation_10_5.py:1052-1061 | without `break` a packer claims every free station and is stationed at the last |
| Facility.FulfillmentCenter.PickerTakeOrder | ofc_simulation_10_15.py:1365-1396 | empty store idles; a cancelled order is dropped unchanged; an order failing the check is DISCARDED with counter +1, its penalty booked and the tracker updated; otherwise it goes to pickup |
| Facility.FulfillmentCenter.PickerHandOff | ofc_simulation_10_15.py:1374-1380 | after the pickup, a non-cancelled order is WAITING_TO_PACK and appended to exactly one shortest queue |
| Facility.FulfillmentCenter.PickerHandOffEarly | ofc_simulation_9_28.py:316-342 | the earliest picker sets WAITING_TO_PACK unconditionally and appends to the lowest-numbered shortest queue |
| Facility.FulfillmentCenter.PackerTakeOrder | ofc_simulation_10_15.py:1439-1470 | the head of the station queue is popped; a WAITING_TO_PACK order takes 30 + 10·Σallocated; any other is skipped with a 1 s idle (none in Oct 18); an empty queue idles 1 s |
| Facility.FulfillmentCenter.ShipOrder | ofc_simulation_10_18_inbound_optimized.py:1556-1566 | the order becomes SHIPPED, shipped +1, profit grows by the order's profit and the allocation leaves the tracker |
| Facility.FulfillmentCenter.StowerStep | ofc_simulation_10_15.py:1403-1429 | the max-work product's batch min(⌊12/w⌋, level) leaves parking and enters the bins exactly; logged weight is the batch weight (Oct 18) or the unit count (earlier); idle is 1 s |
| Facility.FulfillmentCenter.ReceiveShipment | ofc_simulation_10_18_inbound_optimized.py:1118-1174 | the fee is booked, booked again if the delivery was capped, and the capped delivery enters parking and the tracker |
| Facility.FulfillmentCenter.PutInbound | ofc_simulation_10_18_inbound_optimized.py:1157-1174 | parking and tracker each grow by exactly the received quantities |

## Left out

- The simpy event loop, process scheduling and the wake-up semantics of containers, stores and resources. Each yield-free segment is one atomic method. A blocking `get` is a precondition that the level suffices.
- Interleaving inside a pickup, a stow or a delivery. Other tasks can run between their individual `get`s and `put`s; the model runs each of these operations as a whole.
- The picker of the Sep 28 revision uses a non-blocking store `get`. When the store is empty, that pending request later takes an order silently. This is not modelled. Its trailing placeholder wait of 10 s is also not modelled.
- Storage.InventoryStorage.PickupRandom: the source keeps drawing until the order is filled, even forever. The model follows a finite sequence of draws and reports whether the order was filled when they ran out; when it was, the walk stopped at the first visit that filled it.
- Storage.InventoryStorage.PickupSimple: requires at least one requested unit. On an all-zero order the source raises an IndexError at `bin_path[0]` (ofc_simulation_9_28.py:114), and the Sep 28 order list draws every quantity with `randint(0, 10)` (ofc_simulation_9_28.py:486-489), so such orders do occur there. The crash of the picker process is not modelled.
- Storage.InventoryStorage.PickupDesignated: requires at least one requested unit, for the same `bin_path[0]` IndexError (ofc_simulation_10_18_inbound_optimized.py:338). The Oct 18 order generator drops all-zero orders (ofc_simulation_10_18_inbound_optimized.py:1652-1655), so there it cannot happen.
- Storage.DesignatedPickupTime: defined only for orders with at least one requested unit, for the same reason.
- Facility.FulfillmentCenter.RemoveFromInventoryTracker: it requires the tracker to hold the allocation. In the Oct 5 revision the tracker starts at zero, so the source's requests would stay pending instead.
- Holding cost, wages and the final profit settlement are floating-point accumulations. Wages are kept only as a count of base shifts booked and the seconds of overtime.
- Date and week lookups. Rosters and delivery schedules are passed in as data. The choice of which schedule applies (including the Oct 15 and Oct 5 docks fixing one day's schedule before their loop) is outside the model.
- Logging, data frames, file output and printing.
- Order generation (statistical order streams).
- The random number generator: ties, start bins and hops are oracle parameters.
- The idle second a packer waits when no station is free, and the worker loop that repeats the steps.

## Findings

| source | as written | input that shows it | evidently intended | confidence | as-written member | corrected member |
|---|---|---|---|---|---|---|
| ofc_simulation_10_15.py:1051-1053 | an over-capacity delivery caps hoodies, sweatpants and sneakers with `min(inbound_tshirt, …)`; the same lines are at ofc_simulation_10_5.py:886-888 | parking already at capacity, schedule of 8 tshirts and nothing else: 2 tshirts, 1 hoodie and 1 pair of sweatpants are received | each product capped by its own scheduled quantity, as in the Oct 18 revision | high; not executed | Schedules.CapShipmentAsWrittenInventsUnits | Schedules.CapShipment |
| ofc_simulation_10_5.py:1052-1061 | the station search has no `break`, so one packer claims every free station; at shift end only the last is released | two free stations: the packer claims both, is stationed at 2, and on leaving frees only station 2, so station 1 stays held with nobody at it | stop at the first free station, as the later revisions do | high; not executed | Facility.ClaimAllThenReleaseLeaks | Facility.ClaimFirstThenRelease |
| ofc_simulation_10_18_inbound_optimized.py:448-539 | the random check compares each request with bin1 + bin1 + bin3 + bin4 and never reads bin 2, and the pickup loop takes nothing and does not wait when the visited bin is empty | one tshirt in bin 1, none elsewhere, an order for 2 tshirts: the check passes, and the picker hops between bins forever without simulated time advancing | each request compared with the sum of all four bins, so a passing check means the stock suffices | high; not executed | Storage.ShortOrderWalksForever | Storage.RandomCheckAllBinsWalkFills |

The facility's `Storage.InventoryStorage.CheckInventory` keeps the random check as written, so the model behaves as the source does. `Storage.RandomCheckAllBins` is the corrected check, and the lemmas about it show what the source evidently intended.
