/**
 * Calendar-side rules of the facility: the four revisions, shift labels and
 * their rotation, the crews sent to work at a shift change, weekly delivery
 * totals, and how an inbound delivery is cut down when inbound parking is
 * short of room.
 */
module Schedules {
  import opened Products

  /** The four revisions of the simulation, named by date. */
  datatype Revision = Sep28 | Oct5 | Oct15 | Oct18

  /** Length of a shift in seconds (8 hours); the earliest revision uses 100 s. */
  function ShiftLength(rev: Revision): nat
  {
    if rev == Sep28 then 100 else 8 * 60 * 60
  }

  /** Starting stock; the Oct 15 revision stocks 9999999 of everything. */
  function InitialQtys(rev: Revision): Quad
  {
    if rev == Oct15 then Quad(9999999, 9999999, 9999999, 9999999) else INITIAL_QTYS
  }

  // ---------------------------------------------------------------------------
  // Shifts

  datatype Shift = Morning | Afternoon | Evening

  /** The label the shift manager moves to at a shift change. */
  function NextShift(s: Shift): (t: Shift)
    ensures t != s
  {
    match s
    case Morning => Afternoon
    case Afternoon => Evening
    case Evening => Morning
  }

  /** The rotation visits all three labels and has period 3. */
  lemma {:induction false} NextShiftPeriod(s: Shift)
    ensures NextShift(NextShift(NextShift(s))) == s
    ensures NextShift(NextShift(s)) != s
  {
    match s
    case Morning =>
    case Afternoon =>
    case Evening =>
  }

  /** Label the facility starts with: 'morning' in the earliest revision, 'evening' later. */
  function FirstShift(rev: Revision): Shift
  {
    if rev == Sep28 then Morning else Evening
  }

  /**
   * From 'evening' the first shift change yields 'morning'; from 'morning'
   * (earliest revision) it yields 'afternoon'.
   */
  lemma FirstFlip(rev: Revision)
    ensures NextShift(FirstShift(rev)) == if rev == Sep28 then Afternoon else Morning
  {
  }

  datatype Role = Picker | Stower | Packer

  /** Head counts of one shift of the roster. */
  datatype Crew = Crew(numPickers: nat, numStowers: nat, numPackers: nat)

  function Repeat(r: Role, n: nat): (s: seq<Role>)
    ensures |s| == n && forall i :: 0 <= i < n ==> s[i] == r
  {
    if n == 0 then [] else Repeat(r, n - 1) + [r]
  }

  /**
   * Roles of the workers sent to work at a shift change, in the order they
   * are started: pickers, then stowers, then packers. The Oct 15 revision
   * starts no stowers and the earliest revision starts only pickers.
   */
  function CrewRoles(crew: Crew, rev: Revision): seq<Role>
  {
    Repeat(Picker, crew.numPickers)
    + Repeat(Stower, if rev == Oct15 || rev == Sep28 then 0 else crew.numStowers)
    + Repeat(Packer, if rev == Sep28 then 0 else crew.numPackers)
  }

  /** The shift manager's three spawning loops. */
  method SpawnCrew(crew: Crew, rev: Revision) returns (roles: seq<Role>)
    ensures roles == CrewRoles(crew, rev)
    ensures |roles| == crew.numPickers + (if rev == Oct15 || rev == Sep28 then 0 else crew.numStowers)
                       + (if rev == Sep28 then 0 else crew.numPackers)
  {
    roles := [];
    for i := 1 to crew.numPickers + 1
      invariant roles == Repeat(Picker, i - 1)
    {
      roles := roles + [Picker];
    }
    if rev != Oct15 && rev != Sep28 {
      for i := 1 to crew.numStowers + 1
        invariant roles == Repeat(Picker, crew.numPickers) + Repeat(Stower, i - 1)
      {
        roles := roles + [Stower];
      }
    }
    ghost var stowers := roles;
    if rev != Sep28 {
      for i := 1 to crew.numPackers + 1
        invariant roles == stowers + Repeat(Packer, i - 1)
      {
        roles := roles + [Packer];
      }
    }
  }

  // ---------------------------------------------------------------------------
  // Delivery schedules

  /** Per-product sum of a list of daily delivery quantities. */
  function SumQuads(days: seq<Quad>): Quad
  {
    if days == [] then Zero else SumQuads(days[..|days| - 1]).Plus(days[|days| - 1])
  }

  /** Weekly totals: each product's quantity summed over the daily entries. */
  method WeeklyTotals(days: seq<Quad>) returns (weekly: Quad)
    ensures weekly == SumQuads(days)
  {
    weekly := Quad(0, 0, 0, 0);
    for d := 0 to |days|
      invariant weekly == SumQuads(days[..d])
    {
      assert days[..d + 1][..d] == days[..d];
      weekly := weekly.(tshirt := weekly.tshirt + days[d].tshirt);
      weekly := weekly.(hoodie := weekly.hoodie + days[d].hoodie);
      weekly := weekly.(spants := weekly.spants + days[d].spants);
      weekly := weekly.(sneaks := weekly.sneaks + days[d].sneaks);
    }
    assert days[..|days|] == days;
  }

  /** Summing daily lists is additive over concatenation. */
  lemma {:induction false} SumQuadsAppend(a: seq<Quad>, b: seq<Quad>)
    ensures SumQuads(a + b) == SumQuads(a).Plus(SumQuads(b))
    decreases |b|
  {
    if b == [] {
      assert a + b == a;
      var x := SumQuads(a);
      assert x.Plus(Zero) == Quad(x.tshirt, x.hoodie, x.spants, x.sneaks);
    } else {
      var b', z := b[..|b| - 1], b[|b| - 1];
      var ab := a + b;
      assert ab[..|ab| - 1] == a + b' && ab[|ab| - 1] == z;
      assert SumQuads(ab) == SumQuads(a + b').Plus(z);
      SumQuadsAppend(a, b');
      var x, y := SumQuads(a), SumQuads(b');
      assert SumQuads(b) == y.Plus(z);
      PlusAssociative(x, y, z);
    }
  }

  lemma PlusAssociative(x: Quad, y: Quad, z: Quad)
    ensures x.Plus(y).Plus(z) == x.Plus(y.Plus(z))
  {
  }

  /** Seven identical days of `day` add up to seven times `day`. */
  lemma {:induction false} SumQuadsOfCopies(day: Quad, n: nat)
    ensures SumQuads(seq(n, _ => day)) == Quad(n * day.tshirt, n * day.hoodie, n * day.spants, n * day.sneaks)
  {
    if n > 0 {
      var s := seq(n, _ => day);
      assert s[..n - 1] == seq(n - 1, _ => day);
      SumQuadsOfCopies(day, n - 1);
      var m := n - 1;
      MulSucc(m, day.tshirt);
      MulSucc(m, day.hoodie);
      MulSucc(m, day.spants);
      MulSucc(m, day.sneaks);
    }
  }

  lemma MulSucc(m: nat, x: nat)
    ensures m * x + x == (m + 1) * x
  {
  }

  /**
   * Week-by-week totals for weeks 1..52: entry `i - 1` is the sum of the
   * daily entries of week `i`.
   */
  method BuildWeeklySchedule(daily: seq<seq<Quad>>) returns (weekly: seq<Quad>)
    requires |daily| >= 52
    ensures |weekly| == 52
    ensures forall i :: 0 <= i < 52 ==> weekly[i] == SumQuads(daily[i])
  {
    weekly := [];
    for i := 1 to 53
      invariant |weekly| == i - 1
      invariant forall k :: 0 <= k < i - 1 ==> weekly[k] == SumQuads(daily[k])
    {
      var total := WeeklyTotals(daily[i - 1]);
      weekly := weekly + [total];
    }
  }

  // ---------------------------------------------------------------------------
  // Inbound parking capacity

  datatype Frequency = Daily | Weekly

  /** Fee for one delivery (and for sending one back). */
  function DeliveryFee(freq: Frequency): nat
  {
    match freq
    case Daily => 10000
    case Weekly => 50000
  }

  /** Capacity of inbound parking: 50000 lb, in half-pounds. */
  const PARKING_CAPACITY: nat := 100000

  /** What is received of a scheduled delivery, and whether part of it was returned. */
  datatype Receipt = Receipt(inbound: Quad, returned: bool)

  /** Room left in inbound parking, in half-pounds; negative once parking is over capacity. */
  function RemainingCapacity(parking: Quad): int
  {
    PARKING_CAPACITY - WeightOf(parking)
  }

  /**
   * Per-product cap on an over-capacity delivery: the units of `p` that fit
   * into a quarter of the shipment's weight in pounds, rounded down. Here
   * `allowedPounds` is that quarter and weights are in half-pounds.
   */
  function AllowedUnits(allowedPounds: nat, p: Product): (n: nat)
    ensures n * Unit(Weight, p) <= 2 * allowedPounds < (n + 1) * Unit(Weight, p)
  {
    (2 * allowedPounds) / Unit(Weight, p)
  }

  /**
   * Capping of the Oct 18 revision. A delivery heavier than the room left
   * is returned in part: each product is cut to the lesser of its scheduled
   * quantity and the units that fit into a quarter of the shipment weight.
   * A delivery that fits is received whole.
   */
  function CapShipment(parking: Quad, schedule: Quad): (r: Receipt)
    ensures r.returned <==> WeightOf(schedule) > RemainingCapacity(parking)
    ensures !r.returned ==> r.inbound == schedule
    ensures r.inbound.Le(schedule)
    ensures r.returned ==> forall p :: r.inbound.Get(p) == Min(schedule.Get(p), AllowedUnits(WeightOf(schedule) / 8, p))
  {
    var remaining := RemainingCapacity(parking);
    var shipmentWeight := WeightOf(schedule);
    if shipmentWeight > remaining then
      var allowed := shipmentWeight / 8;
      Receipt(Quad(Min(schedule.tshirt, AllowedUnits(allowed, Tshirt)),
                   Min(schedule.hoodie, AllowedUnits(allowed, Hoodie)),
                   Min(schedule.spants, AllowedUnits(allowed, Spants)),
                   Min(schedule.sneaks, AllowedUnits(allowed, Sneaks))), true)
    else
      Receipt(schedule, false)
  }

  /**
   * A capped delivery never carries more of a product than a quarter of
   * the shipment weight allows, so never more than the scheduled weight.
   */
  lemma CapShipmentWeight(parking: Quad, schedule: Quad)
    ensures WeightOf(CapShipment(parking, schedule).inbound) <= WeightOf(schedule)
  {
    var r := CapShipment(parking, schedule);
    WeightedMonotone(r.inbound, schedule, Weight, AllProducts);
  }

  /**
   * The cap is taken from the shipment's weight, not from the room left, so
   * a capped delivery can still push parking over its capacity.
   */
  lemma CapShipmentCanOverfill()
    ensures var parking := Quad(PARKING_CAPACITY, 0, 0, 0);
            var r := CapShipment(parking, Quad(8, 0, 0, 0));
            r.returned && r.inbound == Quad(2, 0, 0, 0)
            && WeightOf(parking) + WeightOf(r.inbound) > PARKING_CAPACITY
  {
    assert WeightOf(Quad(PARKING_CAPACITY, 0, 0, 0)) == PARKING_CAPACITY;
    assert WeightOf(Quad(8, 0, 0, 0)) == 8;
    assert AllowedUnits(1, Tshirt) == 2;
  }

  /**
   * Capping as written in the Oct 5 and Oct 15 revisions: hoodies, sweatpants
   * and sneakers are bounded by the already capped tshirt count rather than
   * by their own scheduled quantities.
   */
  function CapShipmentAsWritten(parking: Quad, schedule: Quad): (r: Receipt)
    ensures r.returned <==> WeightOf(schedule) > RemainingCapacity(parking)
    ensures !r.returned ==> r.inbound == schedule
    ensures r.inbound.tshirt <= schedule.tshirt
    ensures r.returned ==> r.inbound.hoodie <= r.inbound.tshirt && r.inbound.spants <= r.inbound.tshirt
                           && r.inbound.sneaks <= r.inbound.tshirt
  {
    var remaining := RemainingCapacity(parking);
    var shipmentWeight := WeightOf(schedule);
    if shipmentWeight > remaining then
      var allowed := shipmentWeight / 8;
      var inboundTshirt := Min(schedule.tshirt, AllowedUnits(allowed, Tshirt));
      Receipt(Quad(inboundTshirt,
                   Min(inboundTshirt, AllowedUnits(allowed, Hoodie)),
                   Min(inboundTshirt, AllowedUnits(allowed, Spants)),
                   Min(inboundTshirt, AllowedUnits(allowed, Sneaks))), true)
    else
      Receipt(schedule, false)
  }

  /**
   * As written, an over-capacity delivery of tshirts alone also brings in
   * hoodies, sweatpants and sneakers that were never scheduled.
   */
  lemma CapShipmentAsWrittenInventsUnits()
    ensures exists parking: Quad, schedule: Quad ::
      !CapShipmentAsWritten(parking, schedule).inbound.Le(schedule)
  {
    var parking, schedule := Quad(PARKING_CAPACITY, 0, 0, 0), Quad(8, 0, 0, 0);
    assert WeightOf(parking) == PARKING_CAPACITY && WeightOf(schedule) == 8;
    assert AllowedUnits(1, Tshirt) == 2 && AllowedUnits(1, Hoodie) == 1;
    assert AllowedUnits(1, Spants) == 1 && AllowedUnits(1, Sneaks) == 0;
    var r := CapShipmentAsWritten(parking, schedule);
    assert r.inbound == Quad(2, 1, 1, 0);
    assert r.inbound.Get(Hoodie) > schedule.Get(Hoodie);
  }
}
