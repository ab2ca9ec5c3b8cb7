/**
 * Inventory storage: four bins at locations 1..4, each holding a level per
 * product. Two policies share the layout. Under the designated policy bin
 * `p.Location()` is the only bin that holds product `p`. Under the random
 * policy every product is spread over all four bins, one quarter each, with
 * the remainder of the division going to bin 4.
 */
module Storage {
  import opened Products
  import opened Orders

  datatype Policy = Designated | Random

  /** Levels of the four bins; entry `loc - 1` is the bin at location `loc`. */
  type Bins = b: seq<Quad> | |b| == 4 witness [Zero, Zero, Zero, Zero]

  function Bin(bins: Bins, loc: nat): Quad
    requires 1 <= loc <= 4
  {
    bins[loc - 1]
  }

  /** Level of product `p` over all four bins. */
  function Column(bins: Bins, p: Product): nat
  {
    bins[0].Get(p) + bins[1].Get(p) + bins[2].Get(p) + bins[3].Get(p)
  }

  // ---------------------------------------------------------------------------
  // Initial layouts

  /** Designated layout: all of product `p` sits in bin `p.Location()`. */
  function DesignatedLayout(initial: Quad): (bins: Bins)
    ensures forall loc, p :: 1 <= loc <= 4 ==>
      Bin(bins, loc).Get(p) == (if loc == p.Location() then initial.Get(p) else 0)
    ensures forall p :: Column(bins, p) == initial.Get(p)
  {
    [Quad(initial.tshirt, 0, 0, 0), Quad(0, initial.hoodie, 0, 0),
     Quad(0, 0, initial.spants, 0), Quad(0, 0, 0, initial.sneaks)]
  }

  /** The part of `amount` units that the random policy puts in bin `loc`. */
  function RandomShare(amount: nat, loc: nat): nat
  {
    amount / 4 + (if loc == 4 then amount % 4 else 0)
  }

  /** The four random shares add up to the amount that was split. */
  lemma SharesSum(amount: nat)
    ensures RandomShare(amount, 1) + RandomShare(amount, 2) + RandomShare(amount, 3)
          + RandomShare(amount, 4) == amount
  {
  }

  function ShareOf(q: Quad, loc: nat): (r: Quad)
    ensures forall p :: r.Get(p) == RandomShare(q.Get(p), loc)
  {
    Quad(RandomShare(q.tshirt, loc), RandomShare(q.hoodie, loc),
         RandomShare(q.spants, loc), RandomShare(q.sneaks, loc))
  }

  /** Random layout: quarters in bins 1-3, quarter plus remainder in bin 4; nothing is lost. */
  function RandomLayout(initial: Quad): (bins: Bins)
    ensures forall loc, p :: 1 <= loc <= 4 ==> Bin(bins, loc).Get(p) == RandomShare(initial.Get(p), loc)
    ensures forall p :: Column(bins, p) == initial.Get(p)
  {
    var b := [ShareOf(initial, 1), ShareOf(initial, 2), ShareOf(initial, 3), ShareOf(initial, 4)];
    forall p ensures Column(b, p) == initial.Get(p) {
      SharesSum(initial.Get(p));
    }
    b
  }

  // ---------------------------------------------------------------------------
  // Availability checks

  /** Designated check: each product's own bin holds at least the requested quantity. */
  predicate DesignatedCheck(bins: Bins, qty: Quad)
  {
    if qty.tshirt > bins[0].tshirt then false
    else if qty.hoodie > bins[1].hoodie then false
    else if qty.spants > bins[2].spants then false
    else if qty.sneaks > bins[3].sneaks then false
    else true
  }

  lemma DesignatedCheckMeaning(bins: Bins, qty: Quad)
    ensures DesignatedCheck(bins, qty) <==> forall p :: qty.Get(p) <= Bin(bins, p.Location()).Get(p)
  {
    if !DesignatedCheck(bins, qty) {
      var p :| p in AllProducts && qty.Get(p) > Bin(bins, p.Location()).Get(p);
    }
  }

  /**
   * Random check, as written: the level of bin 1 is counted twice and bin 2
   * is never consulted.
   */
  predicate RandomCheck(bins: Bins, qty: Quad)
  {
    if qty.tshirt > bins[0].tshirt + bins[0].tshirt + bins[2].tshirt + bins[3].tshirt then false
    else if qty.hoodie > bins[0].hoodie + bins[0].hoodie + bins[2].hoodie + bins[3].hoodie then false
    else if qty.spants > bins[0].spants + bins[0].spants + bins[2].spants + bins[3].spants then false
    else if qty.sneaks > bins[0].sneaks + bins[0].sneaks + bins[2].sneaks + bins[3].sneaks then false
    else true
  }

  lemma RandomCheckMeaning(bins: Bins, qty: Quad)
    ensures RandomCheck(bins, qty) <==>
      forall p :: qty.Get(p) <= 2 * Bin(bins, 1).Get(p) + Bin(bins, 3).Get(p) + Bin(bins, 4).Get(p)
  {
    if !RandomCheck(bins, qty) {
      var p :| p in AllProducts &&
        qty.Get(p) > 2 * Bin(bins, 1).Get(p) + Bin(bins, 3).Get(p) + Bin(bins, 4).Get(p);
    }
  }

  /** Whatever bin 2 holds, the random check gives the same answer. */
  lemma RandomCheckIgnoresBin2(bins: Bins, qty: Quad, bin2: Quad)
    ensures RandomCheck(bins[1 := bin2], qty) == RandomCheck(bins, qty)
  {
  }

  // ---------------------------------------------------------------------------
  // Pickup paths and times

  /** Locations a designated pickup visits: the bins of the requested products, in ascending order. */
  function DesignatedPath(qty: Quad): (path: seq<nat>)
    ensures forall i, j :: 0 <= i < j < |path| ==> path[i] < path[j]
    ensures forall loc :: loc in path ==> 1 <= loc <= 4
    ensures forall p: Product :: p.Location() in path <==> qty.Get(p) > 0
    ensures path == [] <==> qty == Zero
  {
    Visit(qty, Tshirt) + Visit(qty, Hoodie) + Visit(qty, Spants) + Visit(qty, Sneaks)
  }

  /** A designated picker stops at the bin of `p` only when the order requests `p`. */
  function Visit(qty: Quad, p: Product): seq<nat>
  {
    if qty.Get(p) > 0 then [p.Location()] else []
  }

  /**
   * Designated pickup time: two 120 s legs to and from the bins, 10 s per
   * unit and 60 s per location between the first and the last bin visited.
   * It is smallest exactly when a single bin is visited.
   */
  function DesignatedPickupTime(qty: Quad): (t: nat)
    requires qty != Zero
    ensures 240 + 10 * qty.Total() <= t <= 420 + 10 * qty.Total()
    ensures t == 240 + 10 * qty.Total() <==> |DesignatedPath(qty)| == 1
  {
    var path := DesignatedPath(qty);
    var first, last := path[0], path[|path| - 1];
    assert |path| > 1 ==> first < last;
    120 + qty.tshirt * 10 + qty.hoodie * 10 + qty.spants * 10 + qty.sneaks * 10
    + (last - first) * 60 + 120
  }

  /**
   * Outcome of the inclusive `randint(t - 1, t + 1)` draw made at an
   * interior bin `t`: the lower neighbour, `t` itself, or the upper neighbour.
   */
  datatype Draw = Lower | Same | Upper

  /** The bin a random-policy picker moves to after visiting `loc`. */
  function Hop(loc: nat, draw: Draw): (next: nat)
    requires 1 <= loc <= 4
    ensures 1 <= next <= 4
    ensures loc == 1 ==> next == 2
    ensures loc == 4 ==> next == 3
    ensures 1 < loc < 4 ==> loc - 1 <= next <= loc + 1
  {
    if loc == 1 then 2
    else if loc == 4 then 3
    else
      var left, right := if loc - 1 < 1 then 1 else loc - 1, if loc + 1 > 4 then 4 else loc + 1;
      match draw
      case Lower => left
      case Same => left + 1
      case Upper => right
  }

  /** At an interior bin every one of the three neighbours, staying put included, can be drawn. */
  lemma HopReachesNeighbours(loc: nat)
    requires 1 < loc < 4
    ensures Hop(loc, Lower) == loc - 1 && Hop(loc, Same) == loc && Hop(loc, Upper) == loc + 1
  {
  }

  /** Random pickup time: 240 s of travel, 10 s per unit and 60 s per move between bins. */
  function RandomPickupTime(qty: Quad, binMoves: int): (t: int)
    requires binMoves >= -1
    ensures t >= 180 + 10 * qty.Total()
    ensures binMoves >= 0 ==> t >= 240 + 10 * qty.Total()
  {
    120 + qty.tshirt * 10 + qty.hoodie * 10 + qty.spants * 10 + qty.sneaks * 10 + binMoves * 60 + 120
  }

  /** Units one visit to a bin takes: for each product, the lesser of its level and what is outstanding. */
  function Take(level: Quad, outstanding: Quad): (t: Quad)
    ensures t.Le(level) && t.Le(outstanding)
    ensures forall p :: t.Get(p) == level.Get(p) || t.Get(p) == outstanding.Get(p)
  {
    Quad(Min(level.tshirt, outstanding.tshirt), Min(level.hoodie, outstanding.hoodie),
         Min(level.spants, outstanding.spants), Min(level.sneaks, outstanding.sneaks))
  }

  /** Bins and order together hold enough of every product to fill the order. */
  predicate Sufficient(bins: Bins, qty: Quad, allocation: Quad)
  {
    forall p :: qty.Get(p) <= Column(bins, p) + allocation.Get(p)
  }

  /**
   * If every bin has been emptied of each product the order still lacks, and
   * bins plus allocation held enough to begin with, the order is filled.
   */
  lemma CoveredAndSufficientFills(before: Bins, was: Quad, bins: Bins, now: Quad, qty: Quad)
    requires now.Le(qty)
    requires forall p :: Column(bins, p) + now.Get(p) == Column(before, p) + was.Get(p)
    requires forall loc, p :: 1 <= loc <= 4 ==> Bin(bins, loc).Get(p) == 0 || now.Get(p) == qty.Get(p)
    requires Sufficient(before, qty, was)
    ensures now == qty
  {
    forall p ensures now.Get(p) == qty.Get(p) {
      ghost var levels := [Bin(bins, 1).Get(p), Bin(bins, 2).Get(p), Bin(bins, 3).Get(p), Bin(bins, 4).Get(p)];
      if now.Get(p) != qty.Get(p) {
        assert false;
      }
    }
    assert now.Get(Tshirt) == qty.Get(Tshirt) && now.Get(Hoodie) == qty.Get(Hoodie);
    assert now.Get(Spants) == qty.Get(Spants) && now.Get(Sneaks) == qty.Get(Sneaks);
  }

  /** Where a random walk ends: the bins visited in order, and the bins and allocation it leaves behind. */
  datatype WalkResult = WalkResult(path: seq<nat>, bins: Bins, alloc: Quad)

  /**
   * Random-policy pickup as a specification: while the order is not filled
   * and draws remain, visit bin `loc`, take what it can give, and hop by the
   * next draw. The walk stops short of its draws only once the order is
   * filled, and it conserves bins plus allocation for every product.
   */
  function Walk(bins: Bins, alloc: Quad, qty: Quad, loc: nat, draws: seq<Draw>): (w: WalkResult)
    requires 1 <= loc <= 4 && alloc.Le(qty)
    ensures alloc.Le(w.alloc) && w.alloc.Le(qty)
    ensures |w.path| <= |draws|
    ensures |w.path| < |draws| ==> w.alloc == qty
    ensures w.path == [] <==> alloc == qty || draws == []
    ensures forall p :: Column(w.bins, p) + w.alloc.Get(p) == Column(bins, p) + alloc.Get(p)
    decreases |draws|
  {
    if alloc == qty || draws == [] then WalkResult([], bins, alloc)
    else
      var taken := Take(Bin(bins, loc), qty.Minus(alloc));
      var rest := Walk(bins[loc - 1 := Bin(bins, loc).Minus(taken)], alloc.Plus(taken), qty, Hop(loc, draws[0]), draws[1..]);
      WalkResult([loc] + rest.path, rest.bins, rest.alloc)
  }

  /** One step of the walk: an unfilled order with draws left visits `loc` first. */
  lemma WalkStep(bins: Bins, alloc: Quad, qty: Quad, loc: nat, draws: seq<Draw>)
    requires 1 <= loc <= 4 && alloc.Le(qty) && alloc != qty && draws != []
    ensures var taken := Take(Bin(bins, loc), qty.Minus(alloc));
      var rest := Walk(bins[loc - 1 := Bin(bins, loc).Minus(taken)], alloc.Plus(taken), qty, Hop(loc, draws[0]), draws[1..]);
      Walk(bins, alloc, qty, loc, draws) == WalkResult([loc] + rest.path, rest.bins, rest.alloc)
  {
  }

  /**
   * The walk visits one more bin only while the order is still unfilled: for
   * every visit `i` of the full walk, the walk cut after `i` draws has the
   * first `i` visits of the full walk and leaves the order unfilled.
   */
  lemma {:induction false} WalkStopsAtFirstFill(bins: Bins, alloc: Quad, qty: Quad, loc: nat, draws: seq<Draw>, i: nat)
    requires 1 <= loc <= 4 && alloc.Le(qty)
    requires i < |Walk(bins, alloc, qty, loc, draws).path|
    ensures Walk(bins, alloc, qty, loc, draws[..i]).path == Walk(bins, alloc, qty, loc, draws).path[..i]
    ensures Walk(bins, alloc, qty, loc, draws[..i]).alloc != qty
    decreases i
  {
    var w := Walk(bins, alloc, qty, loc, draws);
    assert alloc != qty && draws != [];
    if i > 0 {
      var taken := Take(Bin(bins, loc), qty.Minus(alloc));
      var bins', alloc', loc' := bins[loc - 1 := Bin(bins, loc).Minus(taken)], alloc.Plus(taken), Hop(loc, draws[0]);
      assert draws[..i][0] == draws[0];
      assert draws[..i][1..] == draws[1..][..i - 1];
      WalkStopsAtFirstFill(bins', alloc', qty, loc', draws[1..], i - 1);
    }
  }

  /**
   * The walk starts at `loc`, stays within bins 1..4, and moves from each
   * visit to the next by the hop rule applied to the corresponding draw.
   */
  lemma {:induction false} WalkPath(bins: Bins, alloc: Quad, qty: Quad, loc: nat, draws: seq<Draw>)
    requires 1 <= loc <= 4 && alloc.Le(qty)
    ensures var path := Walk(bins, alloc, qty, loc, draws).path;
      (forall i :: 0 <= i < |path| ==> 1 <= path[i] <= 4)
      && (|path| > 0 ==> path[0] == loc)
      && (forall i :: 0 <= i < |path| - 1 ==> path[i + 1] == Hop(path[i], draws[i]))
    decreases |draws|
  {
    if alloc != qty && draws != [] {
      var taken := Take(Bin(bins, loc), qty.Minus(alloc));
      var bins', alloc', loc' := bins[loc - 1 := Bin(bins, loc).Minus(taken)], alloc.Plus(taken), Hop(loc, draws[0]);
      WalkPath(bins', alloc', qty, loc', draws[1..]);
      var rest := Walk(bins', alloc', qty, loc', draws[1..]).path;
      var path := Walk(bins, alloc, qty, loc, draws).path;
      assert path == [loc] + rest;
      forall i | 0 <= i < |path| - 1
        ensures path[i + 1] == Hop(path[i], draws[i])
      {
        if i > 0 {
          assert path[i + 1] == rest[i] && path[i] == rest[i - 1] && draws[i] == draws[1..][i - 1];
        }
      }
    }
  }

  /**
   * The walk only removes units from bins, and leaves every bin it visited
   * without any product the order still lacks.
   */
  lemma {:induction false} WalkEmptiesVisited(bins: Bins, alloc: Quad, qty: Quad, loc: nat, draws: seq<Draw>)
    requires 1 <= loc <= 4 && alloc.Le(qty)
    ensures var w := Walk(bins, alloc, qty, loc, draws);
      (forall l, p :: 1 <= l <= 4 ==> Bin(w.bins, l).Get(p) <= Bin(bins, l).Get(p))
      && (forall l, p :: 1 <= l <= 4 && l in w.path ==> Bin(w.bins, l).Get(p) == 0 || w.alloc.Get(p) == qty.Get(p))
    decreases |draws|
  {
    if alloc != qty && draws != [] {
      var taken := Take(Bin(bins, loc), qty.Minus(alloc));
      var bins', alloc', loc' := bins[loc - 1 := Bin(bins, loc).Minus(taken)], alloc.Plus(taken), Hop(loc, draws[0]);
      WalkEmptiesVisited(bins', alloc', qty, loc', draws[1..]);
      var w := Walk(bins, alloc, qty, loc, draws);
      assert w == Walk(bins', alloc', qty, loc', draws[1..]).(path := [loc] + Walk(bins', alloc', qty, loc', draws[1..]).path);
      forall l, p | 1 <= l <= 4 && l in w.path
        ensures Bin(w.bins, l).Get(p) == 0 || w.alloc.Get(p) == qty.Get(p)
      {
        if l == loc && Bin(w.bins, l).Get(p) != 0 {
          assert Bin(bins', loc).Get(p) == Bin(bins, loc).Get(p) - taken.Get(p);
          assert alloc'.Get(p) == qty.Get(p);
        }
      }
    }
  }

  /**
   * The random check as written, followed by the walk: one tshirt in bin 1
   * passes the check for an order of two tshirts, yet no walk from any start
   * bin fills that order, and every draw is used up. The source's loop takes
   * nothing and never waits once that tshirt is gone, so it hops forever
   * without letting simulated time advance.
   */
  lemma ShortOrderWalksForever(start: nat, draws: seq<Draw>)
    requires 1 <= start <= 4
    ensures var bins: Bins := [Quad(1, 0, 0, 0), Zero, Zero, Zero];
      var qty := Quad(2, 0, 0, 0);
      var w := Walk(bins, Zero, qty, start, draws);
      RandomCheck(bins, qty) && Column(bins, Tshirt) < qty.tshirt && w.alloc.tshirt <= 1 && |w.path| == |draws|
  {
  }

  /** The random availability check with bin 2 counted instead of bin 1 twice: each request against all four bins. */
  predicate RandomCheckAllBins(bins: Bins, qty: Quad)
  {
    if qty.tshirt > bins[0].tshirt + bins[1].tshirt + bins[2].tshirt + bins[3].tshirt then false
    else if qty.hoodie > bins[0].hoodie + bins[1].hoodie + bins[2].hoodie + bins[3].hoodie then false
    else if qty.spants > bins[0].spants + bins[1].spants + bins[2].spants + bins[3].spants then false
    else if qty.sneaks > bins[0].sneaks + bins[1].sneaks + bins[2].sneaks + bins[3].sneaks then false
    else true
  }

  /** The corrected check passes exactly when the four bins together hold enough of every product. */
  lemma RandomCheckAllBinsMeaning(bins: Bins, qty: Quad)
    ensures RandomCheckAllBins(bins, qty) <==> Sufficient(bins, qty, Zero)
  {
    if !RandomCheckAllBins(bins, qty) {
      var p :| p in AllProducts && qty.Get(p) > Column(bins, p);
    }
  }

  /**
   * Under the corrected check, a walk that starts from an empty allocation
   * and has visited every bin has filled the order.
   */
  lemma RandomCheckAllBinsWalkFills(bins: Bins, qty: Quad, start: nat, draws: seq<Draw>)
    requires 1 <= start <= 4 && RandomCheckAllBins(bins, qty)
    requires forall loc :: 1 <= loc <= 4 ==> loc in Walk(bins, Zero, qty, start, draws).path
    ensures Walk(bins, Zero, qty, start, draws).alloc == qty
  {
    var w := Walk(bins, Zero, qty, start, draws);
    RandomCheckAllBinsMeaning(bins, qty);
    WalkEmptiesVisited(bins, Zero, qty, start, draws);
    CoveredAndSufficientFills(bins, Zero, w.bins, w.alloc, qty);
  }

  /**
   * Bins after a designated pickup of `qty`: each product's own bin loses the
   * requested quantity and nothing else changes, so every product's total
   * drops by exactly what was requested.
   */
  function TakeDesignated(bins: Bins, qty: Quad): (r: Bins)
    requires DesignatedCheck(bins, qty)
    ensures forall loc, p :: 1 <= loc <= 4 ==>
      Bin(r, loc).Get(p) == Bin(bins, loc).Get(p) - (if loc == p.Location() then qty.Get(p) else 0)
    ensures forall p :: Column(r, p) + qty.Get(p) == Column(bins, p)
  {
    [bins[0].(tshirt := bins[0].tshirt - qty.tshirt), bins[1].(hoodie := bins[1].hoodie - qty.hoodie),
     bins[2].(spants := bins[2].spants - qty.spants), bins[3].(sneaks := bins[3].sneaks - qty.sneaks)]
  }

  // ---------------------------------------------------------------------------

  class InventoryStorage {
    const policy: Policy
    var bins: Bins

    constructor (policy: Policy, initial: Quad)
      ensures this.policy == policy
      ensures bins == if policy == Designated then DesignatedLayout(initial) else RandomLayout(initial)
    {
      this.policy := policy;
      if policy == Designated {
        bins := DesignatedLayout(initial);
      } else {
        bins := RandomLayout(initial);
      }
    }

    /** Whether the storage appears to hold enough inventory for an order, by the policy's own check. */
    predicate CheckInventory(qty: Quad)
      reads this
    {
      match policy
      case Designated => DesignatedCheck(bins, qty)
      case Random => RandomCheck(bins, qty)
    }

    /**
     * One product's block of a designated pickup: when the order requests
     * `p`, optionally record the units as allocated, take them from the
     * product's own bin and append that bin to the path.
     */
    method PickDesignatedProduct(order: CustomerOrder, p: Product, allocate: bool, path0: seq<nat>)
      returns (path: seq<nat>)
      requires order.qty.Get(p) <= Bin(bins, p.Location()).Get(p)
      modifies this, order
      ensures order.status == old(order.status)
      ensures order.allocation ==
        if allocate && order.qty.Get(p) > 0 then old(order.allocation).With(p, old(order.allocation).Get(p) + order.qty.Get(p))
        else old(order.allocation)
      ensures bins == old(bins)[p.Location() - 1 := old(Bin(bins, p.Location())).With(p, old(Bin(bins, p.Location())).Get(p) - order.qty.Get(p))]
      ensures path == path0 + Visit(order.qty, p)
    {
      var loc := p.Location();
      path := path0;
      if order.qty.Get(p) > 0 {
        if allocate {
          order.allocation := order.allocation.With(p, order.allocation.Get(p) + order.qty.Get(p));
        }
        bins := bins[loc - 1 := bins[loc - 1].With(p, bins[loc - 1].Get(p) - order.qty.Get(p))];
        path := path + [loc];
      } else {
        assert bins[loc - 1].With(p, bins[loc - 1].Get(p) - 0) == bins[loc - 1];
      }
    }

    /**
     * The four product blocks of a designated pickup, in product order:
     * each requested product is taken from its own bin and, when `allocate`
     * holds, recorded as allocated to the order.
     */
    method PickDesignatedProducts(order: CustomerOrder, allocate: bool) returns (path: seq<nat>)
      requires DesignatedCheck(bins, order.qty)
      modifies this, order
      ensures order.status == old(order.status)
      ensures order.allocation == if allocate then old(order.allocation).Plus(order.qty) else old(order.allocation)
      ensures bins == TakeDesignated(old(bins), order.qty)
      ensures path == DesignatedPath(order.qty)
    {
      path := PickDesignatedProduct(order, Tshirt, allocate, []);
      path := PickDesignatedProduct(order, Hoodie, allocate, path);
      path := PickDesignatedProduct(order, Spants, allocate, path);
      path := PickDesignatedProduct(order, Sneaks, allocate, path);
      assert [] + Visit(order.qty, Tshirt) == Visit(order.qty, Tshirt);
    }

    /**
     * Designated pickup, run to its end: every requested unit is allocated
     * and taken from its product's own bin, bins are visited in ascending
     * order, and the time is the designated pickup time. The order needs at
     * least one unit, since the path's first element is read.
     */
    method PickupDesignated(order: CustomerOrder) returns (path: seq<nat>, pickupTime: nat)
      requires policy == Designated
      requires order.allocation == Zero
      requires DesignatedCheck(bins, order.qty)
      requires order.qty != Zero
      modifies this, order
      ensures order.allocation == order.qty && order.Valid()
      ensures order.status == old(order.status)
      ensures bins == TakeDesignated(old(bins), order.qty)
      ensures forall p :: Column(bins, p) + order.allocation.Get(p) == Column(old(bins), p) + old(order.allocation).Get(p)
      ensures path == DesignatedPath(order.qty)
      ensures pickupTime == DesignatedPickupTime(order.qty)
    {
      path := PickDesignatedProducts(order, true);
      var first, last := path[0], path[|path| - 1];
      pickupTime := 120 + order.qty.tshirt * 10 + order.qty.hoodie * 10 + order.qty.spants * 10
        + order.qty.sneaks * 10 + (last - first) * 60 + 120;
    }

    /**
     * Earliest revision's designated pickup: the same bins drop by the same
     * amounts over the same path and time, but nothing is recorded as
     * allocated and the order becomes FILLED whatever its status.
     */
    method PickupSimple(order: CustomerOrder) returns (path: seq<nat>, pickupTime: nat)
      requires policy == Designated
      requires DesignatedCheck(bins, order.qty)
      requires order.qty != Zero
      modifies this, order
      ensures order.allocation == old(order.allocation)
      ensures order.status == Filled
      ensures bins == TakeDesignated(old(bins), order.qty)
      ensures path == DesignatedPath(order.qty)
      ensures pickupTime == DesignatedPickupTime(order.qty)
    {
      path := PickDesignatedProducts(order, false);
      var first, last := path[0], path[|path| - 1];
      pickupTime := 120 + order.qty.tshirt * 10 + order.qty.hoodie * 10 + order.qty.spants * 10
        + order.qty.sneaks * 10 + (last - first) * 60 + 120;
      order.status := Filled;
    }

    /** One product's share of a visit: allocate the lesser of the level read and what is outstanding. */
    method AllocateFromLevel(order: CustomerOrder, p: Product, level: nat) returns (get: nat)
      requires order.Valid()
      modifies order
      ensures order.Valid() && order.status == old(order.status)
      ensures get == Min(level, order.qty.Get(p) - old(order.allocation).Get(p))
      ensures order.allocation == old(order.allocation).With(p, old(order.allocation).Get(p) + get)
    {
      var amount := order.qty.Get(p) - order.allocation.Get(p);
      get := 0;
      if amount > 0 && level > 0 {
        get := Min(level, amount);
        order.allocation := order.allocation.With(p, order.allocation.Get(p) + get);
      } else {
        assert order.allocation.With(p, order.allocation.Get(p) + 0) == order.allocation;
      }
    }

    /** One visit of a random-policy picker to bin `loc`: allocate and take what the bin can give. */
    method PickFromBin(order: CustomerOrder, loc: nat) returns (taken: Quad)
      requires order.Valid() && 1 <= loc <= 4
      modifies this, order
      ensures order.Valid() && order.status == old(order.status)
      ensures taken == Take(old(Bin(bins, loc)), old(order.Outstanding()))
      ensures order.allocation == old(order.allocation).Plus(taken)
      ensures bins == old(bins)[loc - 1 := old(Bin(bins, loc)).Minus(taken)]
    {
      var current := bins[loc - 1];
      var getTshirt := AllocateFromLevel(order, Tshirt, current.tshirt);
      var getHoodie := AllocateFromLevel(order, Hoodie, current.hoodie);
      var getSpants := AllocateFromLevel(order, Spants, current.spants);
      var getSneaks := AllocateFromLevel(order, Sneaks, current.sneaks);
      taken := Quad(getTshirt, getHoodie, getSpants, getSneaks);
      bins := bins[loc - 1 := current.Minus(taken)];
    }

    /** One visit of the random walk: bin `loc` gives the order what it can. */
    method VisitBin(order: CustomerOrder, loc: nat)
      requires order.Valid() && 1 <= loc <= 4
      modifies this, order
      ensures order.Valid() && order.status == old(order.status)
      ensures old(order.allocation).Le(order.qty)
      ensures var taken := Take(old(Bin(bins, loc)), order.qty.Minus(old(order.allocation)));
        bins == old(bins)[loc - 1 := old(Bin(bins, loc)).Minus(taken)] && order.allocation == old(order.allocation).Plus(taken)
    {
      var taken := PickFromBin(order, loc);
    }

    /**
     * Random pickup: starting at bin `start`, visit bins and take what they
     * hold until the order is filled, hopping after every visit. `draws[k]`
     * is the outcome of the random draw made after visit k. The source keeps
     * hopping until the order is filled; here the walk also stops when the
     * draws run out, and `filled` reports which of the two happened. The
     * visits, the bins and the allocation left behind are those of `Walk`.
     */
    method PickupRandom(order: CustomerOrder, start: nat, draws: seq<Draw>)
      returns (filled: bool, binMoves: int, pickupTime: int, ghost path: seq<nat>)
      requires policy == Random && order.Valid() && 1 <= start <= 4
      modifies this, order
      ensures old(order.allocation).Le(order.qty)
      ensures var w := Walk(old(bins), old(order.allocation), order.qty, start, draws);
        path == w.path && bins == w.bins && order.allocation == w.alloc
      ensures order.Valid() && order.status == old(order.status)
      ensures filled == order.CheckIfFilled()
      ensures !filled ==> |path| == |draws|
      ensures path == [] <==> old(order.CheckIfFilled()) || draws == []
      ensures old(order.allocation).Le(order.allocation)
      ensures forall p :: Column(bins, p) + order.allocation.Get(p) == Column(old(bins), p) + old(order.allocation).Get(p)
      ensures binMoves == |path| - 1 && |path| <= |draws|
      ensures forall i :: 0 <= i < |path| ==> 1 <= path[i] <= 4
      ensures |path| > 0 ==> path[0] == start
      ensures forall i :: 0 <= i < |path| - 1 ==> path[i + 1] == Hop(path[i], draws[i])
      ensures forall loc, p :: 1 <= loc <= 4 && loc in path ==> Bin(bins, loc).Get(p) == 0 || order.allocation.Get(p) == order.qty.Get(p)
      ensures (forall loc :: 1 <= loc <= 4 ==> loc in path) && Sufficient(old(bins), order.qty, old(order.allocation))
        ==> filled
      ensures !Sufficient(old(bins), order.qty, old(order.allocation)) ==> !filled
      ensures pickupTime == RandomPickupTime(order.qty, binMoves)
    {
      ghost var bins0, alloc0 := bins, order.allocation;
      var visits;
      visits, path := WalkBins(order, start, draws);
      binMoves := visits as int - 1;
      filled := order.CheckIfFilled();
      ghost var w := Walk(bins0, alloc0, order.qty, start, draws);
      assert forall p :: Column(bins, p) + order.allocation.Get(p) == Column(bins0, p) + alloc0.Get(p);
      WalkPath(bins0, alloc0, order.qty, start, draws);
      WalkEmptiesVisited(bins0, alloc0, order.qty, start, draws);
      if (forall loc :: 1 <= loc <= 4 ==> loc in path) && Sufficient(bins0, order.qty, alloc0) {
        CoveredAndSufficientFills(bins0, alloc0, bins, order.allocation, order.qty);
      }
      if !Sufficient(bins0, order.qty, alloc0) {
        var p :| order.qty.Get(p) > Column(bins0, p) + alloc0.Get(p);
        assert order.allocation.Get(p) < order.qty.Get(p);
      }
      pickupTime := 120 + order.qty.tshirt * 10 + order.qty.hoodie * 10 + order.qty.spants * 10
        + order.qty.sneaks * 10 + binMoves * 60 + 120;
    }

    /**
     * The loop of the random pickup: visit and hop while the order is not
     * filled and draws remain. It performs exactly the visits of `Walk`.
     */
    method WalkBins(order: CustomerOrder, start: nat, draws: seq<Draw>) returns (visits: nat, ghost path: seq<nat>)
      requires order.Valid() && 1 <= start <= 4
      modifies this, order
      ensures old(order.allocation).Le(order.qty)
      ensures var w := Walk(old(bins), old(order.allocation), order.qty, start, draws);
        path == w.path && bins == w.bins && order.allocation == w.alloc
      ensures visits == |path|
      ensures order.Valid() && order.status == old(order.status)
    {
      ghost var bins0, alloc0 := bins, order.allocation;
      var target := start;
      path := [];
      visits := 0;
      while !order.CheckIfFilled() && visits < |draws|
        invariant order.Valid() && order.status == old(order.status)
        invariant visits == |path| <= |draws|
        invariant 1 <= target <= 4
        invariant Walk(bins0, alloc0, order.qty, start, draws)
          == (var w := Walk(bins, order.allocation, order.qty, target, draws[visits..]); WalkResult(path + w.path, w.bins, w.alloc))
      {
        var k := visits;
        assert order.allocation != order.qty;
        ghost var taken := Take(Bin(bins, target), order.qty.Minus(order.allocation));
        ghost var bins', alloc' := bins[target - 1 := Bin(bins, target).Minus(taken)], order.allocation.Plus(taken);
        ghost var rest := Walk(bins', alloc', order.qty, Hop(target, draws[k]), draws[k + 1..]);
        assert draws[k..][0] == draws[k] && draws[k..][1..] == draws[k + 1..];
        WalkStep(bins, order.allocation, order.qty, target, draws[k..]);
        assert Walk(bins, order.allocation, order.qty, target, draws[k..]) == WalkResult([target] + rest.path, rest.bins, rest.alloc);
        VisitBin(order, target);
        assert bins == bins' && order.allocation == alloc';
        assert path + ([target] + rest.path) == (path + [target]) + rest.path;
        path := path + [target];
        target := Hop(target, draws[k]);
        visits := visits + 1;
      }
      if order.CheckIfFilled() {
        assert order.allocation == order.qty;
      } else {
        assert draws[visits..] == [];
      }
    }

    /** Last step of a pickup after its travel time: the order is FILLED unless it was cancelled meanwhile. */
    method FinishPickup(order: CustomerOrder)
      modifies order
      ensures order.status == if old(order.status) == Cancelled then Cancelled else Filled
      ensures order.allocation == old(order.allocation)
    {
      if order.status != Cancelled {
        order.status := Filled;
      }
    }

    /** Put `n` units of `p` into bin `loc`, one unit at a time at 10 s per unit. */
    method PutUnits(loc: nat, p: Product, n: nat) returns (elapsed: nat)
      requires 1 <= loc <= 4
      modifies this
      ensures bins == old(bins)[loc - 1 := old(Bin(bins, loc)).With(p, old(Bin(bins, loc)).Get(p) + n)]
      ensures elapsed == 10 * n
    {
      elapsed := 0;
      var left: nat := n;
      while left > 0
        invariant left <= n
        invariant bins == old(bins)[loc - 1 := old(Bin(bins, loc)).With(p, old(Bin(bins, loc)).Get(p) + (n - left))]
        invariant elapsed == 10 * (n - left)
      {
        elapsed := elapsed + 10;
        bins := bins[loc - 1 := bins[loc - 1].With(p, bins[loc - 1].Get(p) + 1)];
        left := left - 1;
      }
    }

    /** Designated stow: `amount` units of `p` into the product's own bin, with 120 s legs either way. */
    method StowDesignated(p: Product, amount: nat) returns (stowTime: nat)
      requires policy == Designated
      modifies this
      ensures forall loc, q :: 1 <= loc <= 4 ==>
        Bin(bins, loc).Get(q) == Bin(old(bins), loc).Get(q) + (if loc == p.Location() && q == p then amount else 0)
      ensures forall q :: Column(bins, q) == Column(old(bins), q) + (if q == p then amount else 0)
      ensures stowTime == 240 + 10 * amount
    {
      stowTime := 120;
      var elapsed := PutUnits(p.Location(), p, amount);
      stowTime := stowTime + elapsed;
      stowTime := stowTime + 120;
    }

    /**
     * Random stow: walk bins 1 to 4 in order and put `RandomShare(amount, loc)`
     * units of `p` in bin `loc`; moving on to bins 2, 3 and 4 costs 60 s each.
     */
    method StowRandom(p: Product, amount: nat) returns (stowTime: nat)
      requires policy == Random
      modifies this
      ensures forall loc, q :: 1 <= loc <= 4 ==>
        Bin(bins, loc).Get(q) == Bin(old(bins), loc).Get(q) + (if q == p then RandomShare(amount, loc) else 0)
      ensures forall q :: Column(bins, q) == Column(old(bins), q) + (if q == p then amount else 0)
      ensures stowTime == 420 + 10 * amount
    {
      var splitAmount, splitRemain := amount / 4, amount % 4;
      stowTime := 120;
      for binLoc := 1 to 5
        invariant forall loc, q :: 1 <= loc < binLoc ==>
          Bin(bins, loc).Get(q) == Bin(old(bins), loc).Get(q) + (if q == p then RandomShare(amount, loc) else 0)
        invariant forall loc :: binLoc <= loc <= 4 ==> Bin(bins, loc) == Bin(old(bins), loc)
        invariant stowTime == 120 + (if binLoc <= 2 then 0 else 60 * (binLoc - 2)) + 10 * SharesBefore(amount, binLoc)
      {
        var binAmount: nat := splitAmount;
        var moveTime := 60;
        if binLoc == 1 {
          moveTime := 0;
        } else if binLoc == 4 {
          binAmount := binAmount + splitRemain;
        }
        stowTime := stowTime + moveTime;
        var elapsed := PutUnits(binLoc, p, binAmount);
        stowTime := stowTime + elapsed;
      }
      SharesSum(amount);
      assert SharesBefore(amount, 3) == RandomShare(amount, 1) + RandomShare(amount, 2);
      assert SharesBefore(amount, 5) == amount;
      forall q ensures Column(bins, q) == Column(old(bins), q) + (if q == p then amount else 0) {
        assert Bin(bins, 1).Get(q) == Bin(old(bins), 1).Get(q) + (if q == p then RandomShare(amount, 1) else 0);
        assert Bin(bins, 2).Get(q) == Bin(old(bins), 2).Get(q) + (if q == p then RandomShare(amount, 2) else 0);
        assert Bin(bins, 3).Get(q) == Bin(old(bins), 3).Get(q) + (if q == p then RandomShare(amount, 3) else 0);
        assert Bin(bins, 4).Get(q) == Bin(old(bins), 4).Get(q) + (if q == p then RandomShare(amount, 4) else 0);
      }
      stowTime := stowTime + 120;
    }
  }

  /** Units the random stow has put away before it reaches bin `binLoc`. */
  function SharesBefore(amount: nat, binLoc: nat): nat
  {
    if binLoc <= 1 then 0 else SharesBefore(amount, binLoc - 1) + RandomShare(amount, binLoc - 1)
  }
}
