/**
 * The four product types of the facility, a record of one natural number per
 * product (used for order quantities, allocations, bin levels, parking levels
 * and the holding tracker), and the per-unit economics of each product.
 *
 * Weights are kept in half-pounds so that every quantity stays integral:
 * a tshirt weighs 1 (0.5 lb), a hoodie 2, a pair of sweatpants 2 and a pair
 * of sneakers 3 (1.5 lb).
 */
module Products {

  datatype Product = Tshirt | Hoodie | Spants | Sneaks
  {
    /** Location (1..4) of the bin reserved for this product under the designated policy. */
    function Location(): (loc: nat)
      ensures 1 <= loc <= 4
    {
      match this
      case Tshirt => 1
      case Hoodie => 2
      case Spants => 3
      case Sneaks => 4
    }
  }

  /** The products in the order in which every loop of the simulation visits them. */
  const AllProducts: seq<Product> := [Tshirt, Hoodie, Spants, Sneaks]

  /** One natural number per product. */
  datatype Quad = Quad(tshirt: nat, hoodie: nat, spants: nat, sneaks: nat)
  {
    function Get(p: Product): nat
    {
      match p
      case Tshirt => tshirt
      case Hoodie => hoodie
      case Spants => spants
      case Sneaks => sneaks
    }

    /** This record with the entry of `p` replaced by `v`. */
    function With(p: Product, v: nat): (r: Quad)
      ensures r.Get(p) == v
      ensures forall q :: q != p ==> r.Get(q) == Get(q)
    {
      match p
      case Tshirt => this.(tshirt := v)
      case Hoodie => this.(hoodie := v)
      case Spants => this.(spants := v)
      case Sneaks => this.(sneaks := v)
    }

    function Plus(o: Quad): (r: Quad)
      ensures forall p :: r.Get(p) == Get(p) + o.Get(p)
    {
      Quad(tshirt + o.tshirt, hoodie + o.hoodie, spants + o.spants, sneaks + o.sneaks)
    }

    /** Entry-wise comparison. */
    predicate Le(o: Quad)
    {
      forall p :: Get(p) <= o.Get(p)
    }

    function Minus(o: Quad): (r: Quad)
      requires o.Le(this)
      ensures forall p :: r.Get(p) == Get(p) - o.Get(p)
    {
      assert o.Get(Tshirt) <= Get(Tshirt) && o.Get(Hoodie) <= Get(Hoodie);
      assert o.Get(Spants) <= Get(Spants) && o.Get(Sneaks) <= Get(Sneaks);
      Quad(tshirt - o.tshirt, hoodie - o.hoodie, spants - o.spants, sneaks - o.sneaks)
    }

    /** Number of units over all four products. */
    function Total(): nat
    {
      tshirt + hoodie + spants + sneaks
    }
  }

  function Min(a: nat, b: nat): nat
  {
    if a <= b then a else b
  }

  const Zero: Quad := Quad(0, 0, 0, 0)

  /** Starting stock of every storage layout and of the holding tracker. */
  const INITIAL_QTYS: Quad := Quad(10000, 5000, 5000, 3333)

  /** The three per-unit tables of the facility. */
  datatype Rate = Profit | Penalty | Weight

  /** Per-unit gross profit and lost-sales penalty in dollars; per-unit weight in half-pounds. */
  function Unit(rate: Rate, p: Product): nat
  {
    match rate
    case Profit =>
      (match p case Tshirt => 4 case Hoodie => 10 case Spants => 10 case Sneaks => 20)
    case Penalty =>
      (match p case Tshirt => 1 case Hoodie => 6 case Spants => 6 case Sneaks => 10)
    case Weight =>
      (match p case Tshirt => 1 case Hoodie => 2 case Spants => 2 case Sneaks => 3)
  }

  /** Reference definition: the sum over `ps` of quantity times unit rate. */
  function Weighted(q: Quad, rate: Rate, ps: seq<Product>): nat
  {
    if ps == [] then 0 else q.Get(ps[0]) * Unit(rate, ps[0]) + Weighted(q, rate, ps[1..])
  }

  /** Total weight of a per-product record, in half-pounds. */
  function WeightOf(q: Quad): (w: nat)
    ensures w == Weighted(q, Weight, AllProducts)
    ensures q.Total() <= w <= 3 * q.Total()
  {
    WeightedAll(q, Weight);
    q.tshirt + 2 * q.hoodie + 2 * q.spants + 3 * q.sneaks
  }

  /** Over all four products, a weighted sum is the four-term sum. */
  lemma WeightedAll(q: Quad, rate: Rate)
    ensures Weighted(q, rate, AllProducts)
         == q.tshirt * Unit(rate, Tshirt) + q.hoodie * Unit(rate, Hoodie)
          + q.spants * Unit(rate, Spants) + q.sneaks * Unit(rate, Sneaks)
  {
    var ps := AllProducts;
    assert ps[1..][1..][1..][1..] == [];
    assert Weighted(q, rate, ps[1..][1..][1..]) == q.sneaks * Unit(rate, Sneaks);
    assert Weighted(q, rate, ps[1..][1..]) == q.spants * Unit(rate, Spants) + q.sneaks * Unit(rate, Sneaks);
  }

  /** A weighted sum is additive in the quantities. */
  lemma {:induction false} WeightedPlus(a: Quad, b: Quad, rate: Rate, ps: seq<Product>)
    ensures Weighted(a.Plus(b), rate, ps) == Weighted(a, rate, ps) + Weighted(b, rate, ps)
  {
    if ps != [] {
      WeightedPlus(a, b, rate, ps[1..]);
      var p, u := ps[0], Unit(rate, ps[0]);
      assert a.Plus(b).Get(p) * u == a.Get(p) * u + b.Get(p) * u;
    }
  }

  /** A weighted sum is monotone in the quantities. */
  lemma {:induction false} WeightedMonotone(a: Quad, b: Quad, rate: Rate, ps: seq<Product>)
    requires a.Le(b)
    ensures Weighted(a, rate, ps) <= Weighted(b, rate, ps)
  {
    if ps != [] {
      WeightedMonotone(a, b, rate, ps[1..]);
      var p, u := ps[0], Unit(rate, ps[0]);
      assert a.Get(p) <= b.Get(p);
      assert a.Get(p) * u <= b.Get(p) * u;
    }
  }
}
