/**
 * The quote-pricing computation of the sportswear quoting page: a constant
 * rate table, the garment total over five size counts, and the straight-line
 * block of cost terms that ends in a total cost and a suggested unit price.
 *
 * Amounts are modelled exactly with `real`; the page computes them in binary
 * floating point and shows them with two decimals.
 */
module Cotizador {

  datatype Option<T> = None | Some(value: T)

  // ---------------------------------------------------------------------------
  // Rate table
  // ---------------------------------------------------------------------------

  /** One entry per key of the page's rate table, in soles. */
  datatype Precios = Precios(
    tela: real,        // outer fabric, per metre
    forro: real,       // lining, per metre
    patronaje: real,   // pattern making, per size actually ordered
    confeccion: real,  // sewing, per garment
    corte: real,       // cutting, per garment (a per-dozen rate divided by 12)
    accesorios: real,  // zippers and cords, per garment
    bordado: real,     // embroidery, per garment
    ponchado: real,    // logo digitizing, flat
    utilidad: real     // margin, per garment
  )

  /** The constant table the page prices with. */
  const PRECIOS: Precios := Precios(11.0, 4.5, 55.0, 18.0, 45.0 / 12.0, 3.0, 4.0, 10.0, 17.0)

  /** Fabric and lining consumed per garment, in metres. */
  const METROS_TELA_POR_PRENDA: real := 2.7
  const METROS_FORRO_POR_PRENDA: real := 1.0

  // ---------------------------------------------------------------------------
  // Order
  // ---------------------------------------------------------------------------

  datatype Talla = XS | S | M | L | XL

  /** The five size inputs, in the order the page lays them out. */
  const TALLAS: seq<Talla> := [XS, S, M, L, XL]

  /** Quantities per size; the number inputs have a minimum of 0 and step 1. */
  datatype Cantidades = Cantidades(xs: nat, s: nat, m: nat, l: nat, xl: nat) {
    function Qty(t: Talla): nat {
      match t
      case XS => xs
      case S => s
      case M => m
      case L => l
      case XL => xl
    }

    /** The same quantities with `d` more garments of size `t`. */
    function Raise(t: Talla, d: nat): (r: Cantidades)
      ensures r.Qty(t) == Qty(t) + d
      ensures forall u :: u != t ==> r.Qty(u) == Qty(u)
    {
      match t
      case XS => this.(xs := xs + d)
      case S => this.(s := s + d)
      case M => this.(m := m + d)
      case L => this.(l := l + d)
      case XL => this.(xl := xl + d)
    }
  }

  /**
   * Everything the customisation form collects. Only `cantidades` and
   * `logoSubido` (whether a logo file was uploaded) enter the price; the
   * garment model, set type, colour and comment are pass-through metadata.
   */
  datatype Pedido = Pedido(
    modelo: string,
    tipo: string,
    cantidades: Cantidades,
    color: string,
    logoSubido: bool,
    comentario: string
  )

  // ---------------------------------------------------------------------------
  // Counting
  // ---------------------------------------------------------------------------

  /** Sum of the quantities of the sizes listed in `ts`, left to right. */
  function SumQty(q: Cantidades, ts: seq<Talla>): nat {
    if ts == [] then 0 else SumQty(q, ts[..|ts| - 1]) + q.Qty(ts[|ts| - 1])
  }

  /** The garment total: the five quantities added up. */
  function Total(q: Cantidades): (r: nat)
    ensures r == SumQty(q, TALLAS)
    ensures r == 0 <==> q == Cantidades(0, 0, 0, 0, 0)
  {
    SumQtyTallas(q);
    q.xs + q.s + q.m + q.l + q.xl
  }

  lemma SumQtyTallas(q: Cantidades)
    ensures SumQty(q, TALLAS) == q.xs + q.s + q.m + q.l + q.xl
  {
    assert SumQty(q, [XS]) == q.xs by { assert [XS][..0] == []; }
    assert SumQty(q, [XS, S]) == q.xs + q.s by { assert [XS, S][..1] == [XS]; }
    assert SumQty(q, [XS, S, M]) == q.xs + q.s + q.m by { assert [XS, S, M][..2] == [XS, S]; }
    assert SumQty(q, [XS, S, M, L]) == q.xs + q.s + q.m + q.l by { assert [XS, S, M, L][..3] == [XS, S, M]; }
    assert TALLAS[..4] == [XS, S, M, L];
  }

  /** How many of the sizes listed in `ts` have a positive quantity. */
  function CountUsed(q: Cantidades, ts: seq<Talla>): (r: nat)
    ensures r <= |ts|
    ensures r <= SumQty(q, ts)
    ensures SumQty(q, ts) > 0 ==> r >= 1
  {
    if ts == [] then 0
    else CountUsed(q, ts[..|ts| - 1]) + (if q.Qty(ts[|ts| - 1]) > 0 then 1 else 0)
  }

  /** Number of sizes ordered with a positive quantity. */
  function TallasUsadas(q: Cantidades): (r: nat)
    ensures r <= 5 && r <= Total(q)
    ensures Total(q) > 0 ==> 1 <= r
  {
    CountUsed(q, TALLAS)
  }

  lemma TallasUsadasPerSize(q: Cantidades)
    ensures TallasUsadas(q)
         == (if q.xs > 0 then 1 else 0) + (if q.s > 0 then 1 else 0) + (if q.m > 0 then 1 else 0)
          + (if q.l > 0 then 1 else 0) + (if q.xl > 0 then 1 else 0)
  {
    var b := (t: Talla) => if q.Qty(t) > 0 then 1 else 0;
    assert CountUsed(q, [XS]) == b(XS) by { assert [XS][..0] == []; }
    assert CountUsed(q, [XS, S]) == b(XS) + b(S) by { assert [XS, S][..1] == [XS]; }
    assert CountUsed(q, [XS, S, M]) == b(XS) + b(S) + b(M) by { assert [XS, S, M][..2] == [XS, S]; }
    assert CountUsed(q, [XS, S, M, L]) == b(XS) + b(S) + b(M) + b(L) by { assert [XS, S, M, L][..3] == [XS, S, M]; }
    assert TALLAS[..4] == [XS, S, M, L];
  }

  /** The set of size labels with a positive quantity. */
  function UsedSizes(q: Cantidades): set<Talla> {
    UsedIn(q, TALLAS)
  }

  // ---------------------------------------------------------------------------
  // The pricing block
  // ---------------------------------------------------------------------------

  /** Every figure the pricing block computes. */
  datatype Cotizacion = Cotizacion(
    metrosTela: real,
    metrosForro: real,
    costoTela: real,
    costoForro: real,
    tallasUsadas: nat,
    patronaje: real,
    confeccion: real,
    corte: real,
    accesorios: real,
    bordado: real,
    ponchado: real,
    costoTotal: real,
    precioSugerido: real
  )

  /** Sum of a list of amounts, left to right, starting from 0. */
  function Sum(amounts: seq<real>): real {
    if amounts == [] then 0.0 else Sum(amounts[..|amounts| - 1]) + amounts[|amounts| - 1]
  }

  lemma SumOfEight(a: real, b: real, c: real, d: real, e: real, f: real, g: real, h: real)
    ensures Sum([a, b, c, d, e, f, g, h]) == a + b + c + d + e + f + g + h
  {
    assert Sum([a]) == a by { assert [a][..0] == []; }
    assert Sum([a, b]) == a + b by { assert [a, b][..1] == [a]; }
    assert Sum([a, b, c]) == a + b + c by { assert [a, b, c][..2] == [a, b]; }
    assert Sum([a, b, c, d]) == a + b + c + d by { assert [a, b, c, d][..3] == [a, b, c]; }
    assert Sum([a, b, c, d, e]) == a + b + c + d + e by { assert [a, b, c, d, e][..4] == [a, b, c, d]; }
    assert Sum([a, b, c, d, e, f]) == a + b + c + d + e + f by { assert [a, b, c, d, e, f][..5] == [a, b, c, d, e]; }
    assert Sum([a, b, c, d, e, f, g]) == a + b + c + d + e + f + g by {
      assert [a, b, c, d, e, f, g][..6] == [a, b, c, d, e, f];
    }
    assert [a, b, c, d, e, f, g, h][..7] == [a, b, c, d, e, f, g];
  }

  /** The eight cost terms, in the order the page adds them. */
  function Terms(c: Cotizacion): seq<real> {
    [c.costoTela, c.costoForro, c.patronaje, c.confeccion, c.corte, c.accesorios, c.bordado, c.ponchado]
  }

  /**
   * The straight-line cost block for `total` garments spread over
   * `tallasUsadas` sizes, with or without an uploaded logo.
   */
  function Desglose(total: nat, tallasUsadas: nat, logoSubido: bool): (c: Cotizacion)
    requires total > 0
    ensures c.tallasUsadas == tallasUsadas
    ensures c.costoTotal == Sum(Terms(c))
    ensures c.precioSugerido * total as real == c.costoTotal + PRECIOS.utilidad * total as real
  {
    var n := total as real;
    var metrosTela := n * METROS_TELA_POR_PRENDA;
    var metrosForro := n * METROS_FORRO_POR_PRENDA;
    var costoTela := metrosTela * PRECIOS.tela;
    var costoForro := metrosForro * PRECIOS.forro;
    var patronaje := tallasUsadas as real * PRECIOS.patronaje;
    var confeccion := n * PRECIOS.confeccion;
    var corte := n * PRECIOS.corte;
    var accesorios := n * PRECIOS.accesorios;
    var bordado := n * PRECIOS.bordado;
    var ponchado := if logoSubido then PRECIOS.ponchado else 0.0;
    var costoTotal := Sum([costoTela, costoForro, patronaje, confeccion, corte, accesorios, bordado, ponchado]);
    var precioSugerido := (costoTotal + PRECIOS.utilidad * n) / n;
    SumOfEight(costoTela, costoForro, patronaje, confeccion, corte, accesorios, bordado, ponchado);
    DivTimes(costoTotal + PRECIOS.utilidad * n, n);
    Cotizacion(metrosTela, metrosForro, costoTela, costoForro, tallasUsadas, patronaje,
               confeccion, corte, accesorios, bordado, ponchado, costoTotal, precioSugerido)
  }

  /**
   * The pricing block. With no garments the page shows a warning and computes
   * nothing: that is `None`.
   */
  function Cotizar(q: Cantidades, logoSubido: bool): (r: Option<Cotizacion>)
    ensures r.Some? <==> Total(q) > 0
    ensures r.Some? ==> 1 <= r.value.tallasUsadas <= 5 && r.value.tallasUsadas <= Total(q)
  {
    var total := Total(q);
    if total > 0 then
      var tallasUsadas := TallasUsadas(q);
      Some(Desglose(total, tallasUsadas, logoSubido))
    else
      None
  }

  /** The same computation, reached from the whole form. */
  function CotizarPedido(p: Pedido): (r: Option<Cotizacion>)
    ensures r.Some? <==> p.cantidades != Cantidades(0, 0, 0, 0, 0)
  {
    Cotizar(p.cantidades, p.logoSubido)
  }

  // ---------------------------------------------------------------------------
  // Properties
  // ---------------------------------------------------------------------------

  /** The labels in `ts` whose quantity is positive. */
  function UsedIn(q: Cantidades, ts: seq<Talla>): set<Talla> {
    set t | t in ts && q.Qty(t) > 0
  }

  lemma UsedInSnoc(q: Cantidades, init: seq<Talla>, last: Talla)
    ensures UsedIn(q, init + [last]) == UsedIn(q, init) + (if q.Qty(last) > 0 then {last} else {})
  {
    forall t ensures t in UsedIn(q, init + [last]) <==> t in UsedIn(q, init) || (t == last && q.Qty(last) > 0) {
      assert t in init + [last] <==> t in init || t == last;
    }
  }

  predicate Distinct(ts: seq<Talla>) {
    forall i, j :: 0 <= i < j < |ts| ==> ts[i] != ts[j]
  }

  lemma DistinctInit(ts: seq<Talla>)
    requires ts != [] && Distinct(ts)
    ensures Distinct(ts[..|ts| - 1])
    ensures ts[|ts| - 1] !in ts[..|ts| - 1]
  {
  }

  /** Counting the sizes in a list of distinct labels is the size of the set of used labels. */
  lemma {:induction false} CountUsedIsCard(q: Cantidades, ts: seq<Talla>)
    requires Distinct(ts)
    ensures CountUsed(q, ts) == |UsedIn(q, ts)|
  {
    if ts != [] {
      var init, last := ts[..|ts| - 1], ts[|ts| - 1];
      DistinctInit(ts);
      CountUsedIsCard(q, init);
      UsedInSnoc(q, init, last);
      assert ts == init + [last];
      assert last !in UsedIn(q, init);
    }
  }

  /** `tallas_usadas` is the number of distinct size labels ordered. */
  lemma UsedSizesCount(q: Cantidades)
    ensures TallasUsadas(q) == |UsedSizes(q)|
  {
    CountUsedIsCard(q, TALLAS);
  }

  /** The quote's size count is the number of distinct size labels ordered. */
  lemma CotizarCountsUsedSizes(q: Cantidades, logoSubido: bool)
    requires Total(q) > 0
    ensures Cotizar(q, logoSubido).value.tallasUsadas == |UsedSizes(q)|
  {
    UsedSizesCount(q);
  }

  /** A size is used exactly when its quantity is positive. */
  lemma UsedSizesMembers(q: Cantidades, t: Talla)
    ensures t in UsedSizes(q) <==> q.Qty(t) > 0
  {
    assert t == TALLAS[match t case XS => 0 case S => 1 case M => 2 case L => 3 case XL => 4];
  }

  lemma DivTimes(x: real, n: real)
    requires n != 0.0
    ensures x / n * n == x
  {
  }

  /** Every term of the block in closed form. */
  lemma DesgloseTerms(total: nat, tallasUsadas: nat, logoSubido: bool)
    requires total > 0
    ensures var c, n := Desglose(total, tallasUsadas, logoSubido), total as real;
      && c.metrosTela == 2.7 * n && c.metrosForro == n
      && c.costoTela == 29.7 * n && c.costoForro == 4.5 * n
      && c.patronaje == 55.0 * tallasUsadas as real
      && c.confeccion == 18.0 * n && c.corte == 3.75 * n && c.accesorios == 3.0 * n
      && c.bordado == 4.0 * n
      && c.ponchado == (if logoSubido then 10.0 else 0.0)
  {
  }

  /** Adding the eight terms gives a per-garment rate plus the fixed charges. */
  lemma DesgloseCostoTotal(total: nat, tallasUsadas: nat, logoSubido: bool)
    requires total > 0
    ensures Desglose(total, tallasUsadas, logoSubido).costoTotal
         == 62.95 * total as real + 55.0 * tallasUsadas as real + (if logoSubido then 10.0 else 0.0)
  {
    DesgloseTerms(total, tallasUsadas, logoSubido);
    var c := Desglose(total, tallasUsadas, logoSubido);
    SumOfEight(c.costoTela, c.costoForro, c.patronaje, c.confeccion, c.corte, c.accesorios, c.bordado, c.ponchado);
  }

  /** The suggested price is 79.95 per garment plus the fixed charges spread over the run. */
  lemma DesglosePrecio(total: nat, tallasUsadas: nat, logoSubido: bool)
    requires total > 0
    ensures Desglose(total, tallasUsadas, logoSubido).precioSugerido
         == 79.95 + (55.0 * tallasUsadas as real + (if logoSubido then 10.0 else 0.0)) / total as real
  {
    DesgloseCostoTotal(total, tallasUsadas, logoSubido);
    var n := total as real;
    var fixed := 55.0 * tallasUsadas as real + (if logoSubido then 10.0 else 0.0);
    var c := Desglose(total, tallasUsadas, logoSubido);
    assert c.precioSugerido == (c.costoTotal + 17.0 * n) / n;
    assert c.costoTotal + 17.0 * n == 79.95 * n + fixed;
    DivSplit(79.95, fixed, n);
  }

  lemma DivSplit(a: real, b: real, n: real)
    requires n != 0.0
    ensures (a * n + b) / n == a + b / n
  {
  }

  /** Fabric and lining scale linearly with the garment total. */
  lemma MetersAreLinear(q: Cantidades, logoSubido: bool)
    requires Total(q) > 0
    ensures Cotizar(q, logoSubido).value.metrosTela == 2.7 * Total(q) as real
    ensures Cotizar(q, logoSubido).value.metrosForro == Total(q) as real
  {
    DesgloseTerms(Total(q), TallasUsadas(q), logoSubido);
  }

  /**
   * The pattern-making term depends only on which sizes are ordered, not on
   * how many of each.
   */
  lemma PatronajeDependsOnlyOnUsedSizes(q1: Cantidades, q2: Cantidades, logo1: bool, logo2: bool)
    requires Total(q1) > 0
    requires forall t :: q1.Qty(t) > 0 <==> q2.Qty(t) > 0
    ensures Total(q2) > 0
    ensures Cotizar(q1, logo1).value.patronaje == Cotizar(q2, logo2).value.patronaje
  {
    UsedSizesCount(q1);
    UsedSizesCount(q2);
    assert UsedSizes(q1) == UsedSizes(q2) by {
      forall t ensures t in UsedSizes(q1) <==> t in UsedSizes(q2) {
        UsedSizesMembers(q1, t);
        UsedSizesMembers(q2, t);
      }
    }
    DesgloseTerms(Total(q1), TallasUsadas(q1), logo1);
    DesgloseTerms(Total(q2), TallasUsadas(q2), logo2);
  }

  /**
   * Embroidery is charged on every garment with no condition; the digitizing
   * fee is charged once, and only when a logo file was uploaded.
   */
  lemma EmbroideryAndDigitizing(q: Cantidades, logoSubido: bool)
    requires Total(q) > 0
    ensures Cotizar(q, logoSubido).value.bordado == 4.0 * Total(q) as real
    ensures Cotizar(q, logoSubido).value.ponchado == if logoSubido then 10.0 else 0.0
  {
    DesgloseTerms(Total(q), TallasUsadas(q), logoSubido);
  }

  /** The total cost is 62.95 per garment, 55 per size used and the digitizing fee. */
  lemma CostoTotalClosedForm(q: Cantidades, logoSubido: bool)
    requires Total(q) > 0
    ensures Cotizar(q, logoSubido).value.costoTotal
         == 62.95 * Total(q) as real + 55.0 * TallasUsadas(q) as real + (if logoSubido then 10.0 else 0.0)
  {
    DesgloseCostoTotal(Total(q), TallasUsadas(q), logoSubido);
  }

  /** The suggested price is total cost plus margin, spread over the garments. */
  lemma PrecioSugeridoClosedForm(q: Cantidades, logoSubido: bool)
    requires Total(q) > 0
    ensures Cotizar(q, logoSubido).value.precioSugerido
         == 79.95 + (55.0 * TallasUsadas(q) as real + (if logoSubido then 10.0 else 0.0)) / Total(q) as real
    ensures Cotizar(q, logoSubido).value.precioSugerido > 79.95
  {
    DesglosePrecio(Total(q), TallasUsadas(q), logoSubido);
    var fixed := 55.0 * TallasUsadas(q) as real + (if logoSubido then 10.0 else 0.0);
    DivPositive(fixed, Total(q) as real);
  }

  lemma DivPositive(x: real, n: real)
    requires x > 0.0 && n > 0.0
    ensures x / n > 0.0
  {
    DivTimes(x, n);
  }

  lemma DivAntitone(c: real, n1: real, n2: real)
    requires c >= 0.0 && 0.0 < n1 <= n2
    ensures c / n2 <= c / n1
  {
    var a, b := c / n1, c / n2;
    DivTimes(c, n1);
    DivTimes(c, n2);
    assert b >= 0.0;
    assert b * n1 <= b * n2;
    assert b * n1 <= a * n1;
  }

  /**
   * With the sizes ordered and the logo held fixed, a larger run never raises
   * the suggested unit price.
   */
  lemma PrecioNonIncreasing(q1: Cantidades, q2: Cantidades, logoSubido: bool)
    requires Total(q1) > 0 && Total(q1) <= Total(q2)
    requires UsedSizes(q1) == UsedSizes(q2)
    ensures Cotizar(q2, logoSubido).value.precioSugerido <= Cotizar(q1, logoSubido).value.precioSugerido
  {
    PrecioSugeridoClosedForm(q1, logoSubido);
    PrecioSugeridoClosedForm(q2, logoSubido);
    UsedSizesCount(q1);
    UsedSizesCount(q2);
    var fixed := 55.0 * TallasUsadas(q1) as real + (if logoSubido then 10.0 else 0.0);
    DivAntitone(fixed, Total(q1) as real, Total(q2) as real);
  }

  /** Raising quantities never lowers the number of sizes used. */
  lemma {:induction false} CountUsedMonotone(q1: Cantidades, q2: Cantidades, ts: seq<Talla>)
    requires forall t :: q1.Qty(t) <= q2.Qty(t)
    ensures CountUsed(q1, ts) <= CountUsed(q2, ts)
  {
    if ts != [] {
      CountUsedMonotone(q1, q2, ts[..|ts| - 1]);
    }
  }

  /** Raising any size count (or several) never lowers the total cost. */
  lemma CostoTotalMonotone(q1: Cantidades, q2: Cantidades, logoSubido: bool)
    requires Total(q1) > 0
    requires forall t :: q1.Qty(t) <= q2.Qty(t)
    ensures Total(q2) > 0
    ensures Cotizar(q1, logoSubido).value.costoTotal <= Cotizar(q2, logoSubido).value.costoTotal
  {
    assert q1.Qty(XS) <= q2.Qty(XS) && q1.Qty(S) <= q2.Qty(S) && q1.Qty(M) <= q2.Qty(M);
    assert q1.Qty(L) <= q2.Qty(L) && q1.Qty(XL) <= q2.Qty(XL);
    CountUsedMonotone(q1, q2, TALLAS);
    CostoTotalClosedForm(q1, logoSubido);
    CostoTotalClosedForm(q2, logoSubido);
  }

  /**
   * Ordering `d` more garments of one size adds 62.95 per garment, plus one
   * pattern charge of 55 when that size was not ordered before.
   */
  lemma RaiseOneSizeCost(q: Cantidades, t: Talla, d: nat, logoSubido: bool)
    requires Total(q) > 0
    ensures Total(q.Raise(t, d)) == Total(q) + d
    ensures Cotizar(q.Raise(t, d), logoSubido).value.costoTotal
         == Cotizar(q, logoSubido).value.costoTotal + 62.95 * d as real
            + (if q.Qty(t) == 0 && d > 0 then 55.0 else 0.0)
  {
    var r := q.Raise(t, d);
    RaiseCounts(q, t, d);
    CostoTotalClosedForm(q, logoSubido);
    CostoTotalClosedForm(r, logoSubido);
  }

  lemma RaiseCounts(q: Cantidades, t: Talla, d: nat)
    ensures Total(q.Raise(t, d)) == Total(q) + d
    ensures TallasUsadas(q.Raise(t, d)) == TallasUsadas(q) + (if q.Qty(t) == 0 && d > 0 then 1 else 0)
  {
    var r := q.Raise(t, d);
    var before, after := TallasUsadas(q), TallasUsadas(r);
    TallasUsadasPerSize(q);
    TallasUsadasPerSize(r);
    match t {
      case XS => assert r.xs == q.xs + d && r.s == q.s && r.m == q.m && r.l == q.l && r.xl == q.xl;
      case S => assert r.xs == q.xs && r.s == q.s + d && r.m == q.m && r.l == q.l && r.xl == q.xl;
      case M => assert r.xs == q.xs && r.s == q.s && r.m == q.m + d && r.l == q.l && r.xl == q.xl;
      case L => assert r.xs == q.xs && r.s == q.s && r.m == q.m && r.l == q.l + d && r.xl == q.xl;
      case XL => assert r.xs == q.xs && r.s == q.s && r.m == q.m && r.l == q.l && r.xl == q.xl + d;
    }
  }


  /**
   * Uploading a logo adds exactly the digitizing fee to the total cost and
   * leaves every other figure except the suggested price as it was.
   */
  lemma LogoAddsDigitizingFee(q: Cantidades)
    requires Total(q) > 0
    ensures var without, with := Cotizar(q, false).value, Cotizar(q, true).value;
      && with.costoTotal == without.costoTotal + 10.0
      && with.ponchado == 10.0 && without.ponchado == 0.0
      && with.precioSugerido == without.precioSugerido + 10.0 / Total(q) as real
      && with == without.(ponchado := 10.0, costoTotal := with.costoTotal, precioSugerido := with.precioSugerido)
  {
    var n, u := Total(q), TallasUsadas(q);
    DesgloseTerms(n, u, false);
    DesgloseTerms(n, u, true);
    DesgloseCostoTotal(n, u, false);
    DesgloseCostoTotal(n, u, true);
    DesglosePrecio(n, u, false);
    DesglosePrecio(n, u, true);
    var fixed := 55.0 * u as real;
    DivAdd(fixed, 10.0, n as real);
  }

  lemma DivAdd(a: real, b: real, n: real)
    requires n != 0.0
    ensures (a + b) / n == a / n + b / n
  {
  }

  /** The price depends on the quantities and the logo upload only. */
  lemma MetadataDoesNotAffectPrice(p1: Pedido, p2: Pedido)
    requires p1.cantidades == p2.cantidades && p1.logoSubido == p2.logoSubido
    ensures CotizarPedido(p1) == CotizarPedido(p2)
  {
  }

  /** Two sizes S and M, five garments in all. */
  lemma WorkedExample()
    ensures var q := Cantidades(0, 2, 3, 0, 0);
      Cotizar(q, false).Some?
      && Cotizar(q, false).value.tallasUsadas == 2
      && Cotizar(q, false).value.costoTotal == 424.75
      && Cotizar(q, false).value.precioSugerido == 101.95
      && Cotizar(q, true).value.costoTotal == 434.75
      && Cotizar(q, true).value.precioSugerido == 103.95
  {
    var q := Cantidades(0, 2, 3, 0, 0);
    TallasUsadasPerSize(q);
    CostoTotalClosedForm(q, false);
    CostoTotalClosedForm(q, true);
    PrecioSugeridoClosedForm(q, false);
    PrecioSugeridoClosedForm(q, true);
  }

  /** With no garments there is nothing to price. */
  lemma EmptyOrderHasNoQuote(logoSubido: bool)
    ensures Cotizar(Cantidades(0, 0, 0, 0, 0), logoSubido) == None
  {
  }
}
