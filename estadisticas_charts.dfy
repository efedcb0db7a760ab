/**
 * The popularity bars of the statistics charts
 * (src/features/estadisticas/EstadisticasCharts.tsx): each product's
 * sales as a rounded percentage of the best seller's, and the colour of
 * its bar.
 */
module EstadisticasCharts {
  import opened Common

  /** ProductoVendidoDTO; the quantity sold is a count. */
  datatype ProductoVendido = ProductoVendido(
    productoId: int,
    denominacion: string,
    rubroDenominacion: string,
    cantidadVendida: nat,
    totalVentas: real)

  /** A product with its popularity: NaN when every count is 0 (0 / 0). */
  datatype ConPopularidad = ConPopularidad(producto: ProductoVendido, popularidad: JsNumber)

  /** Math.max over the quantities sold. */
  function MaxVentas(productos: seq<ProductoVendido>): (m: nat)
    requires |productos| > 0
    ensures forall k :: 0 <= k < |productos| ==> productos[k].cantidadVendida <= m
    ensures exists k :: 0 <= k < |productos| && productos[k].cantidadVendida == m
  {
    if |productos| == 1 then productos[0].cantidadVendida
    else
      var m := MaxVentas(productos[1..]);
      assert forall k :: 1 <= k < |productos| ==> productos[k] == productos[1..][k - 1];
      if productos[0].cantidadVendida >= m then productos[0].cantidadVendida else m
  }

  /** Math.round(q / max * 100), with the division done exactly. */
  function Popularidad(q: nat, max: nat): (r: JsNumber)
    ensures max == 0 && q == 0 ==> r.NaN?
    ensures max > 0 ==> r == Num(RoundPercent(q, max) as real)
  {
    if max == 0 then NaN else Num(RoundPercent(q, max) as real)
  }

  /** calculatePopularity: [] for no products; otherwise every product,
      in order and unchanged, with its popularity against the maximum. */
  function CalculatePopularity(productos: seq<ProductoVendido>): (r: seq<ConPopularidad>)
    ensures |r| == |productos|
    ensures forall k :: 0 <= k < |r| ==> r[k].producto == productos[k]
    ensures productos != [] ==> forall k :: 0 <= k < |r| ==>
              r[k].popularidad == Popularidad(productos[k].cantidadVendida, MaxVentas(productos))
  {
    if |productos| == 0 then []
    else
      var max := MaxVentas(productos);
      Map(productos, (p: ProductoVendido) => ConPopularidad(p, Popularidad(p.cantidadVendida, max)))
  }

  /** With some sale, the best sellers get 100 and every popularity lies
      in [0, 100], in the order of the quantities; with no sale at all
      every popularity is NaN. */
  lemma PopularidadAcotada(productos: seq<ProductoVendido>)
    ensures var r := CalculatePopularity(productos);
      productos != [] && MaxVentas(productos) > 0 ==>
        forall j, k :: 0 <= j < |r| && 0 <= k < |r| ==>
          r[k].popularidad.Num? && 0.0 <= r[k].popularidad.v <= 100.0
          && (productos[k].cantidadVendida == MaxVentas(productos) ==> r[k].popularidad == Num(100.0))
          && (productos[j].cantidadVendida <= productos[k].cantidadVendida ==> r[j].popularidad.v <= r[k].popularidad.v)
    ensures var r := CalculatePopularity(productos);
      productos != [] && MaxVentas(productos) == 0 ==> forall k :: 0 <= k < |r| ==> r[k].popularidad.NaN?
  {
    var r := CalculatePopularity(productos);
    if productos != [] && MaxVentas(productos) > 0 {
      var max := MaxVentas(productos);
      forall j, k | 0 <= j < |r| && 0 <= k < |r|
        ensures r[k].popularidad.Num? && 0.0 <= r[k].popularidad.v <= 100.0
        ensures productos[k].cantidadVendida == max ==> r[k].popularidad == Num(100.0)
        ensures productos[j].cantidadVendida <= productos[k].cantidadVendida ==> r[j].popularidad.v <= r[k].popularidad.v
      {
        RoundPercentBounds(productos[k].cantidadVendida, max);
        if productos[j].cantidadVendida <= productos[k].cantidadVendida {
          RoundPercentMonotone(productos[j].cantidadVendida, productos[k].cantidadVendida, max);
        }
      }
    }
  }

  datatype Color = Verde | Naranja | Rojo

  /** The text of each colour. */
  function Hex(c: Color): (h: string)
    ensures |h| == 7 && h[0] == '#'
  {
    match c
    case Verde => "#5ACD40"
    case Naranja => "#FAAE42"
    case Rojo => "#D64C4C"
  }

  /** getPopularityColor: at least 80 green, at least 60 orange, otherwise
      (NaN included) red. */
  function PopularityColor(p: JsNumber): (c: Color)
    ensures c == Verde <==> p.Num? && p.v >= 80.0
    ensures c == Naranja <==> p.Num? && 60.0 <= p.v < 80.0
    ensures c == Rojo <==> p.NaN? || p.v < 60.0
  {
    if p.Num? && p.v >= 80.0 then Verde
    else if p.Num? && p.v >= 60.0 then Naranja
    else Rojo
  }

  function Rango(c: Color): nat
  {
    match c
    case Rojo => 0
    case Naranja => 1
    case Verde => 2
  }

  /** A higher popularity never gets a lower colour. */
  lemma ColorMonotono(a: real, b: real)
    requires a <= b
    ensures Rango(PopularityColor(Num(a))) <= Rango(PopularityColor(Num(b)))
  {
  }

  /** The best seller's bar is green whenever something was sold. */
  lemma MejorVendidoEsVerde(productos: seq<ProductoVendido>, k: nat)
    requires k < |productos| && productos[k].cantidadVendida == MaxVentas(productos) && MaxVentas(productos) > 0
    ensures PopularityColor(Popularidad(productos[k].cantidadVendida, MaxVentas(productos))) == Verde
  {
    RoundPercentFull(MaxVentas(productos));
  }
}
