/**
 * The order detail dialog (src/features/gestion/ui/VerPedidoModal.tsx):
 * which source gives each line's name, description and unit price, and
 * the subtotal of the order.
 */
module VerPedidoModal {
  import opened Common
  import opened Text

  datatype Articulo = Articulo(id: int, denominacion: string, descripcion: string, precioVenta: real)
  datatype Promocion = Promocion(id: int, precio: Option<real>)

  /** One line of an order; each source is optional. */
  datatype DetallePedido = DetallePedido(
    cantidad: real,
    subTotal: Option<real>,
    articuloManufacturado: Option<Articulo>,
    articuloInsumo: Option<Articulo>,
    promocion: Option<Promocion>)

  /** getDenominacionArticulo: the product's name, else the insumo's, else
      "Promoción #id", else a fixed text. */
  function DenominacionArticulo(d: DetallePedido): (r: string)
    ensures d.articuloManufacturado.Some? ==> r == d.articuloManufacturado.value.denominacion
    ensures d.articuloManufacturado.None? && d.articuloInsumo.Some? ==> r == d.articuloInsumo.value.denominacion
    ensures d.articuloManufacturado.None? && d.articuloInsumo.None? && d.promocion.Some? ==>
              r == "Promoción #" + IntToString(d.promocion.value.id)
    ensures d.articuloManufacturado.None? && d.articuloInsumo.None? && d.promocion.None? ==>
              r == "Artículo no disponible"
  {
    if d.articuloManufacturado.Some? then d.articuloManufacturado.value.denominacion
    else if d.articuloInsumo.Some? then d.articuloInsumo.value.denominacion
    else if d.promocion.Some? then "Promoción #" + IntToString(d.promocion.value.id)
    else "Artículo no disponible"
  }

  /** getDescripcionArticulo: only a product has a description. */
  function DescripcionArticulo(d: DetallePedido): (r: Option<string>)
    ensures r.Some? <==> d.articuloManufacturado.Some?
    ensures r.Some? ==> r.value == d.articuloManufacturado.value.descripcion
  {
    if d.articuloManufacturado.Some? then Some(d.articuloManufacturado.value.descripcion) else None
  }

  /** Where getPrecioUnitario takes the price from, with the amount before
      it is formatted with two decimals. */
  datatype FuentePrecio =
    | DelManufacturado(monto: real)
    | DelInsumo(monto: real)
    | DePromocion(monto: real)
    | Prorrateado(monto: real)
    | Cero

  /** getPrecioUnitario: the product's price, else the insumo's, else a
      promotion's non-zero price, else a non-zero subtotal over a positive
      quantity, else "0.00". */
  function PrecioUnitario(d: DetallePedido): (r: FuentePrecio)
    ensures d.articuloManufacturado.Some? ==> r == DelManufacturado(d.articuloManufacturado.value.precioVenta)
    ensures d.articuloManufacturado.None? && d.articuloInsumo.Some? ==> r == DelInsumo(d.articuloInsumo.value.precioVenta)
    ensures r.DePromocion? <==> d.articuloManufacturado.None? && d.articuloInsumo.None?
                                && d.promocion.Some? && d.promocion.value.precio.Some? && d.promocion.value.precio.value != 0.0
    ensures r.DePromocion? ==> r.monto == d.promocion.value.precio.value
    ensures r.Prorrateado? ==> d.cantidad > 0.0 && d.subTotal.Some? && d.subTotal.value != 0.0
                               && r.monto == d.subTotal.value / d.cantidad
  {
    if d.articuloManufacturado.Some? then DelManufacturado(d.articuloManufacturado.value.precioVenta)
    else if d.articuloInsumo.Some? then DelInsumo(d.articuloInsumo.value.precioVenta)
    else if d.promocion.Some? && d.promocion.value.precio.Some? && d.promocion.value.precio.value != 0.0 then
      DePromocion(d.promocion.value.precio.value)
    else if d.subTotal.Some? && d.subTotal.value != 0.0 && d.cantidad > 0.0 then
      Prorrateado(d.subTotal.value / d.cantidad)
    else Cero
  }

  /** The name, the description and the price come from the same source:
      the product when the line has one, else the insumo. */
  lemma NombreYPrecioDeLaMismaFuente(d: DetallePedido)
    ensures PrecioUnitario(d).DelManufacturado? <==> d.articuloManufacturado.Some?
    ensures PrecioUnitario(d).DelInsumo? <==> d.articuloManufacturado.None? && d.articuloInsumo.Some?
    ensures PrecioUnitario(d).DelManufacturado? ==>
              DenominacionArticulo(d) == d.articuloManufacturado.value.denominacion
              && DescripcionArticulo(d) == Some(d.articuloManufacturado.value.descripcion)
    ensures PrecioUnitario(d).DelInsumo? ==>
              DenominacionArticulo(d) == d.articuloInsumo.value.denominacion && DescripcionArticulo(d).None?
  {
  }

  /** A line with no source and no usable subtotal is priced "0.00". */
  lemma SinFuenteEsCero(d: DetallePedido)
    requires d.articuloManufacturado.None? && d.articuloInsumo.None? && d.promocion.None?
    requires d.subTotal.None? || d.cantidad <= 0.0
    ensures PrecioUnitario(d) == Cero
  {
  }

  /** What one line adds to the subtotal: `subTotal || 0`. */
  function Aporte(d: DetallePedido): (r: real)
    ensures d.subTotal.Some? ==> r == d.subTotal.value
    ensures d.subTotal.None? ==> r == 0.0
  {
    if d.subTotal.Some? then d.subTotal.value else 0.0
  }

  /** The reduce over the lines, from the first to the last. */
  function Subtotal(detalles: seq<DetallePedido>): real
    decreases |detalles|
  {
    if detalles == [] then 0.0
    else Subtotal(detalles[..|detalles| - 1]) + Aporte(detalles[|detalles| - 1])
  }

  /** The subtotal of two runs of lines is the sum of theirs. */
  lemma {:induction false} SubtotalConcat(a: seq<DetallePedido>, b: seq<DetallePedido>)
    ensures Subtotal(a + b) == Subtotal(a) + Subtotal(b)
    decreases |b|
  {
    if b == [] {
      assert a + b == a;
    } else {
      assert (a + b)[..|a + b| - 1] == a + b[..|b| - 1];
      SubtotalConcat(a, b[..|b| - 1]);
    }
  }

  /** With non-negative line subtotals the sum is non-negative and at
      least each line's own. */
  lemma {:induction false} SubtotalCotas(detalles: seq<DetallePedido>)
    requires forall k :: 0 <= k < |detalles| ==> Aporte(detalles[k]) >= 0.0
    ensures Subtotal(detalles) >= 0.0
    ensures forall k :: 0 <= k < |detalles| ==> Subtotal(detalles) >= Aporte(detalles[k])
    decreases |detalles|
  {
    if detalles != [] {
      var init := detalles[..|detalles| - 1];
      SubtotalCotas(init);
      forall k | 0 <= k < |detalles|
        ensures Subtotal(detalles) >= Aporte(detalles[k])
      {
        if k < |init| {
          assert detalles[k] == init[k];
        }
      }
    }
  }

  /** A line without a subtotal does not change the subtotal, wherever it
      stands. */
  lemma SinSubtotalNoSuma(a: seq<DetallePedido>, d: DetallePedido, b: seq<DetallePedido>)
    requires d.subTotal.None?
    ensures Subtotal(a + [d] + b) == Subtotal(a + b)
  {
    SubtotalConcat(a + [d], b);
    SubtotalConcat(a, [d]);
    SubtotalConcat(a, b);
    assert Subtotal([d]) == Subtotal([]) + Aporte(d);
  }
}
