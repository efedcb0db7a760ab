/**
 * The promotion viewer (src/features/promociones/ui/VerItemModal.tsx):
 * the unit label of an insumo and the two lists of a promotion's
 * products and insumos, each looked up in its catalogue.
 */
module VerItemModal {
  import opened Common
  import opened Text
  import opened AdminTypes
  import opened UsePromociones

  /** unidadMedidaLabel: the short forms of the known units, the lower-cased
      text of any other, and "" for a missing or empty unit. */
  function UnidadMedidaLabel(unidad: Option<string>): (r: string)
    ensures unidad.None? || unidad == Some("") ==> r == ""
    ensures unidad == Some("GRAMOS") ==> r == "gr"
    ensures unidad == Some("MILILITROS") ==> r == "ml"
    ensures unidad == Some("UNIDADES") ==> r == "u"
    ensures unidad.Some? && unidad.value !in {"", "GRAMOS", "MILILITROS", "UNIDADES"} ==> r == ToLower(unidad.value)
  {
    if unidad.None? || unidad.value == "" then ""
    else match unidad.value
      case "GRAMOS" => "gr"
      case "MILILITROS" => "ml"
      case "UNIDADES" => "u"
      case _ => ToLower(unidad.value)
  }

  /** Every label is in lower case. */
  lemma EtiquetaEnMinusculas(unidad: Option<string>)
    ensures ToLower(UnidadMedidaLabel(unidad)) == UnidadMedidaLabel(unidad)
  {
    if unidad.Some? && unidad.value !in {"", "GRAMOS", "MILILITROS", "UNIDADES"} {
      ToLowerIdempotent(unidad.value);
    } else {
      assert ToLower("gr") == "gr" && ToLower("ml") == "ml" && ToLower("u") == "u";
    }
  }

  /** One line of a list: the detail's quantity and the article's data. */
  datatype Linea = Linea(cantidad: JsNumber, denominacion: string, descripcion: Option<string>,
                         precioVenta: real, unidad: string)

  predicate ConManufacturado(d: DetalleApi)
  {
    d.articuloManufacturado.Some? && d.articuloManufacturado.value > 0
  }

  predicate ConInsumo(d: DetalleApi)
  {
    d.articuloInsumo.Some? && d.articuloInsumo.value > 0
  }

  /** The catalogue product with that id (`find`). */
  function ProductoPorId(catalogo: seq<Producto>, id: int): (r: Option<Producto>)
    ensures r.None? <==> forall k :: 0 <= k < |catalogo| ==> catalogo[k].id != id
    ensures r.Some? ==> r.value in catalogo && r.value.id == id
  {
    Find(catalogo, (p: Producto) => p.id == id)
  }

  /** The catalogue insumo with that id. */
  function InsumoPorId(insumos: seq<Insumo>, id: int): (r: Option<Insumo>)
    ensures r.None? <==> forall k :: 0 <= k < |insumos| ==> insumos[k].id != id
    ensures r.Some? ==> r.value in insumos && r.value.id == id
  {
    Find(insumos, (i: Insumo) => i.id == id)
  }

  predicate ProductoEncontrado(d: DetalleApi, catalogo: seq<Producto>)
  {
    ConManufacturado(d) && ProductoPorId(catalogo, d.articuloManufacturado.value).Some?
  }

  predicate InsumoEncontrado(d: DetalleApi, insumos: seq<Insumo>)
  {
    ConInsumo(d) && InsumoPorId(insumos, d.articuloInsumo.value).Some?
  }

  /** The line of a detail whose product is in the catalogue. */
  function LineaProducto(d: DetalleApi, catalogo: seq<Producto>): (l: Linea)
    requires ProductoEncontrado(d, catalogo)
    ensures l.unidad == "u" && l.cantidad == d.cantidad
  {
    var p := ProductoPorId(catalogo, d.articuloManufacturado.value).value;
    Linea(d.cantidad, p.denominacion, Some(p.descripcion), p.precioVenta, "u")
  }

  /** The line of a detail whose insumo is in the catalogue. */
  function LineaInsumo(d: DetalleApi, insumos: seq<Insumo>): (l: Linea)
    requires InsumoEncontrado(d, insumos)
    ensures l.cantidad == d.cantidad
    ensures l.unidad == UnidadMedidaLabel(Some(InsumoPorId(insumos, d.articuloInsumo.value).value.unidadMedida))
  {
    var i := InsumoPorId(insumos, d.articuloInsumo.value).value;
    Linea(d.cantidad, i.denominacion, None, i.precioVenta, UnidadMedidaLabel(Some(i.unidadMedida)))
  }

  /** The map step of the products list: a line, or null when the product
      is missing from the catalogue. */
  function LineaProductoONulo(d: DetalleApi, catalogo: seq<Producto>): (r: Option<Linea>)
    ensures ConManufacturado(d) ==> (r.Some? <==> ProductoEncontrado(d, catalogo))
    ensures r.Some? ==> ProductoEncontrado(d, catalogo) && r.value == LineaProducto(d, catalogo)
  {
    if ProductoEncontrado(d, catalogo) then Some(LineaProducto(d, catalogo)) else None
  }

  function LineaInsumoONulo(d: DetalleApi, insumos: seq<Insumo>): (r: Option<Linea>)
    ensures ConInsumo(d) ==> (r.Some? <==> InsumoEncontrado(d, insumos))
    ensures r.Some? ==> InsumoEncontrado(d, insumos) && r.value == LineaInsumo(d, insumos)
  {
    if InsumoEncontrado(d, insumos) then Some(LineaInsumo(d, insumos)) else None
  }

  /** The products list: filter by a positive product id, map to a line or
      null, filter(Boolean). */
  function Productos(detalles: seq<DetalleApi>, catalogo: seq<Producto>): seq<Linea>
  {
    Somes(Map(Filter(detalles, ConManufacturado), (d: DetalleApi) => LineaProductoONulo(d, catalogo)))
  }

  /** The insumos list, built the same way. */
  function Insumos(detalles: seq<DetalleApi>, insumos: seq<Insumo>): seq<Linea>
  {
    Somes(Map(Filter(detalles, ConInsumo), (d: DetalleApi) => LineaInsumoONulo(d, insumos)))
  }

  /** The value of a present line (a placeholder otherwise). */
  function ValorLinea(o: Option<Linea>): Linea
  {
    if o.Some? then o.value else Linea(NaN, "", None, 0.0, "")
  }

  /** The products list has one line per detail with a positive product id
      found in the catalogue, in the details' order, each with that
      detail's quantity and the product's data. */
  lemma ProductosSonLosEncontrados(detalles: seq<DetalleApi>, catalogo: seq<Producto>)
    ensures var e := Filter(detalles, (d: DetalleApi) => ProductoEncontrado(d, catalogo));
      var r := Productos(detalles, catalogo);
      |r| == |e| && forall k :: 0 <= k < |r| ==> r[k] == LineaProducto(e[k], catalogo)
  {
    var encontrado := (d: DetalleApi) => ProductoEncontrado(d, catalogo);
    var f := (d: DetalleApi) => LineaProductoONulo(d, catalogo);
    var s := Filter(detalles, ConManufacturado);
    SomesOfMap(s, f, encontrado, (d: DetalleApi) => ValorLinea(f(d)));
    FilterFilter(detalles, ConManufacturado, encontrado, encontrado);
  }

  /** The insumos list has one line per detail with a positive insumo id
      found in the catalogue, in order, with the insumo's unit label. */
  lemma InsumosSonLosEncontrados(detalles: seq<DetalleApi>, insumos: seq<Insumo>)
    ensures var e := Filter(detalles, (d: DetalleApi) => InsumoEncontrado(d, insumos));
      var r := Insumos(detalles, insumos);
      |r| == |e| && forall k :: 0 <= k < |r| ==> r[k] == LineaInsumo(e[k], insumos)
  {
    var encontrado := (d: DetalleApi) => InsumoEncontrado(d, insumos);
    var f := (d: DetalleApi) => LineaInsumoONulo(d, insumos);
    var s := Filter(detalles, ConInsumo);
    SomesOfMap(s, f, encontrado, (d: DetalleApi) => ValorLinea(f(d)));
    FilterFilter(detalles, ConInsumo, encontrado, encontrado);
  }

  /** The two lists are built independently: a detail naming both a
      catalogue product and a catalogue insumo is shown in both. */
  lemma DetalleDobleEnAmbas(detalles: seq<DetalleApi>, catalogo: seq<Producto>, insumos: seq<Insumo>, i: nat)
    requires i < |detalles| && ProductoEncontrado(detalles[i], catalogo) && InsumoEncontrado(detalles[i], insumos)
    ensures LineaProducto(detalles[i], catalogo) in Productos(detalles, catalogo)
    ensures LineaInsumo(detalles[i], insumos) in Insumos(detalles, insumos)
  {
    ProductoListado(detalles, catalogo, i);
    InsumoListado(detalles, insumos, i);
  }

  /** A detail whose product is in the catalogue is listed as a product. */
  lemma ProductoListado(detalles: seq<DetalleApi>, catalogo: seq<Producto>, i: nat)
    requires i < |detalles| && ProductoEncontrado(detalles[i], catalogo)
    ensures LineaProducto(detalles[i], catalogo) in Productos(detalles, catalogo)
  {
    var d := detalles[i];
    var ep := Filter(detalles, (x: DetalleApi) => ProductoEncontrado(x, catalogo));
    ProductosSonLosEncontrados(detalles, catalogo);
    assert d in ep;
    var k :| 0 <= k < |ep| && ep[k] == d;
    assert Productos(detalles, catalogo)[k] == LineaProducto(d, catalogo);
  }

  /** A detail whose insumo is in the catalogue is listed as an insumo. */
  lemma InsumoListado(detalles: seq<DetalleApi>, insumos: seq<Insumo>, i: nat)
    requires i < |detalles| && InsumoEncontrado(detalles[i], insumos)
    ensures LineaInsumo(detalles[i], insumos) in Insumos(detalles, insumos)
  {
    var d := detalles[i];
    var ei := Filter(detalles, (x: DetalleApi) => InsumoEncontrado(x, insumos));
    InsumosSonLosEncontrados(detalles, insumos);
    assert d in ei;
    var j :| 0 <= j < |ei| && ei[j] == d;
    assert Insumos(detalles, insumos)[j] == LineaInsumo(d, insumos);
  }
}
