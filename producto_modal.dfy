/**
 * The ingredient editor and the submit of the product form
 * (src/features/productos/ui/ProductoModal.tsx): adding an ingredient
 * after its guards, removing one, editing a quantity in place, the ordered
 * validation of the form and the data handed to onSubmit.
 */
module ProductoModal {
  import opened Common
  import opened Text
  import opened AdminTypes
  import UseProductos

  /** One ingredient of the form: its quantity and the id of its insumo.
      The name, unit and cost copied from the insumo for display are not
      part of the model. */
  datatype Detalle = Detalle(cantidad: JsNumber, insumoId: int)

  /** The ingredient being entered: the insumo select and the quantity
      text. */
  datatype NuevoDetalle = NuevoDetalle(insumoId: IdText, cantidad: NumericText)

  const NUEVO_VACIO := NuevoDetalle(NoId, Blank)

  /** A quantity text that is non-empty, numeric and positive. */
  predicate CantidadValida(c: NumericText)
  {
    c.Numeric? && c.value > 0.0
  }

  /** No two ingredients use the same insumo. */
  predicate IdsDistintos(detalles: seq<Detalle>)
  {
    forall j, k :: 0 <= j < k < |detalles| ==> detalles[j].insumoId != detalles[k].insumoId
  }

  /** The ingredients, the entry and the error text after handleAddDetalle. */
  datatype Agregado = Agregado(detalles: seq<Detalle>, nuevo: NuevoDetalle, error: string)

  /** handleAddDetalle. The checks run in order: an insumo and a valid
      quantity, an insumo of that id in the catalogue, and no ingredient
      with that insumo yet. Only when all pass is one ingredient appended
      and the entry cleared. */
  function AgregarDetalle(detalles: seq<Detalle>, nuevo: NuevoDetalle, insumos: seq<Insumo>): (r: Agregado)
    ensures !(nuevo.insumoId.IdOf? && CantidadValida(nuevo.cantidad)) ==>
              r == Agregado(detalles, nuevo, "Debe seleccionar un insumo y una cantidad válida")
    ensures nuevo.insumoId.IdOf? && CantidadValida(nuevo.cantidad)
            && (forall k :: 0 <= k < |insumos| ==> insumos[k].id != nuevo.insumoId.id) ==>
              r == Agregado(detalles, nuevo, "Insumo no encontrado")
    ensures nuevo.insumoId.IdOf? && CantidadValida(nuevo.cantidad)
            && (exists k :: 0 <= k < |insumos| && insumos[k].id == nuevo.insumoId.id)
            && (exists k :: 0 <= k < |detalles| && detalles[k].insumoId == nuevo.insumoId.id) ==>
              r == Agregado(detalles, nuevo, "Este insumo ya está en la lista")
    ensures nuevo.insumoId.IdOf? && CantidadValida(nuevo.cantidad)
            && (exists k :: 0 <= k < |insumos| && insumos[k].id == nuevo.insumoId.id)
            && (forall k :: 0 <= k < |detalles| ==> detalles[k].insumoId != nuevo.insumoId.id) ==>
              r == Agregado(detalles + [Detalle(Num(nuevo.cantidad.value), nuevo.insumoId.id)], NUEVO_VACIO, "")
  {
    if !IdTruthy(nuevo.insumoId) || nuevo.cantidad.Blank? || NumberOf(nuevo.cantidad).NaN?
       || NumberOf(nuevo.cantidad).v <= 0.0 then
      Agregado(detalles, nuevo, "Debe seleccionar un insumo y una cantidad válida")
    else
      var id := IdNumber(nuevo.insumoId);
      var seleccionado := Find(insumos, (x: Insumo) => x.id == id);
      if seleccionado.None? then Agregado(detalles, nuevo, "Insumo no encontrado")
      else if FirstIndex(detalles, (d: Detalle) => d.insumoId == id) >= 0 then
        Agregado(detalles, nuevo, "Este insumo ya está en la lista")
      else Agregado(detalles + [Detalle(NumberOf(nuevo.cantidad), id)], NUEVO_VACIO, "")
  }

  /** Adding keeps the insumos of the ingredients pairwise distinct. */
  lemma AgregarConservaDistintos(detalles: seq<Detalle>, nuevo: NuevoDetalle, insumos: seq<Insumo>)
    requires IdsDistintos(detalles)
    ensures IdsDistintos(AgregarDetalle(detalles, nuevo, insumos).detalles)
  {
    var r := AgregarDetalle(detalles, nuevo, insumos);
    if r.detalles != detalles {
      var d := r.detalles;
      assert d == detalles + [d[|d| - 1]];
      assert forall k :: 0 <= k < |detalles| ==> detalles[k].insumoId != d[|d| - 1].insumoId;
      forall j, k | 0 <= j < k < |d|
        ensures d[j].insumoId != d[k].insumoId
      {
        if k < |detalles| {
          assert d[j] == detalles[j] && d[k] == detalles[k];
        } else {
          assert d[j] == detalles[j];
        }
      }
    }
  }

  /** handleRemoveDetalle: splice(index, 1) on a copy. A negative index
      counts from the end, and one before the first row removes the first;
      an index past the end removes nothing. */
  function QuitarDetalle(detalles: seq<Detalle>, index: int): (r: seq<Detalle>)
    ensures 0 <= index < |detalles| ==> r == detalles[..index] + detalles[index + 1..]
    ensures -|detalles| <= index < 0 ==>
              r == detalles[..|detalles| + index] + detalles[|detalles| + index + 1..]
    ensures index < -|detalles| && |detalles| > 0 ==> r == detalles[1..]
    ensures index >= |detalles| ==> r == detalles
  {
    var k := SpliceStart(|detalles|, index);
    if k < |detalles| then detalles[..k] + detalles[k + 1..] else detalles
  }

  /** Removing an ingredient keeps the others' insumos distinct. */
  lemma QuitarConservaDistintos(detalles: seq<Detalle>, index: int)
    requires IdsDistintos(detalles)
    ensures IdsDistintos(QuitarDetalle(detalles, index))
  {
    var r := QuitarDetalle(detalles, index);
    var i := SpliceStart(|detalles|, index);
    if i < |detalles| {
      forall j, k | 0 <= j < k < |r|
        ensures r[j].insumoId != r[k].insumoId
      {
        var j', k' := if j < i then j else j + 1, if k < i then k else k + 1;
        assert r[j] == detalles[j'] && r[k] == detalles[k'] && j' < k';
      }
    }
  }

  /** The quantity input of row `index`: Number(value) replaces that row's
      quantity and nothing else. */
  function CambiarCantidad(detalles: seq<Detalle>, index: int, cantidad: JsNumber): (r: seq<Detalle>)
    requires 0 <= index < |detalles|
    ensures |r| == |detalles| && r[index].cantidad == cantidad
    ensures forall k :: 0 <= k < |r| ==> r[k].insumoId == detalles[k].insumoId
    ensures forall k :: 0 <= k < |r| && k != index ==> r[k] == detalles[k]
  {
    detalles[index := detalles[index].(cantidad := cantidad)]
  }

  lemma CambiarConservaDistintos(detalles: seq<Detalle>, index: int, cantidad: JsNumber)
    requires 0 <= index < |detalles| && IdsDistintos(detalles)
    ensures IdsDistintos(CambiarCantidad(detalles, index, cantidad))
  {
  }

  /** The product form. `rubro` is the select's text; time and price are
      input texts (the values an edit starts from are numbers, which behave
      as their texts). */
  datatype FormProducto = FormProducto(
    id: int,
    denominacion: string,
    descripcion: string,
    rubro: IdText,
    tiempoEstimadoProduccion: NumericText,
    precioVenta: NumericText,
    imagen: Option<Imagen>)

  /** A time or price text that is non-empty, numeric and positive. */
  predicate Positivo(t: NumericText)
  {
    t.Numeric? && t.value > 0.0
  }

  /** The test the submit applies to a time or price text: empty, not a
      number, or not positive. */
  function Invalido(t: NumericText): (r: bool)
    ensures r <==> !Positivo(t)
  {
    t.Blank? || NumberOf(t).NaN? || NumberOf(t).v <= 0.0
  }

  /** The checks of handleSubmit, in order; the first that fails gives the
      error shown. */
  function ValidarProducto(f: FormProducto, cantidadDetalles: nat, edicion: bool, archivoElegido: bool): (r: Option<string>)
    ensures IsBlank(f.denominacion) ==> r == Some("El nombre del producto es obligatorio")
    ensures !IsBlank(f.denominacion) && IsBlank(f.descripcion) ==> r == Some("La descripción es obligatoria")
  {
    if IsBlank(f.denominacion) then Some("El nombre del producto es obligatorio")
    else if IsBlank(f.descripcion) then Some("La descripción es obligatoria")
    else if !IdTruthy(f.rubro) then Some("Debe seleccionar un rubro")
    else if Invalido(f.tiempoEstimadoProduccion) then
      Some("Debe ingresar un tiempo de preparación válido")
    else if cantidadDetalles == 0 then Some("Debe agregar al menos un ingrediente")
    else if edicion then
      if Invalido(f.precioVenta) then
        Some("Debe ingresar un precio de venta válido")
      else None
    else if !archivoElegido then Some("Debe seleccionar una imagen para el producto")
    else None
  }

  /** The form passes exactly when it has a name, a description, a rubro,
      a positive time and an ingredient, and also a positive price when
      editing or an image when creating. */
  lemma ValidoSii(f: FormProducto, cantidadDetalles: nat, edicion: bool, archivoElegido: bool)
    ensures ValidarProducto(f, cantidadDetalles, edicion, archivoElegido).None? <==>
              !IsBlank(f.denominacion) && !IsBlank(f.descripcion) && f.rubro.IdOf?
              && Positivo(f.tiempoEstimadoProduccion) && cantidadDetalles > 0
              && (if edicion then Positivo(f.precioVenta) else archivoElegido)
  {
  }

  /** The data handed to onSubmit, with the id (null when creating) and
      the image an edit keeps. */
  datatype Envio = Envio(id: Option<int>, datos: UseProductos.DatosProducto<Detalle>, imagen: Option<Imagen>)

  /** The data of a valid form. Editing sends the price and the rubro as
      `{ id }` and keeps the current image unless a file was chosen;
      creating sends the rubro's text and no price. */
  function DatosEnvio(f: FormProducto, detalles: seq<Detalle>, edicion: bool, archivoElegido: bool): (e: Envio)
    ensures e.id == if edicion then Some(f.id) else None
    ensures e.datos.detalles == detalles
    ensures e.datos.denominacion == f.denominacion && e.datos.descripcion == f.descripcion
    ensures e.datos.tiempoEstimadoProduccion == NumberOf(f.tiempoEstimadoProduccion)
    ensures edicion ==> e.datos.rubro == UseProductos.RubroObjeto(UseProductos.Texto(f.rubro))
                        && e.datos.precioVenta == Some(NumberOf(f.precioVenta))
                        && e.imagen == ImagenConservada(archivoElegido, f.imagen)
    ensures !edicion ==> e.datos.rubro == UseProductos.RubroPlano(f.rubro) && e.datos.precioVenta.None? && e.imagen.None?
  {
    if edicion then
      Envio(Some(f.id),
            UseProductos.DatosProducto(f.denominacion, f.descripcion, NumberOf(f.tiempoEstimadoProduccion),
                                       UseProductos.RubroObjeto(UseProductos.Texto(f.rubro)),
                                       Map(detalles, (d: Detalle) => Detalle(d.cantidad, d.insumoId)),
                                       Some(NumberOf(f.precioVenta))),
            ImagenConservada(archivoElegido, f.imagen))
    else
      Envio(None,
            UseProductos.DatosProducto(f.denominacion, f.descripcion, NumberOf(f.tiempoEstimadoProduccion),
                                       UseProductos.RubroPlano(f.rubro),
                                       Map(detalles, (d: Detalle) => Detalle(d.cantidad, d.insumoId)),
                                       None),
            None)
  }

  /** A creation reaches the API with the rubro as `{ id }` of the
      selected text, as an edit sends it. */
  lemma CreacionEnviaRubroComoEdicion(f: FormProducto, detalles: seq<Detalle>, archivoElegido: bool)
    ensures UseProductos.CuerpoCrear(DatosEnvio(f, detalles, false, archivoElegido).datos).rubroId
            == DatosEnvio(f, detalles, true, archivoElegido).datos.rubro.id
  {
  }
}
