/**
 * The promotion form (src/features/promociones/ui/PromocionModal.tsx):
 * the rows an edit starts from, adding, removing and editing detail rows,
 * and the ordered validation of handleSubmit, whose row checks are a loop
 * that stops at the first failing row.
 */
module PromocionModal {
  import opened Common
  import opened Text
  import opened UsePromociones

  /** The form: the two date texts, the discount text and the rows. */
  datatype FormPromocion = FormPromocion(
    fechaInicio: string,
    fechaFin: string,
    descuento: NumericText,
    detalles: seq<DetalleUI>)

  /** The row handleAddDetalle appends. */
  const FILA_NUEVA := DetalleUI(Producto, NoId, NoId, Num(1.0))

  /** handleAddDetalle: one empty product row at the end. */
  function AgregarFila(f: FormPromocion): (g: FormPromocion)
    ensures g.detalles == f.detalles + [FILA_NUEVA]
    ensures g.fechaInicio == f.fechaInicio && g.fechaFin == f.fechaFin && g.descuento == f.descuento
  {
    f.(detalles := f.detalles + [FILA_NUEVA])
  }

  /** handleRemoveDetalle: keep the rows whose index is not `index`. */
  function QuitarFila(f: FormPromocion, index: int): (g: FormPromocion)
    ensures 0 <= index < |f.detalles| ==> g.detalles == f.detalles[..index] + f.detalles[index + 1..]
    ensures !(0 <= index < |f.detalles|) ==> g.detalles == f.detalles
    ensures g.fechaInicio == f.fechaInicio && g.fechaFin == f.fechaFin && g.descuento == f.descuento
  {
    f.(detalles := RemoveAt(f.detalles, index))
  }

  /** The field a row input changes, with its new value. */
  datatype Campo =
    | CampoTipo(tipo: Tipo)
    | CampoManufacturado(manufacturadoId: IdText)
    | CampoInsumo(insumoId: IdText)
    | CampoCantidad(cantidad: JsNumber)

  /** handleDetalleChange: a new kind clears both article selects; any
      other field replaces just that field. Other rows are unchanged. */
  function CambiarFila(detalles: seq<DetalleUI>, index: int, campo: Campo): (r: seq<DetalleUI>)
    requires 0 <= index < |detalles|
    ensures |r| == |detalles|
    ensures forall k :: 0 <= k < |r| && k != index ==> r[k] == detalles[k]
    ensures campo.CampoTipo? ==>
              r[index] == DetalleUI(campo.tipo, NoId, NoId, detalles[index].cantidad)
    ensures campo.CampoManufacturado? ==>
              r[index] == detalles[index].(articuloManufacturadoId := campo.manufacturadoId)
    ensures campo.CampoInsumo? ==> r[index] == detalles[index].(articuloInsumoId := campo.insumoId)
    ensures campo.CampoCantidad? ==> r[index] == detalles[index].(cantidad := campo.cantidad)
  {
    var d := detalles[index];
    var nueva := match campo
      case CampoTipo(t) => d.(tipo := t, articuloManufacturadoId := NoId, articuloInsumoId := NoId)
      case CampoManufacturado(v) => d.(articuloManufacturadoId := v)
      case CampoInsumo(v) => d.(articuloInsumoId := v)
      case CampoCantidad(c) => d.(cantidad := c);
    detalles[index := nueva]
  }

  /** The row an edit starts from for one stored detail: a manufactured
      article with a positive id wins, then an insumo with a positive id;
      otherwise an empty product row of quantity 1. A zero or NaN quantity
      becomes 1. */
  function FilaDeDetalle(a: DetalleApi): (d: DetalleUI)
    ensures a.articuloManufacturado.Some? && a.articuloManufacturado.value > 0 ==>
              d.tipo == Producto && d.articuloManufacturadoId == IdOf(a.articuloManufacturado.value)
              && d.articuloInsumoId == NoId
    ensures !(a.articuloManufacturado.Some? && a.articuloManufacturado.value > 0)
            && a.articuloInsumo.Some? && a.articuloInsumo.value > 0 ==>
              d.tipo == Insumo && d.articuloInsumoId == IdOf(a.articuloInsumo.value)
              && d.articuloManufacturadoId == NoId
    ensures !(a.articuloManufacturado.Some? && a.articuloManufacturado.value > 0)
            && !(a.articuloInsumo.Some? && a.articuloInsumo.value > 0) ==>
              d == FILA_NUEVA
    ensures NumberTruthy(d.cantidad)
  {
    var cantidad := if NumberTruthy(a.cantidad) then a.cantidad else Num(1.0);
    if a.articuloManufacturado.Some? && a.articuloManufacturado.value > 0 then
      DetalleUI(Producto, IdOf(a.articuloManufacturado.value), NoId, cantidad)
    else if a.articuloInsumo.Some? && a.articuloInsumo.value > 0 then
      DetalleUI(Insumo, NoId, IdOf(a.articuloInsumo.value), cantidad)
    else FILA_NUEVA
  }

  /** A stored detail naming exactly one article, with a positive id and a
      non-zero quantity, is sent back unchanged when the form is saved
      without touching its row. */
  lemma FilaIdaYVuelta(a: DetalleApi)
    requires NumberTruthy(a.cantidad)
    requires (a.articuloManufacturado.Some? && a.articuloManufacturado.value > 0 && a.articuloInsumo.None?)
             || (a.articuloInsumo.Some? && a.articuloInsumo.value > 0 && a.articuloManufacturado.None?)
    ensures ADetalleApi(FilaDeDetalle(a)) == a
  {
  }

  /** What the row checks ask of one row. */
  predicate FilaValida(d: DetalleUI)
  {
    && (d.tipo == Producto ==> d.articuloManufacturadoId.IdOf? && d.articuloInsumoId.NoId?)
    && (d.tipo == Insumo ==> d.articuloInsumoId.IdOf? && d.articuloManufacturadoId.NoId?)
    && d.cantidad.Num? && d.cantidad.v > 0.0
  }

  /** The error of the first failing check of row `i` (shown numbered from
      1), in the order of handleSubmit. */
  function ErrorFila(d: DetalleUI, i: nat): (r: Option<string>)
    ensures r.None? <==> FilaValida(d)
  {
    var fila := NatToString(i + 1);
    if d.tipo == Producto && !IdTruthy(d.articuloManufacturadoId) then
      Some("Debe seleccionar un producto en la fila " + fila)
    else if d.tipo == Insumo && !IdTruthy(d.articuloInsumoId) then
      Some("Debe seleccionar un insumo en la fila " + fila)
    else if d.tipo == Producto && IdTruthy(d.articuloInsumoId) then
      Some("No puede tener ambos tipos de artículo en la fila " + fila)
    else if d.tipo == Insumo && IdTruthy(d.articuloManufacturadoId) then
      Some("No puede tener ambos tipos de artículo en la fila " + fila)
    else if !NumberTruthy(d.cantidad) || d.cantidad.v <= 0.0 then
      Some("La cantidad debe ser mayor a 0 en la fila " + fila)
    else None
  }

  /** The error of the first failing row from index `i` on. */
  function ErrorFilasDesde(detalles: seq<DetalleUI>, i: nat): (r: Option<string>)
    requires i <= |detalles|
    decreases |detalles| - i
  {
    if i == |detalles| then None
    else if ErrorFila(detalles[i], i).Some? then ErrorFila(detalles[i], i)
    else ErrorFilasDesde(detalles, i + 1)
  }

  /** The rows from `i` on raise no error exactly when all of them are
      valid, and an error is that of the first invalid one. */
  lemma {:induction false} ErrorFilasDesdeSii(detalles: seq<DetalleUI>, i: nat)
    requires i <= |detalles|
    ensures ErrorFilasDesde(detalles, i).None? <==> forall k :: i <= k < |detalles| ==> FilaValida(detalles[k])
    ensures ErrorFilasDesde(detalles, i).Some? ==>
              exists k :: i <= k < |detalles| && !FilaValida(detalles[k])
                          && (forall j :: i <= j < k ==> FilaValida(detalles[j]))
                          && ErrorFilasDesde(detalles, i) == ErrorFila(detalles[k], k)
    decreases |detalles| - i
  {
    if i < |detalles| {
      ErrorFilasDesdeSii(detalles, i + 1);
      if FilaValida(detalles[i]) && ErrorFilasDesde(detalles, i + 1).Some? {
        var k :| i + 1 <= k < |detalles| && !FilaValida(detalles[k])
                 && (forall j :: i + 1 <= j < k ==> FilaValida(detalles[j]))
                 && ErrorFilasDesde(detalles, i + 1) == ErrorFila(detalles[k], k);
        assert forall j :: i <= j < k ==> FilaValida(detalles[j]);
      }
    }
  }

  /** The row checks of handleSubmit: a loop over the rows that returns at
      the first failing check. */
  method ValidarFilas(detalles: seq<DetalleUI>) returns (error: Option<string>)
    ensures error == ErrorFilasDesde(detalles, 0)
  {
    var i := 0;
    while i < |detalles|
      invariant 0 <= i <= |detalles|
      invariant ErrorFilasDesde(detalles, 0) == ErrorFilasDesde(detalles, i)
    {
      var d := detalles[i];
      var fila := NatToString(i + 1);
      if d.tipo == Producto && !IdTruthy(d.articuloManufacturadoId) {
        return Some("Debe seleccionar un producto en la fila " + fila);
      }
      if d.tipo == Insumo && !IdTruthy(d.articuloInsumoId) {
        return Some("Debe seleccionar un insumo en la fila " + fila);
      }
      if d.tipo == Producto && IdTruthy(d.articuloInsumoId) {
        return Some("No puede tener ambos tipos de artículo en la fila " + fila);
      }
      if d.tipo == Insumo && IdTruthy(d.articuloManufacturadoId) {
        return Some("No puede tener ambos tipos de artículo en la fila " + fila);
      }
      if !NumberTruthy(d.cantidad) || d.cantidad.v <= 0.0 {
        return Some("La cantidad debe ser mayor a 0 en la fila " + fila);
      }
      i := i + 1;
    }
    return None;
  }

  /** The discount check: an empty text, or a number outside (0, 100],
      fails. A text that is not a number passes, as its comparisons with
      numbers are all false. */
  predicate DescuentoInvalido(d: NumericText)
  {
    d.Blank? || (d.Numeric? && (d.value <= 0.0 || d.value > 100.0))
  }

  /** The field checks of handleSubmit, in its order: the dates, the
      discount, the end after the start (`finPosterior`, decided on parsed
      dates), at least one row, and in a creation a start not before
      `hoy`. */
  function ErrorCampos(f: FormPromocion, edicion: bool, finPosterior: bool, hoy: string): Option<string>
  {
    if f.fechaInicio == [] then Some("La fecha de inicio es obligatoria")
    else if f.fechaFin == [] then Some("La fecha de fin es obligatoria")
    else if DescuentoInvalido(f.descuento) then Some("El descuento debe ser entre 1 y 100")
    else if !finPosterior then Some("La fecha de fin debe ser posterior a la fecha de inicio")
    else if |f.detalles| == 0 then Some("Debe agregar al menos un producto o insumo a la promoción")
    else if !edicion && Less(f.fechaInicio, hoy) then Some("La fecha de inicio no puede ser anterior a hoy")
    else None
  }

  /** The error of handleSubmit: the first failing field check, else the
      first invalid row. */
  function ErrorPromocion(f: FormPromocion, edicion: bool, finPosterior: bool, hoy: string): (r: Option<string>)
    ensures f.fechaInicio == [] ==> r == Some("La fecha de inicio es obligatoria")
    ensures f.fechaInicio != [] && f.fechaFin == [] ==> r == Some("La fecha de fin es obligatoria")
    ensures f.fechaInicio != [] && f.fechaFin != [] && DescuentoInvalido(f.descuento) ==>
              r == Some("El descuento debe ser entre 1 y 100")
    ensures r.None? ==> finPosterior && |f.detalles| > 0 && (!edicion ==> !Less(f.fechaInicio, hoy))
  {
    var campos := ErrorCampos(f, edicion, finPosterior, hoy);
    if campos.Some? then campos else ErrorFilasDesde(f.detalles, 0)
  }

  /** handleSubmit's checks: the field checks, then the row loop. */
  method ValidarPromocion(f: FormPromocion, edicion: bool, finPosterior: bool, hoy: string) returns (error: Option<string>)
    ensures error == ErrorPromocion(f, edicion, finPosterior, hoy)
  {
    error := ErrorCampos(f, edicion, finPosterior, hoy);
    if error.Some? {
      return;
    }
    error := ValidarFilas(f.detalles);
  }

  /** The form passes exactly when both dates are given, the discount
      passes, the end is after the start, there is a row, a creation does
      not start before today, and every row is valid. */
  lemma PromocionValidaSii(f: FormPromocion, edicion: bool, finPosterior: bool, hoy: string)
    ensures ErrorPromocion(f, edicion, finPosterior, hoy).None? <==>
              f.fechaInicio != [] && f.fechaFin != [] && !DescuentoInvalido(f.descuento) && finPosterior
              && |f.detalles| > 0 && !(!edicion && Less(f.fechaInicio, hoy))
              && forall k :: 0 <= k < |f.detalles| ==> FilaValida(f.detalles[k])
  {
    ErrorFilasDesdeSii(f.detalles, 0);
  }

  /** A failing row check reports the first invalid row. */
  lemma ErrorSenalaPrimeraFila(detalles: seq<DetalleUI>)
    requires ErrorFilasDesde(detalles, 0).Some?
    ensures exists k :: 0 <= k < |detalles| && !FilaValida(detalles[k])
                        && (forall j :: 0 <= j < k ==> FilaValida(detalles[j]))
                        && ErrorFilasDesde(detalles, 0) == ErrorFila(detalles[k], k)
  {
    ErrorFilasDesdeSii(detalles, 0);
  }

  /** Rows that pass the checks all reach the API, each naming exactly the
      article of its kind. */
  lemma FilasValidasSeEnvian(detalles: seq<DetalleUI>)
    requires ErrorFilasDesde(detalles, 0).None?
    ensures FormatearDetalles(detalles) == Map(detalles, ADetalleApi)
  {
    ErrorFilasDesdeSii(detalles, 0);
    FilterKeepsAll(detalles, Seleccionado);
    FormatearConservaFilas(detalles);
  }
}
