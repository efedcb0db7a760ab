/**
 * The insumo form (src/features/insumos/ui/InsumoModal.tsx): its initial
 * state, the rubro and subrubro selects, the ordered checks of a submit
 * and the data handed to onSubmit in each mode.
 */
module InsumoModal {
  import opened Common
  import opened Text
  import opened AdminTypes
  import UseInsumos

  /** The form. The selects hold id texts; the prices hold input texts
      (the numbers an edit starts from behave as their texts). */
  datatype FormInsumo = FormInsumo(
    id: int,
    denominacion: string,
    rubro: IdText,
    subRubro: IdText,
    unidadMedida: string,
    precioCompra: NumericText,
    precioVenta: NumericText,
    esParaElaborar: bool,
    stockActual: int,
    imagen: Option<Imagen>)

  /** The form the dialog opens with: the insumo's data when editing (its
      rubro's id, "" when it has none or a zero id; no subrubro), or an
      empty form when creating. */
  function FormInicial(insumo: Option<Insumo>): (f: FormInsumo)
    ensures insumo.None? ==> f.denominacion == "" && f.rubro.NoId? && f.unidadMedida == ""
                             && f.precioCompra.Blank? && f.precioVenta.Blank? && !f.esParaElaborar
                             && f.imagen.None?
    ensures insumo.Some? ==> f.id == insumo.value.id && f.denominacion == insumo.value.denominacion
                             && f.unidadMedida == insumo.value.unidadMedida
                             && f.precioCompra == Numeric(insumo.value.precioCompra)
                             && f.precioVenta == Numeric(insumo.value.precioVenta)
                             && f.esParaElaborar == insumo.value.esParaElaborar
                             && f.stockActual == insumo.value.stockActual
                             && f.imagen == insumo.value.imagen
    ensures insumo.Some? ==>
              (f.rubro.IdOf? <==> insumo.value.rubro.Some? && insumo.value.rubro.value.id != 0)
              && (f.rubro.IdOf? ==> f.rubro.id == insumo.value.rubro.value.id)
    ensures f.subRubro.NoId?
  {
    if insumo.None? then FormInsumo(0, "", NoId, NoId, "", Blank, Blank, false, 0, None)
    else
      var i := insumo.value;
      FormInsumo(i.id, i.denominacion,
                 if i.rubro.Some? && i.rubro.value.id != 0 then IdOf(i.rubro.value.id) else NoId,
                 NoId, i.unidadMedida, Numeric(i.precioCompra), Numeric(i.precioVenta),
                 i.esParaElaborar, i.stockActual, i.imagen)
  }

  /** The rubro select's onChange: sets the rubro and clears the subrubro. */
  function CambiarRubro(f: FormInsumo, rubro: IdText): (g: FormInsumo)
    ensures g.rubro == rubro && g.subRubro.NoId?
    ensures g == f.(rubro := rubro, subRubro := NoId)
  {
    f.(rubro := rubro, subRubro := NoId)
  }

  /** The rubro sent: the subrubro when one is chosen, else the rubro. */
  function RubroEnviado(f: FormInsumo): (r: IdText)
    ensures f.subRubro.IdOf? ==> r == f.subRubro
    ensures f.subRubro.NoId? ==> r == f.rubro
  {
    if IdTruthy(f.subRubro) then f.subRubro else f.rubro
  }

  /** After the rubro changes, the rubro sent is the new one until a
      subrubro is chosen. */
  lemma CambiarRubroEnvia(f: FormInsumo, rubro: IdText)
    ensures RubroEnviado(CambiarRubro(f, rubro)) == rubro
  {
  }

  /** The subrubro select lists the rubros whose parent is the chosen
      rubro; with none chosen, those whose parent id is 0. */
  function SubRubrosDe(rubros: seq<Rubro>, f: FormInsumo): (r: seq<Rubro>)
    ensures forall k :: 0 <= k < |r| ==> r[k] in rubros && r[k].padreId == Some(IdNumber(f.rubro))
    ensures forall k :: 0 <= k < |rubros| && rubros[k].padreId == Some(IdNumber(f.rubro)) ==> rubros[k] in r
  {
    UseInsumos.SubRubros(rubros, f.rubro)
  }

  /** The price test: a non-empty text that is not a number or is
      negative. */
  function PrecioInvalido(t: NumericText): (r: bool)
    ensures r <==> t.NotNumeric? || (t.Numeric? && t.value < 0.0)
  {
    t != Blank && (NumberOf(t).NaN? || NumberOf(t).v < 0.0)
  }

  /** The checks of handleSubmit, in order; the first that fails gives the
      error shown. */
  function ValidarInsumo(f: FormInsumo): (r: Option<string>)
    ensures IsBlank(f.denominacion) ==> r == Some("El nombre del insumo es obligatorio")
    ensures !IsBlank(f.denominacion) && f.rubro.NoId? ==> r == Some("Debe seleccionar un rubro")
    ensures !IsBlank(f.denominacion) && f.rubro.IdOf? && f.unidadMedida == [] ==> r == Some("Debe seleccionar una unidad")
  {
    if Trim(f.denominacion) == [] then Some("El nombre del insumo es obligatorio")
    else if !IdTruthy(f.rubro) then Some("Debe seleccionar un rubro")
    else if f.unidadMedida == [] then Some("Debe seleccionar una unidad")
    else if PrecioInvalido(f.precioCompra) then Some("Debe ingresar un precio de compra válido")
    else if PrecioInvalido(f.precioVenta) then Some("Debe ingresar un precio de venta válido")
    else None
  }

  /** A price is acceptable when it is empty or a non-negative number. */
  predicate PrecioAceptable(t: NumericText)
  {
    t.Blank? || (t.Numeric? && t.value >= 0.0)
  }

  /** The form passes exactly when it has a name, a rubro and a unit and
      each price is empty or a non-negative number. */
  lemma ValidoSii(f: FormInsumo)
    ensures ValidarInsumo(f).None? <==>
              (!IsBlank(f.denominacion) && f.rubro.IdOf? && f.unidadMedida != []
               && PrecioAceptable(f.precioCompra) && PrecioAceptable(f.precioVenta))
  {
  }

  /** A valid form always sends a rubro. */
  lemma ValidoEnviaRubro(f: FormInsumo)
    requires ValidarInsumo(f).None?
    ensures RubroEnviado(f).IdOf?
  {
  }

  /** The data handed to onSubmit. An edit adds the stock and the image it
      keeps; a creation has neither. */
  datatype DatosInsumo = DatosInsumo(
    denominacion: string,
    unidadMedida: string,
    rubroId: IdText,
    precioCompra: real,
    precioVenta: real,
    esParaElaborar: bool,
    stockActual: Option<int>,
    imagen: Option<Imagen>)

  datatype Envio = Envio(id: Option<int>, datos: DatosInsumo)

  /** The submit's data. The name is sent untrimmed and each price as
      `Number(text) || 0`. */
  function DatosEnvio(f: FormInsumo, edicion: bool, archivoElegido: bool): (e: Envio)
    ensures e.id == if edicion then Some(f.id) else None
    ensures e.datos.denominacion == f.denominacion && e.datos.unidadMedida == f.unidadMedida
    ensures e.datos.rubroId == RubroEnviado(f) && e.datos.esParaElaborar == f.esParaElaborar
    ensures e.datos.precioCompra == UseInsumos.NumeroODefecto(Some(NumberOf(f.precioCompra)))
    ensures e.datos.precioVenta == UseInsumos.NumeroODefecto(Some(NumberOf(f.precioVenta)))
    ensures edicion ==> e.datos.stockActual == Some(f.stockActual) && e.datos.imagen == ImagenConservada(archivoElegido, f.imagen)
    ensures !edicion ==> e.datos.stockActual.None? && e.datos.imagen.None?
  {
    var compra := UseInsumos.NumeroODefecto(Some(NumberOf(f.precioCompra)));
    var venta := UseInsumos.NumeroODefecto(Some(NumberOf(f.precioVenta)));
    if edicion then
      Envio(Some(f.id), DatosInsumo(f.denominacion, f.unidadMedida, RubroEnviado(f), compra, venta,
                                    f.esParaElaborar, Some(f.stockActual), ImagenConservada(archivoElegido, f.imagen)))
    else
      Envio(None, DatosInsumo(f.denominacion, f.unidadMedida, RubroEnviado(f), compra, venta,
                              f.esParaElaborar, None, None))
  }

  /** On a valid form an empty price is sent as 0 and any other as its
      value, which is never negative. */
  lemma PreciosEnviados(f: FormInsumo, edicion: bool, archivoElegido: bool)
    requires ValidarInsumo(f).None?
    ensures var d := DatosEnvio(f, edicion, archivoElegido).datos;
      d.precioCompra == (if f.precioCompra.Blank? then 0.0 else f.precioCompra.value)
      && d.precioVenta == (if f.precioVenta.Blank? then 0.0 else f.precioVenta.value)
      && d.precioCompra >= 0.0 && d.precioVenta >= 0.0
  {
    ValidoSii(f);
  }

  /** createNewInsumo sends the creation's data unchanged: the modal has
      already replaced empty prices by 0. */
  lemma CreacionLlegaIntacta(f: FormInsumo, archivoElegido: bool)
    ensures var d := DatosEnvio(f, false, archivoElegido).datos;
      UseInsumos.CuerpoCrearInsumo(d.denominacion, d.unidadMedida, d.rubroId,
                                   Some(Num(d.precioCompra)), Some(Num(d.precioVenta)), Some(d.esParaElaborar))
      == UseInsumos.CuerpoInsumo(d.denominacion, d.unidadMedida, d.rubroId, d.precioCompra, d.precioVenta, d.esParaElaborar)
  {
  }

  /** Opening an insumo with a name, a rubro, a unit and non-negative
      prices and submitting it unchanged passes the checks and sends its
      own id, name, unit, rubro, prices, recipe flag and stock. */
  lemma EdicionSinCambiosValida(i: Insumo, archivoElegido: bool)
    requires !IsBlank(i.denominacion) && i.rubro.Some? && i.rubro.value.id != 0 && i.unidadMedida != []
    requires i.precioCompra >= 0.0 && i.precioVenta >= 0.0
    ensures ValidarInsumo(FormInicial(Some(i))).None?
    ensures var e := DatosEnvio(FormInicial(Some(i)), true, archivoElegido);
      e.id == Some(i.id)
      && e.datos.denominacion == i.denominacion && e.datos.unidadMedida == i.unidadMedida
      && e.datos.rubroId == IdOf(i.rubro.value.id)
      && e.datos.precioCompra == i.precioCompra && e.datos.precioVenta == i.precioVenta
      && e.datos.esParaElaborar == i.esParaElaborar && e.datos.stockActual == Some(i.stockActual)
  {
    var f := FormInicial(Some(i));
    assert f.rubro == IdOf(i.rubro.value.id) && f.subRubro.NoId?;
    assert PrecioAceptable(f.precioCompra) && PrecioAceptable(f.precioVenta);
    ValidoSii(f);
    PreciosEnviados(f, true, archivoElegido);
  }
}
