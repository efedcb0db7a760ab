/**
 * The stock replenishment dialog (src/features/insumos/ui/ReponerStockModal.tsx):
 * its three pieces of state, the ordered checks of a submit, the call it
 * makes and the resets after a successful submit, on close and when the
 * insumo changes.
 */
module ReponerStockModal {
  import opened Common
  import opened Text
  import opened AdminTypes
  import UseInsumos

  /** The checks of handleSubmit, in order: a non-empty, numeric, positive
      quantity, then a motivo that is not blank. */
  function ErrorReposicion(cantidad: NumericText, motivo: string): (r: Option<string>)
    ensures !(cantidad.Numeric? && cantidad.value > 0.0) ==> r == Some("Ingrese una cantidad válida")
    ensures cantidad.Numeric? && cantidad.value > 0.0 && IsBlank(motivo) ==> r == Some("Ingrese un motivo para el registro")
    ensures r.None? <==> cantidad.Numeric? && cantidad.value > 0.0 && !IsBlank(motivo)
  {
    if cantidad.Blank? || NumberOf(cantidad).NaN? || NumberOf(cantidad).v <= 0.0 then
      Some("Ingrese una cantidad válida")
    else if Trim(motivo) == [] then Some("Ingrese un motivo para el registro")
    else None
  }

  /** The arguments of one onSubmit call. */
  datatype Solicitud = Solicitud(insumo: Insumo, cantidad: real, motivo: string)

  /** A request that passed the checks becomes, through reponerStock, an
      INGRESO record of a positive quantity with a non-blank motivo. */
  lemma SolicitudValidaRegistra(cantidad: NumericText, motivo: string, insumo: Insumo)
    requires ErrorReposicion(cantidad, motivo).None?
    ensures var r := UseInsumos.RegistroReposicion(insumo, NumberOf(cantidad).v, motivo);
      r.cantidad > 0.0 && !IsBlank(r.motivo) && r.tipoMovimiento == "INGRESO" && r.articuloInsumoId == insumo.id
  {
  }

  /** The dialog's state: the quantity and motivo inputs and the error
      shown. */
  class Dialogo {
    var cantidad: NumericText
    var motivo: string
    var error: string

    /** Every piece of state starts empty. */
    predicate Limpio()
      reads this
    {
      cantidad == Blank && motivo == "" && error == ""
    }

    constructor()
      ensures Limpio()
    {
      cantidad, motivo, error := Blank, "", "";
    }

    /** The two inputs' onChange. */
    method EscribirCantidad(c: NumericText)
      modifies this
      ensures cantidad == c && motivo == old(motivo) && error == old(error)
    {
      cantidad := c;
    }

    method EscribirMotivo(m: string)
      modifies this
      ensures motivo == m && cantidad == old(cantidad) && error == old(error)
    {
      motivo := m;
    }

    /** The effect on `insumo`: a newly given insumo clears the dialog. */
    method AlCambiarInsumo(insumo: Option<Insumo>)
      modifies this
      ensures insumo.Some? ==> Limpio()
      ensures insumo.None? ==> cantidad == old(cantidad) && motivo == old(motivo) && error == old(error)
    {
      if insumo.Some? {
        cantidad, motivo, error := Blank, "", "";
      }
    }

    /** handleSubmit. A failed check sets its error and calls nothing; a
        missing insumo calls nothing; otherwise onSubmit is called with
        Number(cantidad) and the untrimmed motivo. `falla` says whether
        that call throws: if it does, the error is set and the inputs are
        kept; if not, everything is cleared and the dialog closes. */
    method Enviar(insumo: Option<Insumo>, falla: bool) returns (llamada: Option<Solicitud>, cerrar: bool)
      modifies this
      ensures var e := ErrorReposicion(old(cantidad), old(motivo));
        if e.Some? then
          llamada.None? && !cerrar && error == e.value && cantidad == old(cantidad) && motivo == old(motivo)
        else if insumo.None? then
          llamada.None? && !cerrar && error == old(error) && cantidad == old(cantidad) && motivo == old(motivo)
        else
          llamada == Some(Solicitud(insumo.value, old(cantidad).value, old(motivo)))
          && (if falla then !cerrar && error == "Error al reponer stock" && cantidad == old(cantidad) && motivo == old(motivo)
              else cerrar && Limpio())
    {
      llamada, cerrar := None, false;
      var e := ErrorReposicion(cantidad, motivo);
      if e.Some? {
        error := e.value;
        return;
      }
      if insumo.None? {
        return;
      }
      llamada := Some(Solicitud(insumo.value, NumberOf(cantidad).v, motivo));
      if falla {
        error := "Error al reponer stock";
      } else {
        cantidad, motivo, error := Blank, "", "";
        cerrar := true;
      }
    }

    /** handleClose: clears everything and closes. */
    method Cerrar() returns (cerrar: bool)
      modifies this
      ensures cerrar && Limpio()
    {
      cantidad, motivo, error := Blank, "", "";
      cerrar := true;
    }
  }

  /** A call made by a submit carries a positive quantity and a motivo
      that is not blank. */
  method EnviarSoloValido(d: Dialogo, insumo: Option<Insumo>, falla: bool) returns (llamada: Option<Solicitud>)
    modifies d
    ensures llamada.Some? ==> llamada.value.cantidad > 0.0 && !IsBlank(llamada.value.motivo)
  {
    var cerrar;
    llamada, cerrar := d.Enviar(insumo, falla);
  }
}
