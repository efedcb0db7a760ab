/**
 * The rubro form (src/features/rubros/ui/RubroModal.tsx): its initial
 * values, the list of candidate parents, the parent and tipo selectors,
 * and the submit guard.
 */
module RubroModal {
  import opened Common
  import opened Text
  import opened AdminTypes

  /** The `rubroPadre` value of the form: `{ id }` of a rubro, or the
      `{ id: "" }` the form is reset to when the named parent is not found. */
  datatype RefPadre = RefId(id: int) | RefVacia

  datatype FormRubro = FormRubro(denominacion: string, tipoRubro: TipoRubro, rubroPadre: Option<RefPadre>)

  /** The id of the first rubro named `padre`, when there is one. */
  function IdPorNombre(api: seq<Rubro>, padre: string): (r: Option<int>)
    ensures r.Some? ==> exists i :: 0 <= i < |api| && api[i].denominacion == padre && api[i].id == r.value
                          && forall j :: 0 <= j < i ==> api[j].denominacion != padre
    ensures r.None? <==> forall j :: 0 <= j < |api| ==> api[j].denominacion != padre
  {
    var found := Find(api, (x: Rubro) => x.denominacion == padre);
    if found.Some? then Some(found.value.id) else None
  }

  /** The form an edit starts from: the rubro's own values. */
  function FormEdicion(rubro: Rubro): (f: FormRubro)
    ensures f.denominacion == rubro.denominacion && f.tipoRubro == rubro.tipoRubro
    ensures f.rubroPadre == if rubro.padreId.Some? then Some(RefId(rubro.padreId.value)) else None
  {
    FormRubro(rubro.denominacion, rubro.tipoRubro,
              if rubro.padreId.Some? then Some(RefId(rubro.padreId.value)) else None)
  }

  /** The form a creation starts from. With a parent name, the parent is
      the first rubro so named; the id is checked for truthiness, so a
      parent with id 0 gives no parent. */
  function FormCreacion(api: seq<Rubro>, padre: Option<string>, tipoDefault: TipoRubro): (f: FormRubro)
    ensures f.denominacion == "" && f.tipoRubro == tipoDefault
    ensures f.rubroPadre.Some? <==>
              padre.Some? && padre.value != "" && IdPorNombre(api, padre.value).Some?
              && IdPorNombre(api, padre.value).value != 0
    ensures f.rubroPadre.Some? ==> f.rubroPadre == Some(RefId(IdPorNombre(api, padre.value).value))
  {
    var padreId := if padre.Some? && padre.value != "" then IdPorNombre(api, padre.value) else None;
    FormRubro("", tipoDefault,
              if padreId.Some? && padreId.value != 0 then Some(RefId(padreId.value)) else None)
  }

  /** rubrosDisponiblesComoPadre: the rubros of the form's tipo, except the
      rubro being edited. */
  function Candidatos(api: seq<Rubro>, editado: Option<Rubro>, tipo: TipoRubro): (r: seq<Rubro>)
    ensures forall i :: 0 <= i < |r| ==> r[i] in api && r[i].tipoRubro == tipo
    ensures forall i :: 0 <= i < |r| ==> editado.Some? ==> r[i].id != editado.value.id
    ensures forall i :: 0 <= i < |api| && api[i].tipoRubro == tipo && !(editado.Some? && api[i].id == editado.value.id)
              ==> api[i] in r
  {
    Filter(api, (x: Rubro) => !(editado.Some? && x.id == editado.value.id) && x.tipoRubro == tipo)
  }

  /** Changing the tipo drops the chosen parent. */
  function CambiarTipo(f: FormRubro, tipo: TipoRubro): (g: FormRubro)
    ensures g.tipoRubro == tipo && g.rubroPadre.None? && g.denominacion == f.denominacion
  {
    f.(tipoRubro := tipo, rubroPadre := None)
  }

  /** Choosing a parent in the select: the option's value is "" or the
      decimal id of a candidate, matched by String(id). */
  function ElegirPadre(f: FormRubro, candidatos: seq<Rubro>, valor: IdText): (g: FormRubro)
    ensures g.denominacion == f.denominacion && g.tipoRubro == f.tipoRubro
    ensures valor.NoId? ==> g.rubroPadre.None?
    ensures g.rubroPadre.Some? ==> exists i :: 0 <= i < |candidatos| && g.rubroPadre == Some(RefId(candidatos[i].id))
    ensures (valor.IdOf? && exists i :: 0 <= i < |candidatos| && candidatos[i].id == valor.id) ==>
              g.rubroPadre == Some(RefId(valor.id))
  {
    var elegido := if valor.IdOf? then Find(candidatos, (x: Rubro) => x.id == valor.id) else None;
    f.(rubroPadre := if elegido.Some? then Some(RefId(elegido.value.id)) else None)
  }

  /** The outcome of handleSubmit: the call made to onSubmit, when one is
      made, the form and the error text afterwards, and whether the modal
      closes. */
  datatype Envio = Envio(llamada: Option<(Option<int>, FormRubro)>, form: FormRubro, error: string, cierra: bool)

  /** handleSubmit. `exito` is whether onSubmit completes without error. */
  function Enviar(f: FormRubro, editado: Option<Rubro>, api: seq<Rubro>, padre: Option<string>,
                  tipoDefault: TipoRubro, exito: bool): (e: Envio)
    ensures IsBlank(f.denominacion) ==>
              e.llamada.None? && e.form == f && e.error == "El nombre del rubro es obligatorio" && !e.cierra
    ensures !IsBlank(f.denominacion) ==>
              e.llamada == Some((if editado.Some? then Some(editado.value.id) else None, f))
    ensures !IsBlank(f.denominacion) && exito ==> e.error == "" && e.cierra
    ensures !IsBlank(f.denominacion) && exito && editado.Some? ==> e.form == f
    ensures !IsBlank(f.denominacion) && exito && editado.None? ==>
              e.form.denominacion == "" && e.form.tipoRubro == tipoDefault
              && e.form.rubroPadre == ResetPadre(api, padre)
    ensures !IsBlank(f.denominacion) && !exito ==>
              e.form == f && !e.cierra
              && e.error == (if editado.Some? then "Error al editar el rubro" else "Error al crear el rubro")
  {
    if IsBlank(f.denominacion) then Envio(None, f, "El nombre del rubro es obligatorio", false)
    else
      var llamada := Some((if editado.Some? then Some(editado.value.id) else None, f));
      if !exito then
        Envio(llamada, f, if editado.Some? then "Error al editar el rubro" else "Error al crear el rubro", false)
      else if editado.Some? then Envio(llamada, f, "", true)
      else Envio(llamada, FormRubro("", tipoDefault, ResetPadre(api, padre)), "", true)
  }

  /** The parent the form is reset to after a creation: `{ id }` of the
      first rubro so named, `{ id: "" }` when none is (or its id is 0), and
      no parent without a parent name. */
  function ResetPadre(api: seq<Rubro>, padre: Option<string>): (r: Option<RefPadre>)
    ensures r.None? <==> !(padre.Some? && padre.value != "")
    ensures r == Some(RefVacia) <==>
              padre.Some? && padre.value != ""
              && (IdPorNombre(api, padre.value).None? || IdPorNombre(api, padre.value).value == 0)
  {
    if padre.Some? && padre.value != "" then
      var id := IdPorNombre(api, padre.value);
      Some(if id.Some? && id.value != 0 then RefId(id.value) else RefVacia)
    else None
  }

  /** After a creation the form keeps the parent it started with, except
      that a parent not found becomes `{ id: "" }` instead of null. */
  lemma ResetMatchesCreacion(api: seq<Rubro>, padre: Option<string>, tipoDefault: TipoRubro)
    ensures var inicial := FormCreacion(api, padre, tipoDefault).rubroPadre;
      var reset := ResetPadre(api, padre);
      (inicial.Some? ==> reset == inicial) && (inicial.None? ==> reset.None? || reset == Some(RefVacia))
  {
  }
}
