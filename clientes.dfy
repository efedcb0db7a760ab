/**
 * The client administration form (src/features/administracion/Clientes/Clientes.tsx):
 * the id of the client role, the ordered checks of validateForm and the
 * request handleSubmit makes.
 */
module Clientes {
  import opened Common
  import opened Text
  import opened AdminTypes
  import Email

  /** The id of the first role whose lower-cased name is "cliente", null
      when there is none. */
  function ClienteRolId(roles: seq<Rol>): (r: Option<int>)
    ensures r.None? <==> forall k :: 0 <= k < |roles| ==> ToLower(roles[k].denominacion) != "cliente"
    ensures r.Some? ==> exists k :: 0 <= k < |roles| && ToLower(roles[k].denominacion) == "cliente" && roles[k].id == r.value
                                    && forall j :: 0 <= j < k ==> ToLower(roles[j].denominacion) != "cliente"
  {
    var i := FirstIndex(roles, (x: Rol) => ToLower(x.denominacion) == "cliente");
    if i < 0 then None else Some(roles[i].id)
  }

  /** A role named "Cliente" in any letter case is found. */
  lemma ClienteEnCualquierCaso(roles: seq<Rol>, id: int)
    requires roles == [Rol(id, "CLIENTE")] || roles == [Rol(id, "Cliente")]
    ensures ClienteRolId(roles) == Some(id)
  {
    assert ToLower("CLIENTE") == "cliente" && ToLower("Cliente") == "cliente";
  }

  datatype FormCliente = FormCliente(nombre: string, apellido: string, telefono: NumericText, email: string)

  /** validateForm: the name, surname and e-mail checks, then a truthy
      client role id. */
  function ValidarCliente(f: FormCliente, clienteRolId: Option<int>): (r: Option<string>)
    ensures Email.ValidarPersona(f.nombre, f.apellido, f.email).Some? ==> r == Email.ValidarPersona(f.nombre, f.apellido, f.email)
    ensures r.None? <==> Email.ValidarPersona(f.nombre, f.apellido, f.email).None?
                         && clienteRolId.Some? && clienteRolId.value != 0
  {
    var persona := Email.ValidarPersona(f.nombre, f.apellido, f.email);
    if persona.Some? then persona
    else if clienteRolId.None? || clienteRolId.value == 0 then
      Some("No se pudo determinar el rol de cliente. Intente nuevamente.")
    else None
  }

  /** The request's data: trimmed texts, Number(telefono) and the client
      role. */
  datatype DatosCliente = DatosCliente(nombre: string, apellido: string, telefono: JsNumber, email: string, rolId: int)

  datatype Peticion = Actualizar(id: int, datos: DatosCliente) | Crear(datos: DatosCliente)

  /** handleSubmit: nothing on a failed check; otherwise an update of the
      edited client in edit mode, else a creation. */
  function Enviar(f: FormCliente, clienteRolId: Option<int>, isEditMode: bool, clienteToEdit: Option<int>): (r: Option<Peticion>)
    ensures r.None? <==> ValidarCliente(f, clienteRolId).Some?
    ensures r.Some? ==> r.value.datos == DatosCliente(Trim(f.nombre), Trim(f.apellido), NumberOf(f.telefono),
                                                      Trim(f.email), clienteRolId.value)
    ensures r.Some? ==> (r.value.Actualizar? <==> isEditMode && clienteToEdit.Some?)
    ensures r.Some? && r.value.Actualizar? ==> r.value.id == clienteToEdit.value
  {
    if ValidarCliente(f, clienteRolId).Some? then None
    else
      var d := DatosCliente(Trim(f.nombre), Trim(f.apellido), NumberOf(f.telefono), Trim(f.email), clienteRolId.value);
      if isEditMode && clienteToEdit.Some? then Some(Actualizar(clienteToEdit.value, d)) else Some(Crear(d))
  }

  /** Every client is sent with the role looked up by name, which is a
      role called "cliente" in some letter case. */
  lemma EnviaRolCliente(f: FormCliente, roles: seq<Rol>, isEditMode: bool, clienteToEdit: Option<int>)
    requires Enviar(f, ClienteRolId(roles), isEditMode, clienteToEdit).Some?
    ensures exists k :: 0 <= k < |roles| && ToLower(roles[k].denominacion) == "cliente"
                        && roles[k].id == Enviar(f, ClienteRolId(roles), isEditMode, clienteToEdit).value.datos.rolId
  {
  }
}
