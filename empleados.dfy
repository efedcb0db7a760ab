/**
 * The employee administration form (src/features/administracion/Empleados/Empleados.tsx):
 * the ordered checks of validateForm and the request handleSubmit makes.
 */
module Empleados {
  import opened Common
  import opened Text
  import Email

  /** The form: the phone is an input text, the role a select of id
      texts. */
  datatype FormEmpleado = FormEmpleado(
    nombre: string,
    apellido: string,
    telefono: NumericText,
    email: string,
    password: string,
    repetirPassword: string,
    rol: IdText)

  /** validateForm: the name, surname and e-mail checks, then (when
      creating) a password that is not blank and equal, untrimmed, to its
      repetition, then a role. */
  function ValidarEmpleado(f: FormEmpleado, isEditMode: bool): (r: Option<string>)
    ensures Email.ValidarPersona(f.nombre, f.apellido, f.email).Some? ==> r == Email.ValidarPersona(f.nombre, f.apellido, f.email)
    ensures Email.ValidarPersona(f.nombre, f.apellido, f.email).None? && !isEditMode && IsBlank(f.password) ==>
              r == Some("La contraseña es obligatoria para nuevos empleados")
    ensures (Email.ValidarPersona(f.nombre, f.apellido, f.email).None? && !isEditMode && !IsBlank(f.password)
             && f.password != f.repetirPassword) ==> r == Some("Las contraseñas no coinciden")
    ensures r.None? <==> Email.ValidarPersona(f.nombre, f.apellido, f.email).None?
                         && (isEditMode || (!IsBlank(f.password) && f.password == f.repetirPassword))
                         && f.rol.IdOf?
  {
    var persona := Email.ValidarPersona(f.nombre, f.apellido, f.email);
    if persona.Some? then persona
    else if !isEditMode && Trim(f.password) == [] then Some("La contraseña es obligatoria para nuevos empleados")
    else if !isEditMode && f.password != f.repetirPassword then Some("Las contraseñas no coinciden")
    else if !IdTruthy(f.rol) then Some("Debe seleccionar un rol")
    else None
  }

  /** Editing never looks at the password fields. */
  lemma EdicionIgnoraPassword(f: FormEmpleado, password: string, repetir: string)
    ensures ValidarEmpleado(f.(password := password, repetirPassword := repetir), true) == ValidarEmpleado(f, true)
  {
  }

  /** Passwords that trim to the same text but differ are refused: the
      equality check compares the untrimmed texts. */
  lemma PasswordSinRecortar(f: FormEmpleado)
    requires Email.ValidarPersona(f.nombre, f.apellido, f.email).None? && f.rol.IdOf? && !IsBlank(f.password)
    requires Trim(f.password) == Trim(f.repetirPassword) && f.password != f.repetirPassword
    ensures ValidarEmpleado(f, false) == Some("Las contraseñas no coinciden")
  {
  }

  /** The personal data of a request: trimmed texts, Number(telefono) and
      `rol: { id: Number(rol) }`. */
  datatype DatosEmpleado = DatosEmpleado(nombre: string, apellido: string, telefono: JsNumber, email: string, rolId: int)

  datatype Peticion =
    | Actualizar(id: int, datos: DatosEmpleado, auth0Id: string)
    | Crear(datos: DatosEmpleado, password: string)

  datatype Respuesta = Rechazo(error: string) | Envia(peticion: Peticion)

  /** The employee being edited: its id and the Auth0 id of its user,
      when it has a user. */
  datatype EmpleadoEditado = EmpleadoEditado(id: int, authOId: Option<string>)

  function Datos(f: FormEmpleado): (d: DatosEmpleado)
    ensures d.nombre == Trim(f.nombre) && d.apellido == Trim(f.apellido) && d.email == Trim(f.email)
    ensures d.telefono == NumberOf(f.telefono) && d.rolId == IdNumber(f.rol)
  {
    DatosEmpleado(Trim(f.nombre), Trim(f.apellido), NumberOf(f.telefono), Trim(f.email), IdNumber(f.rol))
  }

  /** handleSubmit: nothing on a failed check; in edit mode with an
      employee, an error unless its user has a non-empty Auth0 id, else an
      update without password; otherwise a creation with the trimmed
      password. */
  function Enviar(f: FormEmpleado, isEditMode: bool, empleadoToEdit: Option<EmpleadoEditado>): (r: Option<Respuesta>)
    ensures r.None? <==> ValidarEmpleado(f, isEditMode).Some?
    ensures r.Some? && isEditMode && empleadoToEdit.Some? ==>
              if empleadoToEdit.value.authOId.None? || empleadoToEdit.value.authOId.value == [] then
                r.value == Rechazo("Error: No se pudo identificar el ID de usuario de Auth0")
              else
                r.value == Envia(Actualizar(empleadoToEdit.value.id, Datos(f), empleadoToEdit.value.authOId.value))
    ensures r.Some? && !(isEditMode && empleadoToEdit.Some?) ==> r.value == Envia(Crear(Datos(f), Trim(f.password)))
  {
    if ValidarEmpleado(f, isEditMode).Some? then None
    else if isEditMode && empleadoToEdit.Some? then
      var e := empleadoToEdit.value;
      if e.authOId.None? || e.authOId.value == [] then
        Some(Rechazo("Error: No se pudo identificar el ID de usuario de Auth0"))
      else Some(Envia(Actualizar(e.id, Datos(f), e.authOId.value)))
    else Some(Envia(Crear(Datos(f), Trim(f.password))))
  }

  /** Every request carries a non-blank name, surname and valid e-mail
      and a truthy role id; a creation from the create form also carries a
      non-blank password. */
  lemma PeticionValida(f: FormEmpleado, isEditMode: bool, empleadoToEdit: Option<EmpleadoEditado>)
    requires Enviar(f, isEditMode, empleadoToEdit).Some? && Enviar(f, isEditMode, empleadoToEdit).value.Envia?
    ensures var p := Enviar(f, isEditMode, empleadoToEdit).value.peticion;
      p.datos.nombre != [] && p.datos.apellido != [] && Email.Descripcion(p.datos.email) && p.datos.rolId == f.rol.id
      && (!isEditMode ==> p.Crear? && p.password != [])
  {
  }
}
