/**
 * The role administration screen (src/features/administracion/Roles/Roles.tsx):
 * the checks and the request of handleEnviar, and the client-side pages
 * of eight roles.
 */
module Roles {
  import opened Common
  import opened Text
  import opened AdminTypes

  const PAGE_SIZE := 8

  /** Whether some role's lower-cased name equals the lower-cased trimmed
      entry (`roles.some`); the stored names are not trimmed. */
  predicate Existe(roles: seq<Rol>, nuevoRol: string)
  {
    exists k :: 0 <= k < |roles| && ToLower(roles[k].denominacion) == ToLower(Trim(nuevoRol))
  }

  /** The request handleEnviar makes. */
  datatype Peticion = CrearRol(denominacion: string) | ActualizarRol(id: int, denominacion: string)

  /** handleEnviar: a blank entry is refused, then (unless in edit mode) a
      name already present; otherwise the trimmed name is sent, as an
      update of the edited role when there is one and as a creation
      otherwise. */
  function Enviar(nuevoRol: string, roles: seq<Rol>, editMode: bool, rolToEdit: Option<Rol>): (r: Result)
    ensures IsBlank(nuevoRol) ==> r == Rechazo("El nombre del rol es obligatorio")
    ensures !IsBlank(nuevoRol) && !editMode && Existe(roles, nuevoRol) ==> r == Rechazo("Ese rol ya existe")
    ensures r.Envia? <==> !IsBlank(nuevoRol) && (editMode || !Existe(roles, nuevoRol))
    ensures r.Envia? ==> r.peticion.denominacion == Trim(nuevoRol) && !IsBlank(r.peticion.denominacion)
    ensures r.Envia? ==> (r.peticion.ActualizarRol? <==> editMode && rolToEdit.Some?)
    ensures r.Envia? && r.peticion.ActualizarRol? ==> r.peticion.id == rolToEdit.value.id
  {
    if Trim(nuevoRol) == [] then Rechazo("El nombre del rol es obligatorio")
    else if !editMode && Existe(roles, nuevoRol) then Rechazo("Ese rol ya existe")
    else if editMode && rolToEdit.Some? then
      (TrimIdempotent(nuevoRol); Envia(ActualizarRol(rolToEdit.value.id, Trim(nuevoRol))))
    else (TrimIdempotent(nuevoRol); Envia(CrearRol(Trim(nuevoRol))))
  }

  datatype Result = Rechazo(error: string) | Envia(peticion: Peticion)

  /** A role created from the screen never repeats, ignoring case, the
      name of a role already listed. */
  lemma CreacionSinDuplicados(nuevoRol: string, roles: seq<Rol>, rolToEdit: Option<Rol>)
    requires Enviar(nuevoRol, roles, false, rolToEdit).Envia?
    ensures forall k :: 0 <= k < |roles| ==>
              ToLower(roles[k].denominacion) != ToLower(Enviar(nuevoRol, roles, false, rolToEdit).peticion.denominacion)
  {
  }

  /** Math.ceil(roles.length / 8). */
  function TotalPages(roles: seq<Rol>): (n: nat)
    ensures n * PAGE_SIZE >= |roles| && (n == 0 || (n - 1) * PAGE_SIZE < |roles|)
  {
    CeilDiv(|roles|, PAGE_SIZE)
  }

  /** getCurrentPageRoles: slice(p * 8, p * 8 + 8). */
  function PaginaRoles(roles: seq<Rol>, p: nat): (r: seq<Rol>)
    ensures |r| <= PAGE_SIZE
    ensures p * PAGE_SIZE <= |roles| ==> r == roles[p * PAGE_SIZE..Min(p * PAGE_SIZE + PAGE_SIZE, |roles|)]
    ensures p * PAGE_SIZE >= |roles| ==> r == []
  {
    Slice(roles, p * PAGE_SIZE, p * PAGE_SIZE + PAGE_SIZE)
  }

  /** Pages 0 to n - 1, one after another. */
  function Paginas(roles: seq<Rol>, n: nat): seq<Rol>
  {
    if n == 0 then [] else Paginas(roles, n - 1) + PaginaRoles(roles, n - 1)
  }

  /** The first n pages are the first 8n roles. */
  lemma {:induction false} PaginasSonPrefijo(roles: seq<Rol>, n: nat)
    ensures Paginas(roles, n) == roles[..Min(n * PAGE_SIZE, |roles|)]
  {
    if n > 0 {
      PaginasSonPrefijo(roles, n - 1);
      var a := Min((n - 1) * PAGE_SIZE, |roles|);
      var b := Min(n * PAGE_SIZE, |roles|);
      if (n - 1) * PAGE_SIZE <= |roles| {
        assert roles[..a] + roles[a..b] == roles[..b];
      }
    }
  }

  /** All the pages together give back the roles, in order. */
  lemma PaginasDanLosRoles(roles: seq<Rol>)
    ensures Paginas(roles, TotalPages(roles)) == roles
  {
    PaginasSonPrefijo(roles, TotalPages(roles));
  }

  /** The pager is shown when there are more than eight roles, which is
      exactly when there is more than one page. */
  lemma PaginadorSiMasDeUnaPagina(roles: seq<Rol>)
    ensures |roles| > PAGE_SIZE <==> TotalPages(roles) > 1
  {
  }
}
