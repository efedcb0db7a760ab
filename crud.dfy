/**
 * Two patterns the catalogue hooks share: handleSubmit, which creates
 * when no id is given and updates otherwise
 * (src/features/promociones/hooks/usePromociones.tsx,
 * src/features/productos/hooks/useProductos.tsx,
 * src/features/insumos/hooks/useInsumos.tsx), and the list load of
 * useProductos and useInsumos, which filters on the client while a search
 * text is set and takes the server's page otherwise.
 */
module Crud {
  import opened Common

  /** The API call handleSubmit makes. */
  datatype Llamada<T> = Crear(datos: T) | Actualizar(id: int, datos: T)

  /** handleSubmit: `id === null` creates, any id updates that id. */
  function Enviar<T>(id: Option<int>, datos: T): (c: Llamada<T>)
    ensures c.Crear? <==> id.None?
    ensures c.Actualizar? ==> c.id == id.value
    ensures c.datos == datos
  {
    if id.None? then Crear(datos) else Actualizar(id.value, datos)
  }

  /** A page as the server returns it. */
  datatype Pagina<T> = Pagina(content: seq<T>, totalPages: int, totalElements: int)

  /** The list state a load leaves: the items shown, the page count, the
      element count and the error text. */
  datatype Listado<T> = Listado(items: seq<T>, totalPages: int, totalElements: int, error: Option<string>)

  /** One load. `respuesta` is the server's answer to the one request the
      load makes (page 0 of size 100 while searching, the current page
      otherwise), or None when that request fails. While `busqueda` is non-empty the
      items are those of the answer that `coincide` keeps, counted in pages
      of `pageSize`. */
  function Cargar<T>(busqueda: string, respuesta: Option<Pagina<T>>, coincide: T -> bool,
                     pageSize: nat, mensaje: string): (l: Listado<T>)
    requires pageSize > 0
    ensures respuesta.None? ==> l == Listado([], 1, 0, Some(mensaje))
    ensures respuesta.Some? ==> l.error.None?
    ensures respuesta.Some? && busqueda == [] ==>
              l.items == respuesta.value.content
              && l.totalPages == respuesta.value.totalPages
              && l.totalElements == respuesta.value.totalElements
    ensures respuesta.Some? && busqueda != [] ==>
              l.items == Filter(respuesta.value.content, coincide)
              && l.totalElements == |l.items|
              && l.totalPages == CeilDiv(|l.items|, pageSize)
  {
    if respuesta.None? then Listado([], 1, 0, Some(mensaje))
    else if busqueda != [] then
      var filtrados := Filter(respuesta.value.content, coincide);
      Listado(filtrados, CeilDiv(|filtrados|, pageSize), |filtrados|, None)
    else Listado(respuesta.value.content, respuesta.value.totalPages, respuesta.value.totalElements, None)
  }
}
