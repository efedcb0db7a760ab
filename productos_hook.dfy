/**
 * The pure parts of src/features/productos/hooks/useProductos.tsx: the
 * search filter and the list load, the body of a creation, the initial
 * insumo load and the selectors.
 */
module UseProductos {
  import opened Common
  import opened Text
  import opened AdminTypes
  import Crud
  import UseInsumos

  /** The name of a product's rubro, "" when it has none. */
  function NombreRubro(p: Producto): (r: string)
    ensures p.rubro.Some? && p.rubro.value.denominacion.Some? ==> r == p.rubro.value.denominacion.value
    ensures !(p.rubro.Some? && p.rubro.value.denominacion.Some?) ==> r == ""
  {
    if p.rubro.Some? && p.rubro.value.denominacion.Some? then p.rubro.value.denominacion.value else ""
  }

  /** The search filter: the lower-cased query occurs in the lower-cased
      name, rubro name or description. */
  predicate Coincide(p: Producto, busqueda: string)
  {
    var q := ToLower(busqueda);
    Contains(ToLower(p.denominacion), q)
    || Contains(ToLower(NombreRubro(p)), q)
    || Contains(ToLower(p.descripcion), q)
  }

  /** The search ignores the case of the query. */
  lemma CoincideSinMayusculas(p: Producto, busqueda: string)
    ensures Coincide(p, busqueda) == Coincide(p, ToLower(busqueda))
  {
    ToLowerIdempotent(busqueda);
  }

  /** Searching for a product's own name, or its rubro's, finds it. */
  lemma CoincidePropio(p: Producto)
    ensures Coincide(p, p.denominacion)
    ensures Coincide(p, NombreRubro(p))
  {
    var n, r := ToLower(p.denominacion), ToLower(NombreRubro(p));
    assert n[0..|n|] == n && r[0..|r|] == r;
    ContainsAt(n, n, 0);
    ContainsAt(r, r, 0);
  }

  /** loadProductos. */
  function CargarProductos(busqueda: string, respuesta: Option<Crud.Pagina<Producto>>, pageSize: nat): (l: Crud.Listado<Producto>)
    requires pageSize > 0
    ensures respuesta.None? ==> l == Crud.Listado([], 1, 0, Some("Error al cargar productos"))
    ensures respuesta.Some? && busqueda != [] ==>
              l.items == Filter(respuesta.value.content, (p: Producto) => Coincide(p, busqueda))
              && l.totalElements == |l.items|
              && l.totalPages * pageSize >= |l.items| && (l.totalPages == 0 || (l.totalPages - 1) * pageSize < |l.items|)
    ensures respuesta.Some? && busqueda == [] ==> l.items == respuesta.value.content
  {
    Crud.Cargar(busqueda, respuesta, (p: Producto) => Coincide(p, busqueda), pageSize, "Error al cargar productos")
  }

  /** A search lists exactly the answer's productos that match it. */
  lemma BusquedaListaCoincidentes(busqueda: string, respuesta: Crud.Pagina<Producto>, pageSize: nat)
    requires pageSize > 0 && busqueda != []
    ensures var l := CargarProductos(busqueda, Some(respuesta), pageSize);
      (forall k :: 0 <= k < |l.items| ==> l.items[k] in respuesta.content && Coincide(l.items[k], busqueda))
      && (forall k :: 0 <= k < |respuesta.content| && Coincide(respuesta.content[k], busqueda) ==>
            respuesta.content[k] in l.items)
  {
  }

  /** The insumos loadInitialData keeps: those not deactivated; none when
      the request fails. */
  function InsumosIniciales(respuesta: Option<seq<Insumo>>): (r: seq<Insumo>)
    ensures respuesta.None? ==> r == []
    ensures respuesta.Some? ==>
              (forall k :: 0 <= k < |r| ==> r[k] in respuesta.value && r[k].fechaBaja.None?)
              && forall k :: 0 <= k < |respuesta.value| && respuesta.value[k].fechaBaja.None? ==> respuesta.value[k] in r
  {
    if respuesta.None? then [] else Filter(respuesta.value, (i: Insumo) => i.fechaBaja.None?)
  }

  /** getRubrosPrincipales: the MANUFACTURADO rubros (ProductoModal's
      rubrosPrincipales is the same filter). */
  function RubrosManufacturado(rubros: seq<Rubro>): (r: seq<Rubro>)
    ensures forall k :: 0 <= k < |r| ==> r[k] in rubros && r[k].tipoRubro == MANUFACTURADO
    ensures forall k :: 0 <= k < |rubros| && rubros[k].tipoRubro == MANUFACTURADO ==> rubros[k] in r
  {
    Filter(rubros, (x: Rubro) => x.tipoRubro == MANUFACTURADO)
  }

  /** The rubros offered for products are never those offered as top-level
      rubros of insumos. */
  lemma RubrosDisjuntos(rubros: seq<Rubro>)
    ensures forall k :: 0 <= k < |RubrosManufacturado(rubros)| ==>
              RubrosManufacturado(rubros)[k] !in UseInsumos.RubrosPrincipales(rubros)
  {
    var m, p := RubrosManufacturado(rubros), UseInsumos.RubrosPrincipales(rubros);
    forall k | 0 <= k < |m|
      ensures m[k] !in p
    {
      assert m[k].tipoRubro == MANUFACTURADO;
      assert forall j :: 0 <= j < |p| ==> p[j].tipoRubro == INSUMO;
    }
  }

  /** The select's value for a rubro: an id text, or an id as a number. */
  datatype Clave = Texto(texto: IdText) | Numero(n: int)

  /** The rubro of the data handed to createProducto: the select's text,
      or an object `{ id }`. */
  datatype RubroDato = RubroPlano(valor: IdText) | RubroObjeto(id: Clave)

  /** The data handed to createProducto (the details pass through). */
  datatype DatosProducto<D> = DatosProducto(
    denominacion: string,
    descripcion: string,
    tiempoEstimadoProduccion: JsNumber,
    rubro: RubroDato,
    detalles: seq<D>,
    precioVenta: Option<JsNumber>)

  /** The body createProducto sends: the rubro always as `{ id }`. */
  datatype CuerpoProducto<D> = CuerpoProducto(
    denominacion: string,
    descripcion: string,
    tiempoEstimadoProduccion: JsNumber,
    rubroId: Clave,
    detalles: seq<D>,
    precioVenta: Option<JsNumber>)

  /** createProducto's body: a rubro given as text is wrapped as `{ id }`,
      an object passes through, and the price is sent only when given. */
  function CuerpoCrear<D>(d: DatosProducto<D>): (c: CuerpoProducto<D>)
    ensures d.rubro.RubroPlano? ==> c.rubroId == Texto(d.rubro.valor)
    ensures d.rubro.RubroObjeto? ==> c.rubroId == d.rubro.id
    ensures c.precioVenta == d.precioVenta
    ensures c.denominacion == d.denominacion && c.descripcion == d.descripcion
    ensures c.tiempoEstimadoProduccion == d.tiempoEstimadoProduccion && c.detalles == d.detalles
  {
    CuerpoProducto(d.denominacion, d.descripcion, d.tiempoEstimadoProduccion,
                   if d.rubro.RubroPlano? then Texto(d.rubro.valor) else d.rubro.id,
                   d.detalles, d.precioVenta)
  }
}
