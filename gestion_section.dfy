/**
 * The order list of the management screen (src/features/gestion/GestionSection.tsx):
 * the orders shown for a state filter, a row count and a search text.
 */
module GestionSection {
  import opened Common
  import opened Text

  /** The parts of an order the filter reads. */
  datatype EstadoPedido = EstadoPedido(id: int, nombre: string)
  datatype Cliente = Cliente(id: int, nombre: string, apellido: string, email: string)
  datatype Pedido = Pedido(id: int, estado: EstadoPedido, cliente: Cliente)

  /** The client's full name as the search sees it. */
  function NombreCompleto(c: Cliente): (r: string)
    ensures |r| == |c.nombre| + 1 + |c.apellido| && r[|c.nombre|] == ' '
    ensures r[..|c.nombre|] == c.nombre && r[|c.nombre| + 1..] == c.apellido
  {
    c.nombre + " " + c.apellido
  }

  /** The search: the query, ignoring case, occurs in "nombre apellido",
      or the query occurs in the decimal id. */
  predicate CoincideBusqueda(p: Pedido, search: string)
  {
    Contains(ToLower(NombreCompleto(p.cliente)), ToLower(search))
    || Contains(IntToString(p.id), search)
  }

  /** The state filter: none chosen, or the exact state name. */
  predicate CoincideEstado(p: Pedido, estado: string)
  {
    estado == [] || p.estado.nombre == estado
  }

  predicate PasaFiltros(p: Pedido, estado: string, search: string)
  {
    CoincideEstado(p, estado) && CoincideBusqueda(p, search)
  }

  /** pedidosFiltrados: the filter, then slice(0, cantidad). The rows are
      a prefix of the orders that pass, in their order; a non-negative
      count keeps at most that many, and a negative one drops that many
      from the end, as slice does. */
  function PedidosFiltrados(pedidos: seq<Pedido>, estado: string, cantidad: int, search: string): (r: seq<Pedido>)
    ensures var f := Filter(pedidos, (p: Pedido) => PasaFiltros(p, estado, search));
      |r| <= |f| && r == f[..|r|]
      && (cantidad >= 0 ==> |r| == Min(cantidad, |f|))
      && (cantidad < 0 ==> |r| == Max(|f| + cantidad, 0))
  {
    Slice(Filter(pedidos, (p: Pedido) => PasaFiltros(p, estado, search)), 0, cantidad)
  }

  /** Every row shown is an order of the list that passes both filters,
      so with a state chosen it is in exactly that state. */
  lemma FilasPasanFiltros(pedidos: seq<Pedido>, estado: string, cantidad: int, search: string)
    ensures var r := PedidosFiltrados(pedidos, estado, cantidad, search);
      forall k :: 0 <= k < |r| ==> r[k] in pedidos && PasaFiltros(r[k], estado, search)
                                   && (estado != [] ==> r[k].estado.nombre == estado)
  {
    var f := Filter(pedidos, (p: Pedido) => PasaFiltros(p, estado, search));
    var r := PedidosFiltrados(pedidos, estado, cantidad, search);
    assert forall k :: 0 <= k < |r| ==> r[k] == f[k];
  }

  /** The empty string occurs in every string. */
  lemma ContieneVacio(s: string)
    ensures Contains(s, [])
  {
    assert StartsWith(s, []);
  }

  /** An empty search matches every order. */
  lemma BusquedaVaciaCoincide(p: Pedido)
    ensures CoincideBusqueda(p, [])
  {
    ContieneVacio(IntToString(p.id));
  }

  /** With no state and no search, the first `cantidad` orders are shown
      unfiltered. */
  lemma SinFiltrosMuestraLosPrimeros(pedidos: seq<Pedido>, cantidad: nat)
    ensures PedidosFiltrados(pedidos, [], cantidad, []) == pedidos[..Min(cantidad, |pedidos|)]
  {
    var q := (p: Pedido) => PasaFiltros(p, [], []);
    forall k | 0 <= k < |pedidos|
      ensures q(pedidos[k])
    {
      BusquedaVaciaCoincide(pedidos[k]);
    }
    FilterKeepsAll(pedidos, q);
  }

  /** Searching an order's own id finds it. */
  lemma BusquedaPorId(p: Pedido)
    ensures CoincideBusqueda(p, IntToString(p.id))
  {
    var s := IntToString(p.id);
    assert s[0..|s|] == s;
    ContainsAt(s, s, 0);
  }

  /** Searching the client's first name, in any case, finds the order. */
  lemma BusquedaPorNombre(p: Pedido, search: string)
    requires ToLower(search) == ToLower(p.cliente.nombre)
    ensures CoincideBusqueda(p, search)
  {
    var n := NombreCompleto(p.cliente);
    var l := ToLower(n);
    var m := |p.cliente.nombre|;
    assert l[0..m] == ToLower(search);
    ContainsAt(l, ToLower(search), 0);
  }

  /** A larger count shows the same rows and possibly more after them. */
  lemma MasCantidadExtiende(pedidos: seq<Pedido>, estado: string, search: string, c: nat, c': nat)
    requires c <= c'
    ensures var r, r' := PedidosFiltrados(pedidos, estado, c, search), PedidosFiltrados(pedidos, estado, c', search);
      |r| <= |r'| && r == r'[..|r|]
  {
  }
}
