/**
 * The pure parts of src/features/insumos/hooks/useInsumos.tsx: the search
 * filter and the list load, the rubro and stock selectors, the stock
 * statistics, the find helpers and the stock-entry record.
 */
module UseInsumos {
  import opened Common
  import opened Text
  import opened AdminTypes
  import Crud

  /** The name of an insumo's rubro, "" when it has none. */
  function NombreRubro(i: Insumo): (r: string)
    ensures i.rubro.Some? && i.rubro.value.denominacion.Some? ==> r == i.rubro.value.denominacion.value
    ensures !(i.rubro.Some? && i.rubro.value.denominacion.Some?) ==> r == ""
  {
    if i.rubro.Some? && i.rubro.value.denominacion.Some? then i.rubro.value.denominacion.value else ""
  }

  /** The search filter: the lower-cased query occurs in the lower-cased
      name, rubro name or stock figure. */
  predicate Coincide(i: Insumo, busqueda: string)
  {
    var q := ToLower(busqueda);
    Contains(ToLower(i.denominacion), q)
    || Contains(ToLower(NombreRubro(i)), q)
    || Contains(ToLower(IntToString(i.stockActual)), q)
  }

  /** The search ignores the case of the query. */
  lemma CoincideSinMayusculas(i: Insumo, busqueda: string)
    ensures Coincide(i, busqueda) == Coincide(i, ToLower(busqueda))
  {
    ToLowerIdempotent(busqueda);
  }

  /** Searching for an insumo's own name, or its stock figure, finds it. */
  lemma CoincidePropio(i: Insumo)
    ensures Coincide(i, i.denominacion)
    ensures Coincide(i, IntToString(i.stockActual))
  {
    var n := ToLower(i.denominacion);
    var s := ToLower(IntToString(i.stockActual));
    assert n[0..|n|] == n;
    assert s[0..|s|] == s;
    ContainsAt(n, n, 0);
    ContainsAt(s, s, 0);
  }

  /** loadInsumos. */
  function CargarInsumos(busqueda: string, respuesta: Option<Crud.Pagina<Insumo>>, pageSize: nat): (l: Crud.Listado<Insumo>)
    requires pageSize > 0
    ensures respuesta.None? ==> l == Crud.Listado([], 1, 0, Some("Error al cargar insumos"))
    ensures respuesta.Some? && busqueda != [] ==>
              l.items == Filter(respuesta.value.content, (i: Insumo) => Coincide(i, busqueda))
              && l.totalElements == |l.items|
              && l.totalPages * pageSize >= |l.items| && (l.totalPages == 0 || (l.totalPages - 1) * pageSize < |l.items|)
    ensures respuesta.Some? && busqueda == [] ==> l.items == respuesta.value.content
  {
    Crud.Cargar(busqueda, respuesta, (i: Insumo) => Coincide(i, busqueda), pageSize, "Error al cargar insumos")
  }

  /** A search lists exactly the answer's insumos that match it. */
  lemma BusquedaListaCoincidentes(busqueda: string, respuesta: Crud.Pagina<Insumo>, pageSize: nat)
    requires pageSize > 0 && busqueda != []
    ensures var l := CargarInsumos(busqueda, Some(respuesta), pageSize);
      (forall k :: 0 <= k < |l.items| ==> l.items[k] in respuesta.content && Coincide(l.items[k], busqueda))
      && (forall k :: 0 <= k < |respuesta.content| && Coincide(respuesta.content[k], busqueda) ==>
            respuesta.content[k] in l.items)
  {
  }

  /** getRubrosPrincipales: the INSUMO rubros without a parent. */
  function RubrosPrincipales(rubros: seq<Rubro>): (r: seq<Rubro>)
    ensures forall k :: 0 <= k < |r| ==> r[k] in rubros && r[k].tipoRubro == INSUMO && r[k].padreId.None?
    ensures forall k :: 0 <= k < |rubros| && rubros[k].tipoRubro == INSUMO && rubros[k].padreId.None? ==>
              rubros[k] in r
  {
    Filter(rubros, (x: Rubro) => x.tipoRubro == INSUMO && x.padreId.None?)
  }

  /** getSubRubros: the rubros whose parent id is Number(arg), so the
      empty text selects the children of rubro 0. */
  function SubRubros(rubros: seq<Rubro>, padre: IdText): (r: seq<Rubro>)
    ensures forall k :: 0 <= k < |r| ==> r[k] in rubros && r[k].padreId == Some(IdNumber(padre))
    ensures forall k :: 0 <= k < |rubros| && rubros[k].padreId == Some(IdNumber(padre)) ==> rubros[k] in r
  {
    Filter(rubros, (x: Rubro) => x.padreId.Some? && x.padreId.value == IdNumber(padre))
  }

  /** A top-level rubro is never the sub-rubro of anything. */
  lemma PrincipalNoEsSubRubro(rubros: seq<Rubro>, padre: IdText)
    ensures forall k :: 0 <= k < |RubrosPrincipales(rubros)| ==> RubrosPrincipales(rubros)[k] !in SubRubros(rubros, padre)
  {
    var p, s := RubrosPrincipales(rubros), SubRubros(rubros, padre);
    forall k | 0 <= k < |p|
      ensures p[k] !in s
    {
      assert p[k].padreId.None?;
      assert forall j :: 0 <= j < |s| ==> s[j].padreId.Some?;
    }
  }

  /** getInsumosParaElaborar: the active insumos used in recipes (the same
      filter useProductos and ProductoModal apply). */
  function InsumosParaElaborar(insumos: seq<Insumo>): (r: seq<Insumo>)
    ensures forall k :: 0 <= k < |r| ==> r[k] in insumos && r[k].esParaElaborar && Activo(r[k].estado)
    ensures forall k :: 0 <= k < |insumos| && insumos[k].esParaElaborar && Activo(insumos[k].estado) ==>
              insumos[k] in r
  {
    Filter(insumos, (x: Insumo) => x.esParaElaborar && Activo(x.estado))
  }

  const UMBRAL_STOCK_BAJO := 1000

  predicate BajoStock(i: Insumo)
  {
    i.stockActual < UMBRAL_STOCK_BAJO && Activo(i.estado)
  }

  predicate SinStock(i: Insumo)
  {
    i.stockActual == 0 && Activo(i.estado)
  }

  /** getInsumosStockBajo: active insumos with less than 1000 in stock. */
  function InsumosStockBajo(insumos: seq<Insumo>): (r: seq<Insumo>)
    ensures forall k :: 0 <= k < |r| ==> r[k] in insumos && BajoStock(r[k])
    ensures forall k :: 0 <= k < |insumos| && BajoStock(insumos[k]) ==> insumos[k] in r
  {
    Filter(insumos, BajoStock)
  }

  /** getInsumosSinStock: active insumos with nothing in stock. */
  function InsumosSinStock(insumos: seq<Insumo>): (r: seq<Insumo>)
    ensures forall k :: 0 <= k < |r| ==> r[k] in insumos && SinStock(r[k])
    ensures forall k :: 0 <= k < |insumos| && SinStock(insumos[k]) ==> insumos[k] in r
  {
    Filter(insumos, SinStock)
  }

  /** Every insumo without stock is also low on stock, so there are never
      more of the first than of the second. */
  lemma SinStockEsStockBajo(insumos: seq<Insumo>)
    ensures forall k :: 0 <= k < |InsumosSinStock(insumos)| ==> InsumosSinStock(insumos)[k] in InsumosStockBajo(insumos)
    ensures |InsumosSinStock(insumos)| <= |InsumosStockBajo(insumos)|
  {
    FilterWeaker(insumos, SinStock, BajoStock);
  }

  /** The figures of getStockStats. */
  datatype StockStats = StockStats(
    total: int,
    sinStock: int,
    stockBajo: int,
    stockNormal: int,
    porcentajeSinStock: int,
    porcentajeStockBajo: int)

  /** Math.round(part / total * 100), 0 for an empty list. */
  function Porcentaje(part: nat, total: nat): (r: nat)
    ensures total == 0 ==> r == 0
    ensures total > 0 ==> r == RoundPercent(part, total)
  {
    if total > 0 then RoundPercent(part, total) else 0
  }

  /** getStockStats as written: the insumos without stock are subtracted
      from the total on their own and again as part of the low-stock ones. */
  function StockStatsComoEscrito(insumos: seq<Insumo>): (s: StockStats)
    ensures s.total == |insumos| && s.sinStock == |InsumosSinStock(insumos)| && s.stockBajo == |InsumosStockBajo(insumos)|
    ensures s.stockNormal == s.total - s.sinStock - s.stockBajo
  {
    var total, sin, bajo := |insumos|, |InsumosSinStock(insumos)|, |InsumosStockBajo(insumos)|;
    StockStats(total, sin, bajo, total - sin - bajo, Porcentaje(sin, total), Porcentaje(bajo, total))
  }

  /** One active insumo with an empty stock: the written figure of insumos
      with normal stock is -1. */
  lemma StockNormalNegativo()
    ensures var i := Insumo(1, "Harina", 0.0, 0.0, true, 0, "GRAMOS", None, None, Some("Activo"), None);
      StockStatsComoEscrito([i]).stockNormal == -1
  {
    var i := Insumo(1, "Harina", 0.0, 0.0, true, 0, "GRAMOS", None, None, Some("Activo"), None);
    assert InsumosSinStock([i]) == [i];
    assert InsumosStockBajo([i]) == [i];
  }

  /** getStockStats with the normal-stock figure counting the insumos that
      are not low on stock. */
  function StockStatsCorregido(insumos: seq<Insumo>): (s: StockStats)
    ensures s.total == |insumos| && s.sinStock == |InsumosSinStock(insumos)| && s.stockBajo == |InsumosStockBajo(insumos)|
    ensures s.stockNormal == |Filter(insumos, (i: Insumo) => !BajoStock(i))|
    ensures 0 <= s.sinStock <= s.stockBajo <= s.total
    ensures s.stockNormal >= 0 && s.stockNormal + s.stockBajo == s.total
    ensures 0 <= s.porcentajeSinStock <= s.porcentajeStockBajo <= 100
    ensures s.total == 0 ==> s.porcentajeSinStock == 0 && s.porcentajeStockBajo == 0
  {
    var total, sin, bajo := |insumos|, |InsumosSinStock(insumos)|, |InsumosStockBajo(insumos)|;
    SinStockEsStockBajo(insumos);
    FilterSplit(insumos, BajoStock, (i: Insumo) => !BajoStock(i));
    var s := StockStats(total, sin, bajo, total - bajo, Porcentaje(sin, total), Porcentaje(bajo, total));
    if total > 0 then
      RoundPercentBounds(bajo, total);
      RoundPercentMonotone(sin, bajo, total);
      RoundPercentBounds(sin, total);
      s
    else s
  }

  /** The two versions differ exactly when some insumo has no stock. */
  lemma CorreccionSoloConSinStock(insumos: seq<Insumo>)
    ensures (StockStatsComoEscrito(insumos).stockNormal == StockStatsCorregido(insumos).stockNormal)
            <==> |InsumosSinStock(insumos)| == 0
  {
  }

  /** findInsumoById: the first insumo with that id. */
  function FindInsumoById(insumos: seq<Insumo>, id: int): (r: Option<Insumo>)
    ensures r.None? <==> forall k :: 0 <= k < |insumos| ==> insumos[k].id != id
    ensures r.Some? ==> exists k :: 0 <= k < |insumos| && insumos[k] == r.value && r.value.id == id
                                  && forall j :: 0 <= j < k ==> insumos[j].id != id
  {
    Find(insumos, (x: Insumo) => x.id == id)
  }

  /** findInsumosByRubro: every insumo of the rubro with that id. */
  function FindInsumosByRubro(insumos: seq<Insumo>, rubroId: int): (r: seq<Insumo>)
    ensures forall k :: 0 <= k < |r| ==> r[k] in insumos && r[k].rubro.Some? && r[k].rubro.value.id == rubroId
    ensures forall k :: 0 <= k < |insumos| && insumos[k].rubro.Some? && insumos[k].rubro.value.id == rubroId ==>
              insumos[k] in r
  {
    Filter(insumos, (x: Insumo) => x.rubro.Some? && x.rubro.value.id == rubroId)
  }

  /** The insumos of one rubro found by id are among those of that rubro. */
  lemma FindByIdEnSuRubro(insumos: seq<Insumo>, id: int, rubroId: int)
    requires FindInsumoById(insumos, id).Some?
    requires FindInsumoById(insumos, id).value.rubro.Some? && FindInsumoById(insumos, id).value.rubro.value.id == rubroId
    ensures FindInsumoById(insumos, id).value in FindInsumosByRubro(insumos, rubroId)
  {
    var x := FindInsumoById(insumos, id).value;
    var k :| 0 <= k < |insumos| && insumos[k] == x && x.id == id && forall j :: 0 <= j < k ==> insumos[j].id != id;
    assert insumos[k].rubro.Some? && insumos[k].rubro.value.id == rubroId;
  }

  /** RegistroInsumoApi: one stock movement. */
  datatype Registro = Registro(
    cantidad: real,
    tipoMovimiento: string,
    motivo: string,
    articuloInsumoId: int,
    sucursalId: int)

  /** The record reponerStock sends: an INGRESO of `cantidad` for the
      insumo, at branch 1. */
  function RegistroReposicion(insumo: Insumo, cantidad: real, motivo: string): (r: Registro)
    ensures r.tipoMovimiento == "INGRESO" && r.sucursalId == 1
    ensures r.articuloInsumoId == insumo.id && r.cantidad == cantidad && r.motivo == motivo
  {
    Registro(cantidad, "INGRESO", motivo, insumo.id, 1)
  }

  /** The body createNewInsumo sends: missing prices count as 0 and a
      missing flag as false. */
  datatype CuerpoInsumo = CuerpoInsumo(
    denominacion: string,
    unidadMedida: string,
    rubroId: IdText,
    precioCompra: real,
    precioVenta: real,
    esParaElaborar: bool)

  /** `x || 0` on an optional number: an absent, zero or NaN value gives 0. */
  function NumeroODefecto(n: Option<JsNumber>): (r: real)
    ensures n.Some? && NumberTruthy(n.value) ==> r == n.value.v
    ensures !(n.Some? && NumberTruthy(n.value)) ==> r == 0.0
  {
    if n.Some? && NumberTruthy(n.value) then n.value.v else 0.0
  }

  function CuerpoCrearInsumo(denominacion: string, unidadMedida: string, rubroId: IdText,
                             precioCompra: Option<JsNumber>, precioVenta: Option<JsNumber>,
                             esParaElaborar: Option<bool>): (c: CuerpoInsumo)
    ensures c.denominacion == denominacion && c.unidadMedida == unidadMedida && c.rubroId == rubroId
    ensures c.precioCompra == NumeroODefecto(precioCompra) && c.precioVenta == NumeroODefecto(precioVenta)
    ensures c.esParaElaborar <==> esParaElaborar == Some(true)
  {
    CuerpoInsumo(denominacion, unidadMedida, rubroId, NumeroODefecto(precioCompra), NumeroODefecto(precioVenta),
                 esParaElaborar.Some? && esParaElaborar.value)
  }
}
