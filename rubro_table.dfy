/**
 * The rubro table (src/features/rubros/ui/GenericRubroTable.tsx): rows are
 * shown parent first, each followed by its direct children, and the row
 * actions are routed back to the row's position in the original list.
 */
module GenericRubroTable {
  import opened Common
  import opened AdminTypes

  /** RubroTable: a row of the table. */
  datatype Fila = Fila(id: int, rubro: string, padre: string, estado: string)

  /** The map `rubroMap`: a later row with the same id replaces an earlier
      one, as Map.set does. */
  function MapaFilas(rows: seq<Fila>): (m: map<int, Fila>)
    ensures forall k :: k in m ==> m[k] in rows && m[k].id == k
    ensures forall i :: 0 <= i < |rows| ==> rows[i].id in m
  {
    if rows == [] then map[]
    else MapaFilas(rows[..|rows| - 1])[rows[|rows| - 1].id := rows[|rows| - 1]]
  }

  /** The later of two rows with one id wins. */
  lemma {:induction false} MapaFilasLast(rows: seq<Fila>, i: nat)
    requires i < |rows|
    requires forall j :: i < j < |rows| ==> rows[j].id != rows[i].id
    ensures MapaFilas(rows)[rows[i].id] == rows[i]
  {
    if i < |rows| - 1 {
      MapaFilasLast(rows[..|rows| - 1], i);
    }
  }

  method BuildMapaFilas(rows: seq<Fila>) returns (m: map<int, Fila>)
    ensures m == MapaFilas(rows)
  {
    m := map[];
    var i := 0;
    while i < |rows|
      invariant 0 <= i <= |rows|
      invariant m == MapaFilas(rows[..i])
    {
      assert rows[..i + 1][..i] == rows[..i];
      m := m[rows[i].id := rows[i]];
      i := i + 1;
    }
    assert rows[..i] == rows;
  }

  /** `padres`: top-level rubros of the tipo. */
  function Padres(api: seq<Rubro>, tipo: TipoRubro): seq<Rubro>
  {
    Filter(api, (r: Rubro) => r.padreId.None? && r.tipoRubro == tipo)
  }

  /** `hijos`: direct children of `padreId` of the tipo. */
  function Hijos(api: seq<Rubro>, padreId: int, tipo: TipoRubro): seq<Rubro>
  {
    Filter(api, (r: Rubro) => r.padreId == Some(padreId) && r.tipoRubro == tipo)
  }

  /** The row of a rubro, when the map has one. */
  function FilaDe(m: map<int, Fila>): Rubro -> seq<Fila>
  {
    (r: Rubro) => if r.id in m then [m[r.id]] else []
  }

  /** The rows of those rubros found in the map, in order. */
  function Encontradas(m: map<int, Fila>, rs: seq<Rubro>): seq<Fila>
  {
    FlatMap(rs, FilaDe(m))
  }

  /** The rows one parent contributes: its own row and its children's, or
      nothing when the parent has no row. */
  function Bloque(m: map<int, Fila>, api: seq<Rubro>, tipo: TipoRubro, padre: Rubro): seq<Fila>
  {
    if padre.id in m then [m[padre.id]] + Encontradas(m, Hijos(api, padre.id, tipo)) else []
  }

  function BloqueDe(m: map<int, Fila>, api: seq<Rubro>, tipo: TipoRubro): Rubro -> seq<Fila>
  {
    (p: Rubro) => Bloque(m, api, tipo, p)
  }

  /** getHierarchy over a list of parents. */
  function Jerarquia(m: map<int, Fila>, api: seq<Rubro>, tipo: TipoRubro, padres: seq<Rubro>): seq<Fila>
  {
    FlatMap(padres, BloqueDe(m, api, tipo))
  }

  /** organizedRubros. */
  function Organizadas(rows: seq<Fila>, api: seq<Rubro>, tipo: TipoRubro): seq<Fila>
  {
    Jerarquia(MapaFilas(rows), api, tipo, Padres(api, tipo))
  }

  method EncontradasLoop(m: map<int, Fila>, rs: seq<Rubro>) returns (out: seq<Fila>)
    ensures out == Encontradas(m, rs)
  {
    out := [];
    var j := 0;
    while j < |rs|
      invariant 0 <= j <= |rs|
      invariant out == Encontradas(m, rs[..j])
    {
      assert rs[..j + 1][..j] == rs[..j];
      if rs[j].id in m {
        out := out + [m[rs[j].id]];
      }
      j := j + 1;
    }
    assert rs[..j] == rs;
  }

  /** The rows one parent pushes: its own row, then its children's. */
  method BloqueLoop(m: map<int, Fila>, api: seq<Rubro>, tipo: TipoRubro, padre: Rubro) returns (bloque: seq<Fila>)
    ensures bloque == Bloque(m, api, tipo, padre)
  {
    bloque := [];
    if padre.id in m {
      var filas := EncontradasLoop(m, Hijos(api, padre.id, tipo));
      bloque := [m[padre.id]] + filas;
    }
  }

  /** organizedRubros as the component computes it: fill the map, then for
      each parent push its row and the rows of its children. */
  method Organizar(rows: seq<Fila>, api: seq<Rubro>, tipo: TipoRubro) returns (result: seq<Fila>)
    ensures result == Organizadas(rows, api, tipo)
  {
    var m := BuildMapaFilas(rows);
    var padres := Padres(api, tipo);
    result := [];
    var i := 0;
    while i < |padres|
      invariant 0 <= i <= |padres|
      invariant result == Jerarquia(m, api, tipo, padres[..i])
    {
      var bloque := BloqueLoop(m, api, tipo, padres[i]);
      JerarquiaPaso(m, api, tipo, padres, i);
      result := result + bloque;
      i := i + 1;
    }
    assert padres[..i] == padres;
  }

  /** One more parent adds its block at the end. */
  lemma JerarquiaPaso(m: map<int, Fila>, api: seq<Rubro>, tipo: TipoRubro, padres: seq<Rubro>, i: nat)
    requires i < |padres|
    ensures Jerarquia(m, api, tipo, padres[..i + 1])
            == Jerarquia(m, api, tipo, padres[..i]) + Bloque(m, api, tipo, padres[i])
  {
    assert padres[..i + 1][..i] == padres[..i];
  }

  /** What a row of the table may be: the row of a top-level rubro of the
      tipo, or of a direct child of the tipo whose parent is such a
      top-level rubro. */
  ghost predicate Admisible(rows: seq<Fila>, api: seq<Rubro>, tipo: TipoRubro, f: Fila)
  {
    f in rows
    && exists r :: r in api && r.id == f.id && r.tipoRubro == tipo
         && (r.padreId.None?
             || exists p :: p in api && p.padreId.None? && p.tipoRubro == tipo && r.padreId == Some(p.id))
  }

  /** Every row shown comes from `rows`, found by id, and is a top-level
      rubro of the tipo or a direct child of one: grandchildren and other
      tipos never appear. */
  lemma OrganizadasSonAdmisibles(rows: seq<Fila>, api: seq<Rubro>, tipo: TipoRubro, k: nat)
    requires k < |Organizadas(rows, api, tipo)|
    ensures Admisible(rows, api, tipo, Organizadas(rows, api, tipo)[k])
  {
    var m := MapaFilas(rows);
    var padres := Padres(api, tipo);
    var i, off := FlatMapElement(padres, BloqueDe(m, api, tipo), k);
    assert padres[i] in api && padres[i].padreId.None? && padres[i].tipoRubro == tipo;
    BloqueAdmisible(rows, api, tipo, padres[i], off);
  }

  /** Each row of a top-level rubro's block is admissible. */
  lemma BloqueAdmisible(rows: seq<Fila>, api: seq<Rubro>, tipo: TipoRubro, p: Rubro, off: nat)
    requires p in api && p.padreId.None? && p.tipoRubro == tipo
    requires off < |Bloque(MapaFilas(rows), api, tipo, p)|
    ensures Admisible(rows, api, tipo, Bloque(MapaFilas(rows), api, tipo, p)[off])
  {
    var m := MapaFilas(rows);
    var f := Bloque(m, api, tipo, p)[off];
    if off == 0 {
      assert f == m[p.id];
    } else {
      var hs := Hijos(api, p.id, tipo);
      assert f == Encontradas(m, hs)[off - 1];
      var i', off' := FlatMapElement(hs, FilaDe(m), off - 1);
      var r := hs[i'];
      assert f == m[r.id];
      assert r in api && r.padreId == Some(p.id) && r.tipoRubro == tipo;
    }
  }

  /** Parents are processed in order: the rows for a list of parents are
      the rows for each parent, one block after another. */
  lemma JerarquiaConcat(m: map<int, Fila>, api: seq<Rubro>, tipo: TipoRubro, a: seq<Rubro>, b: seq<Rubro>)
    ensures Jerarquia(m, api, tipo, a + b) == Jerarquia(m, api, tipo, a) + Jerarquia(m, api, tipo, b)
  {
    FlatMapConcat(a, b, BloqueDe(m, api, tipo));
  }

  /** A parent that has no row is skipped together with its children. */
  lemma PadreAusente(m: map<int, Fila>, api: seq<Rubro>, tipo: TipoRubro, padres: seq<Rubro>, i: nat)
    requires i < |padres| && padres[i].id !in m
    ensures Jerarquia(m, api, tipo, padres)
            == Jerarquia(m, api, tipo, padres[..i]) + Jerarquia(m, api, tipo, padres[i + 1..])
  {
    assert padres == padres[..i] + [padres[i]] + padres[i + 1..];
    JerarquiaConcat(m, api, tipo, padres[..i] + [padres[i]], padres[i + 1..]);
    JerarquiaConcat(m, api, tipo, padres[..i], [padres[i]]);
    assert Jerarquia(m, api, tipo, [padres[i]]) == [] by {
      assert [padres[i]][..0] == [];
    }
  }

  /** A parent that has a row contributes its row followed by the rows of
      its direct children of the tipo. */
  lemma PadrePresente(m: map<int, Fila>, api: seq<Rubro>, tipo: TipoRubro, padre: Rubro)
    requires padre.id in m
    ensures Jerarquia(m, api, tipo, [padre]) == [m[padre.id]] + Encontradas(m, Hijos(api, padre.id, tipo))
  {
    assert [padre][..0] == [];
    assert FlatMap([padre], BloqueDe(m, api, tipo)) == FlatMap([], BloqueDe(m, api, tipo)) + Bloque(m, api, tipo, padre);
  }

  /** `indexMap`: for each shown row, the first position in `rows` with its
      id, when there is one. */
  function IndiceOriginal(rows: seq<Fila>, f: Fila): (r: int)
    ensures -1 <= r < |rows|
    ensures r >= 0 ==> rows[r].id == f.id && forall j :: 0 <= j < r ==> rows[j].id != f.id
    ensures r == -1 <==> forall j :: 0 <= j < |rows| ==> rows[j].id != f.id
  {
    FirstIndex(rows, (x: Fila) => x.id == f.id)
  }

  method BuildIndexMap(organized: seq<Fila>, rows: seq<Fila>) returns (m: map<int, int>)
    ensures forall i :: i in m <==> 0 <= i < |organized| && IndiceOriginal(rows, organized[i]) != -1
    ensures forall i :: i in m ==> m[i] == IndiceOriginal(rows, organized[i])
  {
    m := map[];
    var i := 0;
    while i < |organized|
      invariant 0 <= i <= |organized|
      invariant forall k :: k in m <==> 0 <= k < i && IndiceOriginal(rows, organized[k]) != -1
      invariant forall k :: k in m ==> m[k] == IndiceOriginal(rows, organized[k])
    {
      var original := IndiceOriginal(rows, organized[i]);
      if original != -1 {
        m := m[i := original];
      }
      i := i + 1;
    }
  }

  /** `indexMap.get(rowIndex) ?? rowIndex`. */
  function Destino(rows: seq<Fila>, organized: seq<Fila>, rowIndex: int): int
  {
    if 0 <= rowIndex < |organized| && IndiceOriginal(rows, organized[rowIndex]) != -1
    then IndiceOriginal(rows, organized[rowIndex])
    else rowIndex
  }

  /** A shown row's action goes to the first entry of `rows` that carries
      that row's id. */
  lemma DestinoDeFilaMostrada(rows: seq<Fila>, api: seq<Rubro>, tipo: TipoRubro, rowIndex: nat)
    requires rowIndex < |Organizadas(rows, api, tipo)|
    ensures var org := Organizadas(rows, api, tipo); var d := Destino(rows, org, rowIndex);
      0 <= d < |rows| && rows[d].id == org[rowIndex].id
      && forall j :: 0 <= j < d ==> rows[j].id != org[rowIndex].id
  {
    var org := Organizadas(rows, api, tipo);
    OrganizadasSonAdmisibles(rows, api, tipo, rowIndex);
    var f := org[rowIndex];
    assert f in rows;
    var j :| 0 <= j < |rows| && rows[j] == f;
    assert rows[j].id == f.id;
  }

  /** onAlta: toggles the target row only when it is "Inactivo". */
  function OnAlta(rows: seq<Fila>, organized: seq<Fila>, rowIndex: int): (r: Option<int>)
    requires 0 <= Destino(rows, organized, rowIndex) < |rows|
    ensures r.Some? <==> rows[Destino(rows, organized, rowIndex)].estado == "Inactivo"
    ensures r.Some? ==> r.value == Destino(rows, organized, rowIndex)
  {
    var d := Destino(rows, organized, rowIndex);
    if rows[d].estado == "Inactivo" then Some(d) else None
  }

  /** onBaja: toggles the target row only when it is "Activo". */
  function OnBaja(rows: seq<Fila>, organized: seq<Fila>, rowIndex: int): (r: Option<int>)
    requires 0 <= Destino(rows, organized, rowIndex) < |rows|
    ensures r.Some? <==> rows[Destino(rows, organized, rowIndex)].estado == "Activo"
    ensures r.Some? ==> r.value == Destino(rows, organized, rowIndex)
  {
    var d := Destino(rows, organized, rowIndex);
    if rows[d].estado == "Activo" then Some(d) else None
  }
}
