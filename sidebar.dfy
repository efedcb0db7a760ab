/**
 * The side menu (src/components/SideBar/SideBar.tsx): which sections a
 * role sees. These role names are spelled as stored ("Administrador",
 * "Cajero", "Cocinero"), unlike the upper-case codes the order-status
 * service compares.
 */
module SideBar {
  import opened Common

  datatype Seccion = Administracion | Rubros | Insumos | Productos | Promociones | Gestion | Estadisticas | Seguridad

  /** The menu, in display order. */
  const SECCIONES: seq<Seccion> := [Administracion, Rubros, Insumos, Productos, Promociones, Gestion, Estadisticas, Seguridad]

  /** The roles each section is offered to. */
  function RolesPermitidos(s: Seccion): (r: seq<string>)
    ensures "Administrador" in r
    ensures (s == Insumos || s == Productos || s == Gestion) <==> "Cocinero" in r
    ensures s == Gestion <==> "Cajero" in r
  {
    match s
    case Insumos => ["Administrador", "Cocinero"]
    case Productos => ["Administrador", "Cocinero"]
    case Gestion => ["Administrador", "Cajero", "Cocinero"]
    case _ => ["Administrador"]
  }

  /** hasAccess: false for a missing or empty role, otherwise an exact,
      case-sensitive membership test. */
  function HasAccess(permitidos: seq<string>, rol: Option<string>): (r: bool)
    ensures rol.None? || rol == Some("") ==> !r
    ensures rol.Some? && rol.value != "" ==> (r <==> rol.value in permitidos)
  {
    if rol.None? || rol.value == "" then false else rol.value in permitidos
  }

  /** One entry of the menu: the section when the role has access. */
  function Entrada(s: Seccion, rol: Option<string>): (r: seq<Seccion>)
    ensures HasAccess(RolesPermitidos(s), rol) ==> r == [s]
    ensures !HasAccess(RolesPermitidos(s), rol) ==> r == []
  {
    if HasAccess(RolesPermitidos(s), rol) then [s] else []
  }

  /** The sections shown to a role, each guarded by hasAccess, in menu
      order. */
  function Visibles(rol: Option<string>): seq<Seccion>
  {
    Entrada(Administracion, rol) + Entrada(Rubros, rol) + Entrada(Insumos, rol) + Entrada(Productos, rol)
    + Entrada(Promociones, rol) + Entrada(Gestion, rol) + Entrada(Estadisticas, rol) + Entrada(Seguridad, rol)
  }

  /** The administrator sees the whole menu. */
  lemma AdministradorVeTodo()
    ensures Visibles(Some("Administrador")) == SECCIONES
  {
    var rol := Some("Administrador");
    assert Entrada(Administracion, rol) == [Administracion];
    assert Entrada(Rubros, rol) == [Rubros];
    assert Entrada(Insumos, rol) == [Insumos];
    assert Entrada(Productos, rol) == [Productos];
    assert Entrada(Promociones, rol) == [Promociones];
    assert Entrada(Gestion, rol) == [Gestion];
    assert Entrada(Estadisticas, rol) == [Estadisticas];
    assert Entrada(Seguridad, rol) == [Seguridad];
  }

  /** A cook sees Insumos, Productos and Gestión. */
  lemma CocineroVeCocina()
    ensures Visibles(Some("Cocinero")) == [Insumos, Productos, Gestion]
  {
    var rol := Some("Cocinero");
    assert Entrada(Administracion, rol) == [];
    assert Entrada(Rubros, rol) == [];
    assert Entrada(Insumos, rol) == [Insumos];
    assert Entrada(Productos, rol) == [Productos];
    assert Entrada(Promociones, rol) == [];
    assert Entrada(Gestion, rol) == [Gestion];
    assert Entrada(Estadisticas, rol) == [];
    assert Entrada(Seguridad, rol) == [];
  }

  /** A cashier sees only Gestión. */
  lemma CajeroVeGestion()
    ensures Visibles(Some("Cajero")) == [Gestion]
  {
    var rol := Some("Cajero");
    assert Entrada(Administracion, rol) == [];
    assert Entrada(Rubros, rol) == [];
    assert Entrada(Insumos, rol) == [];
    assert Entrada(Productos, rol) == [];
    assert Entrada(Promociones, rol) == [];
    assert Entrada(Gestion, rol) == [Gestion];
    assert Entrada(Estadisticas, rol) == [];
    assert Entrada(Seguridad, rol) == [];
  }

  /** Any other role, "Delivery" and a differently cased name included,
      sees nothing. */
  lemma OtrosNoVenNada(rol: string)
    requires rol != "Administrador" && rol != "Cocinero" && rol != "Cajero"
    ensures Visibles(Some(rol)) == []
  {
    assert forall s :: s in SECCIONES ==> !HasAccess(RolesPermitidos(s), Some(rol));
  }

  /** A section is shown exactly when hasAccess lets the role see it. */
  lemma VisiblesSii(rol: Option<string>, s: Seccion)
    ensures s in Visibles(rol) <==> HasAccess(RolesPermitidos(s), rol)
  {
    if rol == Some("Administrador") {
      SiiAdministrador(s);
    } else if rol == Some("Cocinero") {
      SiiCocinero(s);
    } else if rol == Some("Cajero") {
      SiiCajero(s);
    } else {
      NadieMas(rol);
    }
  }

  lemma SiiAdministrador(s: Seccion)
    ensures s in Visibles(Some("Administrador")) && HasAccess(RolesPermitidos(s), Some("Administrador"))
  {
    AdministradorVeTodo();
    assert s in SECCIONES;
  }

  lemma SiiCocinero(s: Seccion)
    ensures s in Visibles(Some("Cocinero")) <==> HasAccess(RolesPermitidos(s), Some("Cocinero"))
  {
    CocineroVeCocina();
    assert s in [Insumos, Productos, Gestion] <==> s == Insumos || s == Productos || s == Gestion;
  }

  lemma SiiCajero(s: Seccion)
    ensures s in Visibles(Some("Cajero")) <==> HasAccess(RolesPermitidos(s), Some("Cajero"))
  {
    CajeroVeGestion();
  }

  /** No section is shown twice. */
  lemma VisiblesSinRepetir(rol: Option<string>)
    ensures forall j, k :: 0 <= j < k < |Visibles(rol)| ==> Visibles(rol)[j] != Visibles(rol)[k]
  {
    if rol == Some("Administrador") {
      AdministradorVeTodo();
    } else if rol == Some("Cocinero") {
      CocineroVeCocina();
    } else if rol == Some("Cajero") {
      CajeroVeGestion();
    } else {
      NadieMas(rol);
    }
  }

  lemma NadieMas(rol: Option<string>)
    requires rol != Some("Administrador") && rol != Some("Cocinero") && rol != Some("Cajero")
    ensures Visibles(rol) == []
    ensures forall s :: !HasAccess(RolesPermitidos(s), rol)
  {
    if rol.Some? {
      OtrosNoVenNada(rol.value);
    }
  }
}
