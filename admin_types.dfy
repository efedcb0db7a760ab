/**
 * The entities of the administration screens (src/types/adminTypes.ts),
 * reduced to the fields the modelled components read. Prices are reals;
 * ids are integers.
 */
module AdminTypes {
  import opened Common

  datatype TipoRubro = INSUMO | MANUFACTURADO

  /** RubroApi. The parent is referred to by its id; a missing or null
      parent is None. */
  datatype Rubro = Rubro(
    id: int,
    denominacion: string,
    tipoRubro: TipoRubro,
    padreId: Option<int>,
    fechaBaja: Option<string>)

  /** The `{ id, denominacion }` rubro reference carried by insumos and
      products; the name may be missing. */
  datatype RubroRef = RubroRef(id: int, denominacion: Option<string>)

  datatype Imagen = Imagen(id: Option<int>, urlImagen: string)

  /** InsumoApi. `estado` is the "Activo"/"Inactivo" label computed on the
      client, when present. */
  datatype Insumo = Insumo(
    id: int,
    denominacion: string,
    precioCompra: real,
    precioVenta: real,
    esParaElaborar: bool,
    stockActual: int,
    unidadMedida: string,
    rubro: Option<RubroRef>,
    fechaBaja: Option<string>,
    estado: Option<string>,
    imagen: Option<Imagen>)

  /** One ingredient line of a manufactured article. */
  datatype Ingrediente = Ingrediente(cantidad: real, insumoId: int)

  /** ArticuloManufacturadoApi. */
  datatype Producto = Producto(
    id: int,
    denominacion: string,
    descripcion: string,
    precioVenta: real,
    tiempoEstimadoProduccion: real,
    detalles: seq<Ingrediente>,
    imagen: Option<Imagen>,
    rubro: Option<RubroRef>,
    fechaBaja: Option<string>,
    estado: Option<string>)

  /** RolApi. */
  datatype Rol = Rol(id: int, denominacion: string)

  predicate Activo(estado: Option<string>)
  {
    estado == Some("Activo")
  }

  /** The image an edit keeps: the existing one, only when no new file is
      chosen and the existing image has a (truthy) id. */
  function ImagenConservada(nuevoArchivo: bool, actual: Option<Imagen>): (r: Option<Imagen>)
    ensures r.Some? <==> !nuevoArchivo && actual.Some? && actual.value.id.Some? && actual.value.id.value != 0
    ensures r.Some? ==> r == actual
  {
    if !nuevoArchivo && actual.Some? && actual.value.id.Some? && actual.value.id.value != 0 then actual
    else None
  }
}
