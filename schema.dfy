/**
 * The rows of the database tables the routes read and write, the stored
 * procedures they call (as recorded events), and the HTTP reply shape.
 * Rows do not carry their own key: every table is a map from key to row.
 */
module Schema {
  import opened Base

  /** `ias.estado`: a listing starts `pendiente` and is moderated once. */
  datatype Estado = Pendiente | Aprobada | Rechazada

  /** A row of `usuarios`, keyed by `user_id`. */
  datatype Usuario = Usuario(
    username: string,
    email: string,
    password_hash: string,
    rol: string,
    puntos_totales: int,
    nivel: int,
    avatar: Option<string>,
    biografia: Option<string>,
    activo: bool,
    baneado: bool,
    razon_baneo: Option<string>,
    ultima_actividad: Option<Timestamp>)

  /** A row of `categorias`, keyed by `categoria_id`. */
  datatype Categoria = Categoria(nombre: string, slug: string)

  /** A row of `ias` (a listing), keyed by `ia_id`. */
  datatype Ia = Ia(
    nombre: string,
    descripcion: string,
    url: string,
    categoria_id: int,
    usuario_id: int,
    imagen_logo: Option<string>,
    estado: Estado,
    activa: bool,
    total_usos: nat,
    calificacion_promedio: real,
    fecha_publicacion: Timestamp,
    moderada_por: Option<int>,
    fecha_moderacion: Option<Timestamp>,
    razon_rechazo: Option<string>,
    fecha_actualizacion: Option<Timestamp>)

  /** A row of `resenas` (a review), keyed by `resena_id`. */
  datatype Resena = Resena(
    ia_id: int,
    usuario_id: int,
    puntuacion: int,
    comentario: Option<string>,
    editado: bool,
    activo: bool)

  /** A row of `favoritos`: the pair (listing, user). */
  datatype Favorito = Favorito(ia_id: int, usuario_id: int)

  /** A row of `historial_moderacion`. */
  datatype HistRow = HistRow(
    ia_id: int,
    admin_id: int,
    accion: string,
    estado_anterior: Estado,
    estado_nuevo: Estado,
    comentario: Option<string>)

  /**
   * A call of a stored procedure. Their bodies are not part of this
   * repository, so a call is only recorded, never interpreted.
   */
  datatype Rpc =
    | DarPuntos(usuario_id: int, puntos: int, tipo: string, referencia_id: int, descripcion: string)
    | ActualizarCalificacion(ia_id: int)

  /** `p_tipo` of the award for an approved listing, and the award itself. */
  const TipoPublicarIa: string := "publicar_ia"
  const PuntosPublicarIa: int := 50

  /** `p_tipo` of the award for a review, and the award itself. */
  const TipoResena: string := "resena"
  const PuntosResena: int := 10

  /** The 404 text of every route that looks a listing up. */
  const IaNoEncontrada: string := "IA no encontrada"

  /** The 400 text of every route that is given a category that does not exist. */
  const CategoriaNoValida: string := "Categoría no válida"

  /** A reply: the status code and the `error` or `mensaje` text of the JSON body. */
  datatype Reply = Reply(status: nat, message: string)

  /**
   * Column defaults the database fills in for a new `usuarios` row. The
   * schema is not part of this repository, so they are a parameter.
   */
  datatype UserDefaults = UserDefaults(rol: string, puntos_totales: int, nivel: int, activo: bool)

  /** Column defaults the database fills in for a new `ias` row; a parameter for the same reason. */
  datatype IaDefaults = IaDefaults(activa: bool, total_usos: nat, calificacion_promedio: real)

  /** Column defaults the database fills in for a new `resenas` row; a parameter for the same reason. */
  datatype ResenaDefaults = ResenaDefaults(editado: bool, activo: bool)
}
