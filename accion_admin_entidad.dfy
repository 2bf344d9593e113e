/** The `acciones_admin` table: the closed set of administrative actions and the row
  * record (src/admin/entities/accion-admin.entity.ts). */
module AccionAdminEntidad {
  import opened Wrappers

  /** `TipoAccionAdmin`: exactly six kinds; the column is a database `enum` of their values. */
  datatype TipoAccionAdmin =
    | BloquearUsuario
    | DesbloquearUsuario
    | CrearUsuario
    | EliminarUsuario
    | ModificarUsuario
    | EnviarReporte

  const TiposAccion: seq<TipoAccionAdmin> := [
    BloquearUsuario, DesbloquearUsuario, CrearUsuario, EliminarUsuario, ModificarUsuario, EnviarReporte
  ]

  function Valor(t: TipoAccionAdmin): string
  {
    match t
    case BloquearUsuario => "BLOQUEAR_USUARIO"
    case DesbloquearUsuario => "DESBLOQUEAR_USUARIO"
    case CrearUsuario => "CREAR_USUARIO"
    case EliminarUsuario => "ELIMINAR_USUARIO"
    case ModificarUsuario => "MODIFICAR_USUARIO"
    case EnviarReporte => "ENVIAR_REPORTE"
  }

  /** The kind stored under the enum value `s`; any other string is refused by the column. */
  function DesdeValor(s: string): (r: Option<TipoAccionAdmin>)
    ensures forall t :: Valor(t) == s <==> r == Some(t)
  {
    if s == "BLOQUEAR_USUARIO" then Some(BloquearUsuario)
    else if s == "DESBLOQUEAR_USUARIO" then Some(DesbloquearUsuario)
    else if s == "CREAR_USUARIO" then Some(CrearUsuario)
    else if s == "ELIMINAR_USUARIO" then Some(EliminarUsuario)
    else if s == "MODIFICAR_USUARIO" then Some(ModificarUsuario)
    else if s == "ENVIAR_REPORTE" then Some(EnviarReporte)
    else None
  }

  lemma TiposCerrados(t: TipoAccionAdmin)
    ensures t in TiposAccion
    ensures |TiposAccion| == 6
    ensures forall i, j :: 0 <= i < j < |TiposAccion| ==> TiposAccion[i] != TiposAccion[j]
  {
  }

  lemma ValoresDistintos(a: TipoAccionAdmin, b: TipoAccionAdmin)
    ensures Valor(a) == Valor(b) ==> a == b
    ensures DesdeValor(Valor(a)) == Some(a)
  {
  }

  /** One row. `adminId` is required, `usuario_afectado_id` nullable, `fecha` the
    * insert-time `CURRENT_TIMESTAMP` in milliseconds. */
  datatype AccionAdmin = AccionAdmin(
    id: int,
    adminId: int,
    tipo: TipoAccionAdmin,
    usuario_afectado_id: Option<int>,
    fecha: int,
    descripcion: string)
}
