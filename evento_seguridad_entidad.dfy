/** The `eventos_seguridad` table: the closed set of event kinds and the row record
  * (src/eventos-seguridad/entities/eventos-seguridad.entity.ts). */
module EventoSeguridadEntidad {
  import opened Wrappers

  /** `TipoEvento`: exactly twelve kinds. */
  datatype TipoEvento =
    | LoginExitoso
    | LoginFallido
    | CodigoVerificacionFallido
    | CodigoVerificacionExitoso
    | UsuarioBloqueado
    | UsuarioDesbloqueado
    | CambioPassword
    | RecuperacionPassword
    | AccesoDenegado
    | ActividadSospechosa
    | IntentosMultiples
    | ResetPassword

  const TiposEvento: seq<TipoEvento> := [
    LoginExitoso, LoginFallido, CodigoVerificacionFallido, CodigoVerificacionExitoso,
    UsuarioBloqueado, UsuarioDesbloqueado, CambioPassword, RecuperacionPassword,
    AccesoDenegado, ActividadSospechosa, IntentosMultiples, ResetPassword
  ]

  /** Column default of `tipo`, applied when an insert leaves the column out. */
  const TipoPorDefecto: TipoEvento := LoginExitoso

  /** The string value stored in the `varchar(50)` column; each equals the member's name. */
  function Valor(t: TipoEvento): string
  {
    match t
    case LoginExitoso => "LOGIN_EXITOSO"
    case LoginFallido => "LOGIN_FALLIDO"
    case CodigoVerificacionFallido => "CODIGO_VERIFICACION_FALLIDO"
    case CodigoVerificacionExitoso => "CODIGO_VERIFICACION_EXITOSO"
    case UsuarioBloqueado => "USUARIO_BLOQUEADO"
    case UsuarioDesbloqueado => "USUARIO_DESBLOQUEADO"
    case CambioPassword => "CAMBIO_PASSWORD"
    case RecuperacionPassword => "RECUPERACION_PASSWORD"
    case AccesoDenegado => "ACCESO_DENEGADO"
    case ActividadSospechosa => "ACTIVIDAD_SOSPECHOSA"
    case IntentosMultiples => "INTENTOS_MULTIPLES"
    case ResetPassword => "RESET_PASSWORD"
  }

  /** The kind whose value is `s`, if any: the lookup `IsEnum` performs. */
  function DesdeValor(s: string): (r: Option<TipoEvento>)
    ensures forall t :: Valor(t) == s <==> r == Some(t)
  {
    if s == "LOGIN_EXITOSO" then Some(LoginExitoso)
    else if s == "LOGIN_FALLIDO" then Some(LoginFallido)
    else if s == "CODIGO_VERIFICACION_FALLIDO" then Some(CodigoVerificacionFallido)
    else if s == "CODIGO_VERIFICACION_EXITOSO" then Some(CodigoVerificacionExitoso)
    else if s == "USUARIO_BLOQUEADO" then Some(UsuarioBloqueado)
    else if s == "USUARIO_DESBLOQUEADO" then Some(UsuarioDesbloqueado)
    else if s == "CAMBIO_PASSWORD" then Some(CambioPassword)
    else if s == "RECUPERACION_PASSWORD" then Some(RecuperacionPassword)
    else if s == "ACCESO_DENEGADO" then Some(AccesoDenegado)
    else if s == "ACTIVIDAD_SOSPECHOSA" then Some(ActividadSospechosa)
    else if s == "INTENTOS_MULTIPLES" then Some(IntentosMultiples)
    else if s == "RESET_PASSWORD" then Some(ResetPassword)
    else None
  }

  /** The enumeration is closed: every kind is listed once, and there are twelve. */
  lemma TiposCerrados(t: TipoEvento)
    ensures t in TiposEvento
    ensures |TiposEvento| == 12
    ensures forall i, j :: 0 <= i < j < |TiposEvento| ==> TiposEvento[i] != TiposEvento[j]
  {
  }

  /** Values are pairwise distinct, so kind and string round-trip. */
  lemma ValoresDistintos(a: TipoEvento, b: TipoEvento)
    ensures Valor(a) == Valor(b) ==> a == b
    ensures DesdeValor(Valor(a)) == Some(a)
  {
  }

  /** One row. `usuario_id` is nullable; `ip`, `user_agent` and `descripcion` are NOT NULL;
    * `fecha` is the insert-time `CURRENT_TIMESTAMP` in milliseconds. */
  datatype EventoSeguridad = EventoSeguridad(
    id: int,
    tipo: TipoEvento,
    usuario_id: Option<int>,
    ip: string,
    user_agent: string,
    fecha: int,
    descripcion: string)
}
