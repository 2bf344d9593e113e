/** The shapes of the daily security report (src/admin/dto/reporte-dia.dto.ts) and of one
  * monitored account (src/admin/interfaces/usuario-con-eventos.interface.ts). */
module ReporteDia {
  import opened Wrappers
  import opened EventoSeguridadEntidad

  datatype LoginSuccessUser = LoginSuccessUser(username: string, fecha: int)
  datatype LoginFailedUser = LoginFailedUser(usuario_id: Option<int>, intentos: nat)
  datatype FailedRecoveryCode = FailedRecoveryCode(usuario_id: Option<int>, fecha: int)
  datatype MultipleFailedUser = MultipleFailedUser(usuario_id: Option<int>, errores: nat)

  datatype ReporteDiaDto = ReporteDiaDto(
    loginExitosos: seq<LoginSuccessUser>,
    loginFallidos: seq<LoginFailedUser>,
    codigosFallidos: seq<FailedRecoveryCode>,
    usuariosConMultiplesErrores: seq<MultipleFailedUser>,
    fecha: int)

  datatype UsuarioConEventos = UsuarioConEventos(id: int, username: string, bloqueado: bool, eventos: seq<EventoSeguridad>)
}
