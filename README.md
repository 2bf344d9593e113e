# API de seguridad y auditoría — a Dafny model

This project models the core of a NestJS back end for security auditing. It keeps three
tables:

- the user accounts (`usuario`), with username, bcrypt hash, `estado` (active / blocked) and
  `rol`;
- the security event log (`eventos_seguridad`), of failed logins, lockouts, password resets
  and failed recovery codes;
- the administrator action log (`acciones_admin`).

On top of these it models:

- the login check with its automatic lockout (`AuthService`);
- password-recovery requests and code checks;
- the role guard;
- the request DTO validations;
- the administrator services: the day reports (failed logins per user, users with more than
  three errors, failed recovery codes), mailing the report, monitoring users, and blocking and
  unblocking accounts, each of which is recorded as an administrator action.

Each source file becomes one Dafny module:

| module | role |
|---|---|
| `UsuariosService`, `EventosSeguridadService`, `AccionAdminService` | A class holding its table as a `seq` plus the next identity value. |
| `AdminService`, `AuthService` | A class holding the services it is built with. |
| `AccionAdminService` and `AdminService` | Share one `UsuariosService` object: the account table they both read. |
| pure modules | The reports and the lockout decision are functions over the tables. The service methods are proved equal to them. |
| `Wrappers`, `Secuencias`, `Texto`, `Reloj`, `Validacion` | Helpers: results and options; filtering, stable descending sort, grouping by key; decimal rendering of integers; local day arithmetic; the class-validator checks. |

Outside influences are parameters:

- the clock is a millisecond count `ahora`, and the server's local time zone is a fixed offset
  `desfase`;
- bcrypt is a `hash` function and a `compare` predicate;
- JWT signing is a `sign` function;
- `Math.random()` is a real in [0, 1);
- the mail transport's outcome is a boolean `envioOk`.

## Model

| member | source | states |
|---|---|---|
| EventoSeguridadEntidad.DesdeValor | src/eventos-seguridad/entities/eventos-seguridad.entity.ts:4-17 | A stored string decodes to an event kind exactly when it is that kind's enum value. |
| EventoSeguridadEntidad.TiposCerrados | src/eventos-seguridad/entities/eventos-seguridad.entity.ts:4-17 | The event kinds are exactly the twelve enum members, all distinct. |
| EventoSeguridadEntidad.ValoresDistintos | src/eventos-seguridad/entities/eventos-seguridad.entity.ts:4-17 | No two event kinds share a column value, and decoding inverts encoding. |
| AccionAdminEntidad.DesdeValor | src/admin/entities/accion-admin.entity.ts:5-12 | A stored string decodes to an action kind exactly when it is that kind's enum value. |
| AccionAdminEntidad.TiposCerrados | src/admin/entities/accion-admin.entity.ts:5-12 | The action kinds are exactly the six enum members, all distinct. |
| AccionAdminEntidad.ValoresDistintos | src/admin/entities/accion-admin.entity.ts:5-12 | No two action kinds share a column value, and decoding inverts encoding. |
| RolesGuard.AlgunoCoincide | src/auth/guards/roles.guard.ts:20 | `some(role => user.rol === role)` holds exactly when the user's role is in the list. |
| RolesGuard.CanActivate | src/auth/guards/roles.guard.ts:8-21 | With no roles declared, everyone passes. Otherwise a request passes exactly when the user's role is among the required ones. |
| RolesGuard.ListaVaciaDeniega | src/auth/guards/roles.guard.ts:15-20 | An empty `@Roles()` list (on the handler, or on the class when the handler has none) denies every user. |
| RolesGuard.PrecedenciaDelManejador | src/auth/guards/roles.guard.ts:10-13 | Roles on the handler override whatever the class declares. |
| RolesGuard.SoloImportaElConjunto | src/auth/guards/roles.guard.ts:20 | Only the set of required roles matters, not their order or repetition. |
| CreateUsuarioDto.Validar | src/usuarios/dto/create-usuario.dto.ts:3-16 | A body is accepted exactly when username is a non-empty string, password is a string of at least 6 characters, and rol is absent or a string. The accepted DTO carries those values. A rejection lists username, password and rol each exactly when its own check fails, and names nothing else. |
| CreateUsuarioDto.LimitePassword | src/usuarios/dto/create-usuario.dto.ts:8-11 | A 5-character password is rejected and a 6-character one is accepted. |
| CreateUsuarioDto.RolOpcional | src/usuarios/dto/create-usuario.dto.ts:13-15 | An absent rol is accepted. A non-string rol is rejected on `rol` alone. |
| CreateEventoSeguridadDto.Validar | src/eventos-seguridad/dto/create-evento-seguridad.dto.ts:4-23 | A body is accepted exactly when tipo is an enum value, usuario_id is absent or a number, and ip, user_agent and descripcion are non-empty strings. A rejection lists each of the five properties exactly when its own check fails, and names nothing else. |
| UsuariosService.Buscar | src/usuarios/usuarios.service.ts:32-38 | Finds the row with the given id, or reports that no row has it. |
| UsuariosService.BuscarUsername | src/usuarios/usuarios.service.ts:40-43 | Finds the row with the given username, or reports that no row has it. |
| UsuariosService.EstablecerEstado | src/usuarios/usuarios.service.ts:57-61 | Only the matching row's `estado` changes. Every other row and field is kept. |
| UsuariosService.EstablecerEstadoIdempotente | src/usuarios/usuarios.service.ts:57-61 | Setting the same state twice equals setting it once. |
| UsuariosService.EstablecerEstadoConserva | src/usuarios/usuarios.service.ts:57-61 | Changing a state keeps ids and usernames unique and leaves every other field alone. |
| UsuariosService.AplicarCambios | src/usuarios/usuarios.service.ts:45-55 | `Object.assign` replaces exactly the given fields. A non-empty new password is stored hashed. An empty one is stored as given. id and estado never change. |
| UsuariosService.QuitarFila | src/usuarios/usuarios.service.ts:63-66 | Removing a row keeps uniqueness and drops exactly the rows with that id. |
| UsuariosService.UsuariosService.FindOne | src/usuarios/usuarios.service.ts:32-38 | Returns the account with that id, or fails with not-found exactly when none exists. |
| UsuariosService.UsuariosService.FindByUsername | src/usuarios/usuarios.service.ts:40-43 | Returns the account with that username, or none exactly when no row has it. |
| UsuariosService.UsuariosService.Create | src/usuarios/usuarios.service.ts:16-26 | A taken username is refused and leaves the table alone. Otherwise one row is appended with a fresh id, the hashed password, estado true, and the given rol or "usuario". |
| UsuariosService.UsuariosService.Update | src/usuarios/usuarios.service.ts:45-55 | An unknown id fails and changes nothing. Otherwise only that row is replaced by `AplicarCambios`. |
| UsuariosService.UsuariosService.ActualizarEstado | src/usuarios/usuarios.service.ts:57-61 | An unknown id fails and changes nothing. Otherwise the table becomes `EstablecerEstado` of the old one. |
| UsuariosService.UsuariosService.Remove | src/usuarios/usuarios.service.ts:63-66 | An unknown id fails and changes nothing. Otherwise exactly that row is removed. |
| EventosSeguridadService.DescripcionesIdentificanUsuario | src/eventos-seguridad/eventos-seguridad.service.ts:24-81 | The login-failure, lockout, reset and failed-code descriptions each determine the user id they were written for. For one user, the multiple-attempts description determines the attempt count. |
| EventosSeguridadService.EventosDelDia | src/eventos-seguridad/eventos-seguridad.service.ts:84-96 | As written: the events from today's local midnight through the next midnight, both ends included. |
| EventosSeguridadService.MedianocheEnDosDias | src/eventos-seguridad/eventos-seguridad.service.ts:86-92 | As written, an event stamped exactly at a midnight is returned for two different days. |
| EventosSeguridadService.EventosDelDiaLocal | src/eventos-seguridad/eventos-seguridad.service.ts:84-96 | Corrected: an event is returned exactly when it falls on the same local day as `ahora`. |
| EventosSeguridadService.EventosSeguridadService.ObtenerEventosDelDia | src/eventos-seguridad/eventos-seguridad.service.ts:84-96 | As written: the service returns the logged events from today's local midnight through the next midnight, both ends included. The day report calls this query. |
| EventosSeguridadService.EventosSeguridadService.ObtenerEventosDelDiaCorregido | src/eventos-seguridad/eventos-seguridad.service.ts:84-96 | Corrected: the service returns exactly the logged events of the local day of `ahora`. |
| EventosSeguridadService.DiasDisjuntos | src/eventos-seguridad/eventos-seguridad.service.ts:84-96 | With the corrected window, two different days share no event. |
| EventosSeguridadService.CadaEventoTieneSuDia | src/eventos-seguridad/eventos-seguridad.service.ts:84-96 | With the corrected window, every logged event is listed on its own day. |
| EventosSeguridadService.EventosPorUsuario | src/eventos-seguridad/eventos-seguridad.service.ts:99-106 | At most 10 events are returned. |
| EventosSeguridadService.EventosPorUsuarioCorrecto | src/eventos-seguridad/eventos-seguridad.service.ts:99-106 | Only the user's own events are returned, newest first, taken from the log. Any omitted event of theirs is no newer than all 10 returned ones. |
| EventosSeguridadService.FallidosRecientes | src/eventos-seguridad/eventos-seguridad.service.ts:109-118 | Counts the user's LOGIN_FALLIDO events in the window. The count is zero exactly when there are none. |
| EventosSeguridadService.FallidosAgregar | src/eventos-seguridad/eventos-seguridad.service.ts:109-118 | Appending an event raises the count by one exactly when it is a failed login of that user inside the window. |
| EventosSeguridadService.FallidosMonotono | src/eventos-seguridad/eventos-seguridad.service.ts:109-118 | Widening the window never lowers the count. |
| EventosSeguridadService.EventosSeguridadService.Create | src/eventos-seguridad/eventos-seguridad.service.ts:16-21 | Appends one event with a fresh id, the DTO's fields and the current time. |
| EventosSeguridadService.EventosSeguridadService.RegistrarLoginFallido | src/eventos-seguridad/eventos-seguridad.service.ts:24-33 | Appends exactly one LOGIN_FALLIDO event for the user with its fixed description. |
| EventosSeguridadService.EventosSeguridadService.RegistrarIntentoMultiple | src/eventos-seguridad/eventos-seguridad.service.ts:36-45 | Appends exactly one INTENTOS_MULTIPLES event that carries the attempt count. |
| EventosSeguridadService.EventosSeguridadService.RegistrarUsuarioBloqueado | src/eventos-seguridad/eventos-seguridad.service.ts:48-57 | Appends exactly one USUARIO_BLOQUEADO event for the user. |
| EventosSeguridadService.EventosSeguridadService.RegistrarResetPassword | src/eventos-seguridad/eventos-seguridad.service.ts:60-69 | Appends exactly one RESET_PASSWORD event for the user. |
| EventosSeguridadService.EventosSeguridadService.RegistrarCodigoVerificacionFallido | src/eventos-seguridad/eventos-seguridad.service.ts:72-81 | Appends exactly one CODIGO_VERIFICACION_FALLIDO event for the user. |
| AccionAdminService.BuscarAdmin | src/admin/services/accion-admin.service.ts:23-29 | The lookup succeeds exactly when an account with that id has rol "admin". |
| AccionAdminService.EstadoNoCambiaAdmins | src/admin/services/accion-admin.service.ts:23-29 | Blocking or unblocking any account never changes who counts as an administrator. |
| AccionAdminService.TodasLasAcciones | src/admin/services/accion-admin.service.ts:40-45 | Returns every action once, newest first. |
| AccionAdminService.AccionesPorAdmin | src/admin/services/accion-admin.service.ts:47-53 | Returns exactly that administrator's actions, newest first. |
| AccionAdminService.AccionesPorUsuario | src/admin/services/accion-admin.service.ts:55-61 | Returns exactly the actions on that account, newest first. |
| AccionAdminService.VistasPorAdminParticionan | src/admin/services/accion-admin.service.ts:40-53 | Every action appears in its own administrator's view as often as in the full list, and in no other administrator's view. |
| AccionAdminService.AccionAdminService.RegistrarAccion | src/admin/services/accion-admin.service.ts:16-38 | A non-administrator id fails with `AdminNoEncontrado(adminId)`, the source's not-found error, and writes nothing. An administrator's action is appended with a fresh id and the current time. |
| Reloj.DiaCerrado | src/admin/admin.service.ts:56-59 | A time lies between 00:00:00.000 and 23:59:59.999 of a local day exactly when that is its own day. |
| AdminService.EventosDeHoy | src/admin/admin.service.ts:53-62 | Keeps exactly the log's events of the requested kinds on today's local day, with their multiplicities. |
| AdminService.Agrupar | src/admin/admin.service.ts:64-73 | Grouping by `usuario_id` gives one entry per distinct id, each with its number of occurrences. |
| AdminService.ContarPorUsuario | src/admin/admin.service.ts:64-73 | The `Map` counting loop produces exactly `Agrupar` of the ids. |
| AdminService.CuentaAgregar | src/admin/admin.service.ts:66-67 | One loop step (`(get(id) || 0) + 1`) keeps the map equal to the occurrence counts of the prefix. |
| AdminService.FallidosAgrupados | src/admin/admin.service.ts:64-73 | The failed-login entries are distinct, each counts its id's occurrences, every id occurring gets one, and the counts add up to the number of ids. |
| AdminService.LoginFallidosDelDia | src/admin/admin.service.ts:52-74 | One entry per user with a failed login today, carrying that user's count. The counts add up to today's failed logins. |
| AdminService.SobreUmbral | src/admin/admin.service.ts:112-117 | Keeps exactly the entries with more than three errors. |
| AdminService.SobreUmbralAgrupado | src/admin/admin.service.ts:106-117 | After grouping, listed users are distinct and have more than three occurrences. Every such user is listed. |
| AdminService.SobreUmbralDistintos | src/admin/admin.service.ts:112-117 | The filter keeps the entries in order, so entries with distinct ids stay distinct. |
| AdminService.MultiplesErroresDelDia | src/admin/admin.service.ts:94-118 | Lists exactly the users whose failed logins plus failed codes today exceed three, each once, with that total. |
| AdminService.AgruparRepetido | src/admin/admin.service.ts:106-112 | n copies of one id group into the single entry (id, n). |
| AdminService.TresErroresNoListan | src/admin/admin.service.ts:113 | Three errors of one user are not listed. |
| AdminService.CuatroErroresListan | src/admin/admin.service.ts:113 | Four errors of one user are listed with count 4. |
| AdminService.EventosDeHoyAgregar | src/admin/admin.service.ts:53-62 | A new event enters today's list exactly when it is of a requested kind and from today. |
| AdminService.CuentaDeHoyAgregar | src/admin/admin.service.ts:95-110 | A new event raises a user's daily count by one exactly when it is theirs, of a counted kind and from today. |
| AdminService.IdsConcat | src/admin/admin.service.ts:107-109 | Mapping events to their user ids distributes over concatenation. |
| AdminService.ErroresSumanAmbosTipos | src/admin/admin.service.ts:95-110 | A user's error count is their failed logins plus their failed recovery codes. |
| AdminService.ReporteCoherente | src/admin/admin.service.ts:52-118 | A user listed with more than three failed logins is also listed among the multiple-error users, with at least as many errors. |
| AdminService.CodigosFallidosDelDia | src/admin/admin.service.ts:76-92 | Entry i carries the user and time of the i-th failed recovery code of today, so there is one entry per such event, in log order, and nothing else. |
| AdminService.MonitoreoDe | src/admin/admin.service.ts:161-176 | One entry per account in table order. `bloqueado` is the negation of estado, and each account's latest events are included. |
| AdminService.MonitoreoTrasEstablecer | src/admin/admin.service.ts:161-196 | After blocking or unblocking, the monitor shows the new state for that account and nothing else changes. |
| AdminService.DesbloquearTrasBloquear | src/admin/admin.service.ts:178-196 | Unblocking after blocking equals unblocking alone, and it restores a table whose account was active. |
| AdminService.AdminService.ObtenerLoginFallidos | src/admin/admin.service.ts:52-74 | The service returns `LoginFallidosDelDia` of the current log. |
| AdminService.AdminService.ObtenerUsuariosConMultiplesErrores | src/admin/admin.service.ts:94-118 | The service returns `MultiplesErroresDelDia` of the current log. |
| AdminService.AdminService.GenerarReporteDia | src/admin/admin.service.ts:28-50 | The report holds an empty successful-login list, today's failed logins, today's failed recovery codes, the multiple-error users and the current time. |
| AdminService.AdminService.EnviarReportePorCorreo | src/admin/admin.service.ts:120-159 | The mailed content is the day report. A failed send records nothing. A successful send by an administrator appends one ENVIAR_REPORTE action. By anyone else, it fails on the administrator check. |
| AdminService.AdminService.MonitorearUsuarios | src/admin/admin.service.ts:161-176 | The loop returns `MonitoreoDe` of the accounts and the log. |
| AdminService.AdminService.BloquearUsuario | src/admin/admin.service.ts:178-186 | The account's estado becomes false, even when the action then fails. One BLOQUEAR_USUARIO action is appended exactly when the caller is an administrator. |
| AdminService.AdminService.DesbloquearUsuario | src/admin/admin.service.ts:188-196 | The account's estado becomes true. One DESBLOQUEAR_USUARIO action is appended exactly when the caller is an administrator. |
| AuthService.ExitoSoloConCredenciales | src/auth/auth.service.ts:17-58 | Validation succeeds exactly for an existing, active account with a matching password. The result carries that account without its password. |
| AuthService.UsuarioDesconocidoIndistinguible | src/auth/auth.service.ts:21-53 | An unknown username gets the same error as a wrong password below the threshold, and logs nothing. |
| AuthService.BloqueadoIgnoraPassword | src/auth/auth.service.ts:27-30 | For a blocked account the outcome does not depend on the password. Exactly one USUARIO_BLOQUEADO event is logged. |
| AuthService.BloqueoSoloAlUmbral | src/auth/auth.service.ts:35-53 | The account is deactivated exactly when it was active, the password was wrong and the count reached 5. |
| AuthService.IntentosFallidosStub | src/auth/auth.service.ts:127-131 | As written, the private counter always returns 0. |
| AuthService.StubNuncaBloquea | src/auth/auth.service.ts:43-50 | As written, no input ever deactivates an account. |
| AuthService.QuintoFalloBloquea | src/auth/auth.service.ts:36-50 | Corrected: counting the log's failed logins of the last hour, the fifth failure locks the account and fewer do not. |
| AuthService.RegistrosBloqueo | src/auth/auth.service.ts:36-50 | The lockout path writes LOGIN_FALLIDO, INTENTOS_MULTIPLES and USUARIO_BLOQUEADO, in that order, with consecutive ids. |
| AuthService.Login | src/auth/auth.service.ts:60-73 | The token signs `{username, sub: id, rol}`. The response echoes id, username and rol. |
| AuthService.TokenDeLaCuenta | src/auth/auth.service.ts:17-73 | A successful validation followed by login signs the validated account's own claims. |
| AuthService.GenerarCodigo | src/auth/auth.service.ts:87 | The recovery code lies in [100000, 999999]. |
| AuthService.CodigoSeisDigitos | src/auth/auth.service.ts:87-88 | The code's decimal text has six digits, the first one non-zero. |
| AuthService.AuthService.ValidateUser | src/auth/auth.service.ts:17-58 | As written: the outcome and the tables follow `DecidirValidacion` with the stub count. |
| AuthService.AuthService.ValidateUserConRegistro | src/auth/auth.service.ts:17-58 | Corrected: the same, counting the log's failed logins of the last hour. |
| AuthService.AuthService.PasswordIncorrecta | src/auth/auth.service.ts:35-53 | A wrong password logs the failure. At the threshold it also deactivates the account and logs the two lockout events. |
| AuthService.AuthService.RegistrarFalloYContar | src/auth/auth.service.ts:36-43 | Logs one LOGIN_FALLIDO event, then reads the attempt count. |
| AuthService.AuthService.BloquearPorIntentos | src/auth/auth.service.ts:45-50 | Sets the account's estado to false, then logs INTENTOS_MULTIPLES and USUARIO_BLOQUEADO. |
| AuthService.AuthService.SolicitarRecuperacionPassword | src/auth/auth.service.ts:75-107 | Always answers with the same message. An unknown user changes nothing. A known user gets exactly one RESET_PASSWORD event, whether or not the mail is sent. |
| AuthService.AuthService.VerificarCodigoRecuperacion | src/auth/auth.service.ts:109-125 | The answer is always "invalid". A known user gets exactly one CODIGO_VERIFICACION_FALLIDO event. An unknown user changes nothing. |

## Left out

- Mail: the HTML body and the SMTP transport are not modelled. Only whether the send succeeded (`envioOk`) is kept.
- JWT signing, bcrypt hashing and comparison, and `Math.random` are opaque parameters. Their own correctness is not modelled.
- Time: a fixed UTC offset stands in for the server's local time zone, so daylight-saving transitions are not modelled. Times are whole milliseconds, as in JavaScript `Date`. The event `fecha` column is a MySQL `timestamp`, which keeps whole seconds of the database clock. The model stamps events with the service's `ahora` in milliseconds, so the rounding to seconds is not modelled.
- Table order: database reads without `ORDER BY` return rows in insertion order here. The real order is unspecified.
- Database constraints: foreign keys on `usuario_id` and `usuario_afectado_id`, and identity values lost on failed inserts, are not modelled. The unique username constraint is a `UsernameDuplicado` error raised before any write.
- UsuariosService.BuscarUsername: usernames are compared exactly. The source runs on MySQL with the server's default collation, which is case- and accent-insensitive, so its lookup by username and its unique constraint also match "ADMIN" with "admin". The same holds for `UsernamesUnicos`.
- AccionAdminService.EsAdmin: `rol` is compared exactly with "admin". Under MySQL's default collation the source's `rol: 'admin'` filter also accepts "ADMIN" or "Admin".
- CreateUsuarioDto.Validar: a `rol: null` body passes `@IsOptional` and is treated as absent, so `Create` stores "usuario". In the source the null is spread into the insert, and the NOT NULL `rol` column makes that insert fail.
- CreateEventoSeguridadDto.Validar: a JSON number is modelled as an integer. `@IsNumber` also accepts non-integers such as 1.5 for `usuario_id`, which the model cannot express.
- Concurrency: interleaved requests are not modelled. Each service call runs to completion.
- src/usuarios/dto/update-usuario.dto.ts is not part of this model. `UpdateUsuarioDto` is modelled as optional username, password and rol.
- UsuariosService `findAll` returns the table unchanged. It is read directly as the `usuarios` field.
- Controllers, modules, the JWT strategy and the JWT guard, and `main.ts` are left out. They only route requests into the services modelled here.
- EventosSeguridadService.EventosPorUsuario: its own contract states only the bound of 10. Ownership, order and the choice of the newest events are proved in `EventosPorUsuarioCorrecto`.
- AdminService.AdminService.GenerarReporteDia: the report's `fecha` is the current time `ahora`, not a formatted date. The day-events query the source runs is kept, with its as-written window, and its result is discarded, as in the source.
- AuthService.AuthService.VerificarCodigoRecuperacion: the source never reaches its `valido: true` branch, so no stored code is modelled.
- AuthService.AuthService.SolicitarRecuperacionPassword: the generated code is neither stored nor compared, as in the source. Only its range and form are proved.

## Findings

| source | as written | input that shows it | evidently intended | confidence | as-written member | corrected member |
|---|---|---|---|---|---|---|
| src/auth/auth.service.ts:127-131 | The private attempt counter always returns 0, so the check `intentosFallidos >= 5` at line 45 never holds. | Any active account that receives five wrong passwords within one hour stays active. | Count the account's LOGIN_FALLIDO events of the last hour, as `contarIntentosFallidosRecientes` does, and lock at the fifth. | high; not executed | AuthService.StubNuncaBloquea | AuthService.QuintoFalloBloquea |
| src/eventos-seguridad/eventos-seguridad.service.ts:86-92 | The day window is `Between(today's midnight, next midnight)`, and both ends are included. | An event stamped exactly 00:00:00.000 is returned both for the day that ends there and for the day that starts there. | End the window at 23:59:59.999, as the comment on the bound says and as admin.service.ts:56-59 does. | medium; not executed | EventosSeguridadService.MedianocheEnDosDias | EventosSeguridadService.EventosDelDiaLocal |
