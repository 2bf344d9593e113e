/** Authentication (src/auth/auth.service.ts): password login with automatic lock-out,
  * the JWT response, and password recovery. bcrypt's `compare`, JWT signing, the clock,
  * `Math.random` and the mail transport are parameters. */
module AuthService {
  import opened Wrappers
  import opened Texto
  import opened Reloj
  import opened UsuarioEntidad
  import opened EventoSeguridadEntidad
  import Usr = UsuariosService
  import Ev = EventosSeguridadService

  const CredencialesInvalidas: string := "Credenciales inválidas"
  const MensajeUsuarioBloqueado: string := "Usuario bloqueado"
  const MensajeBloqueoPorIntentos: string := "Usuario bloqueado por múltiples intentos fallidos"
  const MensajeRecuperacion: string := "Si el usuario existe, se ha enviado un correo de recuperación"

  /** `intentosFallidos >= 5`. */
  const UmbralIntentos: int := 5

  /** `UnauthorizedException` with its message. */
  datatype ErrorAuth = Unauthorized(mensaje: string)

  /** The account without its `password` property (`const { password: _, ...result }`). */
  datatype UsuarioSinPassword = UsuarioSinPassword(id: int, username: string, estado: bool, rol: string)

  function SinPassword(u: Usuario): UsuarioSinPassword
  {
    UsuarioSinPassword(u.id, u.username, u.estado, u.rol)
  }

  /** The writes `validateUser` performs, in order. */
  datatype Paso = RegistrarLoginFallido | DesactivarCuenta | RegistrarIntentoMultiple | RegistrarUsuarioBloqueado

  datatype Decision = Decision(pasos: seq<Paso>, resultado: Result<UsuarioSinPassword, ErrorAuth>)

  /** The decision table of `validateUser`: unknown username, then blocked account, then
    * wrong password (locking the account when `intentos` reaches the threshold), then success.
    * `intentos` is the count of recent failures taken after the current one is logged. */
  function DecidirValidacion(cuenta: Option<Usuario>, passwordValida: bool, intentos: int): Decision
  {
    if cuenta.None? then Decision([], Failure(Unauthorized(CredencialesInvalidas)))
    else if !cuenta.value.estado then Decision([RegistrarUsuarioBloqueado], Failure(Unauthorized(MensajeUsuarioBloqueado)))
    else if !passwordValida then
      if intentos >= UmbralIntentos then
        Decision([RegistrarLoginFallido, DesactivarCuenta, RegistrarIntentoMultiple, RegistrarUsuarioBloqueado],
                 Failure(Unauthorized(MensajeBloqueoPorIntentos)))
      else Decision([RegistrarLoginFallido], Failure(Unauthorized(CredencialesInvalidas)))
    else Decision([], Success(SinPassword(cuenta.value)))
  }

  /** Login succeeds exactly for an active account with the right password, and then
    * returns that account without its password and writes nothing. */
  lemma ExitoSoloConCredenciales(cuenta: Option<Usuario>, passwordValida: bool, intentos: int)
    ensures DecidirValidacion(cuenta, passwordValida, intentos).resultado.Success?
            <==> cuenta.Some? && cuenta.value.estado && passwordValida
    ensures DecidirValidacion(cuenta, passwordValida, intentos).resultado.Success? ==>
      && DecidirValidacion(cuenta, passwordValida, intentos).resultado.value == SinPassword(cuenta.value)
      && DecidirValidacion(cuenta, passwordValida, intentos).pasos == []
  {
  }

  /** An unknown username gets the same answer as a wrong password below the threshold,
    * and leaves no trace in the log. */
  lemma UsuarioDesconocidoIndistinguible(u: Usuario, p: bool, n: int, m: int)
    requires u.estado && m < UmbralIntentos
    ensures DecidirValidacion(None, p, n).resultado == DecidirValidacion(Some(u), false, m).resultado
    ensures DecidirValidacion(None, p, n).pasos == []
  {
  }

  /** For a blocked account the password and the count make no difference: the attempt is
    * logged as USUARIO_BLOQUEADO and refused. */
  lemma BloqueadoIgnoraPassword(u: Usuario, p1: bool, p2: bool, n1: int, n2: int)
    requires !u.estado
    ensures DecidirValidacion(Some(u), p1, n1) == DecidirValidacion(Some(u), p2, n2)
    ensures DecidirValidacion(Some(u), p1, n1).pasos == [RegistrarUsuarioBloqueado]
  {
  }

  /** The account is deactivated exactly on a wrong password for an active account whose
    * count has reached the threshold; every wrong password is logged first. */
  lemma BloqueoSoloAlUmbral(cuenta: Option<Usuario>, passwordValida: bool, intentos: int)
    ensures DesactivarCuenta in DecidirValidacion(cuenta, passwordValida, intentos).pasos
            <==> cuenta.Some? && cuenta.value.estado && !passwordValida && intentos >= UmbralIntentos
    ensures cuenta.Some? && cuenta.value.estado && !passwordValida ==>
      DecidirValidacion(cuenta, passwordValida, intentos).pasos[0] == RegistrarLoginFallido
  {
  }

  /** The private `contarIntentosFallidosRecientes` of this service: a stub. */
  function IntentosFallidosStub(usuarioId: int, desde: int): (n: int)
    ensures n == 0
  {
    0
  }

  /** As written, the stub count never reaches the threshold, so no number of wrong
    * passwords locks an account. */
  lemma StubNuncaBloquea(cuenta: Option<Usuario>, passwordValida: bool, usuarioId: int, desde: int)
    ensures DesactivarCuenta !in DecidirValidacion(cuenta, passwordValida, IntentosFallidosStub(usuarioId, desde)).pasos
  {
    BloqueoSoloAlUmbral(cuenta, passwordValida, IntentosFallidosStub(usuarioId, desde));
  }

  /** The count the corrected service uses: the failures of the last hour in the log before
    * the attempt, plus the one it has just logged. */
  function IntentosTrasFallo(log: seq<EventoSeguridad>, usuarioId: int, ahora: int): int
  {
    Ev.FallidosRecientes(log, usuarioId, ahora - MsPorHora, ahora) + 1
  }

  /** The count each version compares with the threshold. */
  function IntentosSegun(log: seq<EventoSeguridad>, usuarioId: int, ahora: int, usarRegistro: bool): int
  {
    if usarRegistro then IntentosTrasFallo(log, usuarioId, ahora) else IntentosFallidosStub(usuarioId, ahora - MsPorHora)
  }

  /** With the real count, the fifth wrong password within an hour locks the account and the
    * fourth does not. */
  lemma QuintoFalloBloquea(log: seq<EventoSeguridad>, u: Usuario, ahora: int)
    requires u.estado
    ensures Ev.FallidosRecientes(log, u.id, ahora - MsPorHora, ahora) >= 4 ==>
      DesactivarCuenta in DecidirValidacion(Some(u), false, IntentosTrasFallo(log, u.id, ahora)).pasos
    ensures Ev.FallidosRecientes(log, u.id, ahora - MsPorHora, ahora) <= 3 ==>
      DecidirValidacion(Some(u), false, IntentosTrasFallo(log, u.id, ahora)).pasos == [RegistrarLoginFallido]
  {
    BloqueoSoloAlUmbral(Some(u), false, IntentosTrasFallo(log, u.id, ahora));
  }

  /** The events the steps write, with consecutive keys from `id0`. */
  function Registros(pasos: seq<Paso>, usuarioId: int, ip: string, userAgent: string, ahora: int, intentos: int, id0: int)
    : seq<EventoSeguridad>
  {
    if pasos == [] then []
    else
      var resto := pasos[1..];
      match pasos[0]
      case DesactivarCuenta => Registros(resto, usuarioId, ip, userAgent, ahora, intentos, id0)
      case RegistrarLoginFallido =>
        [EventoSeguridad(id0, LoginFallido, Some(usuarioId), ip, userAgent, ahora, Ev.DescripcionLoginFallido(usuarioId))]
        + Registros(resto, usuarioId, ip, userAgent, ahora, intentos, id0 + 1)
      case RegistrarIntentoMultiple =>
        [EventoSeguridad(id0, IntentosMultiples, Some(usuarioId), ip, userAgent, ahora, Ev.DescripcionIntentoMultiple(usuarioId, intentos))]
        + Registros(resto, usuarioId, ip, userAgent, ahora, intentos, id0 + 1)
      case RegistrarUsuarioBloqueado =>
        [EventoSeguridad(id0, UsuarioBloqueado, Some(usuarioId), ip, userAgent, ahora, Ev.DescripcionUsuarioBloqueado(usuarioId))]
        + Registros(resto, usuarioId, ip, userAgent, ahora, intentos, id0 + 1)
  }

  /** The three events of the lock branch. */
  lemma RegistrosBloqueo(usuarioId: int, ip: string, userAgent: string, ahora: int, intentos: int, id0: int)
    ensures Registros([RegistrarLoginFallido, DesactivarCuenta, RegistrarIntentoMultiple, RegistrarUsuarioBloqueado],
                      usuarioId, ip, userAgent, ahora, intentos, id0)
      == [EventoSeguridad(id0, LoginFallido, Some(usuarioId), ip, userAgent, ahora, Ev.DescripcionLoginFallido(usuarioId)),
          EventoSeguridad(id0 + 1, IntentosMultiples, Some(usuarioId), ip, userAgent, ahora, Ev.DescripcionIntentoMultiple(usuarioId, intentos)),
          EventoSeguridad(id0 + 2, UsuarioBloqueado, Some(usuarioId), ip, userAgent, ahora, Ev.DescripcionUsuarioBloqueado(usuarioId))]
  {
    var e1 := EventoSeguridad(id0, LoginFallido, Some(usuarioId), ip, userAgent, ahora, Ev.DescripcionLoginFallido(usuarioId));
    var e2 := EventoSeguridad(id0 + 1, IntentosMultiples, Some(usuarioId), ip, userAgent, ahora, Ev.DescripcionIntentoMultiple(usuarioId, intentos));
    var e3 := EventoSeguridad(id0 + 2, UsuarioBloqueado, Some(usuarioId), ip, userAgent, ahora, Ev.DescripcionUsuarioBloqueado(usuarioId));
    var p3 := [RegistrarUsuarioBloqueado];
    var p2 := [RegistrarIntentoMultiple] + p3;
    var p1 := [DesactivarCuenta] + p2;
    var p0 := [RegistrarLoginFallido] + p1;
    assert p3[1..] == [];
    assert Registros(p3, usuarioId, ip, userAgent, ahora, intentos, id0 + 2) == [e3];
    assert p2[1..] == p3;
    assert Registros(p2, usuarioId, ip, userAgent, ahora, intentos, id0 + 1) == [e2, e3];
    assert p1[1..] == p2;
    assert Registros(p1, usuarioId, ip, userAgent, ahora, intentos, id0 + 1) == [e2, e3];
    assert p0[1..] == p1;
    assert p0 == [RegistrarLoginFallido, DesactivarCuenta, RegistrarIntentoMultiple, RegistrarUsuarioBloqueado];
  }

  /** The JWT payload `{ username, sub, rol }`. */
  datatype Payload = Payload(username: string, sub: int, rol: string)

  datatype UsuarioLogin = UsuarioLogin(id: int, username: string, rol: string)

  datatype RespuestaLogin = RespuestaLogin(access_token: string, user: UsuarioLogin)

  /** `login`: signs `{ username, sub: id, rol }` and echoes the account; nothing is logged. */
  function Login(user: UsuarioSinPassword, sign: Payload -> string): (r: RespuestaLogin)
    ensures r.user == UsuarioLogin(user.id, user.username, user.rol)
    ensures r.access_token == sign(Payload(user.username, user.id, user.rol))
  {
    RespuestaLogin(sign(Payload(user.username, user.id, user.rol)), UsuarioLogin(user.id, user.username, user.rol))
  }

  /** The token issued after a successful validation carries the account's own key as `sub`
    * (the actor key the admin endpoints read) and its own role (the one the role guard checks). */
  lemma TokenDeLaCuenta(u: Usuario, intentos: int, sign: Payload -> string)
    requires u.estado
    ensures var d := DecidirValidacion(Some(u), true, intentos);
      d.resultado.Success? && Login(d.resultado.value, sign).access_token == sign(Payload(u.username, u.id, u.rol))
  {
  }

  /** `Math.floor(100000 + Math.random() * 900000)`. */
  function GenerarCodigo(aleatorio: real): (c: int)
    requires 0.0 <= aleatorio < 1.0
    ensures 100000 <= c <= 999999
  {
    (100000.0 + aleatorio * 900000.0).Floor
  }

  /** The recovery code is always six decimal digits with no leading zero. */
  lemma CodigoSeisDigitos(aleatorio: real)
    requires 0.0 <= aleatorio < 1.0
    ensures |NumeroTexto(GenerarCodigo(aleatorio))| == 6
    ensures NumeroTexto(GenerarCodigo(aleatorio))[0] != '0'
  {
    var c := GenerarCodigo(aleatorio);
    assert Pot10(5) == 100000 && Pot10(6) == 1000000;
    LongitudTexto(c, 5);
    SinCeroInicial(c);
  }

  class AuthService {
    const usuariosService: Usr.UsuariosService
    const eventosService: Ev.EventosSeguridadService

    ghost predicate Valid()
      reads this, usuariosService, eventosService
    {
      usuariosService.Valid() && eventosService.Valid()
    }

    constructor (usuarios: Usr.UsuariosService, eventos: Ev.EventosSeguridadService)
      requires usuarios.Valid() && eventos.Valid()
      ensures Valid() && usuariosService == usuarios && eventosService == eventos
    {
      usuariosService := usuarios;
      eventosService := eventos;
    }

    /** `validateUser` as written: the recent-failure count comes from the stub. */
    method ValidateUser(username: string, password: string, ip: string, userAgent: string, ahora: int,
                        compare: (string, string) -> bool) returns (r: Result<UsuarioSinPassword, ErrorAuth>)
      requires Valid()
      modifies usuariosService, eventosService
      ensures Valid()
      ensures var cuenta := old(usuariosService.FindByUsername(username));
        var d := DecidirValidacion(cuenta, cuenta.Some? && compare(password, cuenta.value.password), 0);
        && r == d.resultado
        && usuariosService.usuarios == old(usuariosService.usuarios)
        && (cuenta.None? ==> eventosService.eventos == old(eventosService.eventos))
        && (cuenta.Some? ==>
              eventosService.eventos == old(eventosService.eventos)
                + Registros(d.pasos, cuenta.value.id, ip, userAgent, ahora, 0, old(eventosService.nextId)))
    {
      r := Validar(username, password, ip, userAgent, ahora, compare, false);
      ghost var cuenta := old(usuariosService.FindByUsername(username));
      if cuenta.Some? {
        StubNuncaBloquea(cuenta, compare(password, cuenta.value.password), cuenta.value.id, ahora - MsPorHora);
      }
    }

    /** `validateUser` with the count taken from the event log, as the comment beside the
      * stub asks: the fifth failure within an hour locks the account. */
    method ValidateUserConRegistro(username: string, password: string, ip: string, userAgent: string, ahora: int,
                                   compare: (string, string) -> bool) returns (r: Result<UsuarioSinPassword, ErrorAuth>)
      requires Valid()
      modifies usuariosService, eventosService
      ensures Valid()
      ensures var cuenta := old(usuariosService.FindByUsername(username));
        var intentos := if cuenta.Some? then IntentosTrasFallo(old(eventosService.eventos), cuenta.value.id, ahora) else 0;
        var d := DecidirValidacion(cuenta, cuenta.Some? && compare(password, cuenta.value.password), intentos);
        && r == d.resultado
        && (cuenta.None? ==> eventosService.eventos == old(eventosService.eventos)
                             && usuariosService.usuarios == old(usuariosService.usuarios))
        && (cuenta.Some? ==>
              && eventosService.eventos == old(eventosService.eventos)
                   + Registros(d.pasos, cuenta.value.id, ip, userAgent, ahora, intentos, old(eventosService.nextId))
              && usuariosService.usuarios == if DesactivarCuenta in d.pasos
                   then Usr.EstablecerEstado(old(usuariosService.usuarios), cuenta.value.id, false)
                   else old(usuariosService.usuarios))
    {
      r := Validar(username, password, ip, userAgent, ahora, compare, true);
    }

    /** Both versions: `usarRegistro` selects where the recent-failure count comes from. */
    method Validar(username: string, password: string, ip: string, userAgent: string, ahora: int,
                   compare: (string, string) -> bool, usarRegistro: bool) returns (r: Result<UsuarioSinPassword, ErrorAuth>)
      requires Valid()
      modifies usuariosService, eventosService
      ensures Valid()
      ensures var cuenta := old(usuariosService.FindByUsername(username));
        var intentos := if cuenta.Some? then IntentosSegun(old(eventosService.eventos), cuenta.value.id, ahora, usarRegistro) else 0;
        var d := DecidirValidacion(cuenta, cuenta.Some? && compare(password, cuenta.value.password), intentos);
        && r == d.resultado
        && (cuenta.None? ==> eventosService.eventos == old(eventosService.eventos)
                             && usuariosService.usuarios == old(usuariosService.usuarios))
        && (cuenta.Some? ==>
              && eventosService.eventos == old(eventosService.eventos)
                   + Registros(d.pasos, cuenta.value.id, ip, userAgent, ahora, intentos, old(eventosService.nextId))
              && usuariosService.usuarios == if DesactivarCuenta in d.pasos
                   then Usr.EstablecerEstado(old(usuariosService.usuarios), cuenta.value.id, false)
                   else old(usuariosService.usuarios))
    {
      var cuenta := usuariosService.FindByUsername(username);
      if cuenta.None? {
        r := Failure(Unauthorized(CredencialesInvalidas));
        return;
      }
      var u := cuenta.value;
      if !u.estado {
        var e := eventosService.RegistrarUsuarioBloqueado(u.id, ip, userAgent, ahora);
        r := Failure(Unauthorized(MensajeUsuarioBloqueado));
        assert [RegistrarUsuarioBloqueado][1..] == [];
        return;
      }
      var passwordValida := compare(password, u.password);
      if !passwordValida {
        r := PasswordIncorrecta(u, ip, userAgent, ahora, usarRegistro);
        return;
      }
      r := Success(SinPassword(u));
    }

    /** The wrong-password branch: log the failure, count, and lock at the threshold. */
    method PasswordIncorrecta(u: Usuario, ip: string, userAgent: string, ahora: int, usarRegistro: bool)
      returns (r: Result<UsuarioSinPassword, ErrorAuth>)
      requires Valid() && u in usuariosService.usuarios && u.estado
      modifies usuariosService, eventosService
      ensures Valid()
      ensures var intentos := IntentosSegun(old(eventosService.eventos), u.id, ahora, usarRegistro);
        var d := DecidirValidacion(Some(u), false, intentos);
        && r == d.resultado
        && eventosService.eventos == old(eventosService.eventos)
             + Registros(d.pasos, u.id, ip, userAgent, ahora, intentos, old(eventosService.nextId))
        && usuariosService.usuarios == if DesactivarCuenta in d.pasos
             then Usr.EstablecerEstado(old(usuariosService.usuarios), u.id, false)
             else old(usuariosService.usuarios)
    {
      ghost var log0 := eventosService.eventos;
      ghost var id0 := eventosService.nextId;
      var intentos := RegistrarFalloYContar(u, ip, userAgent, ahora, usarRegistro);
      ghost var e1 := EventoSeguridad(id0, LoginFallido, Some(u.id), ip, userAgent, ahora, Ev.DescripcionLoginFallido(u.id));
      ghost var d := DecidirValidacion(Some(u), false, intentos);
      if intentos >= UmbralIntentos {
        r := CompletarBloqueo(u, ip, userAgent, ahora, intentos, log0, id0);
        return;
      }
      assert [RegistrarLoginFallido][1..] == [];
      assert Registros(d.pasos, u.id, ip, userAgent, ahora, intentos, id0) == [e1];
      assert DesactivarCuenta !in d.pasos;
      r := Failure(Unauthorized(CredencialesInvalidas));
    }

    /** The lock branch of `PasswordIncorrecta`, once the failure is logged. */
    method CompletarBloqueo(u: Usuario, ip: string, userAgent: string, ahora: int, intentos: int,
                            ghost log0: seq<EventoSeguridad>, ghost id0: int) returns (r: Result<UsuarioSinPassword, ErrorAuth>)
      requires Valid() && u in usuariosService.usuarios && u.estado && intentos >= UmbralIntentos
      requires eventosService.nextId == id0 + 1
      requires eventosService.eventos == log0
        + [EventoSeguridad(id0, LoginFallido, Some(u.id), ip, userAgent, ahora, Ev.DescripcionLoginFallido(u.id))]
      modifies usuariosService, eventosService
      ensures Valid()
      ensures var d := DecidirValidacion(Some(u), false, intentos);
        && r == d.resultado
        && DesactivarCuenta in d.pasos
        && eventosService.eventos == log0 + Registros(d.pasos, u.id, ip, userAgent, ahora, intentos, id0)
        && usuariosService.usuarios == Usr.EstablecerEstado(old(usuariosService.usuarios), u.id, false)
    {
      ghost var d := DecidirValidacion(Some(u), false, intentos);
      ghost var e1 := EventoSeguridad(id0, LoginFallido, Some(u.id), ip, userAgent, ahora, Ev.DescripcionLoginFallido(u.id));
      BloquearPorIntentos(u, ip, userAgent, ahora, intentos);
      r := Failure(Unauthorized(MensajeBloqueoPorIntentos));
      assert d.pasos[1] == DesactivarCuenta;
      RegistrosBloqueo(u.id, ip, userAgent, ahora, intentos, id0);
      assert d.pasos == [RegistrarLoginFallido, DesactivarCuenta, RegistrarIntentoMultiple, RegistrarUsuarioBloqueado];
    }

    /** Logs the LOGIN_FALLIDO event, then takes the count: from the log, where the event
      * just written is included, or from the stub. */
    method RegistrarFalloYContar(u: Usuario, ip: string, userAgent: string, ahora: int, usarRegistro: bool)
      returns (intentos: int)
      requires Valid()
      modifies eventosService
      ensures Valid()
      ensures intentos == IntentosSegun(old(eventosService.eventos), u.id, ahora, usarRegistro)
      ensures eventosService.nextId == old(eventosService.nextId) + 1
      ensures eventosService.eventos == old(eventosService.eventos)
        + [EventoSeguridad(old(eventosService.nextId), LoginFallido, Some(u.id), ip, userAgent, ahora, Ev.DescripcionLoginFallido(u.id))]
    {
      ghost var log0 := eventosService.eventos;
      var e1 := eventosService.RegistrarLoginFallido(u.id, ip, userAgent, ahora);
      var desde := ahora - MsPorHora;
      Ev.FallidosAgregar(log0, e1, u.id, desde, ahora);
      intentos := if usarRegistro then eventosService.ContarIntentosFallidosRecientes(u.id, desde, ahora)
                  else IntentosFallidosStub(u.id, desde);
    }

    /** The lock branch after the failure is logged: deactivate, then log INTENTOS_MULTIPLES
      * with the count, then USUARIO_BLOQUEADO. */
    method BloquearPorIntentos(u: Usuario, ip: string, userAgent: string, ahora: int, intentos: int)
      requires Valid() && u in usuariosService.usuarios
      modifies usuariosService, eventosService
      ensures Valid()
      ensures usuariosService.usuarios == Usr.EstablecerEstado(old(usuariosService.usuarios), u.id, false)
      ensures eventosService.nextId == old(eventosService.nextId) + 2
      ensures eventosService.eventos == old(eventosService.eventos)
        + [EventoSeguridad(old(eventosService.nextId), IntentosMultiples, Some(u.id), ip, userAgent, ahora, Ev.DescripcionIntentoMultiple(u.id, intentos)),
           EventoSeguridad(old(eventosService.nextId) + 1, UsuarioBloqueado, Some(u.id), ip, userAgent, ahora, Ev.DescripcionUsuarioBloqueado(u.id))]
    {
      assert usuariosService.FindOne(u.id).Success?;
      var actualizado := usuariosService.ActualizarEstado(u.id, false);
      ghost var bloqueados := usuariosService.usuarios;
      assert eventosService.Valid();
      var e2 := eventosService.RegistrarIntentoMultiple(u.id, ip, userAgent, intentos, ahora);
      var e3 := eventosService.RegistrarUsuarioBloqueado(u.id, ip, userAgent, ahora);
      assert usuariosService.usuarios == bloqueados && usuariosService.Valid();
    }

    /** `solicitarRecuperacionPassword`: the same answer whether or not the account exists and
      * whether or not the mail goes out; for an existing account a RESET_PASSWORD event is
      * logged and a six-digit code is handed to the mail transport (`codigoEnviado`). The
      * code is kept nowhere. */
    method SolicitarRecuperacionPassword(username: string, ip: string, userAgent: string, ahora: int,
                                         aleatorio: real, envioOk: bool) returns (mensaje: string, codigoEnviado: Option<string>)
      requires Valid() && 0.0 <= aleatorio < 1.0
      modifies eventosService
      ensures Valid()
      ensures mensaje == MensajeRecuperacion
      ensures old(usuariosService.FindByUsername(username)).None? ==>
        codigoEnviado == None && eventosService.eventos == old(eventosService.eventos)
      ensures old(usuariosService.FindByUsername(username)).Some? ==>
        var id := old(usuariosService.FindByUsername(username)).value.id;
        && codigoEnviado == Some(NumeroTexto(GenerarCodigo(aleatorio)))
        && eventosService.eventos == old(eventosService.eventos)
             + [EventoSeguridad(old(eventosService.nextId), ResetPassword, Some(id), ip, userAgent, ahora, Ev.DescripcionResetPassword(id))]
    {
      var cuenta := usuariosService.FindByUsername(username);
      if cuenta.None? {
        mensaje, codigoEnviado := MensajeRecuperacion, None;
        return;
      }
      var e := eventosService.RegistrarResetPassword(cuenta.value.id, ip, userAgent, ahora);
      var codigo := NumeroTexto(GenerarCodigo(aleatorio));
      codigoEnviado := Some(codigo);
      mensaje := MensajeRecuperacion;
    }

    /** `verificarCodigoRecuperacion`: the check is the constant `false`, so no code is ever
      * accepted; for an existing account each attempt is logged as CODIGO_VERIFICACION_FALLIDO. */
    method VerificarCodigoRecuperacion(username: string, codigo: string, ip: string, userAgent: string, ahora: int)
      returns (valido: bool)
      requires Valid()
      modifies eventosService
      ensures Valid()
      ensures !valido
      ensures old(usuariosService.FindByUsername(username)).None? ==> eventosService.eventos == old(eventosService.eventos)
      ensures old(usuariosService.FindByUsername(username)).Some? ==>
        var id := old(usuariosService.FindByUsername(username)).value.id;
        eventosService.eventos == old(eventosService.eventos)
          + [EventoSeguridad(old(eventosService.nextId), CodigoVerificacionFallido, Some(id), ip, userAgent, ahora, Ev.DescripcionCodigoFallido(id))]
    {
      var cuenta := usuariosService.FindByUsername(username);
      if cuenta.None? {
        valido := false;
        return;
      }
      var e := eventosService.RegistrarCodigoVerificacionFallido(cuenta.value.id, ip, userAgent, ahora);
      valido := false;
    }
  }
}
