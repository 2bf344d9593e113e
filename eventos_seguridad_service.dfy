/** The security-event log and its service (src/eventos-seguridad/eventos-seguridad.service.ts).
  * The table is a sequence in insertion order; `nextId` is the identity sequence and
  * `fecha` is the clock reading passed to each write. */
module EventosSeguridadService {
  import opened Wrappers
  import opened Secuencias
  import opened Texto
  import opened Reloj
  import opened EventoSeguridadEntidad
  import opened CreateEventoSeguridadDto

  /** `take: 10` of `obtenerEventosPorUsuario`. */
  const LimitePorUsuario: nat := 10

  function DescripcionLoginFallido(usuario_id: int): string
  {
    "Intento de login fallido para usuario ID: " + NumeroTexto(usuario_id)
  }

  function DescripcionIntentoMultiple(usuario_id: int, intentos: int): string
  {
    "Usuario ID: " + NumeroTexto(usuario_id) + " ha realizado " + NumeroTexto(intentos) + " intentos fallidos de login"
  }

  function DescripcionUsuarioBloqueado(usuario_id: int): string
  {
    "Usuario ID: " + NumeroTexto(usuario_id) + " ha sido bloqueado por múltiples intentos fallidos"
  }

  function DescripcionResetPassword(usuario_id: int): string
  {
    "Solicitud de recuperación de contraseña para usuario ID: " + NumeroTexto(usuario_id)
  }

  function DescripcionCodigoFallido(usuario_id: int): string
  {
    "Código de verificación usado incorrectamente para usuario ID: " + NumeroTexto(usuario_id)
  }

  /** Each template names the user it is about, and the repeated-failure template the
    * number of attempts, so the description alone tells them apart. */
  lemma DescripcionesIdentificanUsuario(a: int, b: int)
    ensures DescripcionLoginFallido(a) == DescripcionLoginFallido(b) ==> a == b
    ensures DescripcionUsuarioBloqueado(a) == DescripcionUsuarioBloqueado(b) ==> a == b
    ensures DescripcionResetPassword(a) == DescripcionResetPassword(b) ==> a == b
    ensures DescripcionCodigoFallido(a) == DescripcionCodigoFallido(b) ==> a == b
    ensures forall u :: DescripcionIntentoMultiple(u, a) == DescripcionIntentoMultiple(u, b) ==> a == b
  {
    if DescripcionLoginFallido(a) == DescripcionLoginFallido(b) {
      QuitarMarco("Intento de login fallido para usuario ID: ", NumeroTexto(a), NumeroTexto(b), "");
      NumeroTextoInyectivo(a, b);
    }
    if DescripcionUsuarioBloqueado(a) == DescripcionUsuarioBloqueado(b) {
      QuitarMarco("Usuario ID: ", NumeroTexto(a), NumeroTexto(b), " ha sido bloqueado por múltiples intentos fallidos");
      NumeroTextoInyectivo(a, b);
    }
    if DescripcionResetPassword(a) == DescripcionResetPassword(b) {
      QuitarMarco("Solicitud de recuperación de contraseña para usuario ID: ", NumeroTexto(a), NumeroTexto(b), "");
      NumeroTextoInyectivo(a, b);
    }
    if DescripcionCodigoFallido(a) == DescripcionCodigoFallido(b) {
      QuitarMarco("Código de verificación usado incorrectamente para usuario ID: ", NumeroTexto(a), NumeroTexto(b), "");
      NumeroTextoInyectivo(a, b);
    }
    forall u | DescripcionIntentoMultiple(u, a) == DescripcionIntentoMultiple(u, b)
      ensures a == b
    {
      QuitarMarco("Usuario ID: " + NumeroTexto(u) + " ha realizado ", NumeroTexto(a), NumeroTexto(b), " intentos fallidos de login");
      NumeroTextoInyectivo(a, b);
    }
  }

  /** `obtenerEventosDelDia`: `fecha BETWEEN inicio AND fin`, with `inicio` today's local
    * midnight and `fin` the next one; both ends are included. */
  function EventosDelDia(log: seq<EventoSeguridad>, ahora: int, desfase: int): (r: seq<EventoSeguridad>)
    ensures forall e :: e in r <==>
      e in log && InicioDelDia(ahora, desfase) <= e.fecha <= InicioDelDia(ahora, desfase) + MsPorDia
    ensures forall e :: multiset(r)[e] <= multiset(log)[e]
  {
    var inicio := InicioDelDia(ahora, desfase);
    var f := (e: EventoSeguridad) => inicio <= e.fecha <= inicio + MsPorDia;
    FiltrarContenido(log, f);
    Filtrar(log, f)
  }

  /** As written, an event stamped exactly at a local midnight is returned both for the
    * day that ends there and for the day that starts there. */
  lemma MedianocheEnDosDias(log: seq<EventoSeguridad>, e: EventoSeguridad, ahora: int, desfase: int)
    requires e in log && e.fecha == InicioDelDia(ahora, desfase) + MsPorDia
    ensures InicioDelDia(e.fecha, desfase) != InicioDelDia(ahora, desfase)
    ensures e in EventosDelDia(log, ahora, desfase) && e in EventosDelDia(log, e.fecha, desfase)
  {
    MedianocheSiguiente(ahora, desfase);
  }

  /** The day's events as the comment beside the bound intends: from 00:00:00.000 to
    * 23:59:59.999, the window the admin report uses. Each event belongs to the day of its
    * own `fecha` and to no other. */
  function EventosDelDiaLocal(log: seq<EventoSeguridad>, ahora: int, desfase: int): (r: seq<EventoSeguridad>)
    ensures forall e :: e in r <==> e in log && InicioDelDia(e.fecha, desfase) == InicioDelDia(ahora, desfase)
    ensures forall e :: multiset(r)[e] <= multiset(log)[e]
  {
    var inicio := InicioDelDia(ahora, desfase);
    var fin := FinDelDia(ahora, desfase);
    var f := (e: EventoSeguridad) => inicio <= e.fecha <= fin;
    FiltrarContenido(log, f);
    var r := Filtrar(log, f);
    assert forall e: EventoSeguridad :: inicio <= e.fecha <= fin <==> InicioDelDia(e.fecha, desfase) == inicio by {
      forall e: EventoSeguridad ensures inicio <= e.fecha <= fin <==> InicioDelDia(e.fecha, desfase) == inicio {
        DiaCerrado(ahora, e.fecha, desfase);
      }
    }
    r
  }

  /** Two different days of the corrected window never share an event. */
  lemma DiasDisjuntos(log: seq<EventoSeguridad>, t1: int, t2: int, desfase: int, e: EventoSeguridad)
    requires InicioDelDia(t1, desfase) != InicioDelDia(t2, desfase)
    ensures !(e in EventosDelDiaLocal(log, t1, desfase) && e in EventosDelDiaLocal(log, t2, desfase))
  {
  }

  /** Every logged event is in the corrected window of its own day. */
  lemma CadaEventoTieneSuDia(log: seq<EventoSeguridad>, e: EventoSeguridad, desfase: int)
    requires e in log
    ensures e in EventosDelDiaLocal(log, e.fecha, desfase)
  {
  }

  /** Sort key of `order: { fecha: 'DESC' }`. */
  function FechaEvento(e: EventoSeguridad): int
  {
    e.fecha
  }

  /** `obtenerEventosPorUsuario`: the user's events, newest first, at most ten. */
  function EventosPorUsuario(log: seq<EventoSeguridad>, usuario_id: int): (r: seq<EventoSeguridad>)
    ensures |r| <= LimitePorUsuario
  {
    var propios := Filtrar(log, (e: EventoSeguridad) => e.usuario_id == Some(usuario_id));
    Tomar(OrdenarDesc(propios, FechaEvento), LimitePorUsuario)
  }

  /** `EventosPorUsuario` returns only the user's events, each at most as often as logged,
    * newest first. An event of the user is left out only when ten are returned, and then it
    * is no newer than any of them. */
  lemma EventosPorUsuarioCorrecto(log: seq<EventoSeguridad>, usuario_id: int)
    ensures var r := EventosPorUsuario(log, usuario_id);
      && (forall i :: 0 <= i < |r| ==> r[i].usuario_id == Some(usuario_id))
      && multiset(r) <= multiset(log)
      && OrdenadoDesc(r, FechaEvento)
      && forall e :: e in log && e.usuario_id == Some(usuario_id) && e !in r ==>
           |r| == LimitePorUsuario && forall i :: 0 <= i < |r| ==> e.fecha <= r[i].fecha
  {
    var f := (e: EventoSeguridad) => e.usuario_id == Some(usuario_id);
    FiltrarContenido(log, f);
    var propios := Filtrar(log, f);
    PrefijoOrdenado(log, usuario_id, propios, OrdenarDesc(propios, FechaEvento), LimitePorUsuario);
  }

  /** The clauses of `EventosPorUsuario` hold for the first `limite` of the user's events
    * sorted newest first. */
  lemma PrefijoOrdenado(log: seq<EventoSeguridad>, usuario_id: int, propios: seq<EventoSeguridad>,
                        ordenados: seq<EventoSeguridad>, limite: nat)
    requires forall x :: multiset(propios)[x] == if x.usuario_id == Some(usuario_id) then multiset(log)[x] else 0
    requires OrdenadoDesc(ordenados, FechaEvento) && multiset(ordenados) == multiset(propios)
    ensures var r := Tomar(ordenados, limite);
      && (forall i :: 0 <= i < |r| ==> r[i].usuario_id == Some(usuario_id))
      && multiset(r) <= multiset(log)
      && OrdenadoDesc(r, FechaEvento)
      && forall e :: e in log && e.usuario_id == Some(usuario_id) && e !in r ==>
           |r| == limite && forall i :: 0 <= i < |r| ==> e.fecha <= r[i].fecha
  {
    var r := Tomar(ordenados, limite);
    TomarSubmultiset(ordenados, limite);
    forall i | 0 <= i < |r|
      ensures r[i].usuario_id == Some(usuario_id)
    {
      assert r[i] == ordenados[i] && ordenados[i] in multiset(ordenados);
    }
    forall e | e in log && e.usuario_id == Some(usuario_id) && e !in r
      ensures |r| == limite && forall i :: 0 <= i < |r| ==> e.fecha <= r[i].fecha
    {
      assert multiset(propios)[e] > 0;
      assert e in multiset(ordenados);
      OmitidoDeTomar(ordenados, limite, e, FechaEvento);
    }
  }

  /** The filter of `contarIntentosFallidosRecientes`. */
  predicate EsFallidoEn(e: EventoSeguridad, usuario_id: int, desde: int, hasta: int)
  {
    e.usuario_id == Some(usuario_id) && e.tipo == LoginFallido && desde <= e.fecha <= hasta
  }

  /** `contarIntentosFallidosRecientes`: the number of the user's LOGIN_FALLIDO events with
    * `desde <= fecha <= hasta`. */
  function FallidosRecientes(log: seq<EventoSeguridad>, usuario_id: int, desde: int, hasta: int): (n: nat)
    ensures n <= |log|
    ensures n == 0 <==> forall e :: e in log ==> !EsFallidoEn(e, usuario_id, desde, hasta)
  {
    var f := (e: EventoSeguridad) => EsFallidoEn(e, usuario_id, desde, hasta);
    FiltrarContenido(log, f);
    var r := Filtrar(log, f);
    assert r != [] ==> r[0] in r;
    |r|
  }

  /** Logging one more event adds one to the count exactly when the event matches. */
  lemma FallidosAgregar(log: seq<EventoSeguridad>, e: EventoSeguridad, usuario_id: int, desde: int, hasta: int)
    ensures FallidosRecientes(log + [e], usuario_id, desde, hasta)
            == FallidosRecientes(log, usuario_id, desde, hasta) + (if EsFallidoEn(e, usuario_id, desde, hasta) then 1 else 0)
  {
    FiltrarAgregar(log, e, (e: EventoSeguridad) => EsFallidoEn(e, usuario_id, desde, hasta));
  }

  /** A window that starts earlier counts at least as many failures. */
  lemma {:induction false} FallidosMonotono(log: seq<EventoSeguridad>, usuario_id: int, desde: int, antes: int, hasta: int)
    requires antes <= desde
    ensures FallidosRecientes(log, usuario_id, desde, hasta) <= FallidosRecientes(log, usuario_id, antes, hasta)
    decreases |log|
  {
    if log != [] {
      var init := log[..|log| - 1];
      assert log == init + [log[|log| - 1]];
      FallidosMonotono(init, usuario_id, desde, antes, hasta);
      FallidosAgregar(init, log[|log| - 1], usuario_id, desde, hasta);
      FallidosAgregar(init, log[|log| - 1], usuario_id, antes, hasta);
    }
  }

  class EventosSeguridadService {
    var eventos: seq<EventoSeguridad>
    var nextId: int

    ghost predicate Valid()
      reads this
    {
      nextId >= 1 && forall i :: 0 <= i < |eventos| ==> 1 <= eventos[i].id < nextId
    }

    constructor ()
      ensures Valid() && eventos == []
    {
      eventos := [];
      nextId := 1;
    }

    /** `create`: the event is appended with a fresh key and the current time. */
    method Create(dto: CreateEventoSeguridadDto, ahora: int) returns (e: EventoSeguridad)
      requires Valid()
      modifies this
      ensures Valid()
      ensures e == EventoSeguridad(old(nextId), dto.tipo, dto.usuario_id, dto.ip, dto.user_agent, ahora, dto.descripcion)
      ensures forall i :: 0 <= i < |old(eventos)| ==> old(eventos)[i].id != e.id
      ensures eventos == old(eventos) + [e] && nextId == old(nextId) + 1
    {
      e := EventoSeguridad(nextId, dto.tipo, dto.usuario_id, dto.ip, dto.user_agent, ahora, dto.descripcion);
      eventos := eventos + [e];
      nextId := nextId + 1;
    }

    method RegistrarLoginFallido(usuario_id: int, ip: string, user_agent: string, ahora: int) returns (e: EventoSeguridad)
      requires Valid()
      modifies this
      ensures Valid()
      ensures e == EventoSeguridad(old(nextId), LoginFallido, Some(usuario_id), ip, user_agent, ahora, DescripcionLoginFallido(usuario_id))
      ensures eventos == old(eventos) + [e] && nextId == old(nextId) + 1
    {
      e := Create(CreateEventoSeguridadDto(LoginFallido, Some(usuario_id), ip, user_agent, DescripcionLoginFallido(usuario_id)), ahora);
    }

    method RegistrarIntentoMultiple(usuario_id: int, ip: string, user_agent: string, intentos: int, ahora: int) returns (e: EventoSeguridad)
      requires Valid()
      modifies this
      ensures Valid()
      ensures e == EventoSeguridad(old(nextId), IntentosMultiples, Some(usuario_id), ip, user_agent, ahora,
                                   DescripcionIntentoMultiple(usuario_id, intentos))
      ensures eventos == old(eventos) + [e] && nextId == old(nextId) + 1
    {
      e := Create(CreateEventoSeguridadDto(IntentosMultiples, Some(usuario_id), ip, user_agent,
                                           DescripcionIntentoMultiple(usuario_id, intentos)), ahora);
    }

    method RegistrarUsuarioBloqueado(usuario_id: int, ip: string, user_agent: string, ahora: int) returns (e: EventoSeguridad)
      requires Valid()
      modifies this
      ensures Valid()
      ensures e == EventoSeguridad(old(nextId), UsuarioBloqueado, Some(usuario_id), ip, user_agent, ahora, DescripcionUsuarioBloqueado(usuario_id))
      ensures eventos == old(eventos) + [e] && nextId == old(nextId) + 1
    {
      e := Create(CreateEventoSeguridadDto(UsuarioBloqueado, Some(usuario_id), ip, user_agent, DescripcionUsuarioBloqueado(usuario_id)), ahora);
    }

    method RegistrarResetPassword(usuario_id: int, ip: string, user_agent: string, ahora: int) returns (e: EventoSeguridad)
      requires Valid()
      modifies this
      ensures Valid()
      ensures e == EventoSeguridad(old(nextId), ResetPassword, Some(usuario_id), ip, user_agent, ahora, DescripcionResetPassword(usuario_id))
      ensures eventos == old(eventos) + [e] && nextId == old(nextId) + 1
    {
      e := Create(CreateEventoSeguridadDto(ResetPassword, Some(usuario_id), ip, user_agent, DescripcionResetPassword(usuario_id)), ahora);
    }

    method RegistrarCodigoVerificacionFallido(usuario_id: int, ip: string, user_agent: string, ahora: int) returns (e: EventoSeguridad)
      requires Valid()
      modifies this
      ensures Valid()
      ensures e == EventoSeguridad(old(nextId), CodigoVerificacionFallido, Some(usuario_id), ip, user_agent, ahora, DescripcionCodigoFallido(usuario_id))
      ensures eventos == old(eventos) + [e] && nextId == old(nextId) + 1
    {
      e := Create(CreateEventoSeguridadDto(CodigoVerificacionFallido, Some(usuario_id), ip, user_agent, DescripcionCodigoFallido(usuario_id)), ahora);
    }

    /** `obtenerEventosDelDia` as written: both midnights are included. */
    function ObtenerEventosDelDia(ahora: int, desfase: int): (r: seq<EventoSeguridad>)
      reads this
      ensures forall e :: e in r <==>
        e in eventos && InicioDelDia(ahora, desfase) <= e.fecha <= InicioDelDia(ahora, desfase) + MsPorDia
    {
      EventosDelDia(eventos, ahora, desfase)
    }

    /** The same query over the corrected window (see `MedianocheEnDosDias`). */
    function ObtenerEventosDelDiaCorregido(ahora: int, desfase: int): (r: seq<EventoSeguridad>)
      reads this
      ensures forall e :: e in r <==> e in eventos && InicioDelDia(e.fecha, desfase) == InicioDelDia(ahora, desfase)
    {
      EventosDelDiaLocal(eventos, ahora, desfase)
    }

    function ObtenerEventosPorUsuario(usuario_id: int): seq<EventoSeguridad>
      reads this
    {
      EventosPorUsuario(eventos, usuario_id)
    }

    function ContarIntentosFallidosRecientes(usuario_id: int, desde: int, ahora: int): nat
      reads this
    {
      FallidosRecientes(eventos, usuario_id, desde, ahora)
    }
  }
}
