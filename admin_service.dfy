/** The administrator's service (src/admin/admin.service.ts): the daily security report,
  * its delivery by mail, account monitoring, and blocking and unblocking accounts. Its
  * repositories are the tables held by the other services: the event log of
  * `EventosSeguridadService` and the account table of `UsuariosService`. */
module AdminService {
  import opened Wrappers
  import opened Secuencias
  import opened Texto
  import opened Reloj
  import opened UsuarioEntidad
  import opened EventoSeguridadEntidad
  import opened AccionAdminEntidad
  import opened ReporteDia
  import Usr = UsuariosService
  import Ev = EventosSeguridadService
  import Acc = AccionAdminService

  /** `errores > 3`. */
  const UmbralErrores: nat := 3

  /** The kinds `obtenerUsuariosConMultiplesErrores` counts together. */
  const TiposError: set<TipoEvento> := {LoginFallido, CodigoVerificacionFallido}

  const DescripcionReporte: string := "Reporte de seguridad enviado por correo"

  function DescripcionBloqueo(id: int): string
  {
    "Usuario ID: " + NumeroTexto(id) + " ha sido bloqueado por el administrador"
  }

  function DescripcionDesbloqueo(id: int): string
  {
    "Usuario ID: " + NumeroTexto(id) + " ha sido desbloqueado por el administrador"
  }

  /** Failures of the mail transport, and the ledger's NotFound. */
  datatype ErrorAdmin = ErrorCorreo | Accion(error: Acc.ErrorAccion)

  /** The filter of the report queries: a kind in `tipos` and a `fecha` between today's
    * `setHours(0, 0, 0, 0)` and `setHours(23, 59, 59, 999)`, both included. */
  predicate DeHoy(e: EventoSeguridad, tipos: set<TipoEvento>, ahora: int, desfase: int)
  {
    e.tipo in tipos && InicioDelDia(ahora, desfase) <= e.fecha <= FinDelDia(ahora, desfase)
  }

  /** The rows those queries return, in table order. */
  function EventosDeHoy(log: seq<EventoSeguridad>, tipos: set<TipoEvento>, ahora: int, desfase: int): (r: seq<EventoSeguridad>)
    ensures forall e :: multiset(r)[e] == if DeHoy(e, tipos, ahora, desfase) then multiset(log)[e] else 0
    ensures forall e :: e in r <==> e in log && DeHoy(e, tipos, ahora, desfase)
  {
    var f := (e: EventoSeguridad) => DeHoy(e, tipos, ahora, desfase);
    FiltrarContenido(log, f);
    Filtrar(log, f)
  }

  /** `evento.usuario_id` of each row. */
  function Ids(evs: seq<EventoSeguridad>): seq<Option<int>>
  {
    seq(|evs|, i requires 0 <= i < |evs| => evs[i].usuario_id)
  }

  /** How many of today's events of the kinds `tipos` carry the key `u`. */
  function CuentaDeHoy(log: seq<EventoSeguridad>, tipos: set<TipoEvento>, ahora: int, desfase: int, u: Option<int>): nat
  {
    multiset(Ids(EventosDeHoy(log, tipos, ahora, desfase)))[u]
  }

  /** The entries `[clave, cuenta]` of a `Map`, keys in insertion order. */
  function EntradasDe(ks: seq<Option<int>>, m: multiset<Option<int>>): (r: seq<(Option<int>, nat)>)
    ensures |r| == |ks| && forall i :: 0 <= i < |ks| ==> r[i] == (ks[i], m[ks[i]])
  {
    seq(|ks|, i requires 0 <= i < |ks| => (ks[i], m[ks[i]]))
  }

  /** `Array.from(m.entries())` of the `Map` counting the keys of `ids`: one entry per
    * distinct key, in order of first occurrence, with the number of its occurrences. */
  function Agrupar(ids: seq<Option<int>>): (r: seq<(Option<int>, nat)>)
    ensures forall i, j :: 0 <= i < j < |r| ==> r[i].0 != r[j].0
    ensures forall u :: u in ids <==> exists i :: 0 <= i < |r| && r[i].0 == u
    ensures forall i :: 0 <= i < |r| ==> r[i].1 == multiset(ids)[r[i].0] && r[i].1 >= 1
  {
    var ks := Distintos(ids);
    var r := EntradasDe(ks, multiset(ids));
    forall u | u in ids
      ensures exists i :: 0 <= i < |r| && r[i].0 == u
    {
      var i :| 0 <= i < |ks| && ks[i] == u;
      assert r[i].0 == u;
    }
    forall i | 0 <= i < |r|
      ensures r[i].1 >= 1
    {
      assert ks[i] in ids;
    }
    r
  }

  /** The `forEach` over the rows that fills `Map<number, number>` with
    * `set(k, (get(k) || 0) + 1)`, followed by `Array.from(m.entries())`. The map's key order
    * is kept in `claves`. */
  method ContarPorUsuario(ids: seq<Option<int>>) returns (entradas: seq<(Option<int>, nat)>)
    ensures entradas == Agrupar(ids)
  {
    var claves: seq<Option<int>> := [];
    var cuenta: map<Option<int>, nat> := map[];
    for i := 0 to |ids|
      invariant claves == Distintos(ids[..i])
      invariant Cuenta(cuenta, ids[..i])
    {
      assert ids[..i + 1] == ids[..i] + [ids[i]];
      DistintosAgregar(ids[..i], ids[i]);
      var k := ids[i];
      var c := if k in cuenta then cuenta[k] else 0;
      if k !in cuenta {
        claves := claves + [k];
      }
      CuentaAgregar(cuenta, ids[..i], k);
      cuenta := cuenta[k := c + 1];
    }
    assert ids[..|ids|] == ids;
    entradas := seq(|claves|, j requires 0 <= j < |claves| => (claves[j], cuenta[claves[j]]));
    assert entradas == EntradasDe(claves, multiset(ids));
  }

  /** `cuenta` maps exactly the keys of `s`, each to the number of its occurrences. */
  ghost predicate Cuenta(cuenta: map<Option<int>, nat>, s: seq<Option<int>>)
  {
    && (forall k :: k in cuenta <==> k in s)
    && (forall k :: k in cuenta ==> cuenta[k] == multiset(s)[k])
  }

  /** `set(k, (get(k) || 0) + 1)` keeps the map a count of the keys seen. */
  lemma CuentaAgregar(cuenta: map<Option<int>, nat>, s: seq<Option<int>>, k: Option<int>)
    requires Cuenta(cuenta, s)
    ensures Cuenta(cuenta[k := (if k in cuenta then cuenta[k] else 0) + 1], s + [k])
  {
    var nueva := cuenta[k := (if k in cuenta then cuenta[k] else 0) + 1];
    assert multiset(s + [k]) == multiset(s) + multiset{k};
    forall k' | k' in nueva
      ensures nueva[k'] == multiset(s + [k])[k']
    {
      if k' != k {
        assert nueva[k'] == cuenta[k'];
      }
    }
  }

  /** `.map(([usuario_id, intentos]) => ({ usuario_id, intentos }))`. */
  function AFallidos(es: seq<(Option<int>, nat)>): (r: seq<LoginFailedUser>)
    ensures |r| == |es| && forall i :: 0 <= i < |es| ==> r[i] == LoginFailedUser(es[i].0, es[i].1)
  {
    seq(|es|, i requires 0 <= i < |es| => LoginFailedUser(es[i].0, es[i].1))
  }

  function SumaIntentos(r: seq<LoginFailedUser>): nat
  {
    if r == [] then 0 else SumaIntentos(r[..|r| - 1]) + r[|r| - 1].intentos
  }

  lemma {:induction false} SumaIntentosEntradas(ks: seq<Option<int>>, m: multiset<Option<int>>)
    ensures SumaIntentos(AFallidos(EntradasDe(ks, m))) == SumaConteos(ks, m)
  {
    if ks != [] {
      var init := ks[..|ks| - 1];
      SumaIntentosEntradas(init, m);
      assert AFallidos(EntradasDe(ks, m))[..|ks| - 1] == AFallidos(EntradasDe(init, m));
    }
  }

  /** The failed-login entries of a sequence of keys: one per distinct key, each with the
    * number of its occurrences, adding up to the length of the sequence. */
  lemma FallidosAgrupados(ids: seq<Option<int>>)
    ensures var r := AFallidos(Agrupar(ids));
      && (forall i, j :: 0 <= i < j < |r| ==> r[i].usuario_id != r[j].usuario_id)
      && (forall i :: 0 <= i < |r| ==> r[i].intentos == multiset(ids)[r[i].usuario_id] && r[i].intentos >= 1)
      && (forall u :: u in ids ==> exists i :: 0 <= i < |r| && r[i].usuario_id == u)
      && SumaIntentos(r) == |ids|
  {
    var es := Agrupar(ids);
    var r := AFallidos(es);
    SumaIntentosEntradas(Distintos(ids), multiset(ids));
    SumaConteosDistintos(ids);
    forall u | u in ids
      ensures exists i :: 0 <= i < |r| && r[i].usuario_id == u
    {
      var i :| 0 <= i < |es| && es[i].0 == u;
      assert r[i].usuario_id == u;
    }
  }

  /** The key of every row appears among the keys. */
  lemma IdsMiembro(evs: seq<EventoSeguridad>, e: EventoSeguridad)
    requires e in evs
    ensures e.usuario_id in Ids(evs)
  {
    var j :| 0 <= j < |evs| && evs[j] == e;
    assert Ids(evs)[j] == e.usuario_id;
  }

  /** `obtenerLoginFallidos`: one entry per key among today's failed logins, with the number
    * of those failures; the attempts add up to the number of failed logins today. */
  function LoginFallidosDelDia(log: seq<EventoSeguridad>, ahora: int, desfase: int): (r: seq<LoginFailedUser>)
    ensures forall i, j :: 0 <= i < j < |r| ==> r[i].usuario_id != r[j].usuario_id
    ensures forall i :: 0 <= i < |r| ==>
      r[i].intentos == CuentaDeHoy(log, {LoginFallido}, ahora, desfase, r[i].usuario_id) && r[i].intentos >= 1
    ensures forall e :: e in log && DeHoy(e, {LoginFallido}, ahora, desfase) ==>
      exists i :: 0 <= i < |r| && r[i].usuario_id == e.usuario_id
    ensures SumaIntentos(r) == |EventosDeHoy(log, {LoginFallido}, ahora, desfase)|
  {
    var evs := EventosDeHoy(log, {LoginFallido}, ahora, desfase);
    FallidosAgrupados(Ids(evs));
    forall e | e in log && DeHoy(e, {LoginFallido}, ahora, desfase)
      ensures e.usuario_id in Ids(evs)
    {
      IdsMiembro(evs, e);
    }
    AFallidos(Agrupar(Ids(evs)))
  }

  /** `.filter(([_, errores]) => errores > 3).map(...)`, in entry order. */
  function SobreUmbral(es: seq<(Option<int>, nat)>): (r: seq<MultipleFailedUser>)
    ensures forall m :: m in r ==> m.errores > UmbralErrores && (m.usuario_id, m.errores) in es
    ensures forall x :: x in es && x.1 > UmbralErrores ==> MultipleFailedUser(x.0, x.1) in r
  {
    if es == [] then []
    else
      var resto := SobreUmbral(es[1..]);
      assert forall x :: x in es <==> x == es[0] || x in es[1..];
      if es[0].1 > UmbralErrores then [MultipleFailedUser(es[0].0, es[0].1)] + resto else resto
  }

  /** Filtering never brings in a key the entries do not have. */
  lemma {:induction false} SobreUmbralSinClave(es: seq<(Option<int>, nat)>, k: Option<int>)
    requires forall i :: 0 <= i < |es| ==> es[i].0 != k
    ensures forall i :: 0 <= i < |SobreUmbral(es)| ==> SobreUmbral(es)[i].usuario_id != k
  {
    if es != [] {
      var t := es[1..];
      assert forall i :: 0 <= i < |t| ==> t[i] == es[i + 1];
      SobreUmbralSinClave(t, k);
    }
  }

  /** No key is listed twice. */
  predicate UsuariosDistintos(r: seq<MultipleFailedUser>)
  {
    forall i, j :: 0 <= i < j < |r| ==> r[i].usuario_id != r[j].usuario_id
  }

  /** Filtering keeps the entries in order, so distinct keys stay distinct. */
  lemma {:induction false} SobreUmbralDistintos(es: seq<(Option<int>, nat)>)
    requires forall i, j :: 0 <= i < j < |es| ==> es[i].0 != es[j].0
    ensures UsuariosDistintos(SobreUmbral(es))
  {
    if es != [] {
      var t := es[1..];
      assert forall i :: 0 <= i < |t| ==> t[i] == es[i + 1];
      SobreUmbralDistintos(t);
      SobreUmbralSinClave(t, es[0].0);
      var r, resto := SobreUmbral(es), SobreUmbral(t);
      if es[0].1 > UmbralErrores {
        assert r == [MultipleFailedUser(es[0].0, es[0].1)] + resto;
        forall i, j | 0 <= i < j < |r|
          ensures r[i].usuario_id != r[j].usuario_id
        {
          assert r[j] == resto[j - 1];
          if i > 0 {
            assert r[i] == resto[i - 1];
          }
        }
      } else {
        assert r == resto;
      }
    }
  }

  /** The entries of a sequence of keys above the threshold: each with the number of
    * occurrences of its key, and every key that occurs more than three times among them. */
  lemma SobreUmbralAgrupado(ids: seq<Option<int>>)
    ensures var r := SobreUmbral(Agrupar(ids));
      && (forall i, j :: 0 <= i < j < |r| ==> r[i].usuario_id != r[j].usuario_id)
      && (forall i :: 0 <= i < |r| ==> r[i].errores == multiset(ids)[r[i].usuario_id] && r[i].errores > UmbralErrores)
      && (forall u :: multiset(ids)[u] > UmbralErrores ==> exists i :: 0 <= i < |r| && r[i].usuario_id == u)
  {
    var es := Agrupar(ids);
    var r := SobreUmbral(es);
    SobreUmbralDistintos(es);
    forall u | multiset(ids)[u] > UmbralErrores
      ensures exists i :: 0 <= i < |r| && r[i].usuario_id == u
    {
      assert u in ids;
      var j :| 0 <= j < |es| && es[j].0 == u;
      assert es[j] in es;
      var i :| 0 <= i < |r| && r[i] == MultipleFailedUser(es[j].0, es[j].1);
    }
    forall i | 0 <= i < |r|
      ensures r[i].errores == multiset(ids)[r[i].usuario_id] && r[i].errores > UmbralErrores
    {
      assert r[i] in r;
      var j :| 0 <= j < |es| && es[j] == (r[i].usuario_id, r[i].errores);
    }
  }

  /** `obtenerUsuariosConMultiplesErrores`: exactly the keys with more than three failed
    * logins and failed verification codes today, counted together. */
  function MultiplesErroresDelDia(log: seq<EventoSeguridad>, ahora: int, desfase: int): (r: seq<MultipleFailedUser>)
    ensures forall i, j :: 0 <= i < j < |r| ==> r[i].usuario_id != r[j].usuario_id
    ensures forall i :: 0 <= i < |r| ==>
      r[i].errores == CuentaDeHoy(log, TiposError, ahora, desfase, r[i].usuario_id) && r[i].errores > UmbralErrores
    ensures forall u :: CuentaDeHoy(log, TiposError, ahora, desfase, u) > UmbralErrores ==>
      exists i :: 0 <= i < |r| && r[i].usuario_id == u
  {
    var ids := Ids(EventosDeHoy(log, TiposError, ahora, desfase));
    SobreUmbralAgrupado(ids);
    SobreUmbral(Agrupar(ids))
  }

  /** The key `u`, `n` times. */
  function Repetir(u: Option<int>, n: nat): (r: seq<Option<int>>)
    ensures |r| == n
  {
    if n == 0 then [] else Repetir(u, n - 1) + [u]
  }

  /** A key repeated `n` times occurs `n` times and is its own only distinct key. */
  lemma {:induction false} RepetirDistintos(u: Option<int>, n: nat)
    requires n >= 1
    ensures multiset(Repetir(u, n))[u] == n
    ensures Distintos(Repetir(u, n)) == [u]
  {
    var s := Repetir(u, n);
    assert s[..n - 1] == Repetir(u, n - 1);
    if n == 1 {
      assert s == [u];
    } else {
      RepetirDistintos(u, n - 1);
      assert multiset(s) == multiset(Repetir(u, n - 1)) + multiset{u};
    }
  }

  /** A key repeated `n` times groups into the single entry `(u, n)`. */
  lemma AgruparRepetido(u: Option<int>, n: nat)
    requires n >= 1
    ensures Agrupar(Repetir(u, n)) == [(u, n)]
  {
    RepetirDistintos(u, n);
  }

  /** Three errors are not enough to be listed. */
  lemma TresErroresNoListan(u: Option<int>)
    ensures SobreUmbral(Agrupar([u, u, u])) == []
  {
    AgruparRepetido(u, 3);
    assert Repetir(u, 1) == [u];
    assert Repetir(u, 2) == [u, u];
    assert Repetir(u, 3) == [u, u, u];
    assert [(u, 3)][1..] == [];
  }

  /** A fourth error lists the account, with its four errors. */
  lemma CuatroErroresListan(u: Option<int>)
    ensures SobreUmbral(Agrupar([u, u, u, u])) == [MultipleFailedUser(u, 4)]
  {
    AgruparRepetido(u, 4);
    assert Repetir(u, 1) == [u];
    assert Repetir(u, 2) == [u, u];
    assert Repetir(u, 3) == [u, u, u];
    assert Repetir(u, 4) == [u, u, u, u];
    assert [(u, 4)][1..] == [];
  }

  lemma EventosDeHoyAgregar(log: seq<EventoSeguridad>, e: EventoSeguridad, tipos: set<TipoEvento>, ahora: int, desfase: int)
    ensures EventosDeHoy(log + [e], tipos, ahora, desfase)
            == EventosDeHoy(log, tipos, ahora, desfase) + (if DeHoy(e, tipos, ahora, desfase) then [e] else [])
  {
    FiltrarAgregar(log, e, (e: EventoSeguridad) => DeHoy(e, tipos, ahora, desfase));
  }

  /** Logging one more event adds one to a key's count exactly when the event is of
    * today, of one of the kinds, and carries that key. */
  lemma CuentaDeHoyAgregar(log: seq<EventoSeguridad>, e: EventoSeguridad, tipos: set<TipoEvento>, ahora: int, desfase: int, u: Option<int>)
    ensures CuentaDeHoy(log + [e], tipos, ahora, desfase, u)
            == CuentaDeHoy(log, tipos, ahora, desfase, u) + (if DeHoy(e, tipos, ahora, desfase) && e.usuario_id == u then 1 else 0)
  {
    EventosDeHoyAgregar(log, e, tipos, ahora, desfase);
    var antes := EventosDeHoy(log, tipos, ahora, desfase);
    var extra := if DeHoy(e, tipos, ahora, desfase) then [e] else [];
    IdsConcat(antes, extra);
    assert multiset(Ids(antes + extra)) == multiset(Ids(antes)) + multiset(Ids(extra));
    assert Ids(extra) == if DeHoy(e, tipos, ahora, desfase) then [e.usuario_id] else [];
  }

  lemma IdsConcat(a: seq<EventoSeguridad>, b: seq<EventoSeguridad>)
    ensures Ids(a + b) == Ids(a) + Ids(b)
  {
  }

  /** An event counts as an error of a key exactly when it counts as one of its failed
    * logins or as one of its failed verification codes, and never as both. */
  lemma ErrorDeUnTipo(e: EventoSeguridad, ahora: int, desfase: int, u: Option<int>)
    ensures (if DeHoy(e, TiposError, ahora, desfase) && e.usuario_id == u then 1 else 0)
            == (if DeHoy(e, {LoginFallido}, ahora, desfase) && e.usuario_id == u then 1 else 0)
             + (if DeHoy(e, {CodigoVerificacionFallido}, ahora, desfase) && e.usuario_id == u then 1 else 0)
  {
  }

  /** The errors of a key are its failed logins plus its failed verification codes. */
  lemma {:induction false} ErroresSumanAmbosTipos(log: seq<EventoSeguridad>, ahora: int, desfase: int, u: Option<int>)
    ensures CuentaDeHoy(log, TiposError, ahora, desfase, u)
            == CuentaDeHoy(log, {LoginFallido}, ahora, desfase, u) + CuentaDeHoy(log, {CodigoVerificacionFallido}, ahora, desfase, u)
    decreases |log|
  {
    if log != [] {
      var init := log[..|log| - 1];
      var e := log[|log| - 1];
      assert log == init + [e];
      ErroresSumanAmbosTipos(init, ahora, desfase, u);
      ErrorDeUnTipo(e, ahora, desfase, u);
      CuentaDeHoyAgregar(init, e, TiposError, ahora, desfase, u);
      CuentaDeHoyAgregar(init, e, {LoginFallido}, ahora, desfase, u);
      CuentaDeHoyAgregar(init, e, {CodigoVerificacionFallido}, ahora, desfase, u);
    }
  }

  /** In one report, a key listed with more than three failed logins is also listed among
    * the accounts with multiple errors, with at least as many errors. */
  lemma ReporteCoherente(log: seq<EventoSeguridad>, ahora: int, desfase: int, i: nat)
    requires i < |LoginFallidosDelDia(log, ahora, desfase)|
    ensures var f := LoginFallidosDelDia(log, ahora, desfase)[i];
      var ms := MultiplesErroresDelDia(log, ahora, desfase);
      f.intentos > UmbralErrores ==>
        exists j :: 0 <= j < |ms| && ms[j].usuario_id == f.usuario_id && ms[j].errores >= f.intentos
  {
    var fs := LoginFallidosDelDia(log, ahora, desfase);
    var f := fs[i];
    var u := f.usuario_id;
    assert f.intentos == CuentaDeHoy(log, {LoginFallido}, ahora, desfase, u);
    ErroresSumanAmbosTipos(log, ahora, desfase, u);
    var total := CuentaDeHoy(log, TiposError, ahora, desfase, u);
    assert total >= f.intentos;
    if f.intentos > UmbralErrores {
      var ms := MultiplesErroresDelDia(log, ahora, desfase);
      assert total > UmbralErrores;
      var j :| 0 <= j < |ms| && ms[j].usuario_id == u;
      assert ms[j].errores == total;
    }
  }

  /** `obtenerCodigosFallidos`: the key and time of each failed verification code today. */
  function CodigosFallidosDelDia(log: seq<EventoSeguridad>, ahora: int, desfase: int): (r: seq<FailedRecoveryCode>)
    ensures |r| == |EventosDeHoy(log, {CodigoVerificacionFallido}, ahora, desfase)|
    ensures var evs := EventosDeHoy(log, {CodigoVerificacionFallido}, ahora, desfase);
      forall i :: 0 <= i < |r| ==> r[i] == FailedRecoveryCode(evs[i].usuario_id, evs[i].fecha)
    ensures forall c :: c in r <==>
      exists e :: e in log && DeHoy(e, {CodigoVerificacionFallido}, ahora, desfase) && c == FailedRecoveryCode(e.usuario_id, e.fecha)
  {
    var evs := EventosDeHoy(log, {CodigoVerificacionFallido}, ahora, desfase);
    var r := seq(|evs|, i requires 0 <= i < |evs| => FailedRecoveryCode(evs[i].usuario_id, evs[i].fecha));
    assert forall c :: c in r ==> exists e :: e in log && DeHoy(e, {CodigoVerificacionFallido}, ahora, desfase) && c == FailedRecoveryCode(e.usuario_id, e.fecha) by {
      forall c | c in r
        ensures exists e :: e in log && DeHoy(e, {CodigoVerificacionFallido}, ahora, desfase) && c == FailedRecoveryCode(e.usuario_id, e.fecha)
      {
        var i :| 0 <= i < |r| && r[i] == c;
        assert evs[i] in evs;
      }
    }
    assert forall e :: e in log && DeHoy(e, {CodigoVerificacionFallido}, ahora, desfase) ==> FailedRecoveryCode(e.usuario_id, e.fecha) in r by {
      forall e | e in log && DeHoy(e, {CodigoVerificacionFallido}, ahora, desfase)
        ensures FailedRecoveryCode(e.usuario_id, e.fecha) in r
      {
        var i :| 0 <= i < |evs| && evs[i] == e;
        assert r[i] == FailedRecoveryCode(e.usuario_id, e.fecha);
      }
    }
    r
  }

  /** `generarReporteDia`: the report of the day holding `ahora`, stamped `ahora`. No
    * successful login is ever listed. */
  function ReporteDelDia(log: seq<EventoSeguridad>, ahora: int, desfase: int): ReporteDiaDto
  {
    ReporteDiaDto([], LoginFallidosDelDia(log, ahora, desfase), CodigosFallidosDelDia(log, ahora, desfase),
                  MultiplesErroresDelDia(log, ahora, desfase), ahora)
  }

  /** One entry of `monitorearUsuarios`. */
  function Monitoreo(u: Usuario, log: seq<EventoSeguridad>): UsuarioConEventos
  {
    UsuarioConEventos(u.id, u.username, !u.estado, Ev.EventosPorUsuario(log, u.id))
  }

  /** The entries of `monitorearUsuarios` for the accounts `us`, in table order. */
  function MonitoreoDe(us: seq<Usuario>, log: seq<EventoSeguridad>): (r: seq<UsuarioConEventos>)
    ensures |r| == |us|
    ensures forall i :: 0 <= i < |us| ==> r[i] == Monitoreo(us[i], log)
  {
    if us == [] then [] else MonitoreoDe(us[..|us| - 1], log) + [Monitoreo(us[|us| - 1], log)]
  }

  lemma MonitoreoDeAgregar(us: seq<Usuario>, i: nat, log: seq<EventoSeguridad>)
    requires i < |us|
    ensures MonitoreoDe(us[..i + 1], log) == MonitoreoDe(us[..i], log) + [Monitoreo(us[i], log)]
  {
    assert us[..i + 1][..i] == us[..i];
  }

  /** After an account is blocked, monitoring shows it blocked, and shows every other
    * account as before; unblocking shows it unblocked. */
  lemma MonitoreoTrasEstablecer(us: seq<Usuario>, log: seq<EventoSeguridad>, id: int, estado: bool, k: nat)
    requires k < |us|
    ensures Monitoreo(Usr.EstablecerEstado(us, id, estado)[k], log).bloqueado == if us[k].id == id then !estado else !us[k].estado
    ensures us[k].id != id ==> Monitoreo(Usr.EstablecerEstado(us, id, estado)[k], log) == Monitoreo(us[k], log)
  {
  }

  /** Unblocking after blocking leaves every account as active, whatever it was before. */
  lemma DesbloquearTrasBloquear(us: seq<Usuario>, id: int)
    ensures Usr.EstablecerEstado(Usr.EstablecerEstado(us, id, false), id, true) == Usr.EstablecerEstado(us, id, true)
    ensures (forall k :: 0 <= k < |us| && us[k].id == id ==> us[k].estado) ==>
      Usr.EstablecerEstado(Usr.EstablecerEstado(us, id, false), id, true) == us
  {
  }

  class AdminService {
    const eventosService: Ev.EventosSeguridadService
    const usuariosService: Usr.UsuariosService
    const accionAdminService: Acc.AccionAdminService

    ghost predicate Valid()
      reads this, eventosService, usuariosService, accionAdminService
    {
      && accionAdminService.usuariosService == usuariosService
      && eventosService.Valid() && usuariosService.Valid() && accionAdminService.Valid()
    }

    constructor (eventos: Ev.EventosSeguridadService, usuarios: Usr.UsuariosService, acciones: Acc.AccionAdminService)
      requires acciones.usuariosService == usuarios
      requires eventos.Valid() && usuarios.Valid() && acciones.Valid()
      ensures Valid()
      ensures eventosService == eventos && usuariosService == usuarios && accionAdminService == acciones
    {
      eventosService := eventos;
      usuariosService := usuarios;
      accionAdminService := acciones;
    }

    method ObtenerLoginFallidos(ahora: int, desfase: int) returns (r: seq<LoginFailedUser>)
      requires Valid()
      ensures r == LoginFallidosDelDia(eventosService.eventos, ahora, desfase)
    {
      var evs := EventosDeHoy(eventosService.eventos, {LoginFallido}, ahora, desfase);
      var entradas := ContarPorUsuario(Ids(evs));
      r := AFallidos(entradas);
    }

    method ObtenerUsuariosConMultiplesErrores(ahora: int, desfase: int) returns (r: seq<MultipleFailedUser>)
      requires Valid()
      ensures r == MultiplesErroresDelDia(eventosService.eventos, ahora, desfase)
    {
      var evs := EventosDeHoy(eventosService.eventos, TiposError, ahora, desfase);
      var entradas := ContarPorUsuario(Ids(evs));
      r := SobreUmbral(entradas);
    }

    method GenerarReporteDia(ahora: int, desfase: int) returns (r: ReporteDiaDto)
      requires Valid()
      ensures r == ReporteDelDia(eventosService.eventos, ahora, desfase)
    {
      var eventos := eventosService.ObtenerEventosDelDia(ahora, desfase);
      var loginFallidos := ObtenerLoginFallidos(ahora, desfase);
      var codigosFallidos := CodigosFallidosDelDia(eventosService.eventos, ahora, desfase);
      var multiples := ObtenerUsuariosConMultiplesErrores(ahora, desfase);
      r := ReporteDiaDto([], loginFallidos, codigosFallidos, multiples, ahora);
    }

    /** `enviarReportePorCorreo`: the report is built and mailed (`envioOk` is whether the
      * transport accepted it); only then is the ENVIAR_REPORTE action recorded, with no
      * affected account. `enviado` is the report handed to the transport. */
    method EnviarReportePorCorreo(adminId: int, ahora: int, desfase: int, envioOk: bool)
      returns (r: Outcome<ErrorAdmin>, enviado: ReporteDiaDto)
      requires Valid()
      modifies accionAdminService
      ensures Valid()
      ensures enviado == ReporteDelDia(eventosService.eventos, ahora, desfase)
      ensures !envioOk ==>
        r == Fail(ErrorCorreo) && accionAdminService.acciones == old(accionAdminService.acciones)
      ensures envioOk && !Acc.EsAdmin(usuariosService.usuarios, adminId) ==>
        r == Fail(Accion(Acc.AdminNoEncontrado(adminId))) && accionAdminService.acciones == old(accionAdminService.acciones)
      ensures envioOk && Acc.EsAdmin(usuariosService.usuarios, adminId) ==>
        && r == Pass
        && accionAdminService.acciones == old(accionAdminService.acciones)
             + [AccionAdmin(old(accionAdminService.nextId), adminId, EnviarReporte, None, ahora, DescripcionReporte)]
    {
      enviado := GenerarReporteDia(ahora, desfase);
      if !envioOk {
        r := Fail(ErrorCorreo);
        return;
      }
      var res := accionAdminService.RegistrarAccion(adminId, EnviarReporte, None, DescripcionReporte, ahora);
      r := if res.Success? then Pass else Fail(Accion(res.error));
    }

    /** `monitorearUsuarios`: for each account in table order, its key, username, whether it
      * is blocked, and its ten most recent events. */
    method MonitorearUsuarios() returns (r: seq<UsuarioConEventos>)
      ensures r == MonitoreoDe(usuariosService.usuarios, eventosService.eventos)
      ensures |r| == |usuariosService.usuarios|
      ensures forall i :: 0 <= i < |r| ==> r[i] == Monitoreo(usuariosService.usuarios[i], eventosService.eventos)
    {
      var usuarios := usuariosService.usuarios;
      ghost var log := eventosService.eventos;
      r := [];
      for i := 0 to |usuarios|
        invariant r == MonitoreoDe(usuarios[..i], log)
      {
        var usuario := usuarios[i];
        var eventos := eventosService.ObtenerEventosPorUsuario(usuario.id);
        var entrada := UsuarioConEventos(usuario.id, usuario.username, !usuario.estado, eventos);
        assert entrada == Monitoreo(usuarios[i], log);
        MonitoreoDeAgregar(usuarios, i, log);
        r := r + [entrada];
      }
      assert usuarios[..|usuarios|] == usuarios;
    }

    /** `bloquearUsuario`: `update(id, { estado: false })` runs first and changes no row when
      * the key is absent; the BLOQUEAR_USUARIO action is recorded afterwards, so an actor who
      * is not an administrator gets NotFound with the account already blocked. */
    method BloquearUsuario(id: int, adminId: int, ahora: int) returns (r: Outcome<Acc.ErrorAccion>)
      requires Valid()
      modifies usuariosService, accionAdminService
      ensures Valid()
      ensures usuariosService.usuarios == Usr.EstablecerEstado(old(usuariosService.usuarios), id, false)
      ensures usuariosService.nextId == old(usuariosService.nextId)
      ensures !Acc.EsAdmin(old(usuariosService.usuarios), adminId) ==>
        r == Fail(Acc.AdminNoEncontrado(adminId)) && accionAdminService.acciones == old(accionAdminService.acciones)
      ensures Acc.EsAdmin(old(usuariosService.usuarios), adminId) ==>
        && r == Pass
        && accionAdminService.acciones == old(accionAdminService.acciones)
             + [AccionAdmin(old(accionAdminService.nextId), adminId, TipoAccionAdmin.BloquearUsuario, Some(id), ahora, DescripcionBloqueo(id))]
    {
      r := EstablecerYRegistrar(id, false, adminId, TipoAccionAdmin.BloquearUsuario, DescripcionBloqueo(id), ahora);
    }

    /** `desbloquearUsuario`: as `bloquearUsuario`, with `estado: true` and DESBLOQUEAR_USUARIO. */
    method DesbloquearUsuario(id: int, adminId: int, ahora: int) returns (r: Outcome<Acc.ErrorAccion>)
      requires Valid()
      modifies usuariosService, accionAdminService
      ensures Valid()
      ensures usuariosService.usuarios == Usr.EstablecerEstado(old(usuariosService.usuarios), id, true)
      ensures usuariosService.nextId == old(usuariosService.nextId)
      ensures !Acc.EsAdmin(old(usuariosService.usuarios), adminId) ==>
        r == Fail(Acc.AdminNoEncontrado(adminId)) && accionAdminService.acciones == old(accionAdminService.acciones)
      ensures Acc.EsAdmin(old(usuariosService.usuarios), adminId) ==>
        && r == Pass
        && accionAdminService.acciones == old(accionAdminService.acciones)
             + [AccionAdmin(old(accionAdminService.nextId), adminId, TipoAccionAdmin.DesbloquearUsuario, Some(id), ahora, DescripcionDesbloqueo(id))]
    {
      r := EstablecerYRegistrar(id, true, adminId, TipoAccionAdmin.DesbloquearUsuario, DescripcionDesbloqueo(id), ahora);
    }

    /** The shared sequence of both: the unconditional `update`, then `registrarAccion`. */
    method EstablecerYRegistrar(id: int, estado: bool, adminId: int, tipo: TipoAccionAdmin, descripcion: string, ahora: int)
      returns (r: Outcome<Acc.ErrorAccion>)
      requires Valid()
      modifies usuariosService, accionAdminService
      ensures Valid()
      ensures usuariosService.usuarios == Usr.EstablecerEstado(old(usuariosService.usuarios), id, estado)
      ensures usuariosService.nextId == old(usuariosService.nextId)
      ensures !Acc.EsAdmin(old(usuariosService.usuarios), adminId) ==>
        r == Fail(Acc.AdminNoEncontrado(adminId)) && accionAdminService.acciones == old(accionAdminService.acciones)
      ensures Acc.EsAdmin(old(usuariosService.usuarios), adminId) ==>
        && r == Pass
        && accionAdminService.acciones == old(accionAdminService.acciones)
             + [AccionAdmin(old(accionAdminService.nextId), adminId, tipo, Some(id), ahora, descripcion)]
    {
      Usr.EstablecerEstadoConserva(usuariosService.usuarios, id, estado);
      Acc.EstadoNoCambiaAdmins(usuariosService.usuarios, id, estado, adminId);
      usuariosService.usuarios := Usr.EstablecerEstado(usuariosService.usuarios, id, estado);
      var res := accionAdminService.RegistrarAccion(adminId, tipo, Some(id), descripcion, ahora);
      r := if res.Success? then Pass else Fail(res.error);
    }
  }
}
