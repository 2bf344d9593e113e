/** The ledger of administrator actions and its service
  * (src/admin/services/accion-admin.service.ts). */
module AccionAdminService {
  import opened Wrappers
  import opened Secuencias
  import opened UsuarioEntidad
  import opened AccionAdminEntidad
  import UsuariosService

  /** `NotFoundException` when no account with that key has role `'admin'`. */
  datatype ErrorAccion = AdminNoEncontrado(adminId: int)

  /** `findOne({ where: { id: adminId, rol: 'admin' } })` finds a row. */
  predicate EsAdmin(us: seq<Usuario>, adminId: int)
  {
    exists k :: 0 <= k < |us| && us[k].id == adminId && us[k].rol == RolAdmin
  }

  /** The search that decides `EsAdmin`. */
  function BuscarAdmin(us: seq<Usuario>, adminId: int): (r: bool)
    ensures r <==> EsAdmin(us, adminId)
  {
    if us == [] then false
    else if us[0].id == adminId && us[0].rol == RolAdmin then true
    else
      var r := BuscarAdmin(us[1..], adminId);
      assert EsAdmin(us[1..], adminId) ==> EsAdmin(us, adminId) by {
        if EsAdmin(us[1..], adminId) {
          var k :| 0 <= k < |us[1..]| && us[1..][k].id == adminId && us[1..][k].rol == RolAdmin;
          assert us[k + 1] == us[1..][k];
        }
      }
      assert EsAdmin(us, adminId) ==> EsAdmin(us[1..], adminId) by {
        if EsAdmin(us, adminId) {
          var k :| 0 <= k < |us| && us[k].id == adminId && us[k].rol == RolAdmin;
          assert k != 0;
          assert us[1..][k - 1] == us[k];
        }
      }
      r
  }

  /** Changing an account's `estado` does not change who is an administrator. */
  lemma EstadoNoCambiaAdmins(us: seq<Usuario>, id: int, estado: bool, adminId: int)
    ensures EsAdmin(UsuariosService.EstablecerEstado(us, id, estado), adminId) <==> EsAdmin(us, adminId)
  {
    var v := UsuariosService.EstablecerEstado(us, id, estado);
    if EsAdmin(us, adminId) {
      var k :| 0 <= k < |us| && us[k].id == adminId && us[k].rol == RolAdmin;
      assert v[k].id == adminId && v[k].rol == RolAdmin;
    }
    if EsAdmin(v, adminId) {
      var k :| 0 <= k < |v| && v[k].id == adminId && v[k].rol == RolAdmin;
      assert us[k].id == adminId && us[k].rol == RolAdmin;
    }
  }

  /** Sort key of `order: { fecha: 'DESC' }`. */
  function FechaAccion(a: AccionAdmin): int
  {
    a.fecha
  }

  /** `obtenerAcciones`: every action, newest first. */
  function TodasLasAcciones(log: seq<AccionAdmin>): (r: seq<AccionAdmin>)
    ensures multiset(r) == multiset(log)
    ensures OrdenadoDesc(r, FechaAccion)
  {
    OrdenarDesc(log, FechaAccion)
  }

  /** `obtenerAccionesPorAdmin`: exactly the actions that administrator performed, newest first. */
  function AccionesPorAdmin(log: seq<AccionAdmin>, adminId: int): (r: seq<AccionAdmin>)
    ensures forall a :: multiset(r)[a] == if a.adminId == adminId then multiset(log)[a] else 0
    ensures OrdenadoDesc(r, FechaAccion)
  {
    var f := (a: AccionAdmin) => a.adminId == adminId;
    FiltrarContenido(log, f);
    OrdenarDesc(Filtrar(log, f), FechaAccion)
  }

  /** `obtenerAccionesPorUsuario`: exactly the actions that affected that account, newest
    * first; actions with no affected account never match. */
  function AccionesPorUsuario(log: seq<AccionAdmin>, usuarioId: int): (r: seq<AccionAdmin>)
    ensures forall a :: multiset(r)[a] == if a.usuario_afectado_id == Some(usuarioId) then multiset(log)[a] else 0
    ensures OrdenadoDesc(r, FechaAccion)
  {
    var f := (a: AccionAdmin) => a.usuario_afectado_id == Some(usuarioId);
    FiltrarContenido(log, f);
    OrdenarDesc(Filtrar(log, f), FechaAccion)
  }

  /** The per-administrator views split the whole ledger: each action appears in the view
    * of its own administrator, as many times as in the ledger, and in no other. */
  lemma VistasPorAdminParticionan(log: seq<AccionAdmin>, a: AccionAdmin)
    ensures multiset(AccionesPorAdmin(log, a.adminId))[a] == multiset(TodasLasAcciones(log))[a]
    ensures forall otro :: otro != a.adminId ==> a !in AccionesPorAdmin(log, otro)
  {
    forall otro | otro != a.adminId
      ensures a !in AccionesPorAdmin(log, otro)
    {
      assert multiset(AccionesPorAdmin(log, otro))[a] == 0;
    }
  }

  class AccionAdminService {
    const usuariosService: UsuariosService.UsuariosService
    var acciones: seq<AccionAdmin>
    var nextId: int

    ghost predicate Valid()
      reads this
    {
      nextId >= 1 && forall i :: 0 <= i < |acciones| ==> 1 <= acciones[i].id < nextId
    }

    constructor (usuarios: UsuariosService.UsuariosService)
      ensures Valid() && usuariosService == usuarios && acciones == []
    {
      usuariosService := usuarios;
      acciones := [];
      nextId := 1;
    }

    /** `registrarAccion`: only an account with role `'admin'` can be recorded as the actor;
      * otherwise NotFound and nothing is written. */
    method RegistrarAccion(adminId: int, tipo: TipoAccionAdmin, usuarioAfectadoId: Option<int>,
                           descripcion: string, ahora: int) returns (r: Result<AccionAdmin, ErrorAccion>)
      requires Valid()
      modifies this
      ensures Valid()
      ensures !EsAdmin(usuariosService.usuarios, adminId) ==>
        r == Failure(AdminNoEncontrado(adminId)) && acciones == old(acciones) && nextId == old(nextId)
      ensures EsAdmin(usuariosService.usuarios, adminId) ==>
        && r == Success(AccionAdmin(old(nextId), adminId, tipo, usuarioAfectadoId, ahora, descripcion))
        && acciones == old(acciones) + [r.value]
        && nextId == old(nextId) + 1
    {
      if !BuscarAdmin(usuariosService.usuarios, adminId) {
        r := Failure(AdminNoEncontrado(adminId));
        return;
      }
      var accion := AccionAdmin(nextId, adminId, tipo, usuarioAfectadoId, ahora, descripcion);
      acciones := acciones + [accion];
      nextId := nextId + 1;
      r := Success(accion);
    }

    function ObtenerAcciones(): seq<AccionAdmin>
      reads this
    {
      TodasLasAcciones(acciones)
    }

    function ObtenerAccionesPorAdmin(adminId: int): seq<AccionAdmin>
      reads this
    {
      AccionesPorAdmin(acciones, adminId)
    }

    function ObtenerAccionesPorUsuario(usuarioId: int): seq<AccionAdmin>
      reads this
    {
      AccionesPorUsuario(acciones, usuarioId)
    }
  }
}
