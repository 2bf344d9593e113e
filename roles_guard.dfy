/** The role check in front of the admin routes (src/auth/guards/roles.guard.ts).
  * Role metadata is a list of role names set by `@Roles(...)` on a handler or on its
  * controller class; `None` stands for no metadata (`undefined`). */
module RolesGuard {
  import opened Wrappers

  /** `Reflector.getAllAndOverride('roles', [handler, class])`: the first target that has
    * the metadata wins, so handler-level roles override class-level roles. */
  function RolesRequeridos(manejador: Option<seq<string>>, clase: Option<seq<string>>): Option<seq<string>>
  {
    if manejador.Some? then manejador else clase
  }

  /** `requiredRoles.some(role => user.rol === role)` */
  function AlgunoCoincide(requeridos: seq<string>, rol: string): (b: bool)
    ensures b <==> rol in requeridos
  {
    if requeridos == [] then false
    else requeridos[0] == rol || AlgunoCoincide(requeridos[1..], rol)
  }

  /** `canActivate`: no metadata lets every request through; otherwise the user's role
    * must be one of the required roles. */
  function CanActivate(manejador: Option<seq<string>>, clase: Option<seq<string>>, rolUsuario: string): (ok: bool)
    ensures RolesRequeridos(manejador, clase).None? ==> ok
    ensures RolesRequeridos(manejador, clase).Some? ==> (ok <==> rolUsuario in RolesRequeridos(manejador, clase).value)
  {
    var requeridos := RolesRequeridos(manejador, clase);
    if requeridos.None? then true
    else AlgunoCoincide(requeridos.value, rolUsuario)
  }

  /** An empty role list is still metadata (an empty array is truthy), and denies everyone. */
  lemma ListaVaciaDeniega(clase: Option<seq<string>>, rolUsuario: string)
    ensures !CanActivate(Some([]), clase, rolUsuario)
    ensures !CanActivate(None, Some([]), rolUsuario)
  {
  }

  /** Handler-level roles decide alone whenever they are present. */
  lemma PrecedenciaDelManejador(roles: seq<string>, clase1: Option<seq<string>>, clase2: Option<seq<string>>, rolUsuario: string)
    ensures CanActivate(Some(roles), clase1, rolUsuario) == CanActivate(Some(roles), clase2, rolUsuario)
  {
  }

  /** Only the set of required roles matters: order and duplicates do not. */
  lemma SoloImportaElConjunto(a: seq<string>, b: seq<string>, clase: Option<seq<string>>, rolUsuario: string)
    requires forall r :: r in a <==> r in b
    ensures CanActivate(Some(a), clase, rolUsuario) == CanActivate(Some(b), clase, rolUsuario)
  {
    assert RolesRequeridos(Some(a), clase) == Some(a);
    assert RolesRequeridos(Some(b), clase) == Some(b);
  }
}
