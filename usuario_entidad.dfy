/** The `usuarios` table (src/usuarios/entities/usuario.entity.ts). */
module UsuarioEntidad {

  const EstadoPorDefecto: bool := true
  const RolPorDefecto: string := "usuario"
  const RolAdmin: string := "admin"

  /** One account. `password` always holds the stored (hashed) credential; `estado`
    * false means the account is locked. */
  datatype Usuario = Usuario(id: int, username: string, password: string, estado: bool, rol: string)

  /** The `unique: true` constraint on `username`. */
  ghost predicate UsernamesUnicos(us: seq<Usuario>)
  {
    forall i, j :: 0 <= i < j < |us| ==> us[i].username != us[j].username
  }

  /** The primary key. */
  ghost predicate IdsUnicos(us: seq<Usuario>)
  {
    forall i, j :: 0 <= i < j < |us| ==> us[i].id != us[j].id
  }
}
