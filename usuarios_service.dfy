/** The account table and its service (src/usuarios/usuarios.service.ts). Rows are kept
  * in table order; `nextId` is the identity sequence of the primary key. bcrypt's `hash`
  * is a function passed in by the caller (its random salt folded into the function). */
module UsuariosService {
  import opened Wrappers
  import opened UsuarioEntidad
  import opened CreateUsuarioDto

  /** `UpdateUsuarioDto`: each property may be left out. */
  datatype UpdateUsuarioDto = UpdateUsuarioDto(username: Option<string>, password: Option<string>, rol: Option<string>)

  /** `NotFoundException`, and the unique-constraint violation the database raises on save. */
  datatype ErrorUsuarios = NoEncontrado(id: int) | UsernameDuplicado(username: string)

  /** Position of the row whose primary key is `id`. */
  function Buscar(us: seq<Usuario>, id: int): (r: Option<nat>)
    ensures r.Some? ==> r.value < |us| && us[r.value].id == id
    ensures r.None? ==> forall k :: 0 <= k < |us| ==> us[k].id != id
  {
    if us == [] then None
    else if us[0].id == id then Some(0)
    else match Buscar(us[1..], id)
      case None => None
      case Some(k) => Some(k + 1)
  }

  /** Position of the row whose `username` is `username`. */
  function BuscarUsername(us: seq<Usuario>, username: string): (r: Option<nat>)
    ensures r.Some? ==> r.value < |us| && us[r.value].username == username
    ensures r.None? ==> forall k :: 0 <= k < |us| ==> us[k].username != username
  {
    if us == [] then None
    else if us[0].username == username then Some(0)
    else match BuscarUsername(us[1..], username)
      case None => None
      case Some(k) => Some(k + 1)
  }

  /** `UPDATE usuarios SET estado = :estado WHERE id = :id`: every row with that key gets
    * the new flag (none when the key is absent), and no other row changes. */
  function EstablecerEstado(us: seq<Usuario>, id: int, estado: bool): (r: seq<Usuario>)
    ensures |r| == |us|
    ensures forall k :: 0 <= k < |us| ==> r[k] == if us[k].id == id then us[k].(estado := estado) else us[k]
  {
    seq(|us|, k requires 0 <= k < |us| => if us[k].id == id then us[k].(estado := estado) else us[k])
  }

  /** Writing the same flag twice is the same as writing it once. */
  lemma EstablecerEstadoIdempotente(us: seq<Usuario>, id: int, estado: bool)
    ensures EstablecerEstado(EstablecerEstado(us, id, estado), id, estado) == EstablecerEstado(us, id, estado)
  {
  }

  /** The flag is the only thing that changes: keys, usernames, passwords and roles stay. */
  lemma EstablecerEstadoConserva(us: seq<Usuario>, id: int, estado: bool)
    requires IdsUnicos(us) && UsernamesUnicos(us)
    ensures IdsUnicos(EstablecerEstado(us, id, estado)) && UsernamesUnicos(EstablecerEstado(us, id, estado))
    ensures forall k :: 0 <= k < |us| ==>
      var v := EstablecerEstado(us, id, estado)[k];
      v.id == us[k].id && v.username == us[k].username && v.password == us[k].password && v.rol == us[k].rol
  {
  }

  /** `Object.assign(usuario, dto)` after the password rewrite: properties present in the
    * DTO overwrite, absent ones are kept. The password is hashed only when it is truthy,
    * so an empty string is assigned as it is. */
  function AplicarCambios(u: Usuario, dto: UpdateUsuarioDto, hash: string -> string): (v: Usuario)
    ensures v.id == u.id && v.estado == u.estado
    ensures v.username == (if dto.username.Some? then dto.username.value else u.username)
    ensures v.rol == (if dto.rol.Some? then dto.rol.value else u.rol)
    ensures dto.password.None? ==> v.password == u.password
    ensures dto.password.Some? && dto.password.value != "" ==> v.password == hash(dto.password.value)
    ensures dto.password == Some("") ==> v.password == ""
  {
    var password := match dto.password
      case None => None
      case Some(p) => if p != "" then Some(hash(p)) else Some(p);
    Usuario(u.id, dto.username.GetOr(u.username), password.GetOr(u.password), u.estado, dto.rol.GetOr(u.rol))
  }

  /** Deleting the row at `k`, whose key is unique, keeps exactly the rows with another key. */
  lemma QuitarFila(us: seq<Usuario>, k: nat)
    requires k < |us| && IdsUnicos(us)
    ensures IdsUnicos(us[..k] + us[k + 1..])
    ensures UsernamesUnicos(us) ==> UsernamesUnicos(us[..k] + us[k + 1..])
    ensures forall u :: u in us[..k] + us[k + 1..] <==> u in us && u.id != us[k].id
  {
    var r := us[..k] + us[k + 1..];
    assert forall j :: 0 <= j < |r| ==> r[j] == if j < k then us[j] else us[j + 1];
    forall u | u in us && u.id != us[k].id
      ensures u in r
    {
      var j :| 0 <= j < |us| && us[j] == u;
      if j < k { assert r[j] == u; } else { assert r[j - 1] == u; }
    }
  }

  class UsuariosService {
    var usuarios: seq<Usuario>
    var nextId: int

    ghost predicate Valid()
      reads this
    {
      && nextId >= 1
      && IdsUnicos(usuarios)
      && UsernamesUnicos(usuarios)
      && forall k :: 0 <= k < |usuarios| ==> 1 <= usuarios[k].id < nextId
    }

    constructor ()
      ensures Valid() && usuarios == []
    {
      usuarios := [];
      nextId := 1;
    }

    /** `findOne`: the account with that key, or NotFound. */
    function FindOne(id: int): (r: Result<Usuario, ErrorUsuarios>)
      reads this
      ensures r.Success? ==> r.value in usuarios && r.value.id == id
      ensures r.Failure? ==> r.error == NoEncontrado(id) && forall k :: 0 <= k < |usuarios| ==> usuarios[k].id != id
    {
      match Buscar(usuarios, id)
      case None => Failure(NoEncontrado(id))
      case Some(k) => Success(usuarios[k])
    }

    /** `findByUsername`: the matching account or `undefined`; it never throws. */
    function FindByUsername(username: string): (r: Option<Usuario>)
      reads this
      ensures r.Some? ==> r.value in usuarios && r.value.username == username
      ensures r.None? ==> forall k :: 0 <= k < |usuarios| ==> usuarios[k].username != username
    {
      match BuscarUsername(usuarios, username)
      case None => None
      case Some(k) => Some(usuarios[k])
    }

    /** `create`: stores the hash of the password, the DTO's username and role (the column
      * default `'usuario'` when the role is left out) and the default `estado` true. */
    method Create(dto: CreateUsuarioDto, hash: string -> string) returns (r: Result<Usuario, ErrorUsuarios>)
      requires Valid()
      modifies this
      ensures Valid()
      ensures old(FindByUsername(dto.username)).Some? ==>
        r == Failure(UsernameDuplicado(dto.username)) && usuarios == old(usuarios) && nextId == old(nextId)
      ensures old(FindByUsername(dto.username)).None? ==>
        && r == Success(Usuario(old(nextId), dto.username, hash(dto.password), EstadoPorDefecto,
                                if dto.rol.Some? then dto.rol.value else RolPorDefecto))
        && usuarios == old(usuarios) + [r.value]
        && nextId == old(nextId) + 1
    {
      var hashed := hash(dto.password);
      var usuario := Usuario(nextId, dto.username, hashed, EstadoPorDefecto, dto.rol.GetOr(RolPorDefecto));
      if BuscarUsername(usuarios, dto.username).Some? {
        r := Failure(UsernameDuplicado(dto.username));
        return;
      }
      usuarios := usuarios + [usuario];
      nextId := nextId + 1;
      r := Success(usuario);
    }

    /** `update`: NotFound for an absent key; otherwise the row becomes `AplicarCambios` of
      * itself, unless the new username belongs to another account. */
    method Update(id: int, dto: UpdateUsuarioDto, hash: string -> string) returns (r: Result<Usuario, ErrorUsuarios>)
      requires Valid()
      modifies this
      ensures Valid() && nextId == old(nextId)
      ensures old(FindOne(id)).Failure? ==> r == Failure(NoEncontrado(id)) && usuarios == old(usuarios)
      ensures old(FindOne(id)).Success? ==>
        var k := old(Buscar(usuarios, id)).value;
        var v := AplicarCambios(old(usuarios)[k], dto, hash);
        var otro := old(BuscarUsername(usuarios, v.username));
        if otro.Some? && otro.value != k then
          r == Failure(UsernameDuplicado(v.username)) && usuarios == old(usuarios)
        else
          r == Success(v) && usuarios == old(usuarios)[k := v]
    {
      var encontrado := FindOne(id);
      if encontrado.Failure? {
        r := Failure(encontrado.error);
        return;
      }
      var k := Buscar(usuarios, id).value;
      var v := AplicarCambios(encontrado.value, dto, hash);
      var otro := BuscarUsername(usuarios, v.username);
      if otro.Some? && otro.value != k {
        r := Failure(UsernameDuplicado(v.username));
        return;
      }
      usuarios := usuarios[k := v];
      r := Success(v);
    }

    /** `actualizarEstado`: NotFound for an absent key; otherwise only that account's
      * `estado` changes. */
    method ActualizarEstado(id: int, estado: bool) returns (r: Result<Usuario, ErrorUsuarios>)
      requires Valid()
      modifies this
      ensures Valid() && nextId == old(nextId)
      ensures old(FindOne(id)).Failure? ==> r == Failure(NoEncontrado(id)) && usuarios == old(usuarios)
      ensures old(FindOne(id)).Success? ==>
        && r == Success(old(FindOne(id)).value.(estado := estado))
        && usuarios == EstablecerEstado(old(usuarios), id, estado)
    {
      var encontrado := FindOne(id);
      if encontrado.Failure? {
        r := Failure(encontrado.error);
        return;
      }
      var k := Buscar(usuarios, id).value;
      var v := encontrado.value.(estado := estado);
      EstablecerEstadoConserva(usuarios, id, estado);
      usuarios := usuarios[k := v];
      r := Success(v);
    }

    /** `remove`: NotFound for an absent key; otherwise that account is gone and every
      * other account stays, in the same order. */
    method Remove(id: int) returns (r: Outcome<ErrorUsuarios>)
      requires Valid()
      modifies this
      ensures Valid() && nextId == old(nextId)
      ensures old(FindOne(id)).Failure? ==> r == Fail(NoEncontrado(id)) && usuarios == old(usuarios)
      ensures old(FindOne(id)).Success? ==>
        && r == Pass
        && (forall u :: u in usuarios <==> u in old(usuarios) && u.id != id)
        && |usuarios| == |old(usuarios)| - 1
    {
      var encontrado := FindOne(id);
      if encontrado.Failure? {
        r := Fail(encontrado.error);
        return;
      }
      var k := Buscar(usuarios, id).value;
      QuitarFila(usuarios, k);
      usuarios := usuarios[..k] + usuarios[k + 1..];
      r := Pass;
    }
  }
}
