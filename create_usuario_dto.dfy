/** Validation of a request body for a new account (src/usuarios/dto/create-usuario.dto.ts). */
module CreateUsuarioDto {
  import opened Wrappers
  import opened Validacion

  datatype CuerpoUsuario = CuerpoUsuario(username: ValorJson, password: ValorJson, rol: ValorJson)

  datatype CreateUsuarioDto = CreateUsuarioDto(username: string, password: string, rol: Option<string>)

  const LongitudMinimaPassword: nat := 6

  function Comprobaciones(c: CuerpoUsuario): seq<(string, bool)>
  {
    [ ("username", EsTexto(c.username) && NoVacio(c.username)),
      ("password", EsTexto(c.password) && NoVacio(c.password) && LongitudMinima(c.password, LongitudMinimaPassword)),
      ("rol", Omitido(c.rol) || EsTexto(c.rol)) ]
  }

  /** The validated DTO, or the names of the properties that fail validation. */
  function Validar(c: CuerpoUsuario): (r: Result<CreateUsuarioDto, seq<string>>)
    ensures r.Success? <==>
      && c.username.Texto? && c.username.s != ""
      && c.password.Texto? && |c.password.s| >= 6
      && (c.rol == Ausente || c.rol == Nulo || c.rol.Texto?)
    ensures r.Success? ==>
      && r.value.username == c.username.s && r.value.password == c.password.s
      && (r.value.rol.Some? <==> c.rol.Texto?)
      && (r.value.rol.Some? ==> r.value.rol.value == c.rol.s)
    ensures r.Failure? ==>
      && r.error != []
      && ("username" in r.error <==> !(c.username.Texto? && c.username.s != ""))
      && ("password" in r.error <==> !(c.password.Texto? && |c.password.s| >= 6))
      && ("rol" in r.error <==> !(c.rol == Ausente || c.rol == Nulo || c.rol.Texto?))
      && forall i :: 0 <= i < |r.error| ==> r.error[i] == "username" || r.error[i] == "password" || r.error[i] == "rol"
  {
    var cs := Comprobaciones(c);
    var errores := Violaciones(cs);
    assert errores == [] <==> cs[0].1 && cs[1].1 && cs[2].1;
    NombreEnViolaciones(cs, 0);
    NombreEnViolaciones(cs, 1);
    NombreEnViolaciones(cs, 2);
    forall k | 0 <= k < |errores|
      ensures errores[k] == "username" || errores[k] == "password" || errores[k] == "rol"
    {
      assert errores[k] in errores;
    }
    if errores != [] then Failure(errores)
    else Success(CreateUsuarioDto(c.username.s, c.password.s, if c.rol.Texto? then Some(c.rol.s) else None))
  }

  /** The boundary of `@MinLength(6)`: five characters are refused, six accepted. */
  lemma LimitePassword()
    ensures Validar(CuerpoUsuario(Texto("ana"), Texto("12345"), Ausente)).Failure?
    ensures Validar(CuerpoUsuario(Texto("ana"), Texto("123456"), Ausente)).Success?
  {
  }

  /** `rol` may be left out, but when present it must be a string. */
  lemma RolOpcional(u: string, p: string)
    requires u != "" && |p| >= 6
    ensures Validar(CuerpoUsuario(Texto(u), Texto(p), Ausente)) == Success(CreateUsuarioDto(u, p, None))
    ensures Validar(CuerpoUsuario(Texto(u), Texto(p), Numero(1))) == Failure(["rol"])
  {
    var cs := Comprobaciones(CuerpoUsuario(Texto(u), Texto(p), Numero(1)));
    assert cs == [("username", true), ("password", true), ("rol", false)];
    assert Violaciones(cs[2..]) == ["rol"];
    assert Violaciones(cs[1..]) == ["rol"];
  }
}
