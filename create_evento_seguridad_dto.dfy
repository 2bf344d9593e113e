/** Validation of a request body for a new security event
  * (src/eventos-seguridad/dto/create-evento-seguridad.dto.ts). */
module CreateEventoSeguridadDto {
  import opened Wrappers
  import opened Validacion
  import opened EventoSeguridadEntidad

  /** The JSON body as received. */
  datatype CuerpoEvento = CuerpoEvento(
    tipo: ValorJson, usuario_id: ValorJson, ip: ValorJson, user_agent: ValorJson, descripcion: ValorJson)

  /** The DTO after validation. */
  datatype CreateEventoSeguridadDto = CreateEventoSeguridadDto(
    tipo: TipoEvento, usuario_id: Option<int>, ip: string, user_agent: string, descripcion: string)

  const ValoresTipoEvento: set<string> := set t | t in TiposEvento :: Valor(t)

  /** The DTO's properties, the only names a rejection can list. */
  const NombresPropiedades: set<string> := {"tipo", "usuario_id", "ip", "user_agent", "descripcion"}

  /** Each property with the outcome of its decorators. */
  function Comprobaciones(c: CuerpoEvento): seq<(string, bool)>
  {
    [ ("tipo", EnEnum(c.tipo, ValoresTipoEvento)),
      ("usuario_id", Omitido(c.usuario_id) || EsNumero(c.usuario_id)),
      ("ip", EsTexto(c.ip) && NoVacio(c.ip)),
      ("user_agent", EsTexto(c.user_agent) && NoVacio(c.user_agent)),
      ("descripcion", EsTexto(c.descripcion) && NoVacio(c.descripcion)) ]
  }

  /** The validated DTO, or the names of the properties that fail validation. */
  function Validar(c: CuerpoEvento): (r: Result<CreateEventoSeguridadDto, seq<string>>)
    ensures r.Success? <==>
      && c.tipo.Texto? && DesdeValor(c.tipo.s).Some?
      && (c.usuario_id == Ausente || c.usuario_id == Nulo || c.usuario_id.Numero?)
      && c.ip.Texto? && c.ip.s != ""
      && c.user_agent.Texto? && c.user_agent.s != ""
      && c.descripcion.Texto? && c.descripcion.s != ""
    ensures r.Success? ==>
      && Valor(r.value.tipo) == c.tipo.s
      && (r.value.usuario_id.Some? <==> c.usuario_id.Numero?)
      && (r.value.usuario_id.Some? ==> r.value.usuario_id.value == c.usuario_id.n)
      && r.value.ip == c.ip.s && r.value.user_agent == c.user_agent.s
      && r.value.descripcion == c.descripcion.s
    ensures r.Failure? ==>
      && r.error != []
      && ("tipo" in r.error <==> !(c.tipo.Texto? && DesdeValor(c.tipo.s).Some?))
      && ("usuario_id" in r.error <==> !(c.usuario_id == Ausente || c.usuario_id == Nulo || c.usuario_id.Numero?))
      && ("ip" in r.error <==> !(c.ip.Texto? && c.ip.s != ""))
      && ("user_agent" in r.error <==> !(c.user_agent.Texto? && c.user_agent.s != ""))
      && ("descripcion" in r.error <==> !(c.descripcion.Texto? && c.descripcion.s != ""))
      && forall i :: 0 <= i < |r.error| ==> r.error[i] in NombresPropiedades
  {
    assert forall s :: s in ValoresTipoEvento <==> DesdeValor(s).Some? by {
      forall s ensures s in ValoresTipoEvento <==> DesdeValor(s).Some? {
        if DesdeValor(s).Some? {
          TiposCerrados(DesdeValor(s).value);
        }
      }
    }
    var cs := Comprobaciones(c);
    var errores := Violaciones(cs);
    assert errores == [] <==> cs[0].1 && cs[1].1 && cs[2].1 && cs[3].1 && cs[4].1;
    NombreEnViolaciones(cs, 0);
    NombreEnViolaciones(cs, 1);
    NombreEnViolaciones(cs, 2);
    NombreEnViolaciones(cs, 3);
    NombreEnViolaciones(cs, 4);
    forall k | 0 <= k < |errores|
      ensures errores[k] in NombresPropiedades
    {
      assert errores[k] in errores;
    }
    if errores != [] then Failure(errores)
    else
      Success(CreateEventoSeguridadDto(
        DesdeValor(c.tipo.s).value,
        if c.usuario_id.Numero? then Some(c.usuario_id.n) else None,
        c.ip.s, c.user_agent.s, c.descripcion.s))
  }
}
