/** The class-validator decorators the request DTOs use, as predicates on one property
  * of a parsed JSON body. */
module Validacion {

  /** A property of a JSON request body; `Ausente` is a missing key (`undefined`). */
  datatype ValorJson = Ausente | Nulo | Texto(s: string) | Numero(n: int) | Booleano(b: bool)

  /** `@IsOptional()`: a null or undefined property skips every other validator. */
  predicate Omitido(v: ValorJson)
  {
    v == Ausente || v == Nulo
  }

  /** `@IsString()` */
  predicate EsTexto(v: ValorJson)
  {
    v.Texto?
  }

  /** `@IsNotEmpty()`: not `''`, not `null`, not `undefined`. */
  predicate NoVacio(v: ValorJson)
  {
    v != Texto("") && v != Nulo && v != Ausente
  }

  /** `@IsNumber()` */
  predicate EsNumero(v: ValorJson)
  {
    v.Numero?
  }

  /** `@MinLength(n)`: a string of at least `n` characters. */
  predicate LongitudMinima(v: ValorJson, n: nat)
  {
    v.Texto? && |v.s| >= n
  }

  /** `@IsEnum(E)`: one of the string values of the enumeration. */
  predicate EnEnum(v: ValorJson, valores: set<string>)
  {
    v.Texto? && v.s in valores
  }

  /** The names of the properties whose check failed, in declaration order: the
    * properties a `ValidationPipe` lists in its 400 response. */
  function Violaciones(checks: seq<(string, bool)>): (r: seq<string>)
    ensures forall n :: n in r <==> exists i :: 0 <= i < |checks| && checks[i].0 == n && !checks[i].1
    ensures r == [] <==> forall i :: 0 <= i < |checks| ==> checks[i].1
  {
    if checks == [] then []
    else
      var rest := Violaciones(checks[1..]);
      assert forall i :: 1 <= i < |checks| ==> checks[i] == checks[1..][i - 1];
      assert forall i :: 0 <= i < |checks| - 1 ==> checks[1..][i] == checks[i + 1];
      (if checks[0].1 then [] else [checks[0].0]) + rest
  }

  /** When a property's name is used by one check only, it is listed exactly when that
    * check fails. */
  lemma NombreEnViolaciones(checks: seq<(string, bool)>, i: nat)
    requires i < |checks|
    requires forall j :: 0 <= j < |checks| && checks[j].0 == checks[i].0 ==> j == i
    ensures checks[i].0 in Violaciones(checks) <==> !checks[i].1
  {
  }
}
