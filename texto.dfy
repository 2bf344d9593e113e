/** Decimal rendering of integers, as JavaScript's `Number.prototype.toString()` and
  * template literals (`${n}`) produce it for integral values, with its inverse. */
module Texto {

  function Digito(d: nat): (c: char)
    requires d < 10
    ensures '0' <= c <= '9'
  {
    "0123456789"[d]
  }

  function ValorDigito(c: char): nat
  {
    if '0' <= c <= '9' then (c as int - '0' as int) as nat else 0
  }

  lemma DigitoValor(d: nat)
    requires d < 10
    ensures ValorDigito(Digito(d)) == d
  {
  }

  /** Decimal digits of `n`, most significant first, without leading zeros. */
  function NaturalTexto(n: nat): (r: string)
    ensures |r| >= 1
    ensures forall i :: 0 <= i < |r| ==> '0' <= r[i] <= '9'
  {
    if n < 10 then [Digito(n)] else NaturalTexto(n / 10) + [Digito(n % 10)]
  }

  /** `${n}` for an integral `n`. */
  function NumeroTexto(n: int): (r: string)
  {
    if n < 0 then "-" + NaturalTexto(-n) else NaturalTexto(n)
  }

  /** Reads a string of decimal digits back into its value. */
  function LeerNatural(s: string): nat
  {
    if s == [] then 0 else LeerNatural(s[..|s| - 1]) * 10 + ValorDigito(s[|s| - 1])
  }

  function Pot10(k: nat): (p: nat)
    ensures p >= 1
  {
    if k == 0 then 1 else 10 * Pot10(k - 1)
  }

  /** Rendering then reading gives the number back, so the rendering is injective. */
  lemma {:induction false} LeerNaturalTexto(n: nat)
    ensures LeerNatural(NaturalTexto(n)) == n
  {
    var r := NaturalTexto(n);
    if n < 10 {
      DigitoValor(n);
      assert r[..|r| - 1] == [];
    } else {
      assert r[..|r| - 1] == NaturalTexto(n / 10);
      LeerNaturalTexto(n / 10);
      DigitoValor(n % 10);
    }
  }

  lemma NaturalTextoInyectivo(a: nat, b: nat)
    requires NaturalTexto(a) == NaturalTexto(b)
    ensures a == b
  {
    LeerNaturalTexto(a);
    LeerNaturalTexto(b);
  }

  /** A number with k + 1 digits renders as k + 1 characters. */
  lemma {:induction false} LongitudTexto(n: nat, k: nat)
    requires Pot10(k) <= n < Pot10(k + 1)
    ensures |NaturalTexto(n)| == k + 1
  {
    if k > 0 {
      assert Pot10(k) == 10 * Pot10(k - 1);
      assert Pot10(k - 1) <= n / 10 < Pot10(k);
      LongitudTexto(n / 10, k - 1);
    }
  }

  /** A positive number never renders with a leading zero. */
  lemma {:induction false} SinCeroInicial(n: nat)
    requires n >= 1
    ensures NaturalTexto(n)[0] != '0'
  {
    if n >= 10 {
      SinCeroInicial(n / 10);
    }
  }

  /** Only negative numbers render with a leading minus sign, followed by their magnitude. */
  lemma NumeroTextoSigno(n: int)
    ensures n < 0 ==> NumeroTexto(n)[0] == '-' && NumeroTexto(n)[1..] == NaturalTexto(-n)
    ensures n >= 0 ==> NumeroTexto(n) == NaturalTexto(n) && NumeroTexto(n)[0] != '-'
  {
  }

  /** Distinct integers render to distinct text. */
  lemma NumeroTextoInyectivo(a: int, b: int)
    requires NumeroTexto(a) == NumeroTexto(b)
    ensures a == b
  {
    NumeroTextoSigno(a);
    NumeroTextoSigno(b);
    if a < 0 {
      NaturalTextoInyectivo(-a, -b);
    } else {
      NaturalTextoInyectivo(a, b);
    }
  }

  /** Text that differs only between a common prefix and a common suffix differs there. */
  lemma QuitarMarco(p: string, x: string, y: string, s: string)
    requires p + x + s == p + y + s
    ensures x == y
  {
    assert |x| == |y|;
    assert x == (p + x + s)[|p|..|p| + |x|];
    assert y == (p + y + s)[|p|..|p| + |y|];
  }
}
