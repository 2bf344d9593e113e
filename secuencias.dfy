/** Sequence operations that the services perform through the database or through
  * `Array.prototype` methods: WHERE filters, `ORDER BY ... DESC`, `take`, and the
  * first-occurrence key order of a JavaScript `Map`. */
module Secuencias {

  /** The elements of `s` that satisfy `p`, in their original order. */
  function Filtrar<T(!new)>(s: seq<T>, p: T -> bool): (r: seq<T>)
    ensures |r| <= |s|
  {
    if s == [] then []
    else
      var x := s[|s| - 1];
      Filtrar(s[..|s| - 1], p) + (if p(x) then [x] else [])
  }

  /** `Filtrar` keeps exactly the elements that satisfy `p`, each as often as in `s`. */
  lemma {:induction false} FiltrarContenido<T(!new)>(s: seq<T>, p: T -> bool)
    ensures forall i :: 0 <= i < |Filtrar(s, p)| ==> p(Filtrar(s, p)[i])
    ensures forall x :: multiset(Filtrar(s, p))[x] == if p(x) then multiset(s)[x] else 0
    ensures forall x :: x in Filtrar(s, p) <==> x in s && p(x)
  {
    if s != [] {
      var init, x := s[..|s| - 1], s[|s| - 1];
      FiltrarContenido(init, p);
      assert s == init + [x];
      assert multiset(s) == multiset(init) + multiset{x};
    }
  }

  /** Appending one element appends it to the filtered sequence exactly when it satisfies `p`. */
  lemma FiltrarAgregar<T(!new)>(s: seq<T>, x: T, p: T -> bool)
    ensures Filtrar(s + [x], p) == Filtrar(s, p) + (if p(x) then [x] else [])
  {
    assert (s + [x])[..|s|] == s;
  }

  /** Non-increasing order of `clave`: the order of `ORDER BY clave DESC`. */
  ghost predicate OrdenadoDesc<T>(s: seq<T>, clave: T -> int)
  {
    forall i, j :: 0 <= i < j < |s| ==> clave(s[i]) >= clave(s[j])
  }

  /** Prepending an element no smaller than the head keeps the order. */
  lemma Anteponer<T>(y: T, t: seq<T>, clave: T -> int)
    requires OrdenadoDesc(t, clave)
    requires t != [] ==> clave(y) >= clave(t[0])
    ensures OrdenadoDesc([y] + t, clave)
  {
    var r := [y] + t;
    forall i, j | 0 <= i < j < |r|
      ensures clave(r[i]) >= clave(r[j])
    {
      if i == 0 {
        assert r[j] == t[j - 1];
        assert clave(t[0]) >= clave(t[j - 1]);
      } else {
        assert r[i] == t[i - 1] && r[j] == t[j - 1];
      }
    }
  }

  /** Inserts `x` into a sequence already in non-increasing order of `clave`, before the
    * first element whose key is not greater than its own. */
  function Insertar<T>(x: T, s: seq<T>, clave: T -> int): (r: seq<T>)
    requires OrdenadoDesc(s, clave)
    ensures OrdenadoDesc(r, clave)
    ensures multiset(r) == multiset(s) + multiset{x}
    ensures |r| == |s| + 1
    ensures r[0] == x || (s != [] && r[0] == s[0])
  {
    if s == [] || clave(x) >= clave(s[0]) then
      Anteponer(x, s, clave);
      [x] + s
    else
      var rest := Insertar(x, s[1..], clave);
      assert s == [s[0]] + s[1..];
      assert |s| > 1 ==> clave(s[0]) >= clave(s[1]);
      Anteponer(s[0], rest, clave);
      [s[0]] + rest
  }

  /** Insertion sort into non-increasing order of `clave`; equal keys keep their order. */
  function OrdenarDesc<T>(s: seq<T>, clave: T -> int): (r: seq<T>)
    ensures OrdenadoDesc(r, clave)
    ensures multiset(r) == multiset(s)
    ensures |r| == |s|
  {
    if s == [] then []
    else
      assert s == [s[0]] + s[1..];
      Insertar(s[0], OrdenarDesc(s[1..], clave), clave)
  }

  /** The first `n` elements (TypeORM `take: n`). */
  function Tomar<T>(s: seq<T>, n: nat): (r: seq<T>)
    ensures |r| == if |s| < n then |s| else n
    ensures forall i :: 0 <= i < |r| ==> r[i] == s[i]
  {
    if |s| < n then s else s[..n]
  }

  /** A prefix holds each element at most as often as the whole sequence. */
  lemma TomarSubmultiset<T>(s: seq<T>, n: nat)
    ensures multiset(Tomar(s, n)) <= multiset(s)
  {
    var r := Tomar(s, n);
    assert s == r + s[|r|..];
    assert multiset(s) == multiset(r) + multiset(s[|r|..]);
  }

  /** An element of a sequence sorted newest first that the prefix leaves out comes after a
    * full prefix, and no element of the prefix has a smaller key. */
  lemma OmitidoDeTomar<T>(s: seq<T>, n: nat, x: T, clave: T -> int)
    requires OrdenadoDesc(s, clave) && x in s && x !in Tomar(s, n)
    ensures |Tomar(s, n)| == n
    ensures forall i :: 0 <= i < n ==> clave(x) <= clave(Tomar(s, n)[i])
  {
    var r := Tomar(s, n);
    var j :| 0 <= j < |s| && s[j] == x;
    assert j >= |r| by {
      assert forall k :: 0 <= k < |r| ==> r[k] != x;
    }
    forall i | 0 <= i < n
      ensures clave(x) <= clave(r[i])
    {
      assert r[i] == s[i];
    }
  }

  /** The distinct elements of `s` in order of first occurrence: the key order
    * `Array.from(m.keys())` gives for a `Map` filled by `m.set(s[i], ...)` for i = 0, 1, ... */
  function Distintos<T(==,!new)>(s: seq<T>): (r: seq<T>)
    ensures forall x :: x in r <==> x in s
    ensures forall i, j :: 0 <= i < j < |r| ==> r[i] != r[j]
  {
    if s == [] then []
    else
      var d := Distintos(s[..|s| - 1]);
      assert s == s[..|s| - 1] + [s[|s| - 1]];
      if s[|s| - 1] in d then d else d + [s[|s| - 1]]
  }

  /** Appending an element adds it to the distinct elements unless it is already there. */
  lemma DistintosAgregar<T(!new)>(s: seq<T>, x: T)
    ensures Distintos(s + [x]) == if x in s then Distintos(s) else Distintos(s) + [x]
  {
    assert (s + [x])[..|s|] == s;
  }

  /** The sum of the multiplicities in `m` of the keys `ks`. */
  function SumaConteos<T>(ks: seq<T>, m: multiset<T>): nat
  {
    if ks == [] then 0 else SumaConteos(ks[..|ks| - 1], m) + m[ks[|ks| - 1]]
  }

  /** Adding one occurrence of `x` to `m` adds one to the sum exactly when `x` is a key. */
  lemma {:induction false} SumaConteosAgregar<T>(ks: seq<T>, m: multiset<T>, x: T)
    requires forall i, j :: 0 <= i < j < |ks| ==> ks[i] != ks[j]
    ensures SumaConteos(ks, m + multiset{x}) == SumaConteos(ks, m) + (if x in ks then 1 else 0)
  {
    if ks != [] {
      var init := ks[..|ks| - 1];
      assert ks == init + [ks[|ks| - 1]];
      SumaConteosAgregar(init, m, x);
    }
  }

  /** The multiplicities of the distinct elements of `s` add up to the length of `s`. */
  lemma {:induction false} SumaConteosDistintos<T(!new)>(s: seq<T>)
    ensures SumaConteos(Distintos(s), multiset(s)) == |s|
  {
    if s != [] {
      var init := s[..|s| - 1];
      var x := s[|s| - 1];
      assert s == init + [x];
      assert multiset(s) == multiset(init) + multiset{x};
      var d := Distintos(init);
      SumaConteosDistintos(init);
      SumaConteosAgregar(d, multiset(init), x);
      if x !in d {
        var d' := d + [x];
        assert d'[..|d'| - 1] == d;
        assert x !in init;
        assert multiset(init)[x] == 0;
      }
    }
  }
}
