/** Time as an integer number of milliseconds since the epoch, and the local-time
  * boundaries the services compute with `Date` (a zone at a fixed offset from UTC). */
module Reloj {

  const MsPorHora: int := 3_600_000
  const MsPorDia: int := 86_400_000

  /** Local midnight 00:00:00.000 of the day holding `ahora`, in a zone `desfase`
    * milliseconds ahead of UTC: `new Date(y, m, d)` or `setHours(0, 0, 0, 0)`. */
  function InicioDelDia(ahora: int, desfase: int): (r: int)
    ensures r <= ahora < r + MsPorDia
    ensures (r + desfase) % MsPorDia == 0
  {
    ahora - (ahora + desfase) % MsPorDia
  }

  /** Every instant of the day that starts at `InicioDelDia(ahora, desfase)` has that same start. */
  lemma MismoDia(ahora: int, otro: int, desfase: int)
    requires InicioDelDia(ahora, desfase) <= otro < InicioDelDia(ahora, desfase) + MsPorDia
    ensures InicioDelDia(otro, desfase) == InicioDelDia(ahora, desfase)
  {
    var a := InicioDelDia(ahora, desfase);
    var b := InicioDelDia(otro, desfase);
    assert (a + desfase) % MsPorDia == 0 && (b + desfase) % MsPorDia == 0;
    assert a - MsPorDia < b < a + MsPorDia;
    var qa := (a + desfase) / MsPorDia;
    var qb := (b + desfase) / MsPorDia;
    assert a + desfase == qa * MsPorDia;
    assert b + desfase == qb * MsPorDia;
    assert (qa - 1) * MsPorDia < qb * MsPorDia < (qa + 1) * MsPorDia;
    assert qa - 1 < qb < qa + 1;
  }

  /** `setHours(23, 59, 59, 999)`: the last millisecond of the day holding `ahora`. */
  function FinDelDia(ahora: int, desfase: int): (r: int)
    ensures InicioDelDia(ahora, desfase) <= ahora <= r
    ensures r + 1 == InicioDelDia(ahora, desfase) + MsPorDia
  {
    InicioDelDia(ahora, desfase) + MsPorDia - 1
  }

  /** The closed window from 00:00:00.000 to 23:59:59.999 holds exactly the instants of
    * the same local day, so consecutive days never share an instant. */
  lemma DiaCerrado(ahora: int, t: int, desfase: int)
    ensures InicioDelDia(ahora, desfase) <= t <= FinDelDia(ahora, desfase)
            <==> InicioDelDia(t, desfase) == InicioDelDia(ahora, desfase)
  {
    if InicioDelDia(ahora, desfase) <= t <= FinDelDia(ahora, desfase) {
      MismoDia(ahora, t, desfase);
    }
  }

  /** The next local midnight starts a day of its own. */
  lemma MedianocheSiguiente(ahora: int, desfase: int)
    ensures InicioDelDia(InicioDelDia(ahora, desfase) + MsPorDia, desfase) == InicioDelDia(ahora, desfase) + MsPorDia
  {
    var a := InicioDelDia(ahora, desfase);
    var q := (a + desfase) / MsPorDia;
    assert a + desfase == q * MsPorDia;
    assert a + MsPorDia + desfase == (q + 1) * MsPorDia;
    assert (a + MsPorDia + desfase) % MsPorDia == 0;
  }
}
