/**
 * The day's ticket pool (the `Cola` document): the numbers still to hand out,
 * the history of numbers handed out since the last reset, and the wrap at 100.
 */
module ColaModel {
  import opened Wrappers
  import Format

  /** The pool's ceiling: handing it out starts the pool over. */
  const Techo: int := 100

  /** Error thrown by `asignarTurno` when there is nothing to hand out. */
  const MsgSinTurnos: string := "No hay más turnos disponibles"

  /** A calendar day, the pool's `fecha` key (midnight of the date); opaque. */
  datatype Dia = Dia(clave: int)

  /** A point in time (`new Date()`); opaque: it is stored, never computed with. */
  datatype Instante = Instante(marca: int)

  /** One entry of `turnosLlamados`. */
  datatype Llamado = Llamado(numero: int, ventanilla: int, timestamp: Instante)

  /** A stored pool document. */
  datatype ColaDoc = ColaDoc(
    fecha: Dia,
    turnoActual: int,
    turnosDisponibles: seq<int>,
    turnosLlamados: seq<Llamado>,
    resetAt: Instante)

  /** What `asignarTurno` returns when it hands out a number. */
  datatype Asignacion = Asignacion(numero: string, turno: int, esUltimo: bool)

  /** The pool document after an `asignarTurno`, with what the call returned or threw. */
  datatype Paso = Paso(cola: ColaDoc, resultado: Result<Asignacion, string>)

  /** `lo, lo + 1, ..., hi`. */
  function Rango(lo: int, hi: int): (s: seq<int>)
    ensures |s| == if lo <= hi then hi - lo + 1 else 0
    ensures forall i :: 0 <= i < |s| ==> s[i] == lo + i
  {
    if lo <= hi then seq(hi - lo + 1, i => lo + i) else []
  }

  /** `Array.from({ length: 100 }, (_, i) => i + 1)`. */
  function TurnosIniciales(): (s: seq<int>)
    ensures |s| == Techo && forall i :: 0 <= i < |s| ==> s[i] == i + 1
  {
    Rango(1, Techo)
  }

  /** The pool `obtenerColaHoy` creates for a day that has none; `resetAt` takes its default, the creation time. */
  function Nueva(hoy: Dia, ahora: Instante): (c: ColaDoc)
    ensures Inicial(c) && c.fecha == hoy && c.resetAt == ahora
  {
    ColaDoc(hoy, 0, TurnosIniciales(), [], ahora)
  }

  /** The state a reset restores, whatever `fecha` and `resetAt` are. */
  predicate Inicial(c: ColaDoc) {
    c.turnoActual == 0 && c.turnosDisponibles == TurnosIniciales() && c.turnosLlamados == []
  }

  /** `obtenerSiguiente`: the head of the available list, or null. */
  function Siguiente(c: ColaDoc): (r: Option<int>)
    ensures r.Some? ==> r.value in c.turnosDisponibles
  {
    if |c.turnosDisponibles| == 0 then None else Some(c.turnosDisponibles[0])
  }

  /** `resetear`: every field but `fecha` overwritten. */
  function TrasResetear(c: ColaDoc, ahora: Instante): (r: ColaDoc)
    ensures Inicial(r) && r.fecha == c.fecha && r.resetAt == ahora
  {
    c.(turnoActual := 0, turnosDisponibles := TurnosIniciales(), turnosLlamados := [], resetAt := ahora)
  }

  /**
   * `asignarTurno(ventanilla)`: shift the head off; if it is missing or 0 (a falsy
   * value) throw, keeping the shift; otherwise record it, make it current, and
   * when it is the ceiling reinitialise the whole pool.
   */
  function TrasAsignar(c: ColaDoc, ventanilla: int, ahora: Instante): (p: Paso)
    ensures p.cola.fecha == c.fecha
    ensures p.resultado.Ok? <==> c.turnosDisponibles != [] && c.turnosDisponibles[0] != 0
    ensures p.resultado.Ok? ==> p.resultado.value.turno == c.turnosDisponibles[0]
  {
    if |c.turnosDisponibles| == 0 then
      Paso(c, Err(MsgSinTurnos))
    else
      var siguiente := c.turnosDisponibles[0];
      var resto := c.(turnosDisponibles := c.turnosDisponibles[1..]);
      if siguiente == 0 then
        Paso(resto, Err(MsgSinTurnos))
      else
        var asignacion := Asignacion(Format.FormatearTurno(siguiente), siguiente, siguiente == Techo);
        if siguiente == Techo then
          Paso(TrasResetear(c, ahora), Ok(asignacion))
        else
          Paso(resto.(turnosLlamados := c.turnosLlamados + [Llamado(siguiente, ventanilla, ahora)],
                      turnoActual := siguiente),
               Ok(asignacion))
  }

  // ----- The invariant -----

  predicate EstrictamenteCreciente(s: seq<int>) {
    forall i, j :: 0 <= i < j < |s| ==> s[i] < s[j]
  }

  function Disponibles(c: ColaDoc): set<int> {
    set n | n in c.turnosDisponibles
  }

  function NumerosLlamados(c: ColaDoc): set<int> {
    set e | e in c.turnosLlamados :: e.numero
  }

  /** The numbers `1..100`. */
  function Todos(): set<int> {
    set n | n in TurnosIniciales()
  }

  /**
   * The pool's invariant: the available list is strictly ascending, and it and
   * the numbers called since the last reset split `{1..100}` between them.
   */
  predicate Particion(c: ColaDoc) {
    && EstrictamenteCreciente(c.turnosDisponibles)
    && Disponibles(c) !! NumerosLlamados(c)
    && Disponibles(c) + NumerosLlamados(c) == Todos()
  }

  /**
   * The shape of every pool reachable from a fresh one by `asignarTurno` and
   * `resetear`: the first `k` tickets were called in order and `k+1..100` wait.
   */
  predicate Canonica(c: ColaDoc) {
    var k := |c.turnosLlamados|;
    && k < Techo
    && c.turnoActual == k
    && c.turnosDisponibles == Rango(k + 1, Techo)
    && forall i :: 0 <= i < k ==> c.turnosLlamados[i].numero == i + 1
  }

  // ----- Lemmas -----

  /** A fresh pool has `[1..100]` ascending, current ticket 0 and no history. */
  lemma NuevaEsInicial(hoy: Dia, ahora: Instante)
    ensures Inicial(Nueva(hoy, ahora)) && Nueva(hoy, ahora).fecha == hoy
    ensures |Nueva(hoy, ahora).turnosDisponibles| == Techo
    ensures EstrictamenteCreciente(Nueva(hoy, ahora).turnosDisponibles)
    ensures Siguiente(Nueva(hoy, ahora)) == Some(1)
  {
  }

  lemma InicialEsCanonica(c: ColaDoc)
    requires Inicial(c)
    ensures Canonica(c)
  {
  }

  /** `resetear` yields the initial state from any state, keeps the date, and doing it twice is doing it once. */
  lemma ResetearDaInicial(c: ColaDoc, t1: Instante, t2: Instante)
    ensures Inicial(TrasResetear(c, t1)) && TrasResetear(c, t1).fecha == c.fecha
    ensures TrasResetear(c, t1).resetAt == t1
    ensures TrasResetear(TrasResetear(c, t1), t1) == TrasResetear(c, t1)
    ensures TrasResetear(TrasResetear(c, t1), t2) == TrasResetear(c, t2)
  {
  }

  /** `obtenerSiguiente` is null exactly on an empty list, and otherwise the head. */
  lemma SiguienteEsCabeza(c: ColaDoc)
    ensures Siguiente(c).None? <==> c.turnosDisponibles == []
    ensures Siguiente(c).Some? ==> Siguiente(c).value == c.turnosDisponibles[0]
  {
  }

  /**
   * What a single `asignarTurno` does, case by case: on an empty list it throws and
   * changes nothing; otherwise exactly the head is removed; a number other than 0
   * comes back padded and is recorded once; ticket 100 leaves the pool initial.
   */
  lemma AsignarCasos(c: ColaDoc, ventanilla: int, ahora: Instante)
    ensures var p := TrasAsignar(c, ventanilla, ahora);
      && p.cola.fecha == c.fecha
      && (c.turnosDisponibles == [] ==> p == Paso(c, Err(MsgSinTurnos)))
      && (c.turnosDisponibles != [] && c.turnosDisponibles[0] == 0 ==>
            p.resultado == Err(MsgSinTurnos) && p.cola == c.(turnosDisponibles := c.turnosDisponibles[1..]))
      && (c.turnosDisponibles != [] && c.turnosDisponibles[0] != 0 ==>
            var n := c.turnosDisponibles[0];
            && p.resultado == Ok(Asignacion(Format.FormatearTurno(n), n, n == Techo))
            && (n != Techo ==>
                  && p.cola.turnosDisponibles == c.turnosDisponibles[1..]
                  && p.cola.turnosLlamados == c.turnosLlamados + [Llamado(n, ventanilla, ahora)]
                  && p.cola.turnoActual == n
                  && p.cola.resetAt == c.resetAt)
            && (n == Techo ==> Inicial(p.cola) && p.cola.resetAt == ahora))
  {
  }

  /** `esUltimo` is set exactly for ticket 100, and the call after it hands out 1. */
  lemma TrasElUltimoVieneElUno(c: ColaDoc, v1: int, t1: Instante, v2: int, t2: Instante)
    requires TrasAsignar(c, v1, t1).resultado.Ok?
    ensures var a := TrasAsignar(c, v1, t1).resultado.value; a.esUltimo <==> a.turno == Techo
    ensures TrasAsignar(c, v1, t1).resultado.value.esUltimo ==>
              TrasAsignar(TrasAsignar(c, v1, t1).cola, v2, t2).resultado == Ok(Asignacion("001", 1, false))
  {
    var p := TrasAsignar(c, v1, t1);
    if p.resultado.value.esUltimo {
      assert p.cola == TrasResetear(c, t1);
      assert p.cola.turnosDisponibles[0] == 1;
      Format.FormatoDelUno();
      assert TrasAsignar(p.cola, v2, t2).resultado == Ok(Asignacion(Format.FormatearTurno(1), 1, false));
    }
  }

  lemma RangoCola(lo: int, hi: int)
    requires lo <= hi
    ensures Rango(lo, hi)[1..] == Rango(lo + 1, hi)
  {
  }

  /**
   * From a reachable pool holding `k` calls, `asignarTurno` hands out `k + 1` and
   * the pool stays reachable, now holding `(k + 1) % 100` calls.
   */
  lemma AsignarDesdeCanonica(c: ColaDoc, ventanilla: int, ahora: Instante)
    requires Canonica(c)
    ensures var k := |c.turnosLlamados|; var p := TrasAsignar(c, ventanilla, ahora);
      && p.resultado == Ok(Asignacion(Format.FormatearTurno(k + 1), k + 1, k + 1 == Techo))
      && Canonica(p.cola)
      && |p.cola.turnosLlamados| == if k + 1 == Techo then 0 else k + 1
  {
    var k := |c.turnosLlamados|;
    assert c.turnosDisponibles[0] == k + 1;
    if k + 1 < Techo {
      AsignarBajoElTecho(c, ventanilla, ahora);
    } else {
      InicialEsCanonica(TrasAsignar(c, ventanilla, ahora).cola);
    }
  }

  /** The ordinary step of `AsignarDesdeCanonica`: below 100, ticket `k + 1` moves from the list to the history. */
  lemma AsignarBajoElTecho(c: ColaDoc, ventanilla: int, ahora: Instante)
    requires Canonica(c) && |c.turnosLlamados| + 1 < Techo
    ensures Canonica(TrasAsignar(c, ventanilla, ahora).cola)
  {
    var k := |c.turnosLlamados|;
    assert c.turnosDisponibles[0] == k + 1;
    RangoCola(k + 1, Techo);
    var h := TrasAsignar(c, ventanilla, ahora).cola.turnosLlamados;
    assert h == c.turnosLlamados + [Llamado(k + 1, ventanilla, ahora)];
    forall i | 0 <= i < k + 1 ensures h[i].numero == i + 1 {
      if i < k { assert h[i] == c.turnosLlamados[i]; }
    }
  }

  /** Every reachable pool has a next ticket, and it is not 0: the "no tickets" branch never fires. */
  lemma CanonicaTieneSiguiente(c: ColaDoc)
    requires Canonica(c)
    ensures Siguiente(c) == Some(|c.turnosLlamados| + 1)
  {
  }

  /** Reachable pools satisfy the partition invariant. */
  lemma CanonicaImplicaParticion(c: ColaDoc)
    requires Canonica(c)
    ensures Particion(c)
  {
    var k := |c.turnosLlamados|;
    var d := c.turnosDisponibles;
    forall x: int ensures x in Disponibles(c) <==> k + 1 <= x <= Techo {
      if k + 1 <= x <= Techo { assert d[x - k - 1] == x; }
    }
    forall x: int ensures x in NumerosLlamados(c) <==> 1 <= x <= k {
      if 1 <= x <= k {
        assert c.turnosLlamados[x - 1].numero == x;
      }
      if x in NumerosLlamados(c) {
        var e :| e in c.turnosLlamados && e.numero == x;
        var i :| 0 <= i < k && c.turnosLlamados[i] == e;
      }
    }
    forall x: int ensures x in Todos() <==> 1 <= x <= Techo {
      if 1 <= x <= Techo { assert TurnosIniciales()[x - 1] == x; }
    }
    assert Disponibles(c) + NumerosLlamados(c) == Todos();
  }

  /** The partition invariant holds of the initial state and is kept by `resetear`. */
  lemma ResetearPreservaParticion(c: ColaDoc, ahora: Instante)
    ensures Particion(TrasResetear(c, ahora))
  {
    InicialEsCanonica(TrasResetear(c, ahora));
    CanonicaImplicaParticion(TrasResetear(c, ahora));
  }

  /** Removing the head `n` of a strictly ascending list removes exactly `n` from its elements. */
  lemma QuitarCabeza(d: seq<int>)
    requires d != [] && EstrictamenteCreciente(d)
    ensures EstrictamenteCreciente(d[1..])
    ensures forall x :: x in d[1..] <==> x in d && x != d[0]
  {
    forall x | x in d[1..] ensures x != d[0] {
      var j :| 1 <= j < |d| && d[j] == x;
    }
    forall x | x in d && x != d[0] ensures x in d[1..] {
      var j :| 0 <= j < |d| && d[j] == x;
      assert d[1..][j - 1] == x;
    }
  }

  /** The partition invariant is kept by `asignarTurno`, whichever branch it takes. */
  lemma AsignarPreservaParticion(c: ColaDoc, ventanilla: int, ahora: Instante)
    requires Particion(c)
    ensures Particion(TrasAsignar(c, ventanilla, ahora).cola)
    ensures TrasAsignar(c, ventanilla, ahora).resultado.Ok? <==> c.turnosDisponibles != []
  {
    var d := c.turnosDisponibles;
    if d != [] {
      var n := d[0];
      assert n in Disponibles(c);
      assert n in Todos();
      if n == Techo {
        ResetearPreservaParticion(c, ahora);
      } else {
        var c' := TrasAsignar(c, ventanilla, ahora).cola;
        var e := Llamado(n, ventanilla, ahora);
        assert c'.turnosDisponibles == d[1..];
        assert c'.turnosLlamados == c.turnosLlamados + [e];
        QuitarCabeza(d);
        forall x: int ensures x in Disponibles(c') <==> x in Disponibles(c) && x != n {
        }
        forall x: int ensures x in NumerosLlamados(c') <==> x in NumerosLlamados(c) || x == n {
          if x in NumerosLlamados(c') {
            var f :| f in c'.turnosLlamados && f.numero == x;
            if f !in c.turnosLlamados { assert f == e; }
          }
          if x == n { assert e in c'.turnosLlamados; }
          if x in NumerosLlamados(c) {
            var f :| f in c.turnosLlamados && f.numero == x;
            assert f in c'.turnosLlamados;
          }
        }
        assert Disponibles(c') + NumerosLlamados(c') == Todos();
        assert Disponibles(c') !! NumerosLlamados(c');
      }
    }
  }

  /**
   * Runs `asignarTurno` once per (window, instant) in `llamadas` and collects the
   * raw ticket numbers it hands out; a call that throws hands out nothing.
   */
  function Secuencia(c: ColaDoc, llamadas: seq<(int, Instante)>): seq<int>
    decreases |llamadas|
  {
    if llamadas == [] then []
    else
      var p := TrasAsignar(c, llamadas[0].0, llamadas[0].1);
      (if p.resultado.Ok? then [p.resultado.value.turno] else []) + Secuencia(p.cola, llamadas[1..])
  }

  /** `(k + i) % 100 + 1` for `i` in `0..n-1`: counting up from `k + 1`, with 100 followed by 1. */
  function Contando(k: int, n: nat): (s: seq<int>) {
    seq(n, i => (k + i) % Techo + 1)
  }

  /**
   * From a reachable pool holding `k` calls, the i-th of any run of calls hands
   * out `(k + i) % 100 + 1`: none fails, numbers come in ascending order, and
   * 100 is followed by 1.
   */
  lemma {:induction false} SecuenciaDesdeCanonica(c: ColaDoc, llamadas: seq<(int, Instante)>)
    requires Canonica(c)
    ensures Secuencia(c, llamadas) == Contando(|c.turnosLlamados|, |llamadas|)
    decreases |llamadas|
  {
    if llamadas != [] {
      var k := |c.turnosLlamados|;
      var p := TrasAsignar(c, llamadas[0].0, llamadas[0].1);
      AsignarDesdeCanonica(c, llamadas[0].0, llamadas[0].1);
      var q := p.cola;
      var resto := llamadas[1..];
      assert Secuencia(c, llamadas) == [k + 1] + Secuencia(q, resto);
      SecuenciaDesdeCanonica(q, resto);
      ContandoPaso(k, |llamadas|);
    }
  }

  lemma ContandoPaso(k: nat, n: nat)
    requires k < Techo && n > 0
    ensures Contando(k, n) == [k + 1] + Contando(if k + 1 == Techo then 0 else k + 1, n - 1)
  {
    var s := [k + 1] + Contando(if k + 1 == Techo then 0 else k + 1, n - 1);
    forall i | 0 <= i < n ensures Contando(k, n)[i] == s[i] {
      if i > 0 {
        SumaModular(k, i);
      }
    }
  }

  lemma SumaModular(k: nat, i: nat)
    requires k < Techo && i > 0
    ensures ((if k + 1 == Techo then 0 else k + 1) + (i - 1)) % Techo == (k + i) % Techo
  {
    if k + 1 == Techo {
      assert k + i == (i - 1) + Techo;
    }
  }

  /** After a reset or on a fresh pool, the k-th call (counting from 1) hands out `(k - 1) % 100 + 1`. */
  lemma KesimoTurnoTrasReset(c: ColaDoc, llamadas: seq<(int, Instante)>, k: nat)
    requires Inicial(c)
    requires 1 <= k <= |llamadas|
    ensures |Secuencia(c, llamadas)| == |llamadas|
    ensures Secuencia(c, llamadas)[k - 1] == (k - 1) % Techo + 1
    ensures k <= Techo ==> Secuencia(c, llamadas)[k - 1] == k
  {
    InicialEsCanonica(c);
    SecuenciaDesdeCanonica(c, llamadas);
    var s := Secuencia(c, llamadas);
    assert |c.turnosLlamados| == 0;
    assert s == Contando(0, |llamadas|);
    assert s[k - 1] == (k - 1) % Techo + 1;
    if k <= Techo {
      assert (k - 1) % Techo == k - 1;
    }
  }

  /**
   * A pool document loaded into an object, as `findOne`/`create` return it;
   * its methods change the fields in place and the owner saves `Doc()` back.
   */
  class Cola {
    var fecha: Dia
    var turnoActual: int
    var turnosDisponibles: seq<int>
    var turnosLlamados: seq<Llamado>
    var resetAt: Instante

    /** The document the object currently holds. */
    function Doc(): ColaDoc
      reads this
    {
      ColaDoc(fecha, turnoActual, turnosDisponibles, turnosLlamados, resetAt)
    }

    constructor (d: ColaDoc)
      ensures Doc() == d
    {
      fecha := d.fecha;
      turnoActual := d.turnoActual;
      turnosDisponibles := d.turnosDisponibles;
      turnosLlamados := d.turnosLlamados;
      resetAt := d.resetAt;
    }

    /** `obtenerSiguiente`: null exactly when the list is empty, otherwise its head; changes nothing. */
    method ObtenerSiguiente() returns (r: Option<int>)
      ensures r.None? <==> turnosDisponibles == []
      ensures r.Some? ==> r.value == turnosDisponibles[0]
      ensures r == Siguiente(Doc())
    {
      if |turnosDisponibles| == 0 {
        return None;
      }
      return Some(turnosDisponibles[0]);
    }

    /** `asignarTurno(ventanillaNumero)`, stamped with `ahora`. */
    method AsignarTurno(ventanillaNumero: int, ahora: Instante) returns (r: Result<Asignacion, string>)
      modifies this
      ensures Doc() == TrasAsignar(old(Doc()), ventanillaNumero, ahora).cola
      ensures r == TrasAsignar(old(Doc()), ventanillaNumero, ahora).resultado
      ensures fecha == old(fecha)
    {
      ghost var p := TrasAsignar(Doc(), ventanillaNumero, ahora);
      if |turnosDisponibles| == 0 {
        // shift() on an empty array returns undefined and leaves it empty
        return Err(MsgSinTurnos);
      }
      var siguienteTurno := turnosDisponibles[0];
      turnosDisponibles := turnosDisponibles[1..];
      if siguienteTurno == 0 {
        return Err(MsgSinTurnos);
      }
      var numeroFormateado := Format.FormatearTurno(siguienteTurno);
      turnosLlamados := turnosLlamados + [Llamado(siguienteTurno, ventanillaNumero, ahora)];
      turnoActual := siguienteTurno;
      if siguienteTurno == Techo {
        turnoActual := 0;
        turnosDisponibles := TurnosIniciales();
        turnosLlamados := [];
        resetAt := ahora;
        assert Doc() == p.cola;
      } else {
        assert Doc() == p.cola;
      }
      r := Ok(Asignacion(numeroFormateado, siguienteTurno, siguienteTurno == Techo));
    }

    /** `resetear`, stamped with `ahora`; the `save()` it ends with is the owner writing `Doc()` back. */
    method Resetear(ahora: Instante)
      modifies this
      ensures Doc() == TrasResetear(old(Doc()), ahora)
      ensures Inicial(Doc()) && fecha == old(fecha)
    {
      turnoActual := 0;
      turnosDisponibles := TurnosIniciales();
      turnosLlamados := [];
      resetAt := ahora;
    }
  }
}
