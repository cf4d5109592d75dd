/**
 * The command and query handlers of the window controller, over an in-memory
 * stand-in for the two MongoDB collections (`ventanillas`, `colas`) and a log
 * of every event broadcast to the connected clients.
 */
module Controlador {
  import opened Wrappers
  import opened ColaModel
  import opened VentanillaModel
  import Format

  /** How many recent calls `llamarSiguiente` keeps on the window. */
  const CotaPantalla: nat := 5

  const MsgNoEncontrada: string := "No encontrada"
  const MsgNoHayTurnos: string := "No hay más turnos"
  /** The error `reLlamar` raises when it reads a field of a missing window. */
  const MsgReferenciaNula: string := "Cannot read properties of null"
  /** The error the unique index on `numero` raises. */
  const MsgClaveDuplicada: string := "duplicate key: numero"
  const MsgColaReiniciada: string := "Cola reiniciada"
  const MsgReiniciado: string := "Reiniciado"

  /** What `io.emit` broadcasts, one variant per event name. */
  datatype Evento =
    | TurnoLlamado(ventanilla: int, color: Color, turno: string, ultimosLlamados: seq<string>)  // 'turno:llamado'
    | TurnoRellamado(ventanilla: int, turno: string)                                            // 'turno:rellamado'
    | AnuncioActualizado(ventanilla: int, anuncio: string)                                      // 'anuncio:actualizado'
    | ColaReseteada(mensaje: string)                                                            // 'cola:reseteada'

  /** The `data` of a JSON reply. */
  datatype Datos =
    | SinDatos
    | Nulo
    | UnaVentanilla(ventanilla: VentanillaDoc)
    | Ventanillas(lista: seq<VentanillaDoc>)
    | EstadoDeCola(cola: ColaDoc)

  /** An HTTP reply: status code and the JSON body `{ success, message, data }`. */
  datatype Respuesta = Respuesta(status: int, success: bool, message: string, data: Datos)

  function Exito(data: Datos): Respuesta {
    Respuesta(200, true, "", data)
  }

  function Falla(status: int, message: string): Respuesta {
    Respuesta(status, false, message, SinDatos)
  }

  // ----- Lookups and queries on the window collection -----

  /** `findById`: the position of the window with this id, if there is one. */
  function Buscar(vs: seq<VentanillaDoc>, id: Id): (r: Option<nat>)
    ensures r.Some? ==> r.value < |vs| && vs[r.value].id == id
    ensures r.None? <==> forall j :: 0 <= j < |vs| ==> vs[j].id != id
    decreases |vs|
  {
    if vs == [] then None
    else if vs[0].id == id then Some(0)
    else match Buscar(vs[1..], id)
      case None => None
      case Some(k) => Some(k + 1)
  }

  /** Whether some window already has this `numero` (what the unique index checks). */
  function ExisteNumero(vs: seq<VentanillaDoc>, numero: int): (b: bool)
    ensures b <==> exists j :: 0 <= j < |vs| && vs[j].numero == numero
    decreases |vs|
  {
    if vs == [] then false
    else vs[0].numero == numero || ExisteNumero(vs[1..], numero)
  }

  /** `find({ activa: true })`: the active windows, in collection order. */
  function Activas(vs: seq<VentanillaDoc>): (r: seq<VentanillaDoc>)
    ensures forall x :: multiset(r)[x] == if x.activa then multiset(vs)[x] else 0
    ensures forall x :: x in r <==> x in vs && x.activa
    decreases |vs|
  {
    if vs == [] then []
    else
      assert vs == [vs[0]] + vs[1..];
      (if vs[0].activa then [vs[0]] else []) + Activas(vs[1..])
  }

  predicate OrdenadaPorNumero(vs: seq<VentanillaDoc>) {
    forall i, j :: 0 <= i < j < |vs| ==> vs[i].numero <= vs[j].numero
  }

  function Insertar(x: VentanillaDoc, vs: seq<VentanillaDoc>): (r: seq<VentanillaDoc>)
    requires OrdenadaPorNumero(vs)
    ensures OrdenadaPorNumero(r)
    ensures multiset(r) == multiset(vs) + multiset{x}
    ensures |r| == |vs| + 1 && (r[0] == x || (vs != [] && r[0] == vs[0]))
    decreases |vs|
  {
    if vs == [] || x.numero <= vs[0].numero then
      [x] + vs
    else
      assert vs == [vs[0]] + vs[1..];
      var t := Insertar(x, vs[1..]);
      assert vs[0].numero <= t[0].numero;
      [vs[0]] + t
  }

  /** `.sort({ numero: 1 })`: the same windows, by ascending `numero`. */
  function OrdenarPorNumero(vs: seq<VentanillaDoc>): (r: seq<VentanillaDoc>)
    ensures OrdenadaPorNumero(r)
    ensures multiset(r) == multiset(vs)
    decreases |vs|
  {
    if vs == [] then []
    else
      assert vs == [vs[0]] + vs[1..];
      Insertar(vs[0], OrdenarPorNumero(vs[1..]))
  }

  /** `updateMany({}, { turnoActual: '000', ultimosLlamados: [], anuncio: '' })`. */
  function LimpiarTodas(vs: seq<VentanillaDoc>): (r: seq<VentanillaDoc>)
    ensures |r| == |vs| && forall i :: 0 <= i < |vs| ==> r[i] == Limpia(vs[i])
  {
    seq(|vs|, i requires 0 <= i < |vs| => Limpia(vs[i]))
  }

  /** The window as `llamarSiguiente` leaves it: showing `numero`, which heads its 5 most recent calls. */
  function Llamada(v: VentanillaDoc, numero: string): (w: VentanillaDoc)
    ensures w.id == v.id && w.numero == v.numero && w.color == v.color && w.anuncio == v.anuncio
    ensures w.turnoActual == numero && w.ultimosLlamados != [] && w.ultimosLlamados[0] == numero && |w.ultimosLlamados| <= CotaPantalla
  {
    v.(turnoActual := numero, ultimosLlamados := Recientes(numero, v.ultimosLlamados, CotaPantalla))
  }

  /**
   * The window update inside `llamarSiguiente`: show the ticket, put it in front
   * of the recent calls, keep the first 5.
   */
  method MostrarLlamado(ventanilla: Ventanilla, numero: string)
    modifies ventanilla
    ensures ventanilla.Doc() == Llamada(old(ventanilla.Doc()), numero)
  {
    ventanilla.turnoActual := numero;
    ventanilla.ultimosLlamados := [numero] + ventanilla.ultimosLlamados;
    ventanilla.ultimosLlamados := Primeros(ventanilla.ultimosLlamados, CotaPantalla);
  }

  /** `anuncio || ''`: a missing announcement is stored as the empty string. */
  function TextoAnuncio(anuncio: Option<string>): (s: string)
    ensures anuncio == Some(s) || (anuncio == None && s == "")
  {
    if anuncio.Some? then anuncio.value else ""
  }

  // ----- The pool for today -----

  /** The pool `obtenerColaHoy` returns for `hoy`: the stored one, or a fresh one. */
  function ColaHoy(colas: map<Dia, ColaDoc>, hoy: Dia, ahora: Instante): (c: ColaDoc)
    ensures hoy in colas ==> c == colas[hoy]
    ensures hoy !in colas ==> Inicial(c) && c.fecha == hoy
  {
    if hoy in colas then colas[hoy] else Nueva(hoy, ahora)
  }

  /** The pool collection after `obtenerColaHoy`: a pool for `hoy` is created if there was none. */
  function ConColaHoy(colas: map<Dia, ColaDoc>, hoy: Dia, ahora: Instante): (r: map<Dia, ColaDoc>)
    ensures r.Keys == colas.Keys + {hoy} && r[hoy] == ColaHoy(colas, hoy, ahora)
    ensures forall d :: d in colas ==> r[d] == colas[d]
  {
    if hoy in colas then colas else colas[hoy := Nueva(hoy, ahora)]
  }

  /** What the controller tests with `if (!siguiente)`: a next ticket exists and is not 0. */
  predicate HayTurno(c: ColaDoc)
    ensures HayTurno(c) <==> Siguiente(c).Some? && Siguiente(c).value != 0
  {
    c.turnosDisponibles != [] && c.turnosDisponibles[0] != 0
  }

  /** Ids are distinct and below the next fresh id; `numero` is distinct (the unique index). */
  predicate Unicas(vs: seq<VentanillaDoc>, proximoId: Id) {
    && (forall i, j :: 0 <= i < j < |vs| ==> vs[i].id != vs[j].id)
    && (forall i, j :: 0 <= i < j < |vs| ==> vs[i].numero != vs[j].numero)
    && (forall i :: 0 <= i < |vs| ==> vs[i].id < proximoId)
  }

  /** Every pool is stored under its own `fecha`. */
  predicate Fechadas(colas: map<Dia, ColaDoc>) {
    forall d :: d in colas ==> colas[d].fecha == d
  }

  /** Rewriting one window without touching its id or number keeps the collection's uniqueness. */
  lemma ReemplazoConservaUnicas(vs: seq<VentanillaDoc>, proximoId: Id, i: nat, v: VentanillaDoc)
    requires Unicas(vs, proximoId) && i < |vs|
    requires v.id == vs[i].id && v.numero == vs[i].numero
    ensures Unicas(vs[i := v], proximoId)
  {
    var ws := vs[i := v];
    assert forall j :: 0 <= j < |vs| ==> ws[j].id == vs[j].id && ws[j].numero == vs[j].numero;
  }

  // ----- Calling the next ticket -----

  /** What a handler leaves behind: both collections, the events it emits and its reply. */
  datatype Efecto = Efecto(
    ventanillas: seq<VentanillaDoc>,
    colas: map<Dia, ColaDoc>,
    emitidos: seq<Evento>,
    respuesta: Respuesta)

  /**
   * `llamarSiguiente` on stored values: 404 for an unknown window; 400 when
   * today's pool (created if missing) has no usable next ticket; otherwise the
   * pool is saved after `asignarTurno`, and the window, showing the ticket at
   * the head of its 5 most recent calls, is saved and broadcast — or, when it
   * fails validation, nothing more happens and the reply is 500.
   */
  function TrasLlamarSiguiente(vs: seq<VentanillaDoc>, colas: map<Dia, ColaDoc>, id: Id, hoy: Dia, ahora: Instante): (e: Efecto)
    ensures |e.ventanillas| == |vs| && |e.emitidos| <= 1
  {
    match Buscar(vs, id)
    case None => Efecto(vs, colas, [], Falla(404, MsgNoEncontrada))
    case Some(i) =>
      var c := ColaHoy(colas, hoy, ahora);
      if !HayTurno(c) then
        Efecto(vs, ConColaHoy(colas, hoy, ahora), [], Falla(400, MsgNoHayTurnos))
      else
        var v := vs[i];
        var numero := Format.FormatearTurno(c.turnosDisponibles[0]);
        var colas' := colas[hoy := TrasAsignar(c, v.numero, ahora).cola];
        var v' := Llamada(v, numero);
        if !Guardable(v') then
          Efecto(vs, colas', [], Falla(500, MsgValidacion))
        else
          Efecto(vs[i := v'], colas', [TurnoLlamado(v.numero, v.color, numero, v'.ultimosLlamados)],
                 Exito(UnaVentanilla(v')))
  }

  /** Overwriting today's pool erases whether `obtenerColaHoy` had to create it. */
  lemma SobrescribirHoy(colas: map<Dia, ColaDoc>, hoy: Dia, ahora: Instante, c: ColaDoc)
    ensures ConColaHoy(colas, hoy, ahora)[hoy := c] == colas[hoy := c]
  {
  }

  /** The successful path of `llamarSiguiente`, spelled out step by step. */
  lemma LlamarSiguienteEntrega(vs: seq<VentanillaDoc>, colas: map<Dia, ColaDoc>, id: Id, hoy: Dia, ahora: Instante)
    requires Buscar(vs, id).Some? && HayTurno(ColaHoy(colas, hoy, ahora))
    ensures var i := Buscar(vs, id).value;
      var c := ColaHoy(colas, hoy, ahora);
      var p := TrasAsignar(c, vs[i].numero, ahora);
      var e := TrasLlamarSiguiente(vs, colas, id, hoy, ahora);
      && p.resultado.Ok?
      && var v' := Llamada(vs[i], p.resultado.value.numero);
      && e.colas == colas[hoy := p.cola]
      && (Guardable(v') ==>
            && e.ventanillas == vs[i := v']
            && e.emitidos == [TurnoLlamado(vs[i].numero, vs[i].color, v'.turnoActual, v'.ultimosLlamados)]
            && e.respuesta == Exito(UnaVentanilla(v')))
      && (!Guardable(v') ==>
            e.ventanillas == vs && e.emitidos == [] && e.respuesta == Falla(500, MsgValidacion))
  {
    var i := Buscar(vs, id).value;
    AsignarCasos(ColaHoy(colas, hoy, ahora), vs[i].numero, ahora);
  }

  /**
   * The four outcomes of `llamarSiguiente` and when each happens; on success
   * the window shows the ticket the pool handed out, at the head of at most 5
   * recent calls, the pool is saved, and exactly one `turno:llamado` is emitted.
   * Only a 200 emits anything, and only a 200 changes a window.
   */
  lemma LlamarSiguienteCasos(vs: seq<VentanillaDoc>, colas: map<Dia, ColaDoc>, id: Id, hoy: Dia, ahora: Instante)
    ensures var e := TrasLlamarSiguiente(vs, colas, id, hoy, ahora);
      var c := ColaHoy(colas, hoy, ahora);
      && (e.respuesta.status == 404 <==> Buscar(vs, id).None?)
      && (e.respuesta.status == 400 <==> Buscar(vs, id).Some? && !HayTurno(c))
      && (e.respuesta.status in {200, 404, 400, 500})
      && (e.respuesta.status != 200 ==> e.ventanillas == vs && e.emitidos == [] && !e.respuesta.success)
      && (e.respuesta.status in {404, 400} ==> e.colas == colas)
      && (Buscar(vs, id).Some? && HayTurno(c) ==>
            var i := Buscar(vs, id).value;
            var p := TrasAsignar(c, vs[i].numero, ahora);
            && p.resultado.Ok?
            && e.colas == colas[hoy := p.cola]
            && (e.respuesta.status == 200 <==> Guardable(Llamada(vs[i], p.resultado.value.numero)))
            && (e.respuesta.status == 200 ==>
                  var v' := e.respuesta.data.ventanilla;
                  && e.ventanillas == vs[i := v']
                  && v'.id == id && v'.numero == vs[i].numero && v'.anuncio == vs[i].anuncio
                  && v'.turnoActual == p.resultado.value.numero
                  && v'.ultimosLlamados[0] == v'.turnoActual
                  && |v'.ultimosLlamados| <= CotaPantalla
                  && e.emitidos == [TurnoLlamado(v'.numero, v'.color, v'.turnoActual, v'.ultimosLlamados)]))
  {
    var c := ColaHoy(colas, hoy, ahora);
    if hoy !in colas {
      assert c.turnosDisponibles[0] == 1;
    }
    if Buscar(vs, id).Some? && HayTurno(c) {
      var i := Buscar(vs, id).value;
      AsignarCasos(c, vs[i].numero, ahora);
      RecientesAcotada(Format.FormatearTurno(c.turnosDisponibles[0]), vs[i].ultimosLlamados, CotaPantalla);
    }
  }

  /** `llamarSiguiente` keeps ids and numbers unique and every pool under its own date. */
  lemma LlamarSiguienteConservaValid(vs: seq<VentanillaDoc>, proximoId: Id, colas: map<Dia, ColaDoc>, id: Id, hoy: Dia, ahora: Instante)
    requires Unicas(vs, proximoId) && Fechadas(colas)
    ensures var e := TrasLlamarSiguiente(vs, colas, id, hoy, ahora);
      Unicas(e.ventanillas, proximoId) && Fechadas(e.colas)
  {
    var c := ColaHoy(colas, hoy, ahora);
    if Buscar(vs, id).Some? && HayTurno(c) {
      var i := Buscar(vs, id).value;
      AsignarCasos(c, vs[i].numero, ahora);
      var v' := Llamada(vs[i], Format.FormatearTurno(c.turnosDisponibles[0]));
      if Guardable(v') {
        ReemplazoConservaUnicas(vs, proximoId, i, v');
      }
    }
  }

  /** Every stored pool is canonical. */
  predicate TodasCanonicas(colas: map<Dia, ColaDoc>) {
    forall d :: d in colas ==> Canonica(colas[d])
  }

  /** Storing a canonical pool keeps every pool canonical. */
  lemma GuardarCanonica(colas: map<Dia, ColaDoc>, hoy: Dia, c: ColaDoc)
    requires TodasCanonicas(colas) && Canonica(c)
    ensures TodasCanonicas(colas[hoy := c])
  {
  }

  /**
   * From a reachable state the 400 never happens, the ticket handed out is the
   * one after the last ticket called today (001 on a new day), and every pool
   * stays canonical.
   */
  lemma LlamarSiguienteDesdeAlcanzable(vs: seq<VentanillaDoc>, colas: map<Dia, ColaDoc>, id: Id, hoy: Dia, ahora: Instante)
    requires TodasCanonicas(colas)
    ensures var e := TrasLlamarSiguiente(vs, colas, id, hoy, ahora);
      var k := |ColaHoy(colas, hoy, ahora).turnosLlamados|;
      && TodasCanonicas(e.colas)
      && e.respuesta.status != 400
      && (e.respuesta.status == 200 ==> e.respuesta.data.ventanilla.turnoActual == Format.FormatearTurno(k + 1))
      && (hoy !in colas && e.respuesta.status == 200 ==> e.respuesta.data.ventanilla.turnoActual == "001")
      && (Buscar(vs, id).Some? ==> hoy in e.colas && |e.colas[hoy].turnosLlamados| == if k + 1 == Techo then 0 else k + 1)
  {
    var e := TrasLlamarSiguiente(vs, colas, id, hoy, ahora);
    var c := ColaHoy(colas, hoy, ahora);
    ColaHoyCanonica(colas, hoy, ahora);
    if Buscar(vs, id).Some? {
      var i := Buscar(vs, id).value;
      CanonicaTieneSiguiente(c);
      AsignarDesdeCanonica(c, vs[i].numero, ahora);
      LlamarSiguienteEntrega(vs, colas, id, hoy, ahora);
      GuardarCanonica(colas, hoy, TrasAsignar(c, vs[i].numero, ahora).cola);
      if hoy !in colas {
        Format.FormatoDelUno();
      }
    }
  }

  /** Today's pool, stored or fresh, is canonical; a fresh one has no calls yet. */
  lemma ColaHoyCanonica(colas: map<Dia, ColaDoc>, hoy: Dia, ahora: Instante)
    requires TodasCanonicas(colas)
    ensures Canonica(ColaHoy(colas, hoy, ahora))
    ensures hoy !in colas ==> ColaHoy(colas, hoy, ahora).turnosLlamados == []
  {
    if hoy !in colas {
      InicialEsCanonica(ColaHoy(colas, hoy, ahora));
    }
  }

  /**
   * The backend's state: the stored documents and the broadcast history. Each
   * handler loads documents into objects, changes them, and saves them back.
   */
  class Backend {
    /** The `ventanillas` collection, in insertion order. */
    var ventanillas: seq<VentanillaDoc>
    /** The `colas` collection, keyed by `fecha`. */
    var colas: map<Dia, ColaDoc>
    /** Every event emitted so far, oldest first. */
    var eventos: seq<Evento>
    /** Source of fresh document ids. */
    var proximoId: Id

    /** What the database guarantees: unique ids, a unique index on `numero`, pools stored under their own date. */
    ghost predicate Valid()
      reads this
    {
      Unicas(ventanillas, proximoId) && Fechadas(colas)
    }

    /** The states the handlers reach from an empty database: every stored pool is canonical. */
    ghost predicate Alcanzable()
      reads this
    {
      Valid() && TodasCanonicas(colas)
    }

    /** An empty database with no events. */
    constructor ()
      ensures Alcanzable()
      ensures ventanillas == [] && colas == map[] && eventos == [] && proximoId == 0
    {
      ventanillas := [];
      colas := map[];
      eventos := [];
      proximoId := 0;
    }

    /** `Cola.obtenerColaHoy`: load today's pool, creating and storing a fresh one if there is none. */
    method ObtenerColaHoy(hoy: Dia, ahora: Instante) returns (cola: Cola)
      modifies this`colas
      ensures fresh(cola)
      ensures colas == ConColaHoy(old(colas), hoy, ahora)
      ensures hoy in colas && cola.Doc() == colas[hoy] == ColaHoy(old(colas), hoy, ahora)
      ensures Fechadas(old(colas)) ==> Fechadas(colas)
      ensures TodasCanonicas(old(colas)) ==> TodasCanonicas(colas)
    {
      if hoy !in colas {
        colas := colas[hoy := Nueva(hoy, ahora)];
        InicialEsCanonica(colas[hoy]);
      }
      cola := new Cola(colas[hoy]);
    }

    /** `GET /api/ventanillas`: every window, by ascending `numero`. */
    function ObtenerTodas(): (r: Respuesta)
      reads this
      ensures r.status == 200 && r.success && r.data.Ventanillas?
      ensures OrdenadaPorNumero(r.data.lista)
      ensures multiset(r.data.lista) == multiset(ventanillas)
    {
      Exito(Ventanillas(OrdenarPorNumero(ventanillas)))
    }

    /** `GET /api/ventanillas/activas`: exactly the active windows, by ascending `numero`. */
    function ObtenerActivas(): (r: Respuesta)
      reads this
      ensures r.status == 200 && r.success && r.data.Ventanillas?
      ensures OrdenadaPorNumero(r.data.lista)
      ensures forall x :: x in r.data.lista <==> x in ventanillas && x.activa
      ensures forall x :: multiset(r.data.lista)[x] == if x.activa then multiset(ventanillas)[x] else 0
    {
      Exito(Ventanillas(OrdenarPorNumero(Activas(ventanillas))))
    }

    /** `GET /api/ventanillas/:id`: the window with that id, or 404. */
    function ObtenerPorId(id: Id): (r: Respuesta)
      reads this
      ensures r.status == 200 <==> exists j :: 0 <= j < |ventanillas| && ventanillas[j].id == id
      ensures r.status == 200 ==> r.success && r.data.UnaVentanilla?
                                  && r.data.ventanilla in ventanillas && r.data.ventanilla.id == id
      ensures r.status != 200 ==> r == Falla(404, MsgNoEncontrada)
    {
      match Buscar(ventanillas, id)
      case None => Falla(404, MsgNoEncontrada)
      case Some(i) => Exito(UnaVentanilla(ventanillas[i]))
    }

    /** `GET /api/ventanillas/cola/estado`: today's pool, created if missing. */
    method EstadoCola(hoy: Dia, ahora: Instante) returns (r: Respuesta)
      requires Valid()
      modifies this`colas
      ensures Valid()
      ensures colas == ConColaHoy(old(colas), hoy, ahora)
      ensures r == Exito(EstadoDeCola(ColaHoy(old(colas), hoy, ahora)))
      ensures old(Alcanzable()) ==> Alcanzable()
    {
      var cola := ObtenerColaHoy(hoy, ahora);
      r := Exito(EstadoDeCola(cola.Doc()));
    }

    /**
     * `POST /api/ventanillas/:id/llamar-siguiente`: load the window, hand it
     * today's next ticket, save the pool, then the window, then broadcast the
     * call; what it does is `TrasLlamarSiguiente`, which keeps `Valid()` and
     * `Alcanzable()` by `LlamarSiguienteConservaValid` and
     * `LlamarSiguienteDesdeAlcanzable`.
     */
    method LlamarSiguiente(id: Id, hoy: Dia, ahora: Instante) returns (r: Respuesta)
      modifies this`colas, this`ventanillas, this`eventos
      ensures var e := TrasLlamarSiguiente(old(ventanillas), old(colas), id, hoy, ahora);
                && ventanillas == e.ventanillas && colas == e.colas
                && eventos == old(eventos) + e.emitidos && r == e.respuesta
    {
      ghost var e := TrasLlamarSiguiente(ventanillas, colas, id, hoy, ahora);
      ghost var c := ColaHoy(colas, hoy, ahora);
      var i := Buscar(ventanillas, id);
      if i.None? {
        return Falla(404, MsgNoEncontrada);
      }
      ghost var v := ventanillas[i.value];
      var ventanilla := new Ventanilla(ventanillas[i.value]);
      var cola := ObtenerColaHoy(hoy, ahora);
      var siguiente := cola.ObtenerSiguiente();
      if siguiente.None? || siguiente.value == 0 {
        assert !HayTurno(c);
        return Falla(400, MsgNoHayTurnos);
      }
      assert HayTurno(c);
      LlamarSiguienteEntrega(ventanillas, old(colas), id, hoy, ahora);
      AsignarCasos(c, ventanilla.numero, ahora);
      var asignado := cola.AsignarTurno(ventanilla.numero, ahora);
      var numero := asignado.value.numero;
      ghost var p := TrasAsignar(c, v.numero, ahora);
      assert cola.Doc() == p.cola;
      SobrescribirHoy(old(colas), hoy, ahora, p.cola);
      colas := colas[hoy := cola.Doc()];
      assert colas == ConColaHoy(old(colas), hoy, ahora)[hoy := p.cola];

      MostrarLlamado(ventanilla, numero);
      var v' := ventanilla.Doc();
      if !Guardable(v') {
        r := Falla(500, MsgValidacion);
        assert r == e.respuesta && ventanillas == e.ventanillas && e.emitidos == [];
        return;
      }
      ventanillas := ventanillas[i.value := v'];
      assert ventanillas == e.ventanillas;

      eventos := eventos + [TurnoLlamado(v'.numero, v'.color, v'.turnoActual, v'.ultimosLlamados)];
      r := Exito(UnaVentanilla(v'));
    }

    /** `POST /api/ventanillas/:id/rellamar`: broadcast the window's current ticket again; no state changes. */
    method ReLlamar(id: Id) returns (r: Respuesta)
      requires Valid()
      modifies this`eventos
      ensures Valid()
      ensures old(Alcanzable()) ==> Alcanzable()
      ensures Buscar(ventanillas, id).None? ==>
                r == Falla(500, MsgReferenciaNula) && eventos == old(eventos)
      ensures Buscar(ventanillas, id).Some? ==>
                var v := ventanillas[Buscar(ventanillas, id).value];
                && eventos == old(eventos) + [TurnoRellamado(v.numero, v.turnoActual)]
                && r == Exito(UnaVentanilla(v))
    {
      var i := Buscar(ventanillas, id);
      if i.None? {
        // `ventanilla.numero` on a null document throws
        return Falla(500, MsgReferenciaNula);
      }
      var ventanilla := ventanillas[i.value];
      eventos := eventos + [TurnoRellamado(ventanilla.numero, ventanilla.turnoActual)];
      r := Exito(UnaVentanilla(ventanilla));
    }

    /**
     * `PATCH /api/ventanillas/:id/anuncio`: store `anuncio || ''` and broadcast it.
     * The update bypasses the schema validators, so the length is not checked.
     */
    method ActualizarAnuncio(id: Id, anuncio: Option<string>) returns (r: Respuesta)
      requires Valid()
      modifies this`ventanillas, this`eventos
      ensures Valid()
      ensures old(Alcanzable()) ==> Alcanzable()
      ensures Buscar(old(ventanillas), id).None? ==>
                r == Falla(404, MsgNoEncontrada) && ventanillas == old(ventanillas) && eventos == old(eventos)
      ensures Buscar(old(ventanillas), id).Some? ==>
                var i := Buscar(old(ventanillas), id).value;
                var v' := old(ventanillas)[i].(anuncio := TextoAnuncio(anuncio));
                && ventanillas == old(ventanillas)[i := v']
                && eventos == old(eventos) + [AnuncioActualizado(v'.numero, v'.anuncio)]
                && r == Exito(UnaVentanilla(v'))
    {
      var i := Buscar(ventanillas, id);
      if i.None? {
        return Falla(404, MsgNoEncontrada);
      }
      var ventanilla := ventanillas[i.value].(anuncio := TextoAnuncio(anuncio));
      ventanillas := ventanillas[i.value := ventanilla];
      eventos := eventos + [AnuncioActualizado(ventanilla.numero, ventanilla.anuncio)];
      r := Exito(UnaVentanilla(ventanilla));
    }

    /** `DELETE /api/ventanillas/:id/limpiar`: clear one window; an unknown id answers success with `data: null`. */
    method Limpiar(id: Id) returns (r: Respuesta)
      requires Valid()
      modifies this`ventanillas
      ensures Valid()
      ensures old(Alcanzable()) ==> Alcanzable()
      ensures Buscar(old(ventanillas), id).None? ==>
                r == Exito(Nulo) && ventanillas == old(ventanillas)
      ensures Buscar(old(ventanillas), id).Some? ==>
                var i := Buscar(old(ventanillas), id).value;
                && ventanillas == old(ventanillas)[i := Limpia(old(ventanillas)[i])]
                && r == Exito(UnaVentanilla(Limpia(old(ventanillas)[i])))
    {
      var i := Buscar(ventanillas, id);
      if i.None? {
        return Exito(Nulo);
      }
      var ventanilla := Limpia(ventanillas[i.value]);
      ventanillas := ventanillas[i.value := ventanilla];
      r := Exito(UnaVentanilla(ventanilla));
    }

    /** `POST /api/ventanillas/cola/resetear`: reset today's pool, clear every window, broadcast the reset. */
    method ResetearCola(hoy: Dia, ahora: Instante) returns (r: Respuesta)
      requires Valid()
      modifies this`colas, this`ventanillas, this`eventos
      ensures Valid()
      ensures old(Alcanzable()) ==> Alcanzable()
      ensures colas == old(colas)[hoy := TrasResetear(ColaHoy(old(colas), hoy, ahora), ahora)]
      ensures Inicial(colas[hoy]) && Siguiente(colas[hoy]) == Some(1)
      ensures |ventanillas| == |old(ventanillas)|
      ensures forall i :: 0 <= i < |ventanillas| ==> ventanillas[i] == Limpia(old(ventanillas)[i])
      ensures forall i :: 0 <= i < |ventanillas| ==>
                ventanillas[i].turnoActual == "000" && ventanillas[i].ultimosLlamados == [] && ventanillas[i].anuncio == ""
      ensures eventos == old(eventos) + [ColaReseteada(MsgColaReiniciada)]
      ensures r == Respuesta(200, true, MsgReiniciado, SinDatos)
    {
      var cola := ObtenerColaHoy(hoy, ahora);
      cola.Resetear(ahora);
      colas := colas[hoy := cola.Doc()];
      InicialEsCanonica(colas[hoy]);
      ventanillas := LimpiarTodas(ventanillas);
      eventos := eventos + [ColaReseteada(MsgColaReiniciada)];
      r := Respuesta(200, true, MsgReiniciado, SinDatos);
    }

    /**
     * `POST /api/ventanillas`: build a window from the body with the schema's
     * defaults and save it; a failed validation or a taken `numero` answers 500
     * and stores nothing.
     */
    method Crear(b: Cuerpo) returns (r: Respuesta)
      requires Valid()
      modifies this`ventanillas, this`proximoId
      ensures Valid()
      ensures old(Alcanzable()) ==> Alcanzable()
      ensures proximoId == if r.status == 201 then old(proximoId) + 1 else old(proximoId)
      ensures Construir(old(proximoId), b).Err? ==>
                r == Falla(500, MsgValidacion) && ventanillas == old(ventanillas)
      ensures Construir(old(proximoId), b).Ok? && ExisteNumero(old(ventanillas), b.numero.value) ==>
                r == Falla(500, MsgClaveDuplicada) && ventanillas == old(ventanillas)
      ensures Construir(old(proximoId), b).Ok? && !ExisteNumero(old(ventanillas), b.numero.value) ==>
                var v := Construir(old(proximoId), b).value;
                && ventanillas == old(ventanillas) + [v]
                && r == Respuesta(201, true, "", UnaVentanilla(v))
    {
      var nueva := Construir(proximoId, b);
      if nueva.Err? {
        return Falla(500, nueva.error);
      }
      var v := nueva.value;
      if ExisteNumero(ventanillas, v.numero) {
        return Falla(500, MsgClaveDuplicada);
      }
      ventanillas := ventanillas + [v];
      proximoId := proximoId + 1;
      r := Respuesta(201, true, "", UnaVentanilla(v));
    }
  }

  // ----- A scenario -----

  /**
   * A fresh database: create window 1 from just its number, then call the next
   * ticket on it; the window is green and shows 001, its only recent call.
   */
  method PrimerLlamado(hoy: Dia, ahora: Instante) returns (r: Respuesta)
    ensures r.status == 200 && r.success
    ensures r.data.UnaVentanilla?
    ensures r.data.ventanilla.numero == 1 && r.data.ventanilla.color == Verde
    ensures r.data.ventanilla.turnoActual == "001" && r.data.ventanilla.ultimosLlamados == ["001"]
  {
    var backend := new Backend();
    var creada := backend.Crear(Cuerpo(Some(1), None, None, None, None, None, None));
    ConstruirPorDefecto(0, 1);
    ghost var vs := backend.ventanillas;
    assert vs == [VentanillaDoc(0, 1, Verde, "000", [], "", true, "")];
    assert Buscar(vs, 0) == Some(0);
    LlamarSiguienteCasos(vs, map[], 0, hoy, ahora);
    LlamarSiguienteDesdeAlcanzable(vs, map[], 0, hoy, ahora);
    r := backend.LlamarSiguiente(0, hoy, ahora);
  }
}
