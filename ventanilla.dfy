/**
 * A service window (the `Ventanilla` document): its schema defaults and
 * validators, and the instance methods that record a call, set the
 * announcement and clear it.
 */
module VentanillaModel {
  import opened Wrappers

  /** The colour enum of the schema. */
  datatype Color = Verde | Azul | Rojo | Negro

  /** Default of `turnoActual`, and what clearing a window puts back. */
  const TurnoVacio: string := "000"

  /** `maxlength` of `anuncio`. */
  const MaxAnuncio: nat := 200

  /** How many recent calls `asignarTurno` keeps. */
  const MaxHistorial: nat := 10

  /** Message of the save-time validation error. */
  const MsgValidacion: string := "Ventanilla validation failed"

  /** A document identity (`_id`); opaque apart from equality. */
  type Id = nat

  /** A stored window document. */
  datatype VentanillaDoc = VentanillaDoc(
    id: Id,
    numero: int,
    color: Color,
    turnoActual: string,
    ultimosLlamados: seq<string>,
    anuncio: string,
    activa: bool,
    operador: string)

  /** The value of `color` as stored and as sent to clients. */
  function NombreColor(c: Color): string {
    match c
    case Verde => "verde"
    case Azul => "azul"
    case Rojo => "rojo"
    case Negro => "negro"
  }

  /** The enum validator: the colour a string names, or nothing if it names none. */
  function ColorDe(s: string): (r: Option<Color>)
    ensures r.Some? ==> NombreColor(r.value) == s
  {
    if s == "verde" then Some(Verde)
    else if s == "azul" then Some(Azul)
    else if s == "rojo" then Some(Rojo)
    else if s == "negro" then Some(Negro)
    else None
  }

  /** Every colour's name passes the enum validator and names that colour; so exactly the four names pass. */
  lemma ColorIdaYVuelta(c: Color, s: string)
    ensures ColorDe(NombreColor(c)) == Some(c)
    ensures ColorDe(s).Some? <==> s in {"verde", "azul", "rojo", "negro"}
  {
  }

  /**
   * The validators `save()` runs on a document whose fields are already typed:
   * `anuncio` is at most 200 characters (counted as Dafny characters, not as
   * JavaScript's UTF-16 code units).
   */
  predicate Guardable(d: VentanillaDoc) {
    |d.anuncio| <= MaxAnuncio
  }

  /** `s.slice(0, n)`: the first `n` entries, or all of them when there are fewer. */
  function Primeros(s: seq<string>, n: nat): (r: seq<string>)
    ensures |r| == (if |s| > n then n else |s|) && r == s[..|r|]
  {
    if |s| > n then s[..n] else s
  }

  /** `[t, ...h]` cut to its first `cota` entries: `unshift(t)` followed by `slice(0, cota)`. */
  function Recientes(t: string, h: seq<string>, cota: nat): (r: seq<string>)
    ensures |r| <= cota && |r| <= |h| + 1 && r == ([t] + h)[..|r|]
    ensures cota > 0 ==> r != [] && r[0] == t
  {
    Primeros([t] + h, cota)
  }

  /**
   * The recent-call list after recording `t`: `t` at its head, at most `cota`
   * entries, and after the head a prefix of the old list, as long as room allows.
   */
  lemma RecientesAcotada(t: string, h: seq<string>, cota: nat)
    requires cota > 0
    ensures var r := Recientes(t, h, cota);
      && |r| == (if |h| + 1 <= cota then |h| + 1 else cota)
      && r[0] == t
      && r[1..] == h[..|r| - 1]
  {
  }

  /** Recording into a list already within the bound keeps the whole old list when there is room. */
  lemma RecientesConserva(t: string, h: seq<string>, cota: nat)
    requires |h| < cota
    ensures Recientes(t, h, cota) == [t] + h
  {
  }

  /** Fields of the request body given to `new Ventanilla(req.body)`; a missing field is `None`. */
  datatype Cuerpo = Cuerpo(
    numero: Option<int>,
    color: Option<string>,
    turnoActual: Option<string>,
    ultimosLlamados: Option<seq<string>>,
    anuncio: Option<string>,
    activa: Option<bool>,
    operador: Option<string>)

  function OElDefault<T>(o: Option<T>, d: T): T {
    if o.Some? then o.value else d
  }

  /**
   * `new Ventanilla(body)` followed by the schema validators `save()` runs:
   * `numero` required, `color` in the enum, `anuncio` at most 200 characters;
   * every missing field takes its default.
   */
  function Construir(id: Id, b: Cuerpo): (r: Result<VentanillaDoc, string>)
    ensures r.Ok? ==> Guardable(r.value) && r.value.id == id && Some(r.value.numero) == b.numero
    ensures r.Err? ==> r.error == MsgValidacion
  {
    if b.numero.None? then Err(MsgValidacion)
    else if b.color.Some? && ColorDe(b.color.value).None? then Err(MsgValidacion)
    else if b.anuncio.Some? && |b.anuncio.value| > MaxAnuncio then Err(MsgValidacion)
    else
      Ok(VentanillaDoc(
        id,
        b.numero.value,
        if b.color.Some? then ColorDe(b.color.value).value else Verde,
        OElDefault(b.turnoActual, TurnoVacio),
        OElDefault(b.ultimosLlamados, []),
        OElDefault(b.anuncio, ""),
        OElDefault(b.activa, true),
        OElDefault(b.operador, "")))
  }

  /** A body is accepted exactly when it has a `numero`, a known colour if any, and an announcement within 200 characters. */
  lemma ConstruirValida(id: Id, b: Cuerpo)
    ensures Construir(id, b).Ok? <==>
              && b.numero.Some?
              && (b.color.Some? ==> b.color.value in {"verde", "azul", "rojo", "negro"})
              && (b.anuncio.Some? ==> |b.anuncio.value| <= MaxAnuncio)
    ensures Construir(id, b).Ok? ==>
              && Guardable(Construir(id, b).value)
              && Construir(id, b).value.id == id
              && Construir(id, b).value.numero == b.numero.value
  {
  }

  /** A window created from just a number is green, shows "000", has no history nor announcement, is active, with no operator. */
  lemma ConstruirPorDefecto(id: Id, numero: int)
    ensures Construir(id, Cuerpo(Some(numero), None, None, None, None, None, None))
            == Ok(VentanillaDoc(id, numero, Verde, "000", [], "", true, ""))
  {
  }

  /** `limpiar`: current ticket back to "000", no history, no announcement. */
  function Limpia(d: VentanillaDoc): (r: VentanillaDoc)
    ensures Guardable(r) && r.id == d.id && r.numero == d.numero
  {
    d.(turnoActual := TurnoVacio, ultimosLlamados := [], anuncio := "")
  }

  /** Clearing touches only the ticket, the history and the announcement, always passes the validators, and is idempotent. */
  lemma LimpiaPropiedades(d: VentanillaDoc)
    ensures var l := Limpia(d);
      && l.turnoActual == "000" && l.ultimosLlamados == [] && l.anuncio == ""
      && l.id == d.id && l.numero == d.numero && l.color == d.color
      && l.activa == d.activa && l.operador == d.operador
      && Guardable(l)
      && Limpia(l) == l
  {
  }

  /**
   * A window document loaded into an object, as `findById` returns it; its
   * methods change the fields in place and then `save()`, which succeeds exactly
   * when the document passes the validators.
   */
  class Ventanilla {
    const id: Id
    var numero: int
    var color: Color
    var turnoActual: string
    var ultimosLlamados: seq<string>
    var anuncio: string
    var activa: bool
    var operador: string

    /** The document the object currently holds. */
    function Doc(): VentanillaDoc
      reads this
    {
      VentanillaDoc(id, numero, color, turnoActual, ultimosLlamados, anuncio, activa, operador)
    }

    constructor (d: VentanillaDoc)
      ensures Doc() == d
    {
      id := d.id;
      numero := d.numero;
      color := d.color;
      turnoActual := d.turnoActual;
      ultimosLlamados := d.ultimosLlamados;
      anuncio := d.anuncio;
      activa := d.activa;
      operador := d.operador;
    }

    /** `asignarTurno(numeroTurno)`: show the ticket and record it, keeping the 10 most recent. */
    method AsignarTurno(numeroTurno: string) returns (guardada: bool)
      modifies this
      ensures Doc() == old(Doc()).(turnoActual := numeroTurno,
                                   ultimosLlamados := Recientes(numeroTurno, old(ultimosLlamados), MaxHistorial))
      ensures ultimosLlamados[0] == numeroTurno && |ultimosLlamados| <= MaxHistorial
      ensures guardada <==> Guardable(Doc())
    {
      turnoActual := numeroTurno;
      ultimosLlamados := [numeroTurno] + ultimosLlamados;
      if |ultimosLlamados| > MaxHistorial {
        ultimosLlamados := ultimosLlamados[..MaxHistorial];
      }
      guardada := |anuncio| <= MaxAnuncio;
    }

    /** `actualizarAnuncio(texto)`: only the announcement changes; the save rejects one over 200 characters. */
    method ActualizarAnuncio(texto: string) returns (guardada: bool)
      modifies this
      ensures Doc() == old(Doc()).(anuncio := texto)
      ensures guardada <==> |texto| <= MaxAnuncio
    {
      anuncio := texto;
      guardada := |anuncio| <= MaxAnuncio;
    }

    /** `limpiar`. */
    method Limpiar() returns (guardada: bool)
      modifies this
      ensures Doc() == Limpia(old(Doc()))
      ensures guardada
    {
      turnoActual := TurnoVacio;
      ultimosLlamados := [];
      anuncio := "";
      guardada := |anuncio| <= MaxAnuncio;
    }
  }
}
