/**
 * Display form of ticket numbers: JavaScript's `String(n).padStart(3, '0')`.
 * The pool stores raw integers; windows and events carry this string.
 */
module Format {

  /** Width of a displayed ticket number. */
  const Ancho: nat := 3

  predicate EsDigito(c: char) {
    '0' <= c <= '9'
  }

  predicate SoloDigitos(s: string) {
    forall i :: 0 <= i < |s| ==> EsDigito(s[i])
  }

  function Digito(d: nat): (c: char)
    requires d < 10
    ensures EsDigito(c) && c as int - '0' as int == d
  {
    ('0' as int + d) as char
  }

  /** `String(n)` for a non-negative integer: its base-10 digits, without leading zeros. */
  function Decimal(n: nat): (s: string)
    ensures 1 <= |s| && SoloDigitos(s)
    ensures n > 0 ==> s[0] != '0'
    decreases n
  {
    if n < 10 then [Digito(n)] else Decimal(n / 10) + [Digito(n % 10)]
  }

  /** `String(n)` for any integer: a minus sign in front of a negative number's digits. */
  function JsString(n: int): (s: string)
    ensures 1 <= |s|
    ensures SoloDigitos(s) <==> n >= 0
  {
    if n < 0 then
      var s := "-" + Decimal(-n);
      assert !EsDigito(s[0]);
      s
    else Decimal(n)
  }

  function Repetir(c: char, k: nat): (s: string)
    ensures |s| == k && forall i :: 0 <= i < k ==> s[i] == c
  {
    seq(k, _ => c)
  }

  /** `s.padStart(ancho, c)` with a one-character pad: `s` itself when it is long enough. */
  function PadStart(s: string, ancho: nat, c: char): (r: string)
    ensures |r| == if |s| >= ancho then |s| else ancho
    ensures r[|r| - |s|..] == s
    ensures forall i :: 0 <= i < |r| - |s| ==> r[i] == c
  {
    if |s| >= ancho then s else Repetir(c, ancho - |s|) + s
  }

  /**
   * How `asignarTurno` renders a ticket number: at least three characters,
   * ending in `String(turno)`; for a non-negative ticket, only digits.
   */
  function FormatearTurno(turno: int): (r: string)
    ensures |r| >= Ancho && |r| >= |JsString(turno)|
    ensures r[|r| - |JsString(turno)|..] == JsString(turno)
    ensures turno >= 0 ==> SoloDigitos(r)
  {
    var t := PadStart(JsString(turno), Ancho, '0');
    assert turno >= 0 ==> forall i :: 0 <= i < |t| ==> EsDigito(t[i]) by {
      if turno >= 0 {
        var s := JsString(turno);
        forall i | 0 <= i < |t|
          ensures EsDigito(t[i])
        {
          if i >= |t| - |s| {
            assert t[i] == t[|t| - |s|..][i - (|t| - |s|)];
          }
        }
      }
    }
    t
  }

  /** The number a string of decimal digits denotes (leading zeros allowed). */
  function ValorDecimal(s: string): nat
    requires SoloDigitos(s)
    decreases |s|
  {
    if s == [] then 0 else ValorDecimal(s[..|s| - 1]) * 10 + (s[|s| - 1] as int - '0' as int)
  }

  /** Reading back the digits of `n` gives `n`. */
  lemma {:induction false} ValorDeDecimal(n: nat)
    ensures ValorDecimal(Decimal(n)) == n
    decreases n
  {
    if n >= 10 {
      var s := Decimal(n);
      assert s[..|s| - 1] == Decimal(n / 10);
      ValorDeDecimal(n / 10);
    }
  }

  /** A number needs at most three digits exactly when it is below 1000. */
  lemma {:induction false} LongitudDecimal(n: nat)
    ensures n < 10 ==> |Decimal(n)| == 1
    ensures 10 <= n < 100 ==> |Decimal(n)| == 2
    ensures 100 <= n < 1000 ==> |Decimal(n)| == 3
    ensures n >= 1000 ==> |Decimal(n)| > 3
    decreases n
  {
    if n >= 10 {
      LongitudDecimal(n / 10);
    }
  }

  lemma {:induction false} ValorDeCeros(k: nat)
    ensures ValorDecimal(Repetir('0', k)) == 0
  {
    if k > 0 {
      assert Repetir('0', k)[..k - 1] == Repetir('0', k - 1);
      ValorDeCeros(k - 1);
    }
  }

  /** Leading zeros do not change the value of a digit string. */
  lemma {:induction false} CerosALaIzquierda(k: nat, s: string)
    requires SoloDigitos(s)
    ensures SoloDigitos(Repetir('0', k) + s)
    ensures ValorDecimal(Repetir('0', k) + s) == ValorDecimal(s)
    decreases |s|
  {
    var t := Repetir('0', k) + s;
    if s == [] {
      assert t == Repetir('0', k);
      ValorDeCeros(k);
    } else {
      assert t[..|t| - 1] == Repetir('0', k) + s[..|s| - 1];
      CerosALaIzquierda(k, s[..|s| - 1]);
    }
  }

  /**
   * Every ticket from 0 to 999 is shown as exactly three digits, and those
   * digits read back as the ticket.
   */
  lemma FormatoDeTurno(turno: int)
    requires 0 <= turno < 1000
    ensures |FormatearTurno(turno)| == Ancho
    ensures SoloDigitos(FormatearTurno(turno))
    ensures ValorDecimal(FormatearTurno(turno)) == turno
  {
    var s := Decimal(turno);
    LongitudDecimal(turno);
    ValorDeDecimal(turno);
    CerosALaIzquierda(Ancho - |s|, s);
    assert FormatearTurno(turno) == Repetir('0', Ancho - |s|) + s;
  }

  /** Distinct tickets below 1000 are never shown with the same string. */
  lemma FormatoInyectivo(a: int, b: int)
    requires 0 <= a < 1000 && 0 <= b < 1000
    requires FormatearTurno(a) == FormatearTurno(b)
    ensures a == b
  {
    FormatoDeTurno(a);
    FormatoDeTurno(b);
  }

  /** From 1000 on, no padding is added: the display is the bare digits. */
  lemma FormatoSinRelleno(turno: int)
    requires turno >= 1000
    ensures FormatearTurno(turno) == Decimal(turno)
  {
    LongitudDecimal(turno);
  }

  /** Ticket 1 is displayed as "001". */
  lemma FormatoDelUno()
    ensures FormatearTurno(1) == "001"
  {
    assert Decimal(1) == "1";
  }
}
