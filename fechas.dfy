/** Calendar arithmetic of the proleptic Gregorian calendar as Python's
    `datetime` module performs it, reduced to whole days and minutes. */
module Fechas {
  import opened Envoltorios
  import opened Secuencias

  /** A timestamp, in minutes: `ordinal * MinutosPorDia + minuto del dia`,
      where the ordinal of 0001-01-01 is 1 (Python's `toordinal`). */
  type Instante = int

  const MinutosPorDia: int := 1440
  const AnioMinimo: int := 1
  const AnioMaximo: int := 9999

  /** Days in each month of a common year, index 1..12 (index 0 unused). */
  const DiasPorMes: seq<int> := [-1, 31, 28, 31, 30, 31, 30, 31, 31, 30, 31, 30, 31]
  /** Days of a common year before the first of each month, index 1..12. */
  const DiasAntesDeMes: seq<int> := [-1, 0, 31, 59, 90, 120, 151, 181, 212, 243, 273, 304, 334]

  predicate EsBisiesto(anio: int) {
    anio % 4 == 0 && (anio % 100 != 0 || anio % 400 == 0)
  }

  function DiasEnMes(anio: int, mes: int): (n: int)
    requires 1 <= mes <= 12
    ensures 28 <= n <= 31
    ensures n == 29 <==> mes == 2 && EsBisiesto(anio)
  {
    if mes == 2 && EsBisiesto(anio) then 29 else DiasPorMes[mes]
  }

  /** Days before January 1st of `anio`, counted from 0001-01-01. */
  function DiasAntesDelAnio(anio: int): int {
    var y := anio - 1;
    y * 365 + y / 4 - y / 100 + y / 400
  }

  function DiasAntesDelMes(anio: int, mes: int): int
    requires 1 <= mes <= 12
  {
    DiasAntesDeMes[mes] + (if mes > 2 && EsBisiesto(anio) then 1 else 0)
  }

  /** The proleptic Gregorian ordinal of a date (0001-01-01 is 1). */
  function Ordinal(anio: int, mes: int, dia: int): int
    requires 1 <= mes <= 12
  {
    DiasAntesDelAnio(anio) + DiasAntesDelMes(anio, mes) + dia
  }

  /** 00:00 of the day with the given ordinal. */
  function Medianoche(ordinal: int): Instante {
    ordinal * MinutosPorDia
  }

  /** The ordinal of the day an instant falls on. */
  function OrdinalDe(t: Instante): int {
    t / MinutosPorDia
  }

  /** Python's `weekday()`: Monday is 0 and Sunday is 6. */
  function DiaSemana(t: Instante): (w: int)
    ensures 0 <= w < 7
  {
    (OrdinalDe(t) + 6) % 7
  }

  /** The weekday names used by the engine, indexed by `weekday()`. */
  const DiasSemana: seq<string> := ["Lunes", "Martes", "Miercoles", "Jueves", "Viernes", "Sabado", "Domingo"]

  /** The seven weekday names are distinct. */
  lemma DiasSemanaDistintos()
    ensures |DiasSemana| == 7 && SinRepetidos(DiasSemana)
  {
  }

  /** `(fin - inicio).days`: a timedelta's day count, rounded down. */
  function DiasEntre(inicio: Instante, fin: Instante): int {
    (fin - inicio) / MinutosPorDia
  }

  /** A year's length: 365 days, 366 in a leap year. */
  lemma DuracionDelAnio(anio: int)
    ensures DiasAntesDelAnio(anio + 1) == DiasAntesDelAnio(anio) + 365 + (if EsBisiesto(anio) then 1 else 0)
  {
    var y := anio - 1;
    assert (y + 1) / 4 == y / 4 + (if anio % 4 == 0 then 1 else 0);
    assert (y + 1) / 100 == y / 100 + (if anio % 100 == 0 then 1 else 0);
    assert (y + 1) / 400 == y / 400 + (if anio % 400 == 0 then 1 else 0);
  }

  /** The month after (anio, mes), December rolling over to January. */
  function MesSiguiente(anio: int, mes: int): (int, int)
    requires 1 <= mes <= 12
  {
    if mes < 12 then (anio, mes + 1) else (anio + 1, 1)
  }

  /** The first of the next month comes `DiasEnMes` days after the first of this one. */
  lemma DuracionDelMes(anio: int, mes: int)
    requires 1 <= mes <= 12
    ensures var (a, m) := MesSiguiente(anio, mes);
            1 <= m <= 12 && Ordinal(a, m, 1) == Ordinal(anio, mes, 1) + DiasEnMes(anio, mes)
  {
    if mes == 12 {
      DuracionDelAnio(anio);
    }
  }

  /** `datetime(anio, mes, 1)` and the first of the following month both exist. */
  predicate MesRepresentable(anio: int, mes: int) {
    && AnioMinimo <= anio <= AnioMaximo
    && 1 <= mes <= 12
    && !(mes == 12 && anio == AnioMaximo)
  }

  /** The range used for a monthly report (estadisticas.py lines 30-31 and
      133-134): from 00:00 of the first day to the first of the next month
      minus one day, that is 00:00 of the LAST day, so the rest of the last
      day is outside. `datetime` raises ValueError for a month outside
      1..12, a year outside 1..9999, and for December 9999, whose next
      January does not exist. */
  function RangoDelMes(anio: int, mes: int): (r: Resultado<(Instante, Instante)>)
    ensures r.Ok? <==> MesRepresentable(anio, mes)
    ensures r.Ok? ==> 1 <= mes <= 12
                      && r.valor.0 == Medianoche(Ordinal(anio, mes, 1))
                      && r.valor.1 == Medianoche(Ordinal(anio, mes, DiasEnMes(anio, mes)))
                      && r.valor.0 < r.valor.1
  {
    if !(AnioMinimo <= anio <= AnioMaximo && 1 <= mes <= 12) then ValueError
    else if mes == 12 && anio + 1 > AnioMaximo then ValueError
    else
      var (a, m) := MesSiguiente(anio, mes);
      DuracionDelMes(anio, mes);
      Ok((Medianoche(Ordinal(anio, mes, 1)), Medianoche(Ordinal(a, m, 1) - 1)))
  }

  /** Every minute of the last day after 00:00 falls after the month's range end. */
  lemma UltimoDiaQuedaFuera(anio: int, mes: int, minuto: int)
    requires MesRepresentable(anio, mes)
    requires 0 < minuto < MinutosPorDia
    ensures var t := Medianoche(Ordinal(anio, mes, DiasEnMes(anio, mes))) + minuto;
            OrdinalDe(t) == Ordinal(anio, mes, DiasEnMes(anio, mes)) && RangoDelMes(anio, mes).valor.1 < t
  {
  }

  /** Two midnights are as many days apart as their ordinals. */
  lemma DiasEntreMedianoches(a: int, b: int)
    ensures DiasEntre(Medianoche(a), Medianoche(b)) == b - a
  {
    assert Medianoche(b) - Medianoche(a) == (b - a) * MinutosPorDia;
  }

  /** The day count of a timedelta is non-negative exactly when the range is not reversed. */
  lemma DiasEntreNoNegativo(inicio: Instante, fin: Instante)
    ensures DiasEntre(inicio, fin) >= 0 <==> inicio <= fin
  {
  }

  /** 2024-02-15 was a Thursday (weekday 3). */
  lemma QuinceDeFebrero2024EsJueves()
    ensures DiaSemana(Medianoche(Ordinal(2024, 2, 15))) == 3
  {
  }

  // ----- the "YYYY-MM" label of a report period -----

  function Digito(d: int): (c: char)
    requires 0 <= d < 10
    ensures c as int - '0' as int == d
  {
    "0123456789"[d]
  }

  /** The decimal numeral of n, without leading zeros (Python's `str` of an int). */
  function Decimal(n: nat): (s: string)
    ensures |s| >= 1
    ensures forall i :: 0 <= i < |s| ==> '0' <= s[i] <= '9'
    ensures n < 10 <==> |s| == 1
  {
    if n < 10 then [Digito(n)] else Decimal(n / 10) + [Digito(n % 10)]
  }

  /** The number a string of decimal digits denotes. */
  function ValorDecimal(s: string): int {
    if s == [] then 0 else ValorDecimal(s[..|s| - 1]) * 10 + (s[|s| - 1] as int - '0' as int)
  }

  lemma {:induction false} DecimalIdaYVuelta(n: nat)
    ensures ValorDecimal(Decimal(n)) == n
  {
    if n >= 10 {
      DecimalIdaYVuelta(n / 10);
      var s := Decimal(n);
      assert s[..|s| - 1] == Decimal(n / 10);
    }
  }

  /** f'{anio}-{mes:02d}': the year, a dash, and the month on two digits. */
  function TextoPeriodo(anio: nat, mes: int): (s: string)
    requires 1 <= mes <= 12
    ensures |s| == |Decimal(anio)| + 3 && s[|s| - 3] == '-'
    ensures forall i :: 0 <= i < |s| && i != |s| - 3 ==> '0' <= s[i] <= '9'
    ensures ValorDecimal(s[..|s| - 3]) == anio
    ensures ValorDecimal(s[|s| - 2..]) == mes
  {
    var dos := [Digito(mes / 10), Digito(mes % 10)];
    DecimalIdaYVuelta(anio);
    var s := Decimal(anio) + "-" + dos;
    assert s[..|s| - 3] == Decimal(anio);
    assert s[|s| - 2..] == dos;
    assert dos[..1] == [dos[0]] && [dos[0]][..0] == [];
    assert ValorDecimal(dos[..1]) == mes / 10;
    s
  }

  lemma TextoPeriodoFebrero2024()
    ensures TextoPeriodo(2024, 2) == "2024-02"
  {
  }
}
