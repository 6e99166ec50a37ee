/** The statistics engine of one dentist: it holds that dentist's
    appointments and reduces them to the figures of a report. */
module Estadisticas {
  import opened Envoltorios
  import opened Fechas
  import opened Secuencias
  import opened Diccionarios
  import opened Citas

  /** The figures of `resumen_mensual`, unrounded. */
  datatype Resumen = Resumen(
    periodo: string,
    totalCitas: int,
    citasCompletadas: int,
    citasCanceladas: int,
    pacientesUnicos: int,
    ingresosTotales: real,
    tasaCancelacion: real,
    calificacionPromedio: real)

  /** The counts of `pacientes_nuevos_vs_recurrentes`. */
  datatype AnalisisPacientes = AnalisisPacientes(nuevos: int, recurrentes: int, total: int)

  /** One entry `{'servicio': s, 'cantidad': c}` of the top-services list. */
  datatype ServicioCantidad = ServicioCantidad(servicio: string, cantidad: int)

  /** `{'citas': n, 'ingresos': x}` of one period of a comparison. */
  datatype Periodo = Periodo(citas: int, ingresos: real)

  datatype Comparacion = Comparacion(
    periodo1: Periodo,
    periodo2: Periodo,
    citasPorcentaje: real,
    ingresosPorcentaje: real)

  /** What `generar_reporte_completo` assembles, before serialisation. */
  datatype Reporte = Reporte(
    dentistaId: string,
    periodoReporte: string,
    resumenMensual: Resumen,
    distribucionServicios: Dict<int>,
    ingresosPorPago: Dict<real>,
    cargaPorDia: Dict<real>,
    pacientesAnalisis: AnalisisPacientes,
    topServicios: seq<ServicioCantidad>)

  /** `total_dias / 7` where `total_dias = (fin - inicio).days + 1`. */
  function SemanasEnRango(inicio: Instante, fin: Instante): real {
    (DiasEntre(inicio, fin) + 1) as real / 7.0
  }

  /** The number of weeks is positive exactly when the range is not reversed;
      a range of a single instant counts as one seventh of a week. */
  lemma SemanasPositivas(inicio: Instante, fin: Instante)
    ensures SemanasEnRango(inicio, fin) > 0.0 <==> inicio <= fin
    ensures inicio == fin ==> SemanasEnRango(inicio, fin) == 1.0 / 7.0
  {
    DiasEntreNoNegativo(inicio, fin);
  }

  /** Over a report month, whose range ends at 00:00 of the last day,
      `total_dias` is the month's length, so the weeks are its length over 7. */
  lemma SemanasDelMes(anio: int, mes: int)
    requires MesRepresentable(anio, mes)
    ensures SemanasEnRango(RangoDelMes(anio, mes).valor.0, RangoDelMes(anio, mes).valor.1) == DiasEnMes(anio, mes) as real / 7.0
  {
    DiasEntreMedianoches(Ordinal(anio, mes, 1), Ordinal(anio, mes, DiasEnMes(anio, mes)));
  }

  /** The percentage change from viejo to nuevo; from a zero base any
      increase counts as 100 and anything else as 0. */
  function Crecimiento(viejo: real, nuevo: real): (g: real)
    ensures viejo == 0.0 ==> g == if nuevo > 0.0 then 100.0 else 0.0
    ensures viejo != 0.0 ==> g * viejo == (nuevo - viejo) * 100.0
  {
    if viejo == 0.0 then (if nuevo > 0.0 then 100.0 else 0.0)
    else ((nuevo - viejo) / viejo) * 100.0
  }

  /** Applying a non-zero base's growth to the base gives back the new value. */
  lemma CrecimientoInverso(viejo: real, nuevo: real)
    requires viejo != 0.0
    ensures viejo + viejo * Crecimiento(viejo, nuevo) / 100.0 == nuevo
  {
    var g := Crecimiento(viejo, nuevo);
    assert viejo * g / 100.0 == (g * viejo) / 100.0;
  }

  /** The growth figures worked out for three pairs of periods. */
  lemma CrecimientoEjemplos()
    ensures Crecimiento(0.0, 5.0) == 100.0
    ensures Crecimiento(0.0, 0.0) == 0.0
    ensures Crecimiento(100.0, 150.0) == 50.0
  {
  }

  /** From a non-negative base, growth is positive exactly when the value rose,
      and zero exactly when it stayed the same (positive base) or the new value is at most zero (zero base). */
  lemma CrecimientoSigno(viejo: real, nuevo: real)
    requires viejo >= 0.0
    ensures Crecimiento(viejo, nuevo) > 0.0 <==> nuevo > viejo
    ensures viejo > 0.0 ==> (Crecimiento(viejo, nuevo) == 0.0 <==> nuevo == viejo)
    ensures viejo == 0.0 ==> (Crecimiento(viejo, nuevo) == 0.0 <==> nuevo <= 0.0)
  {
    if viejo > 0.0 {
      var g := Crecimiento(viejo, nuevo);
      assert g * viejo == (nuevo - viejo) * 100.0;
      if g > 0.0 { assert g * viejo > 0.0; }
      if nuevo > viejo { assert g * viejo > 0.0; }
    }
  }

  /** `canceladas / total * 100`, or 0 when there are no appointments. */
  function TasaCancelacion(canceladas: int, total: int): (t: real)
    ensures total == 0 ==> t == 0.0
    ensures total > 0 ==> t * (total as real) == (canceladas as real) * 100.0
    ensures 0 <= canceladas <= total ==> 0.0 <= t <= 100.0
  {
    if total > 0 then
      var t := (canceladas as real) / (total as real) * 100.0;
      assert t * (total as real) == (canceladas as real) * 100.0;
      t
    else 0.0
  }

  /** `sum(xs) / len(xs)`, or 0 for no values. */
  function Promedio(xs: seq<real>): (m: real)
    ensures xs == [] ==> m == 0.0
    ensures xs != [] ==> m * (|xs| as real) == SumaReales(xs)
    ensures xs != [] && Acotados(xs, 1.0, 5.0) ==> 1.0 <= m <= 5.0
  {
    if xs == [] then 0.0
    else
      var m := SumaReales(xs) / (|xs| as real);
      assert m * (|xs| as real) == SumaReales(xs);
      if Acotados(xs, 1.0, 5.0) then PromedioAcotado(xs, 1.0, 5.0); m else m
  }

  /** The service names of a list of entries. */
  function ServiciosDe(entradas: seq<ServicioCantidad>): set<string> {
    set e | e in entradas :: e.servicio
  }

  /** `distribucion.items()` in key order. */
  function Entradas(d: Dict<int>): (r: seq<ServicioCantidad>)
    requires Valido(d)
    ensures |r| == |d.claves|
    ensures forall i :: 0 <= i < |r| ==> r[i] == ServicioCantidad(d.claves[i], d.valores[d.claves[i]])
  {
    seq(|d.claves|, i requires 0 <= i < |d.claves| => ServicioCantidad(d.claves[i], d.valores[d.claves[i]]))
  }

  /** Sorting ascending by this key is `sorted(..., key=cantidad, reverse=True)`:
      descending counts, ties kept in dict order. */
  function Prioridad(e: ServicioCantidad): int {
    -e.cantidad
  }

  /** The first `limite` entries (Python slice) of the entries sorted by descending count. */
  function MasSolicitados(d: Dict<int>, limite: int): (top: seq<ServicioCantidad>)
    requires Valido(d)
    ensures limite >= 0 ==> |top| == if limite <= |d.claves| then limite else |d.claves|
    ensures limite < 0 ==> |top| == if |d.claves| + limite >= 0 then |d.claves| + limite else 0
    ensures |top| <= |d.claves|
    ensures forall i, j :: 0 <= i < j < |top| ==> top[i].cantidad >= top[j].cantidad
    ensures forall i :: 0 <= i < |top| ==> top[i].servicio in d.valores && top[i].cantidad == d.valores[top[i].servicio]
    ensures forall i, j :: 0 <= i < j < |top| ==> top[i].servicio != top[j].servicio
    ensures forall k :: k in d.valores && k !in ServiciosDe(top) ==>
              forall i :: 0 <= i < |top| ==> d.valores[k] <= top[i].cantidad
  {
    var entradas := Entradas(d);
    var ordenadas := OrdenarPor(entradas, Prioridad);
    MasSolicitadosCorrecto(d, entradas, ordenadas);
    Tomar(ordenadas, limite)
  }

  lemma MasSolicitadosCorrecto(d: Dict<int>, entradas: seq<ServicioCantidad>, ordenadas: seq<ServicioCantidad>)
    requires Valido(d) && entradas == Entradas(d)
    requires multiset(ordenadas) == multiset(entradas) && Ordenada(ordenadas, Prioridad)
    ensures |ordenadas| == |d.claves|
    ensures forall i :: 0 <= i < |ordenadas| ==>
              ordenadas[i].servicio in d.valores && ordenadas[i].cantidad == d.valores[ordenadas[i].servicio]
    ensures forall i, j :: 0 <= i < j < |ordenadas| ==> ordenadas[i].servicio != ordenadas[j].servicio
    ensures forall k :: k in d.valores ==> exists p :: 0 <= p < |ordenadas| && ordenadas[p].servicio == k
  {
    assert |ordenadas| == |multiset(ordenadas)| == |multiset(entradas)| == |entradas|;
    forall i | 0 <= i < |ordenadas|
      ensures ordenadas[i].servicio in d.valores && ordenadas[i].cantidad == d.valores[ordenadas[i].servicio]
    {
      assert ordenadas[i] in multiset(entradas);
    }
    assert SinRepetidos(entradas);
    PermutacionSinRepetidos(entradas, ordenadas);
    forall k | k in d.valores
      ensures exists p :: 0 <= p < |ordenadas| && ordenadas[p].servicio == k
    {
      var m :| 0 <= m < |d.claves| && d.claves[m] == k;
      assert entradas[m] in multiset(ordenadas);
      var p :| 0 <= p < |ordenadas| && ordenadas[p] == entradas[m];
    }
  }

  /** What `distribucion_servicios` promises over the records `periodo`: the
      count of the completed services, whose keys are exactly the services of
      completed records, each at least 1, totalling the completed records. */
  ghost predicate DistribucionDe(d: Dict<int>, periodo: seq<Cita>) {
    && Conteo(d, ServiciosCompletados(periodo))
    && (forall k :: k in d.valores ==> d.valores[k] >= 1)
    && (forall k :: k in d.valores <==> exists c :: c in periodo && EsCompletada(c) && c.nombreServicio == k)
    && SumaEnteros(d) == |Completadas(periodo)|
  }

  /** What `ingresos_por_pago` promises over the records `periodo`: the
      methods of completed records in first-use order, each holding its
      completed revenue, the values totalling the completed revenue. */
  ghost predicate IngresosDe(d: Dict<real>, periodo: seq<Cita>) {
    && Valido(d)
    && d.claves == Distintos(MetodosCompletados(periodo))
    && (forall k :: k in d.valores ==> d.valores[k] == IngresoMetodo(periodo, k))
    && (forall k :: k in d.valores <==> exists c :: c in periodo && EsCompletada(c) && c.metodoPago == k)
    && SumaRealesDict(d) == IngresoTotal(periodo)
  }

  /** What `servicios_mas_solicitados` promises of `top` for the completed
      service names `servicios`: `ordenados[:limite]` of the services by
      descending count, so exactly as many entries as the slice keeps. */
  ghost predicate TopDeServicios(top: seq<ServicioCantidad>, servicios: seq<string>, limite: int) {
    var n := |Distintos(servicios)|;
    && (limite >= 0 ==> |top| == if limite <= n then limite else n)
    && (limite < 0 ==> |top| == if n + limite >= 0 then n + limite else 0)
    && (forall i, j :: 0 <= i < j < |top| ==> top[i].cantidad >= top[j].cantidad)
    && (forall i :: 0 <= i < |top| ==> top[i].servicio in servicios && top[i].cantidad == multiset(servicios)[top[i].servicio])
    && (forall i, j :: 0 <= i < j < |top| ==> top[i].servicio != top[j].servicio)
    && (forall k :: k in servicios && k !in ServiciosDe(top) ==>
          forall i :: 0 <= i < |top| ==> multiset(servicios)[k] <= top[i].cantidad)
  }

  /** The top entries of a count of ks, stated in terms of ks itself. */
  lemma MasSolicitadosDeConteo(d: Dict<int>, ks: seq<string>, limite: int)
    requires Conteo(d, ks)
    ensures TopDeServicios(MasSolicitados(d, limite), ks, limite)
  {
    forall k
      ensures k in d.valores <==> k in ks
    {
      ConteoPositivo(d, ks, k);
    }
  }

  /** `{dia: cuentas[dia] / semanas if semanas > 0 else 0 for dia in dias_semana}`. */
  function PorSemana(cuentas: Dict<int>, semanas: real): (carga: Dict<real>)
    ensures Valido(carga) && carga.claves == DiasSemana
    ensures forall w :: 0 <= w < 7 ==> DiasSemana[w] in carga.valores
    ensures forall w :: 0 <= w < 7 ==>
              carga.valores[DiasSemana[w]] == if semanas > 0.0 then (ObtenerO(cuentas.valores, DiasSemana[w], 0) as real) / semanas else 0.0
  {
    DiasSemanaDistintos();
    Dict(DiasSemana, map dia | dia in DiasSemana :: if semanas > 0.0 then (ObtenerO(cuentas.valores, dia, 0) as real) / semanas else 0.0)
  }

  /** What a count of the completed services says about the appointments. */
  lemma ServiciosDeConteo(d: Dict<int>, s: seq<Cita>)
    requires Conteo(d, ServiciosCompletados(s))
    ensures forall k :: k in d.valores ==> d.valores[k] >= 1
    ensures forall k :: k in d.valores <==> exists c :: c in s && EsCompletada(c) && c.nombreServicio == k
    ensures SumaEnteros(d) == |Completadas(s)|
  {
    ServiciosCompletadosLongitud(s);
    forall k
      ensures k in d.valores <==> exists c :: c in s && EsCompletada(c) && c.nombreServicio == k
      ensures k in d.valores ==> d.valores[k] >= 1
    {
      ConteoPositivo(d, ServiciosCompletados(s), k);
      ServiciosCompletadosMiembro(s, k);
    }
  }

  /** A count of the completed weekday names holds, under each name, that weekday's CuentaDia. */
  lemma DiasDeConteo(d: Dict<int>, s: seq<Cita>)
    requires Conteo(d, DiasCompletados(s))
    ensures forall w :: 0 <= w < 7 ==> ObtenerO(d.valores, DiasSemana[w], 0) == CuentaDia(s, w)
  {
    forall w | 0 <= w < 7
      ensures ObtenerO(d.valores, DiasSemana[w], 0) == CuentaDia(s, w)
    {
      DiasCompletadosCuenta(s, w);
    }
  }

  /** The sums by method of the payments list are the takings by payment method. */
  lemma IngresosDePagos(d: Dict<real>, s: seq<Cita>)
    requires Acumulado(d, Pagos(s))
    ensures d.claves == Distintos(MetodosCompletados(s))
    ensures forall k :: k in d.valores ==> d.valores[k] == IngresoMetodo(s, k)
    ensures forall k :: k in d.valores <==> exists c :: c in s && EsCompletada(c) && c.metodoPago == k
    ensures SumaRealesDict(d) == IngresoTotal(s)
  {
    PagosCorresponden(s);
    forall k
      ensures k in d.valores ==> d.valores[k] == IngresoMetodo(s, k)
      ensures k in d.valores <==> exists c :: c in s && EsCompletada(c) && c.metodoPago == k
    {
      PagosPorMetodo(s, k);
      AcumuladoClaves(d, Pagos(s), k);
      MetodosCompletadosMiembro(s, k);
    }
  }

  /** `primera_cita`: each patient's date on their first appointment in the date-sorted history. */
  method PrimerasCitas(ordenadas: seq<Cita>) returns (primera: map<string, Instante>)
    requires Ordenada(ordenadas, FechaDe)
    ensures forall p :: p in primera ==>
              exists j :: 0 <= j < |ordenadas| && ordenadas[j].pacienteId == p && ordenadas[j].citaFecha == primera[p]
    ensures forall j :: 0 <= j < |ordenadas| ==>
              ordenadas[j].pacienteId in primera && primera[ordenadas[j].pacienteId] <= ordenadas[j].citaFecha
  {
    primera := map[];
    for i := 0 to |ordenadas|
      invariant forall p :: p in primera ==>
                  exists j :: 0 <= j < i && ordenadas[j].pacienteId == p && ordenadas[j].citaFecha == primera[p]
      invariant forall j :: 0 <= j < i ==>
                  ordenadas[j].pacienteId in primera && primera[ordenadas[j].pacienteId] <= ordenadas[j].citaFecha
    {
      var c := ordenadas[i];
      if c.pacienteId !in primera {
        primera := primera[c.pacienteId := c.citaFecha];
      }
    }
  }

  /** What the first-seen dates built from a date-sorted copy of the history decide. */
  lemma PrimeraCitaDecide(citas: seq<Cita>, ordenadas: seq<Cita>, primera: map<string, Instante>, inicio: Instante)
    requires multiset(ordenadas) == multiset(citas)
    requires forall p :: p in primera ==>
               exists j :: 0 <= j < |ordenadas| && ordenadas[j].pacienteId == p && ordenadas[j].citaFecha == primera[p]
    requires forall j :: 0 <= j < |ordenadas| ==>
               ordenadas[j].pacienteId in primera && primera[ordenadas[j].pacienteId] <= ordenadas[j].citaFecha
    ensures forall c :: c in citas ==> c.pacienteId in primera
    ensures forall p :: p in primera ==> (primera[p] >= inicio <==> EsNuevo(citas, p, inicio))
  {
    forall c | c in citas
      ensures c.pacienteId in primera && primera[c.pacienteId] <= c.citaFecha
    {
      assert c in multiset(ordenadas);
      var k :| 0 <= k < |ordenadas| && ordenadas[k] == c;
    }
    forall p | p in primera
      ensures primera[p] >= inicio <==> EsNuevo(citas, p, inicio)
    {
      var j :| 0 <= j < |ordenadas| && ordenadas[j].pacienteId == p && ordenadas[j].citaFecha == primera[p];
      assert ordenadas[j] in multiset(citas);
    }
  }

  /** The second loop of `pacientes_nuevos_vs_recurrentes`: each patient with a
      completed appointment in periodo is counted once, as new when their
      first date is at or after inicio. */
  method Clasificar(periodo: seq<Cita>, citas: seq<Cita>, primera: map<string, Instante>, inicio: Instante)
    returns (nuevos: int, recurrentes: int)
    requires forall c :: c in periodo ==> c.pacienteId in primera
    requires forall p :: p in primera ==> (primera[p] >= inicio <==> EsNuevo(citas, p, inicio))
    ensures nuevos == |Nuevos(Atendidos(periodo), citas, inicio)|
    ensures recurrentes == |Recurrentes(Atendidos(periodo), citas, inicio)|
  {
    nuevos, recurrentes := 0, 0;
    var analizados: set<string> := {};
    for i := 0 to |periodo|
      invariant analizados == Atendidos(periodo[..i])
      invariant nuevos == |Nuevos(analizados, citas, inicio)|
      invariant recurrentes == |Recurrentes(analizados, citas, inicio)|
    {
      var c := periodo[i];
      assert periodo[..i + 1][..i] == periodo[..i];
      if !EsCompletada(c) {
        continue;
      }
      if c.pacienteId in analizados {
        continue;
      }
      ClasificarUnoMas(analizados, c.pacienteId, citas, inicio);
      analizados := analizados + {c.pacienteId};
      if primera[c.pacienteId] >= inicio {
        nuevos := nuevos + 1;
      } else {
        recurrentes := recurrentes + 1;
      }
    }
    assert periodo[..|periodo|] == periodo;
  }

  /** The engine: a dentist id fixed at construction and the loaded appointments. */
  class MotorEstadisticas {
    const dentistaId: string
    var citas: seq<Cita>

    constructor (dentistaId: string)
      ensures this.dentistaId == dentistaId && citas == []
    {
      this.dentistaId := dentistaId;
      citas := [];
    }

    /** Replaces the appointments by the input's own-dentist records, in input order. */
    method CargarCitas(entrada: seq<Cita>)
      modifies this
      ensures EsSubsecuencia(citas, entrada)
      ensures forall c :: multiset(citas)[c] == if c.dentistaId == dentistaId then multiset(entrada)[c] else 0
    {
      var delDentista := (c: Cita) => c.dentistaId == dentistaId;
      citas := Filtro(entrada, delDentista);
      FiltroEsSubsecuencia(entrada, delDentista);
    }

    /** The loaded appointments with `inicio <= cita_fecha <= fin`, in their order. */
    function FiltrarPorRangoFechas(inicio: Instante, fin: Instante): (r: seq<Cita>)
      reads this
      ensures EsSubsecuencia(r, citas)
      ensures forall c :: c in r <==> c in citas && inicio <= c.citaFecha <= fin
      ensures forall c :: multiset(r)[c] == if inicio <= c.citaFecha <= fin then multiset(citas)[c] else 0
    {
      var enRango := (c: Cita) => inicio <= c.citaFecha <= fin;
      assert forall c :: enRango(c) == (inicio <= c.citaFecha <= fin);
      FiltroEsSubsecuencia(citas, enRango);
      Filtro(citas, enRango)
    }

    /** The month's figures over the month range of `RangoDelMes`. */
    function ResumenMensual(anio: int, mes: int): (r: Resultado<Resumen>)
      reads this
      ensures r.ValueError? <==> !MesRepresentable(anio, mes)
      ensures r.Ok? ==>
        var enMes := FiltrarPorRangoFechas(RangoDelMes(anio, mes).valor.0, RangoDelMes(anio, mes).valor.1);
        var v := r.valor;
        && 1 <= anio && 1 <= mes <= 12 && v.periodo == TextoPeriodo(anio, mes)
        && v.totalCitas == |enMes|
        && v.citasCompletadas == |Completadas(enMes)|
        && v.citasCanceladas == |Canceladas(enMes)|
        && v.citasCompletadas + v.citasCanceladas <= v.totalCitas
        && v.pacientesUnicos == |Atendidos(enMes)| <= v.citasCompletadas
        && v.ingresosTotales == IngresoTotal(enMes)
        && v.tasaCancelacion == TasaCancelacion(v.citasCanceladas, v.totalCitas)
        && 0.0 <= v.tasaCancelacion <= 100.0
        && v.calificacionPromedio == Promedio(Calificaciones(enMes))
    {
      match RangoDelMes(anio, mes)
      case ValueError => ValueError
      case Ok((inicio, fin)) =>
        var enMes := FiltrarPorRangoFechas(inicio, fin);
        var completadas := Completadas(enMes);
        var canceladas := Canceladas(enMes);
        var total := |enMes|;
        CompletadasYCanceladas(enMes);
        AtendidosAcotados(enMes);
        Ok(Resumen(TextoPeriodo(anio, mes), total, |completadas|, |canceladas|, |Atendidos(enMes)|,
                   IngresoTotal(enMes), TasaCancelacion(|canceladas|, total), Promedio(Calificaciones(enMes))))
    }

    /** The completed count and revenue of two ranges and their growth. */
    function CompararPeriodos(inicio1: Instante, fin1: Instante, inicio2: Instante, fin2: Instante): (r: Comparacion)
      reads this
      ensures var uno := FiltrarPorRangoFechas(inicio1, fin1);
              var dos := FiltrarPorRangoFechas(inicio2, fin2);
              && r.periodo1 == Periodo(|Completadas(uno)|, IngresoTotal(uno))
              && r.periodo2 == Periodo(|Completadas(dos)|, IngresoTotal(dos))
      ensures r.citasPorcentaje == Crecimiento(r.periodo1.citas as real, r.periodo2.citas as real)
      ensures r.ingresosPorcentaje == Crecimiento(r.periodo1.ingresos, r.periodo2.ingresos)
      ensures r.citasPorcentaje > 0.0 <==> r.periodo2.citas > r.periodo1.citas
    {
      var uno := FiltrarPorRangoFechas(inicio1, fin1);
      var dos := FiltrarPorRangoFechas(inicio2, fin2);
      var citas1 := Completadas(uno);
      var citas2 := Completadas(dos);
      var ingresos1 := IngresoTotal(uno);
      var ingresos2 := IngresoTotal(dos);
      CrecimientoSigno(|citas1| as real, |citas2| as real);
      Comparacion(
        Periodo(|citas1|, ingresos1),
        Periodo(|citas2|, ingresos2),
        Crecimiento(|citas1| as real, |citas2| as real),
        Crecimiento(ingresos1, ingresos2))
    }

    /** `distribucion_servicios`: per service, the number of completed appointments in the range. */
    method DistribucionServicios(inicio: Instante, fin: Instante) returns (distribucion: Dict<int>)
      ensures DistribucionDe(distribucion, FiltrarPorRangoFechas(inicio, fin))
    {
      var periodo := FiltrarPorRangoFechas(inicio, fin);
      distribucion := ContarPorClave(ServiciosCompletados(periodo));
      ServiciosDeConteo(distribucion, periodo);
    }

    /** `ingresos_por_pago`: per payment method, the summed amount of the completed appointments in the range. */
    method IngresosPorPago(inicio: Instante, fin: Instante) returns (ingresos: Dict<real>)
      ensures IngresosDe(ingresos, FiltrarPorRangoFechas(inicio, fin))
    {
      var periodo := FiltrarPorRangoFechas(inicio, fin);
      ingresos := SumarPorClave(Pagos(periodo));
      IngresosDePagos(ingresos, periodo);
    }

    /** `carga_por_dia`: per weekday name, the completed appointments on that
        weekday divided by the number of weeks in the range, or 0 for a reversed range. */
    method CargaPorDia(inicio: Instante, fin: Instante) returns (carga: Dict<real>)
      ensures Valido(carga) && carga.claves == DiasSemana
      ensures forall w :: 0 <= w < 7 ==> DiasSemana[w] in carga.valores
      ensures inicio <= fin ==> forall w :: 0 <= w < 7 ==>
                carga.valores[DiasSemana[w]]
                == (CuentaDia(FiltrarPorRangoFechas(inicio, fin), w) as real) / SemanasEnRango(inicio, fin)
      ensures fin < inicio ==> forall w :: 0 <= w < 7 ==> carga.valores[DiasSemana[w]] == 0.0
    {
      var periodo := FiltrarPorRangoFechas(inicio, fin);
      var porDia := ContarPorClave(DiasCompletados(periodo));
      DiasDeConteo(porDia, periodo);
      SemanasPositivas(inicio, fin);
      carga := PorSemana(porDia, SemanasEnRango(inicio, fin));
    }

    /** `pacientes_nuevos_vs_recurrentes`: the distinct patients with a completed
        appointment in the range, split by whether their first appointment of
        any status in the whole loaded history is at or after `inicio`. */
    method PacientesNuevosVsRecurrentes(inicio: Instante, fin: Instante) returns (r: AnalisisPacientes)
      ensures var atendidos := Atendidos(FiltrarPorRangoFechas(inicio, fin));
              && r.nuevos == |Nuevos(atendidos, citas, inicio)|
              && r.recurrentes == |Recurrentes(atendidos, citas, inicio)|
              && r.total == r.nuevos + r.recurrentes == |atendidos|
    {
      var ordenadas := OrdenarPor(citas, FechaDe);
      var primera := PrimerasCitas(ordenadas);
      PrimeraCitaDecide(citas, ordenadas, primera, inicio);
      var periodo := FiltrarPorRangoFechas(inicio, fin);
      var nuevos, recurrentes := Clasificar(periodo, citas, primera, inicio);
      NuevosMasRecurrentes(Atendidos(periodo), citas, inicio);
      r := AnalisisPacientes(nuevos, recurrentes, nuevos + recurrentes);
    }

    /** `servicios_mas_solicitados`: the `limite` services with the most completed
        appointments in the range, by descending count. */
    method ServiciosMasSolicitados(inicio: Instante, fin: Instante, limite: int := 5) returns (top: seq<ServicioCantidad>)
      ensures TopDeServicios(top, ServiciosCompletados(FiltrarPorRangoFechas(inicio, fin)), limite)
    {
      var distribucion := DistribucionServicios(inicio, fin);
      top := MasSolicitados(distribucion, limite);
      MasSolicitadosDeConteo(distribucion, ServiciosCompletados(FiltrarPorRangoFechas(inicio, fin)), limite);
    }

    /** `generar_reporte_completo` before serialisation: every figure over the month's range. */
    method GenerarReporteCompleto(anio: int, mes: int) returns (r: Resultado<Reporte>)
      ensures r.ValueError? <==> !MesRepresentable(anio, mes)
      ensures r.Ok? ==>
        var enMes := FiltrarPorRangoFechas(RangoDelMes(anio, mes).valor.0, RangoDelMes(anio, mes).valor.1);
        && ResumenMensual(anio, mes).Ok?
        && r.valor.dentistaId == dentistaId
        && r.valor.periodoReporte == ResumenMensual(anio, mes).valor.periodo
        && r.valor.resumenMensual == ResumenMensual(anio, mes).valor
        && DistribucionDe(r.valor.distribucionServicios, enMes)
        && IngresosDe(r.valor.ingresosPorPago, enMes)
        && r.valor.cargaPorDia.claves == DiasSemana
        && (forall w :: 0 <= w < 7 ==> DiasSemana[w] in r.valor.cargaPorDia.valores)
        && (forall w :: 0 <= w < 7 ==>
              r.valor.cargaPorDia.valores[DiasSemana[w]] == (CuentaDia(enMes, w) as real) / SemanasEnRango(RangoDelMes(anio, mes).valor.0, RangoDelMes(anio, mes).valor.1))
        && r.valor.pacientesAnalisis.nuevos == |Nuevos(Atendidos(enMes), citas, RangoDelMes(anio, mes).valor.0)|
        && r.valor.pacientesAnalisis.recurrentes == |Recurrentes(Atendidos(enMes), citas, RangoDelMes(anio, mes).valor.0)|
        && r.valor.pacientesAnalisis.total == |Atendidos(enMes)|
        && TopDeServicios(r.valor.topServicios, ServiciosCompletados(enMes), 5)
    {
      var rango := RangoDelMes(anio, mes);
      if rango.ValueError? {
        return ValueError;
      }
      var (inicio, fin) := rango.valor;
      var resumen := ResumenMensual(anio, mes);
      var distribucion := DistribucionServicios(inicio, fin);
      var ingresos := IngresosPorPago(inicio, fin);
      var carga := CargaPorDia(inicio, fin);
      var pacientes := PacientesNuevosVsRecurrentes(inicio, fin);
      var top := ServiciosMasSolicitados(inicio, fin);
      r := Ok(Reporte(dentistaId, TextoPeriodo(anio, mes), resumen.valor, distribucion, ingresos, carga, pacientes, top));
    }
  }

  /** A month holding one completed appointment, on 2024-02-15 at 10:00 for
      800 with a rating of 4.5, gives the figures of that single visit. */
  lemma ResumenFebrero2024(m: MotorEstadisticas, c: Cita)
    requires m.citas == [c]
    requires EsCompletada(c) && c.citaFecha == Medianoche(Ordinal(2024, 2, 15)) + 10 * 60
    requires c.monto == 800.0 && c.calificacion == Some(4.5)
    ensures m.ResumenMensual(2024, 2) == Ok(Resumen("2024-02", 1, 1, 0, 1, 800.0, 0.0, 4.5))
  {
    TextoPeriodoFebrero2024();
    var (inicio, fin) := RangoDelMes(2024, 2).valor;
    FiltroDeUna(m, c, inicio, fin);
    CifrasDeUnaCita(c);
    assert SumaReales([4.5]) == 4.5;
  }

  /** Filtering a single in-range appointment keeps exactly it. */
  lemma FiltroDeUna(m: MotorEstadisticas, c: Cita, inicio: Instante, fin: Instante)
    requires m.citas == [c] && inicio <= c.citaFecha <= fin
    ensures m.FiltrarPorRangoFechas(inicio, fin) == [c]
  {
    var enMes := m.FiltrarPorRangoFechas(inicio, fin);
    assert c in enMes;
    assert |Filtro(m.citas, (x: Cita) => inicio <= x.citaFecha <= fin)| <= |m.citas|;
  }
}
