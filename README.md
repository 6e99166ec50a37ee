# Statistics engine of a dental practice, in Dafny

This project models `MotorEstadisticas`, the statistics engine of one dentist
(`estadisticas.py`). The engine holds that dentist's appointments (`citas`).
Loading replaces them wholesale. Read-only queries filter them to an
inclusive date range and reduce them to report figures:

- the monthly summary;
- the per-service demand;
- revenue per payment method;
- the average load per weekday;
- new versus returning patients;
- the most requested services;
- a growth comparison between two periods.

The report builder composes these figures over the range of one calendar month.

Modules, one per file:

- `envoltorios.dfy` — `Option` and `Resultado`. `ValueError` stands for the exception `datetime` raises for a month it cannot represent.
- `fechas.dfy` — the calendar:
  - timestamps are integer minutes, with the day ordinal of Python's `toordinal`;
  - `weekday()`, `timedelta.days` and the month range of a report;
  - the `YYYY-MM` label;
  - the weekday names.
- `secuencias.dfy` — the list operations the engine uses:
  - filtering comprehensions, a stable sort by key, slicing with a possibly negative bound;
  - order of first appearance (dict key order);
  - sums and means.
- `diccionarios.dfy` — the insertion-ordered dict:
  - the counting (`d[k] += 1`) and summing (`d[k] += x`) loops of a `defaultdict`;
  - the invariants `Conteo` and `Acumulado` that those loops keep.
- `citas.dfy` — the appointment record and the reference definitions of every reduction over a list of appointments (completed ones, revenue, counts per weekday, distinct patients, ratings, new or returning).
- `estadisticas.dfy` — the class `MotorEstadisticas` and its queries. Each query proves its result against those reference definitions.

Python's `defaultdict` loops are `method`s with loop invariants. The
comprehensions and formulas are functions. The loops are module-level methods:

- `distribucion_servicios` and `carga_por_dia` filter the loaded appointments to the range and hand the completed records' keys (service names or weekday names) to `ContarPorClave`;
- `ingresos_por_pago` hands the completed in-range records' (payment method, amount) pairs to `SumarPorClave`;
- `pacientes_nuevos_vs_recurrentes` has two loops. `PrimerasCitas` scans the WHOLE loaded history, sorted by date, for each patient's first appointment of any status. `Clasificar` then scans the completed records of the range.

`resumen_mensual`, `comparar_periodos` and `servicios_mas_solicitados` run no
loop of their own. They are compositions of the range filter, the reductions
and, for the top services, the count above.

Each loop's postcondition ties its result to the reference functions. Lemmas
then restate that result in the terms the source promises: which keys are
present, positive counts, totals, the classification rule.

## Model

| member | source | states |
|---|---|---|
| Estadisticas.MotorEstadisticas.constructor | estadisticas.py:8-10 | A new engine has the given dentist id and no appointments. |
| Estadisticas.MotorEstadisticas.CargarCitas | estadisticas.py:12-17 | The loaded list is exactly the input's records of this dentist, in input order (a subsequence with the same multiplicities), and nothing else changes. |
| Estadisticas.MotorEstadisticas.FiltrarPorRangoFechas | estadisticas.py:19-27 | The result is the order-preserving subsequence of the loaded appointments with `inicio <= cita_fecha <= fin`, both ends included, with every such record kept as often as it occurs. It only reads the engine. |
| Secuencias.Filtro | estadisticas.py:24-27 | `[x for x in s if p(x)]`, the comprehension behind loading, the range filter and the completed/cancelled lists: no longer than its input, an element is in it exactly when it is in the input and satisfies the predicate, and each such element keeps its multiplicity while every other has none. |
| Estadisticas.FiltroDeUna | estadisticas.py:24-27 | Filtering a one-record history whose date lies in the range keeps exactly that record. |
| Estadisticas.MotorEstadisticas.ResumenMensual | estadisticas.py:29-55 | A non-representable month gives ValueError, and a representable one never does. Otherwise: the counts are those of the month's records; completed + cancelled <= total; distinct patients <= completed; revenue is the sum over completed records; the cancellation rate (within [0, 100]) and mean rating are those of the guarded formulas. |
| Estadisticas.ResumenFebrero2024 | estadisticas.py:29-55 | One completed visit on 2024-02-15 for 800 with rating 4.5 gives period "2024-02", 1 appointment, 1 completed, 0 cancelled, 1 patient, revenue 800, rate 0 and rating 4.5. |
| Fechas.RangoDelMes | estadisticas.py:30-31 | The range is Ok exactly for a representable month, from 00:00 of its first day to 00:00 of its last day (`datetime(y, m+1, 1) - timedelta(days=1)`, December wrapping to January). |
| Fechas.UltimoDiaQuedaFuera | estadisticas.py:31 | Every minute of the month's last day after 00:00 lies after the range end. |
| Fechas.DuracionDelMes | estadisticas.py:31 | The first of the next month (January after December) is the first of this month plus its length. |
| Fechas.DiasEnMes | estadisticas.py:31 | A month has 28 to 31 days, and exactly 29 for February of a leap year. |
| Fechas.TextoPeriodo | estadisticas.py:47 | `f'{year}-{month:02d}'`: as many characters as the year's numeral plus 3, a dash third from the end and decimal digits everywhere else; the part before the dash reads back as the year and the two after it as the month. |
| Fechas.DecimalIdaYVuelta | estadisticas.py:47 | The decimal numeral of a year reads back as that year. |
| Fechas.Decimal | estadisticas.py:47 | `str(year)`: at least one character, all of them decimal digits, and a single digit exactly for a year below 10. |
| Fechas.TextoPeriodoFebrero2024 | estadisticas.py:47 | February 2024 is labelled "2024-02". |
| Citas.CompletadasYCanceladas | estadisticas.py:35-36 | No record is both completed and cancelled, so the two counts add up to at most the total. |
| Citas.Completadas | estadisticas.py:35 | A record is in the completed list exactly when it is in the input with status `completada`. |
| Citas.Canceladas | estadisticas.py:36 | A record is in the cancelled list exactly when it is in the input with status `cancelada`. |
| Citas.AtendidosMiembro | estadisticas.py:38 | A patient is among the distinct patients exactly when they have a completed record. |
| Citas.AtendidosAcotados | estadisticas.py:38 | There are no more distinct patients than completed records. |
| Citas.IngresoTotalNoNegativo | estadisticas.py:39 | Revenue from non-negative amounts is non-negative. |
| Estadisticas.TasaCancelacion | estadisticas.py:41 | The rate is 0 with no appointments, otherwise cancelled/total*100, and it lies in [0, 100] when cancelled <= total. |
| Citas.SinCalificaciones | estadisticas.py:43-44 | The rating list is empty exactly when no completed record carries a rating. |
| Estadisticas.Promedio | estadisticas.py:44 | The mean is 0 for no ratings, otherwise times the count it gives the sum, and it stays within [1, 5] when the ratings do. |
| Secuencias.PromedioAcotado | estadisticas.py:44 | The mean of values within bounds lies within those bounds. |
| Citas.CifrasDeUnaCita | estadisticas.py:35-44 | A single completed record is the whole completed list and no cancelled one, and gives one patient, its own amount and its own rating. |
| Diccionarios.ContarPorClave | estadisticas.py:59-62 | `d[k] += 1` over a key list: the keys are those of the list in first-appearance order, each counted as often as it occurs, and the counts sum to the list's length. |
| Diccionarios.Poner | estadisticas.py:62 | Storing a value under a key keeps the dict well formed, maps the key to the value and leaves every other key's value alone; an existing key keeps its place, and a new one is appended at the end of the key order. |
| Secuencias.Distintos | estadisticas.py:59-62 | The keys of an insertion-ordered dict built from a list: no repeats, and an element is among them exactly when it occurs in the list. |
| Diccionarios.ConteoPaso | estadisticas.py:62 | Counting one more key keeps the dict a count of the extended list. |
| Diccionarios.ConteoPositivo | estadisticas.py:59-63 | A key is present exactly when it occurs in the list, and a present key has a count of at least 1. |
| Estadisticas.MotorEstadisticas.DistribucionServicios | estadisticas.py:57-63 | The result counts the service names of the completed in-range records. Its keys are exactly the services of completed in-range records, each count is >= 1, and the counts sum to the number of completed in-range records. |
| Estadisticas.ServiciosDeConteo | estadisticas.py:57-63 | A count of the completed services has exactly those services as keys, counts >= 1, and as many in total as there are completed records. |
| Citas.ServiciosCompletadosMiembro | estadisticas.py:60-62 | A service occurs among the completed services exactly when a completed record had it. |
| Citas.ServiciosCompletadosLongitud | estadisticas.py:60-62 | There is one service name per completed record. |
| Diccionarios.SumarPorClave | estadisticas.py:67-70 | `d[k] += x` over (key, amount) pairs: the keys are in first-appearance order, each holds the summed amounts of its pairs, and the values sum to the total amount. |
| Diccionarios.AcumuladoPaso | estadisticas.py:70 | Adding one amount to its key keeps the dict the sums of the extended pair list. |
| Diccionarios.AcumuladoClaves | estadisticas.py:67-71 | A key is present exactly when some pair has it. |
| Citas.PagosCorresponden | estadisticas.py:68-70 | The payment pairs have the completed records' methods as keys, and their amounts sum to the completed revenue. |
| Citas.PagosPorMetodo | estadisticas.py:68-70 | The pairs of one method sum to that method's completed revenue. |
| Citas.MetodosCompletadosMiembro | estadisticas.py:68-70 | A payment method occurs among the completed ones exactly when a completed record used it. |
| Estadisticas.IngresosDePagos | estadisticas.py:65-71 | Summing the payment pairs gives per method its completed revenue, has exactly the methods of completed records as keys, and totals the completed revenue. |
| Estadisticas.MotorEstadisticas.IngresosPorPago | estadisticas.py:65-71 | The keys are exactly the payment methods of completed in-range records, in first-use order. Each value is that method's summed amount, and the values sum to the total completed revenue of the range. |
| Fechas.QuinceDeFebrero2024EsJueves | estadisticas.py:79 | `weekday()` of 2024-02-15 is Thursday (3). |
| Fechas.DiaSemana | estadisticas.py:79 | `weekday()` is between 0 (Monday) and 6 (Sunday). |
| Citas.DiasCompletadosCuenta | estadisticas.py:77-80 | A weekday's name occurs among the completed records' weekday names as often as that weekday has completed records. |
| Citas.CuentasDiasSuman | estadisticas.py:77-80 | The seven weekday counts add up to the number of completed records. |
| Citas.EnAlgunDia | estadisticas.py:79 | A completed record falls on exactly one weekday and any other record on none. |
| Estadisticas.DiasDeConteo | estadisticas.py:76-80 | Counting the completed records' weekday names gives each weekday (0 if absent) its completed count. |
| Estadisticas.SemanasPositivas | estadisticas.py:81-82 | The number of weeks is positive exactly when `inicio <= fin`, and a single-instant range is 1/7 of a week. |
| Fechas.DiasEntreNoNegativo | estadisticas.py:81 | `(fin - inicio).days` is non-negative exactly when `inicio <= fin`. |
| Estadisticas.PorSemana | estadisticas.py:83 | The result has exactly the seven weekday names in order, each the count divided by the weeks when those are positive and 0 otherwise. |
| Estadisticas.MotorEstadisticas.CargaPorDia | estadisticas.py:73-83 | The keys are always Lunes..Domingo. For `inicio <= fin` each value is that weekday's completed in-range count divided by `((fin - inicio).days + 1) / 7`. For a reversed range every value is 0. |
| Secuencias.OrdenarPor | estadisticas.py:86 | The sort result is a permutation of its input, ordered by the key. |
| Secuencias.Insertar | estadisticas.py:109 | One insertion step of the sort: the result is the sorted input with one more copy of the element, still sorted, and it starts with either the element or the input's first entry. |
| Estadisticas.PrimerasCitas | estadisticas.py:87-90 | Over a date-sorted history, the first-seen date of each patient is the date of one of their records and no later than any of them. |
| Estadisticas.PrimeraCitaDecide | estadisticas.py:86-90 | Every patient of the history has a first-seen date, and that date is `>= inicio` exactly when no record of theirs, of any status, precedes `inicio`. |
| Citas.ClasificarUnoMas | estadisticas.py:100-104 | Adding a not-yet-counted patient adds one to exactly one of new and returning. |
| Estadisticas.Clasificar | estadisticas.py:95-104 | Counting each completed in-range patient once gives as new those whose first date is `>= inicio` and as returning the others. |
| Citas.NuevosMasRecurrentes | estadisticas.py:105 | Every patient is new or returning and not both, so the two counts add up to the number of patients. |
| Citas.CitaAnteriorEsRecurrente | estadisticas.py:101 | A patient with any record before `inicio`, a pending one say, is returning even if their first completed record is in the range. |
| Estadisticas.MotorEstadisticas.PacientesNuevosVsRecurrentes | estadisticas.py:85-105 | new (resp. returning) is the number of distinct completed in-range patients with no record of any status before `inicio` (resp. with one). The total is new + returning. |
| Estadisticas.MasSolicitadosCorrecto | estadisticas.py:109 | Sorting the dict entries by descending count is a permutation of them: same length, every entry a dict pair, no service twice, every key present. |
| Estadisticas.Entradas | estadisticas.py:109 | `distribucion.items()`: one (service, count) entry per key, in the dict's key order, each with that key's value. |
| Secuencias.Tomar | estadisticas.py:110 | Python's `s[:n]` is a prefix of length n (clipped to the length), or for negative n the length plus n (at least 0). |
| Estadisticas.MasSolicitados | estadisticas.py:108-111 | The top entries form a slice of the right length. They have non-increasing counts, each is a dict pair, no service repeats, and no left-out service has a larger count than an entry. |
| Estadisticas.MasSolicitadosDeConteo | estadisticas.py:107-111 | The same, in terms of the counted key list (`TopDeServicios`): exactly as many entries as `[:limite]` keeps of the distinct keys (min(limite, n) for `limite >= 0`, max(n + limite, 0) otherwise), non-increasing counts, each entry a key with its number of occurrences, no repeats, and no omitted key outranks an entry. |
| Estadisticas.MotorEstadisticas.ServiciosMasSolicitados | estadisticas.py:107-111 | The limit defaults to 5. Exactly as many entries as `ordenados[:limite]` keeps of the n distinct completed in-range services: min(limite, n) for `limite >= 0`, max(n + limite, 0) for a negative limit. Counts are non-increasing, each entry is a service with its completed in-range count, no service repeats, and no omitted service outranks an entry. |
| Estadisticas.Crecimiento | estadisticas.py:119-121 | From a zero base, 100 when the new value is positive and 0 otherwise. Otherwise the growth times the base is `(nuevo - viejo) * 100`. |
| Estadisticas.CrecimientoInverso | estadisticas.py:121 | Applying a non-zero base's growth percentage to the base gives back the new value. |
| Estadisticas.CrecimientoSigno | estadisticas.py:119-121 | From a non-negative base, growth is positive exactly when the value rose, from a positive base it is zero exactly when the value stayed the same, and from a zero base it is zero exactly when the new value is at most zero. |
| Estadisticas.CrecimientoEjemplos | estadisticas.py:119-121 | Growth from 0 to 5 is 100, from 0 to 0 is 0, and from 100 to 150 is 50. |
| Estadisticas.MotorEstadisticas.CompararPeriodos | estadisticas.py:113-130 | Each period reports its completed in-range count and revenue. The two percentages are the growth of one over the other, and the count growth is positive exactly when the second period has more completed records. |
| Estadisticas.MotorEstadisticas.GenerarReporteCompleto | estadisticas.py:132-148 | ValueError exactly for a non-representable month. Otherwise the report carries the dentist id, the period label and the monthly summary, and each sub-result is the query's figure over the month's range: the count of the month's completed services (keys, counts, total), each payment method's completed revenue and their total, each weekday's completed count over the range's weeks, the new and returning patients under the history rule with their total, and the top 5 services as `servicios_mas_solicitados` promises them. |
| Estadisticas.SemanasDelMes | estadisticas.py:81-82 | Over a report month's range, `(fin - inicio).days + 1` is the month's length, so the weeks that divide each weekday's count are that length over 7. |

## Left out

- `round(x, 2)` is left out: every money, rate, mean and weekly-load figure is the exact, unrounded real value, and float summation is exact addition.
- `datetime.now().isoformat()` (estadisticas.py:139) and the `json.dumps` text (estadisticas.py:148) are left out, because they are a clock read and serialisation. The report is the structured value before serialisation, without the generation timestamp.
- `main` (estadisticas.py:151-180) is left out: it is console output, random data generation and a file save.
- `pruebaLocal.py` is not part of this model: its generators use randomness and the clock, its loaders are JSON file I/O, and its record class only declares fields. That class, `AppointmentData` (pruebaLocal.py:7-20), has English field names, while the engine reads Spanish ones (`dentista_id`, `cita_fecha`, `estado`, ...) and imports a `citaData` (estadisticas.py:4) that pruebaLocal.py does not define, so the module as written fails at import. `Cita` is therefore the record with the fields the engine reads, not `AppointmentData`.
- Timestamps are whole minutes: the model assumes every input `cita_fecha` has zero seconds and microseconds. A record at 00:00:30 of a month's last day lies after that month's range end in Python, and the model cannot represent it.
- The weekday names follow the source's table. Locale does not enter.
- Secuencias.OrdenarPor: its contract states a permutation in key order but not stability. The insertion it is built from keeps equal keys in input order, so the top-services tie order is Python's, but no lemma states that.
- Estadisticas.MotorEstadisticas.IngresosPorPago: `ingresos_por_pago` runs its `+=` loop over all in-range records and skips those not completed. The model filters first: the completed records' (method, amount) pairs (`Pagos`) go in their order to `SumarPorClave`. The result is the same dict.
- Estadisticas.MotorEstadisticas.DistribucionServicios: likewise, the in-range completed records' service names (`ServiciosCompletados`) go to `ContarPorClave`, just as `CargaPorDia` counts their weekday names (`DiasCompletados`).
- Concurrency: the engine is single-threaded. Loading and querying are not modelled as concurrent.

Points where the behaviour follows the code rather than a reading of its description:

- Total weeks are non-positive only for a reversed range (`fin < inicio`). A range of a single instant has `(fin - inicio).days + 1 = 1` day, so 1/7 of a week, and each weekday's load is its count times 7, not 0 (`SemanasPositivas`).
- The monthly range ends at 00:00 of the month's last day, so appointments later on that day are outside it (`UltimoDiaQuedaFuera`).
- A patient is new when their earliest record of any status in the whole loaded history is at or after the range start. A patient whose only earlier record was pending is therefore returning (`CitaAnteriorEsRecurrente`).
- Out-of-range months are not silently accepted. `datetime` raises ValueError for a month outside 1..12, a year outside 1..9999, and December 9999. This is the `ValueError` result of `RangoDelMes`, `ResumenMensual` and `GenerarReporteCompleto`.
