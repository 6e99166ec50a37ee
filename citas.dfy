/** The appointment record the engine reads, and the reference definitions
    of the reductions it computes over a list of them. */
module Citas {
  import opened Envoltorios
  import opened Fechas
  import opened Secuencias

  /** One appointment, with the fields the statistics engine reads. */
  datatype Cita = Cita(
    dentistaId: string,
    pacienteId: string,
    citaFecha: Instante,
    estado: string,
    nombreServicio: string,
    metodoPago: string,
    monto: real,
    calificacion: Option<real>)

  const Completada: string := "completada"
  const Cancelada: string := "cancelada"

  predicate EsCompletada(c: Cita) {
    c.estado == Completada
  }

  predicate EsCancelada(c: Cita) {
    c.estado == Cancelada
  }

  /** `[c for c in s if c.estado == 'completada']` */
  function Completadas(s: seq<Cita>): (r: seq<Cita>)
    ensures forall c :: c in r <==> c in s && EsCompletada(c)
  {
    Filtro(s, EsCompletada)
  }

  /** `[c for c in s if c.estado == 'cancelada']` */
  function Canceladas(s: seq<Cita>): (r: seq<Cita>)
    ensures forall c :: c in r <==> c in s && EsCancelada(c)
  {
    Filtro(s, EsCancelada)
  }

  /** No appointment is both completed and cancelled, so the two counts fit in the total. */
  lemma CompletadasYCanceladas(s: seq<Cita>)
    ensures |Completadas(s)| + |Canceladas(s)| <= |s|
  {
    FiltrosDisjuntos(s, EsCompletada, EsCancelada);
  }

  /** The last appointment adds one to the completed count exactly when it is completed. */
  lemma CompletadasPaso(s: seq<Cita>)
    requires s != []
    ensures |Completadas(s)| == |Completadas(s[..|s| - 1])| + if EsCompletada(s[|s| - 1]) then 1 else 0
  {
  }

  /** The service names of the completed appointments, in order. */
  function ServiciosCompletados(s: seq<Cita>): seq<string> {
    if s == [] then []
    else
      var previos := ServiciosCompletados(s[..|s| - 1]);
      if EsCompletada(s[|s| - 1]) then previos + [s[|s| - 1].nombreServicio] else previos
  }

  /** One service name per completed appointment. */
  lemma {:induction false} ServiciosCompletadosLongitud(s: seq<Cita>)
    ensures |ServiciosCompletados(s)| == |Completadas(s)|
  {
    if s != [] {
      var previos := s[..|s| - 1];
      CompletadasPaso(s);
      ServiciosCompletadosLongitud(previos);
    }
  }

  /** The payment methods of the completed appointments, in order. */
  function MetodosCompletados(s: seq<Cita>): seq<string> {
    if s == [] then []
    else
      var previos := MetodosCompletados(s[..|s| - 1]);
      if EsCompletada(s[|s| - 1]) then previos + [s[|s| - 1].metodoPago] else previos
  }

  /** A payment method occurs among the completed ones exactly when a completed appointment used it. */
  lemma {:induction false} MetodosCompletadosMiembro(s: seq<Cita>, k: string)
    ensures k in MetodosCompletados(s) <==> exists c :: c in s && EsCompletada(c) && c.metodoPago == k
  {
    if s != [] {
      var previos := s[..|s| - 1];
      assert s == previos + [s[|s| - 1]];
      MetodosCompletadosMiembro(previos, k);
    }
  }

  /** A service occurs among the completed ones exactly when a completed appointment had it. */
  lemma {:induction false} ServiciosCompletadosMiembro(s: seq<Cita>, k: string)
    ensures k in ServiciosCompletados(s) <==> exists c :: c in s && EsCompletada(c) && c.nombreServicio == k
  {
    if s != [] {
      var previos := s[..|s| - 1];
      assert s == previos + [s[|s| - 1]];
      ServiciosCompletadosMiembro(previos, k);
    }
  }

  /** `sum(c.monto for c in completadas)` */
  function IngresoTotal(s: seq<Cita>): real {
    if s == [] then 0.0
    else IngresoTotal(s[..|s| - 1]) + if EsCompletada(s[|s| - 1]) then s[|s| - 1].monto else 0.0
  }

  /** The summed amount of the completed appointments paid with method k. */
  function IngresoMetodo(s: seq<Cita>, k: string): real {
    if s == [] then 0.0
    else IngresoMetodo(s[..|s| - 1], k)
           + if EsCompletada(s[|s| - 1]) && s[|s| - 1].metodoPago == k then s[|s| - 1].monto else 0.0
  }

  /** `(c.metodo_pago, c.monto)` of each completed appointment, in order. */
  function Pagos(s: seq<Cita>): seq<(string, real)> {
    if s == [] then []
    else
      var previos := Pagos(s[..|s| - 1]);
      if EsCompletada(s[|s| - 1]) then previos + [(s[|s| - 1].metodoPago, s[|s| - 1].monto)] else previos
  }

  /** The payments list carries the methods, the per-method takings and the revenue. */
  lemma {:induction false} PagosCorresponden(s: seq<Cita>)
    ensures Primeros(Pagos(s)) == MetodosCompletados(s)
    ensures SumaSegundos(Pagos(s)) == IngresoTotal(s)
  {
    if s != [] {
      var previos := s[..|s| - 1];
      PagosCorresponden(previos);
      var ps := Pagos(previos);
      var u := s[|s| - 1];
      if EsCompletada(u) {
        assert (ps + [(u.metodoPago, u.monto)])[..|ps|] == ps;
      }
    }
  }

  lemma {:induction false} PagosPorMetodo(s: seq<Cita>, k: string)
    ensures SumaDeClave(Pagos(s), k) == IngresoMetodo(s, k)
  {
    if s != [] {
      var previos := s[..|s| - 1];
      PagosPorMetodo(previos, k);
      var ps := Pagos(previos);
      var u := s[|s| - 1];
      if EsCompletada(u) {
        assert (ps + [(u.metodoPago, u.monto)])[..|ps|] == ps;
      }
    }
  }

  /** With non-negative amounts, the revenue is non-negative. */
  lemma {:induction false} IngresoTotalNoNegativo(s: seq<Cita>)
    requires forall c :: c in s ==> c.monto >= 0.0
    ensures IngresoTotal(s) >= 0.0
  {
    if s != [] {
      assert s[|s| - 1] in s;
      assert forall c :: c in s[..|s| - 1] ==> c in s;
      IngresoTotalNoNegativo(s[..|s| - 1]);
    }
  }

  /** The number of completed appointments that fall on weekday w (0 is Monday). */
  function CuentaDia(s: seq<Cita>, w: int): int {
    if s == [] then 0 else CuentaDia(s[..|s| - 1], w) + EnDia(s[|s| - 1], w)
  }

  /** 1 when c is a completed appointment on weekday w, else 0. */
  function EnDia(c: Cita, w: int): int {
    if EsCompletada(c) && DiaSemana(c.citaFecha) == w then 1 else 0
  }

  /** A completed appointment falls on exactly one weekday; any other on none. */
  lemma EnAlgunDia(c: Cita)
    ensures EnDia(c, 0) + EnDia(c, 1) + EnDia(c, 2) + EnDia(c, 3) + EnDia(c, 4) + EnDia(c, 5) + EnDia(c, 6)
            == if EsCompletada(c) then 1 else 0
  {
  }

  /** Every completed appointment falls on exactly one of the seven weekdays. */
  lemma {:induction false} CuentasDiasSuman(s: seq<Cita>)
    ensures CuentaDia(s, 0) + CuentaDia(s, 1) + CuentaDia(s, 2) + CuentaDia(s, 3)
            + CuentaDia(s, 4) + CuentaDia(s, 5) + CuentaDia(s, 6) == |Completadas(s)|
  {
    if s != [] {
      var previos := s[..|s| - 1];
      CuentasDiasSuman(previos);
      EnAlgunDia(s[|s| - 1]);
      CompletadasPaso(s);
    }
  }

  /** The weekday names of the completed appointments, in order. */
  function DiasCompletados(s: seq<Cita>): seq<string> {
    if s == [] then []
    else
      var previos := DiasCompletados(s[..|s| - 1]);
      if EsCompletada(s[|s| - 1]) then previos + [DiasSemana[DiaSemana(s[|s| - 1].citaFecha)]] else previos
  }

  /** A weekday's name occurs among the completed days as often as CuentaDia counts. */
  lemma {:induction false} DiasCompletadosCuenta(s: seq<Cita>, w: int)
    requires 0 <= w < 7
    ensures multiset(DiasCompletados(s))[DiasSemana[w]] == CuentaDia(s, w)
  {
    if s != [] {
      var previos := s[..|s| - 1];
      DiasCompletadosCuenta(previos, w);
      DiasSemanaDistintos();
    }
  }

  /** The patients with at least one completed appointment in s. */
  function Atendidos(s: seq<Cita>): set<string> {
    if s == [] then {}
    else
      var previos := Atendidos(s[..|s| - 1]);
      if EsCompletada(s[|s| - 1]) then previos + {s[|s| - 1].pacienteId} else previos
  }

  /** `set(c.paciente_id for c in completadas)`: p is in it exactly when p has a completed appointment. */
  lemma {:induction false} AtendidosMiembro(s: seq<Cita>, p: string)
    ensures p in Atendidos(s) <==> exists c :: c in s && EsCompletada(c) && c.pacienteId == p
  {
    if s != [] {
      var previos := s[..|s| - 1];
      assert s == previos + [s[|s| - 1]];
      AtendidosMiembro(previos, p);
    }
  }

  /** There are no more distinct patients than completed appointments. */
  lemma {:induction false} AtendidosAcotados(s: seq<Cita>)
    ensures |Atendidos(s)| <= |Completadas(s)|
  {
    if s != [] {
      var previos := s[..|s| - 1];
      var u := s[|s| - 1];
      AtendidosAcotados(previos);
      CompletadasPaso(s);
      var a := Atendidos(previos);
      if EsCompletada(u) {
        assert Atendidos(s) == a + {u.pacienteId};
        assert |a + {u.pacienteId}| <= |a| + 1;
      } else {
        assert Atendidos(s) == a;
      }
    }
  }

  /** `[c.calificacion for c in completadas if c.calificacion is not None]` */
  function Calificaciones(s: seq<Cita>): seq<real> {
    if s == [] then []
    else
      var c := s[|s| - 1];
      var previos := Calificaciones(s[..|s| - 1]);
      if EsCompletada(c) && c.calificacion.Some? then previos + [c.calificacion.valor] else previos
  }

  /** No rating is collected exactly when no completed appointment carries one. */
  lemma {:induction false} SinCalificaciones(s: seq<Cita>)
    ensures Calificaciones(s) == [] <==> forall c :: c in s && EsCompletada(c) ==> c.calificacion.None?
  {
    if s != [] {
      var previos := s[..|s| - 1];
      assert s == previos + [s[|s| - 1]];
      SinCalificaciones(previos);
    }
  }

  /** The reductions of a list holding one completed appointment. */
  lemma CifrasDeUnaCita(c: Cita)
    requires EsCompletada(c)
    ensures Completadas([c]) == [c] && Canceladas([c]) == []
    ensures Atendidos([c]) == {c.pacienteId}
    ensures IngresoTotal([c]) == c.monto
    ensures Calificaciones([c]) == if c.calificacion.Some? then [c.calificacion.valor] else []
  {
    FiltrosDeUnaCita(c);
    assert [c][..0] == [];
  }

  lemma FiltrosDeUnaCita(c: Cita)
    requires EsCompletada(c)
    ensures Completadas([c]) == [c] && Canceladas([c]) == []
  {
    assert [c][..0] == [];
    assert Filtro([c][..0], EsCompletada) == [];
    assert Filtro([c][..0], EsCancelada) == [];
    assert EsCompletada(c) && !EsCancelada(c);
  }

  /** Patient p is new for a range starting at inicio: none of p's appointments,
      of any status, comes before inicio (so p's earliest one is at or after it). */
  ghost predicate EsNuevo(citas: seq<Cita>, p: string, inicio: Instante) {
    forall c :: c in citas && c.pacienteId == p ==> inicio <= c.citaFecha
  }

  ghost function Nuevos(pacientes: set<string>, citas: seq<Cita>, inicio: Instante): set<string> {
    set p | p in pacientes && EsNuevo(citas, p, inicio)
  }

  ghost function Recurrentes(pacientes: set<string>, citas: seq<Cita>, inicio: Instante): set<string> {
    set p | p in pacientes && !EsNuevo(citas, p, inicio)
  }

  /** Every patient is either new or returning, never both. */
  lemma NuevosMasRecurrentes(pacientes: set<string>, citas: seq<Cita>, inicio: Instante)
    ensures |Nuevos(pacientes, citas, inicio)| + |Recurrentes(pacientes, citas, inicio)| == |pacientes|
  {
    var n := Nuevos(pacientes, citas, inicio);
    var r := Recurrentes(pacientes, citas, inicio);
    assert n + r == pacientes;
    assert n * r == {};
  }

  /** Adding a not-yet-counted patient adds one to exactly one of the two groups. */
  lemma ClasificarUnoMas(pacientes: set<string>, p: string, citas: seq<Cita>, inicio: Instante)
    requires p !in pacientes
    ensures |Nuevos(pacientes + {p}, citas, inicio)|
            == |Nuevos(pacientes, citas, inicio)| + if EsNuevo(citas, p, inicio) then 1 else 0
    ensures |Recurrentes(pacientes + {p}, citas, inicio)|
            == |Recurrentes(pacientes, citas, inicio)| + if EsNuevo(citas, p, inicio) then 0 else 1
  {
    if EsNuevo(citas, p, inicio) {
      assert Nuevos(pacientes + {p}, citas, inicio) == Nuevos(pacientes, citas, inicio) + {p};
      assert Recurrentes(pacientes + {p}, citas, inicio) == Recurrentes(pacientes, citas, inicio);
    } else {
      assert Nuevos(pacientes + {p}, citas, inicio) == Nuevos(pacientes, citas, inicio);
      assert Recurrentes(pacientes + {p}, citas, inicio) == Recurrentes(pacientes, citas, inicio) + {p};
    }
  }

  /** The sort key of `sorted(self.citas, key=lambda c: c.cita_fecha)`. */
  function FechaDe(c: Cita): int {
    c.citaFecha
  }

  /** A patient with any earlier appointment (a pending one, say) is returning,
      even when this is their first completed appointment. */
  lemma CitaAnteriorEsRecurrente(citas: seq<Cita>, c: Cita, inicio: Instante)
    requires c in citas && c.citaFecha < inicio
    ensures !EsNuevo(citas, c.pacienteId, inicio)
  {
  }
}
