/**
 * The alert store: a list of alerts with read flags, its notification and
 * threshold configuration, and the first-match rule that turns zone metrics
 * into an automatic alert.
 */
module Alerts {
  import opened Wrappers
  import opened Seqs
  import opened Text

  datatype Metricas = Metricas(residuos: int, participantes: int, tendencia: string)

  datatype Alert = Alert(
    id: string,
    tipo: string,
    titulo: string,
    descripcion: string,
    prioridad: string,
    zona: string,
    accion: string,
    metricas: Metricas,
    fecha: int,
    leida: bool)

  /** The 404 reply of mark-read and delete. */
  datatype AlertError = AlertNotFound {
    function Message(): string { "Alerta no encontrada" }
  }

  datatype Config = Config(
    umbralCritico: int,
    umbralAdvertencia: int,
    notificacionesEmail: bool,
    notificacionesPush: bool)

  const DefaultConfig: Config := Config(1000, 500, true, false)

  /** The fields a configuration update carries; an absent one keeps its current value. */
  datatype ConfigPatch = ConfigPatch(
    umbralCritico: Option<int>,
    umbralAdvertencia: Option<int>,
    notificacionesEmail: Option<bool>,
    notificacionesPush: Option<bool>)

  const EmptyPatch: ConfigPatch := ConfigPatch(None, None, None, None)

  function Override<T>(current: T, patch: Option<T>): T
  {
    if patch.Some? then patch.value else current
  }

  /** `{ ...configuracion, ...patch }` restricted to the configuration's own fields. */
  function Merge(c: Config, p: ConfigPatch): (r: Config)
    ensures p.umbralCritico.Some? ==> r.umbralCritico == p.umbralCritico.value
    ensures p.umbralAdvertencia.Some? ==> r.umbralAdvertencia == p.umbralAdvertencia.value
    ensures p.notificacionesEmail.Some? ==> r.notificacionesEmail == p.notificacionesEmail.value
    ensures p.notificacionesPush.Some? ==> r.notificacionesPush == p.notificacionesPush.value
    ensures p == EmptyPatch ==> r == c
  {
    Config(Override(c.umbralCritico, p.umbralCritico), Override(c.umbralAdvertencia, p.umbralAdvertencia),
           Override(c.notificacionesEmail, p.notificacionesEmail), Override(c.notificacionesPush, p.notificacionesPush))
  }

  /** One patch applied after another, as a single patch: later fields win. */
  function Then(p: ConfigPatch, q: ConfigPatch): ConfigPatch
  {
    ConfigPatch(if q.umbralCritico.Some? then q.umbralCritico else p.umbralCritico,
                if q.umbralAdvertencia.Some? then q.umbralAdvertencia else p.umbralAdvertencia,
                if q.notificacionesEmail.Some? then q.notificacionesEmail else p.notificacionesEmail,
                if q.notificacionesPush.Some? then q.notificacionesPush else p.notificacionesPush)
  }

  /** An empty update changes nothing, repeating an update changes nothing more, and updates compose. */
  lemma MergeLaws(c: Config, p: ConfigPatch, q: ConfigPatch)
    ensures Merge(c, EmptyPatch) == c
    ensures Merge(Merge(c, p), p) == Merge(c, p)
    ensures Merge(Merge(c, p), q) == Merge(c, Then(p, q))
  {
  }

  const Day: int := 24 * 60 * 60 * 1000

  /** The three alerts the server starts with, dated relative to start-up time `now`. */
  function SampleAlerts(now: int): seq<Alert>
  {
    [ SampleCritical.(fecha := now - 2 * Day), SampleLowActivity.(fecha := now - 5 * Day),
      SampleGoal.(fecha := now - 1 * Day) ]
  }

  /** The sample alerts, undated; `SampleAlerts` sets their dates. */
  const SampleCritical: Alert :=
    Alert("1", "zona_critica", "Zona Norte requiere limpieza urgente",
          "Acumulación de residuos plásticos supera el umbral crítico. Se requiere intervención inmediata.",
          "alta", "Zona Norte", "requiere_intervencion", Metricas(1250, 45, "creciente"), 0, false)

  const SampleLowActivity: Alert :=
    Alert("2", "baja_participacion", "Comunidad Oeste con baja actividad",
          "Solo 15 participantes activos. Se recomienda contactar al líder de comunidad para aumentar la participación.",
          "media", "Zona Oeste", "contactar_lider", Metricas(800, 15, "estable"), 0, false)

  const SampleGoal: Alert :=
    Alert("3", "logro", "Meta mensual superada en 25%",
          "¡Excelente trabajo! La meta mensual de recolección ha sido superada en un 25%.",
          "baja", "Zona Centro", "monitorear", Metricas(1300, 38, "creciente"), 0, true)

  function AlertId(a: Alert): string { a.id }

  /** `alertas.findIndex(a => a.id === id)`. */
  function FindAlert(alertas: seq<Alert>, id: string): (i: int)
    ensures -1 <= i < |alertas|
    ensures 0 <= i ==> alertas[i].id == id
    ensures i < 0 <==> forall j :: 0 <= j < |alertas| ==> alertas[j].id != id
    ensures forall j :: 0 <= j < |alertas| && (i < 0 || j < i) ==> alertas[j].id != id
  {
    FirstIndex(alertas, AlertId, id)
  }

  predicate PriorityMatches(prioridad: Option<string>, a: Alert) { prioridad.Some? && a.prioridad == prioridad.value }

  predicate ReadMatches(leida: Option<string>, a: Alert) { leida.Some? && a.leida == (leida.value == "true") }

  /** Whether an alert survives both filters of a listing. */
  predicate Shown(prioridad: Option<string>, leida: Option<string>, a: Alert)
  {
    (!Given(prioridad) || PriorityMatches(prioridad, a)) && (leida.None? || ReadMatches(leida, a))
  }

  /**
   * GET /api/alertas: filter by priority when that query is non-empty, then by
   * read flag whenever that query is present; only the text "true" selects
   * read alerts.
   */
  function ListAlerts(alertas: seq<Alert>, prioridad: Option<string>, leida: Option<string>): (r: seq<Alert>)
    ensures IsSubsequence(r, alertas)
    ensures forall i :: 0 <= i < |r| ==> r[i] in alertas && Shown(prioridad, leida, r[i])
    ensures forall i :: 0 <= i < |alertas| && Shown(prioridad, leida, alertas[i]) ==> alertas[i] in r
    ensures forall x :: multiset(r)[x] == if Shown(prioridad, leida, x) then multiset(alertas)[x] else 0
  {
    var conPrioridad := (a: Alert) => PriorityMatches(prioridad, a);
    var conLectura := (a: Alert) => ReadMatches(leida, a);
    FilterWhenTwice(alertas, Given(prioridad), conPrioridad, leida.Some?, conLectura,
                    (a: Alert) => Shown(prioridad, leida, a));
    FilterWhen(leida.Some?, FilterWhen(Given(prioridad), alertas, conPrioridad), conLectura)
  }

  /** Any read query other than "true" (including "false" and the empty string) lists unread alerts only. */
  lemma ReadQueryOtherThanTrue(alertas: seq<Alert>, prioridad: Option<string>, q: string)
    requires q != "true"
    ensures forall a :: a in ListAlerts(alertas, prioridad, Some(q)) ==> !a.leida
  {
  }

  /** `alerta.leida = true`: the same alert, now read. */
  function MarkAsRead(a: Alert): (b: Alert)
    ensures b.leida && b.(leida := a.leida) == a
  {
    a.(leida := true)
  }

  /** Marking an alert read a second time changes nothing. */
  lemma MarkReadTwice(alertas: seq<Alert>, id: string)
    ensures UpdateFirst(UpdateFirst(alertas, AlertId, id, MarkAsRead), AlertId, id, MarkAsRead)
         == UpdateFirst(alertas, AlertId, id, MarkAsRead)
  {
    UpdateFirstIdempotent(alertas, AlertId, id, MarkAsRead);
  }

  /** The rule that fired for an automatic alert. */
  datatype Cause = Critical | Warning | LowParticipation {
    function Tipo(): string {
      if LowParticipation? then "baja_participacion" else "zona_critica"
    }

    function Prioridad(): string {
      if Critical? then "alta" else "media"
    }

    function Accion(): string {
      match this
      case Critical => "requiere_intervencion"
      case Warning => "monitorear"
      case LowParticipation => "contactar_lider"
    }

    function Titulo(zona: string): string {
      match this
      case Critical => "Acumulación crítica en " + zona
      case Warning => "Advertencia: Acumulación en " + zona
      case LowParticipation => "Baja participación en " + zona
    }
  }

  /** Below this many participants a zone counts as having low participation. */
  const ParticipantFloor: int := 10

  /** The automatic-alert chain: critical, then warning, then low participation, else no alert. */
  function Classify(cfg: Config, residuos: int, participantes: int): (c: Option<Cause>)
    ensures c == Some(Critical) <==> residuos > cfg.umbralCritico
    ensures c == Some(Warning) ==> cfg.umbralAdvertencia < residuos <= cfg.umbralCritico
    ensures c == Some(LowParticipation) ==> participantes < ParticipantFloor
    ensures c.None? <==>
      residuos <= cfg.umbralCritico && residuos <= cfg.umbralAdvertencia && participantes >= ParticipantFloor
  {
    if residuos > cfg.umbralCritico then Some(Critical)
    else if residuos > cfg.umbralAdvertencia then Some(Warning)
    else if participantes < ParticipantFloor then Some(LowParticipation)
    else None
  }

  datatype Condition = ResiduosAbove(umbral: int) | ParticipantesBelow(minimo: int) {
    predicate Holds(residuos: int, participantes: int) {
      match this
      case ResiduosAbove(u) => residuos > u
      case ParticipantesBelow(m) => participantes < m
    }
  }

  datatype Rule = Rule(when: Condition, cause: Cause)

  /** The same chain as an ordered rule table. */
  function Rules(cfg: Config): seq<Rule>
  {
    [ Rule(ResiduosAbove(cfg.umbralCritico), Critical),
      Rule(ResiduosAbove(cfg.umbralAdvertencia), Warning),
      Rule(ParticipantesBelow(ParticipantFloor), LowParticipation) ]
  }

  /** The cause of the first rule whose condition holds, if any. */
  function FirstMatch(rules: seq<Rule>, residuos: int, participantes: int): (c: Option<Cause>)
    ensures c.None? <==> forall k :: 0 <= k < |rules| ==> !rules[k].when.Holds(residuos, participantes)
    ensures c.Some? ==>
      exists k :: 0 <= k < |rules| && rules[k].when.Holds(residuos, participantes) && rules[k].cause == c.value &&
        forall j :: 0 <= j < k ==> !rules[j].when.Holds(residuos, participantes)
  {
    if rules == [] then None
    else if rules[0].when.Holds(residuos, participantes) then Some(rules[0].cause)
    else FirstMatch(rules[1..], residuos, participantes)
  }

  /** The if-chain is first-match evaluation of the rule table. */
  lemma ClassifyIsFirstMatchingRule(cfg: Config, residuos: int, participantes: int)
    ensures Classify(cfg, residuos, participantes) == FirstMatch(Rules(cfg), residuos, participantes)
  {
    var rules := Rules(cfg);
    var m := FirstMatch(rules[2..], residuos, participantes);
    assert m == if participantes < ParticipantFloor then Some(LowParticipation) else None by {
      assert rules[2..][1..] == [];
    }
    assert FirstMatch(rules[1..], residuos, participantes) ==
      if residuos > cfg.umbralAdvertencia then Some(Warning) else m by {
      assert rules[1..][1..] == rules[2..];
    }
  }

  /** When the warning threshold is not below the critical one, the warning rule can never fire. */
  lemma WarningUnreachableWhenInverted(cfg: Config, residuos: int, participantes: int)
    requires cfg.umbralAdvertencia >= cfg.umbralCritico
    ensures Classify(cfg, residuos, participantes) != Some(Warning)
  {
  }

  /** 2 for "alta", 1 for "media", 0 for no alert. */
  function Severity(c: Option<Cause>): nat
  {
    if c == Some(Critical) then 2 else if c.Some? then 1 else 0
  }

  /** More accumulated waste, or fewer participants, never yields a less severe alert. */
  lemma SeverityMonotone(cfg: Config, r1: int, r2: int, p1: int, p2: int)
    requires r1 <= r2 && p2 <= p1
    ensures Severity(Classify(cfg, r1, p1)) <= Severity(Classify(cfg, r2, p2))
  {
  }

  /** The alert an automatic classification creates. */
  function AutoAlert(c: Cause, zona: string, residuos: int, participantes: int, tendencia: string, id: string, fecha: int)
    : (a: Alert)
    ensures a.id == id && a.zona == zona && a.fecha == fecha && !a.leida
    ensures a.prioridad == "alta" <==> c == Critical
    ensures a.tipo == "baja_participacion" <==> c == LowParticipation
    ensures a.metricas == Metricas(residuos, participantes, tendencia)
  {
    Alert(id, c.Tipo(), c.Titulo(zona),
          "Métricas: " + DecimalString(residuos) + "kg acumulados, " + DecimalString(participantes)
            + " participantes, tendencia " + tendencia,
          c.Prioridad(), zona, c.Accion(), Metricas(residuos, participantes, tendencia), fecha, false)
  }

  class AlertStore {
    var alertas: seq<Alert>
    var configuracion: Config

    /** The store at start-up; `now` is the start-up time in milliseconds. */
    constructor (now: int)
      ensures alertas == SampleAlerts(now) && configuracion == DefaultConfig
    {
      alertas := SampleAlerts(now);
      configuracion := DefaultConfig;
    }

    /** POST /api/alertas: append an unread alert; the identifier and timestamp are supplied by the caller. */
    method Create(id: string, tipo: string, titulo: string, descripcion: string, prioridad: string, zona: string,
                  accion: string, metricas: Metricas, fecha: int)
      returns (a: Alert)
      modifies this`alertas
      ensures a == Alert(id, tipo, titulo, descripcion, prioridad, zona, accion, metricas, fecha, false)
      ensures alertas == old(alertas) + [a]
    {
      a := Alert(id, tipo, titulo, descripcion, prioridad, zona, accion, metricas, fecha, false);
      alertas := alertas + [a];
    }

    /** PUT /api/alertas/:id/leida: mark the first alert with `id` read and return it, or 404. */
    method MarkRead(id: string) returns (r: Result<Alert, AlertError>)
      modifies this`alertas
      ensures alertas == UpdateFirst(old(alertas), AlertId, id, MarkAsRead)
      ensures r.Failure? <==> forall k :: 0 <= k < |old(alertas)| ==> old(alertas)[k].id != id
      ensures r.Failure? ==> alertas == old(alertas)
      ensures r.Success? ==>
        var i := FindAlert(old(alertas), id);
        && 0 <= i && r.value == alertas[i] && r.value == old(alertas)[i].(leida := true)
        && alertas == old(alertas)[i := r.value]
    {
      var i := FindAlert(alertas, id);
      UpdateFirstAt(alertas, AlertId, id, MarkAsRead);
      if i < 0 {
        return Failure(AlertNotFound);
      }
      alertas := alertas[i := MarkAsRead(alertas[i])];
      r := Success(alertas[i]);
    }

    /** DELETE /api/alertas/:id: splice out the first alert with `id`, or 404. */
    method Delete(id: string) returns (r: Result<string, AlertError>)
      modifies this`alertas
      ensures alertas == RemoveFirst(old(alertas), AlertId, id)
      ensures r.Failure? <==> forall k :: 0 <= k < |old(alertas)| ==> old(alertas)[k].id != id
      ensures r.Failure? ==> alertas == old(alertas)
      ensures r.Success? ==>
        var i := FindAlert(old(alertas), id);
        && 0 <= i && alertas == old(alertas)[..i] + old(alertas)[i + 1..]
        && |alertas| == |old(alertas)| - 1 && r.value == "Alerta eliminada"
    {
      var i := FindAlert(alertas, id);
      RemoveFirstAt(alertas, AlertId, id);
      if i < 0 {
        return Failure(AlertNotFound);
      }
      alertas := alertas[..i] + alertas[i + 1..];
      r := Success("Alerta eliminada");
    }

    /** PUT /api/alertas/configuracion: overwrite the fields the update carries. */
    method UpdateConfig(patch: ConfigPatch) returns (c: Config)
      modifies this`configuracion
      ensures configuracion == Merge(old(configuracion), patch) && c == configuracion
    {
      configuracion := Merge(configuracion, patch);
      c := configuracion;
    }

    /**
     * POST /api/alertas/generar-automatica: classify the metrics against the
     * current thresholds; append and return the alert when a rule fires, else
     * change nothing. The identifier and timestamp are supplied by the caller.
     */
    method GenerateAutomatic(zona: string, residuosAcumulados: int, participantes: int, tendencia: string,
                             id: string, fecha: int)
      returns (r: Option<Alert>)
      modifies this`alertas
      ensures var c := Classify(configuracion, residuosAcumulados, participantes);
        && (c.None? ==> r.None? && alertas == old(alertas))
        && (c.Some? ==> r == Some(AutoAlert(c.value, zona, residuosAcumulados, participantes, tendencia, id, fecha))
                        && alertas == old(alertas) + [r.value])
      ensures r.Some? ==> !r.value.leida && r.value.tipo == Classify(configuracion, residuosAcumulados, participantes).value.Tipo()
    {
      var c := Classify(configuracion, residuosAcumulados, participantes);
      if c.None? {
        return None;
      }
      var a := AutoAlert(c.value, zona, residuosAcumulados, participantes, tendencia, id, fecha);
      alertas := alertas + [a];
      r := Some(a);
    }
  }
}
