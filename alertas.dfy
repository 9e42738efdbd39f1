/** Alerts for checkpoints that have gone unvisited (backend/app/routers/alertas.py): the
    service a user may look at, the latest visit of every point, the priority of each alert
    and their order, and the per-priority counts. Times are integer milliseconds. */
module Alertas {
  import opened Common
  import opened Records
  import opened Sorting

  /** Minutes without a visit after which a point alerts. */
  const AlertMinutes := 70

  /** The minutes used for ordering when an alert has none (or has 0: the source's `or`). */
  const NoMinutesSortValue := 999999

  datatype Priority = Alta | Media | Baja

  /** `prioridad_orden`. */
  function Rank(p: Priority): int {
    match p
    case Alta => 0
    case Media => 1
    case Baja => 2
  }

  /** One alert; its `tipo` is always "sin_visitar". */
  datatype Alerta = Alerta(puntoId: int, puntoNombre: string, ultimaVisita: Option<int>,
                           minutosSinVisitar: Option<int>, prioridad: Priority)

  /** The service whose alerts a user sees: a supervisor its own (400 without one), an
      administrator the requested one (None: every service), everyone else 403. */
  function TargetServicio(current: User, servicioId: Option<int>): (r: Result<Option<int>>)
    ensures r.Ok? <==> (current.rol == "supervisor" && TruthyId(current.servicioId)) || IsAdminRole(current.rol)
    ensures current.rol == "supervisor" && !TruthyId(current.servicioId) ==>
      r == Err(HttpError(400, "Supervisor sin servicio asignado"))
    ensures current.rol == "supervisor" && TruthyId(current.servicioId) ==> r == Ok(current.servicioId)
    ensures IsAdminRole(current.rol) ==> r == Ok(servicioId)
    ensures !IsAdminRole(current.rol) && current.rol != "supervisor" ==>
      r == Err(HttpError(403, "No tienes permisos para ver alertas"))
  {
    if current.rol == "supervisor" then
      if !TruthyId(current.servicioId) then Err(HttpError(400, "Supervisor sin servicio asignado"))
      else Ok(current.servicioId)
    else if IsAdminRole(current.rol) then Ok(servicioId)
    else Err(HttpError(403, "No tienes permisos para ver alertas"))
  }

  /** The points query: rows whose `activo` is true, of the target service when one is set. */
  predicate PointSelected(target: Option<int>, p: PuntoRow) {
    p.activo == Some(true) && (TruthyId(target) ==> p.servicioId == target.value)
  }

  predicate VisitSelected(target: Option<int>, v: VisitRow) {
    TruthyId(target) ==> v.servicioId == target.value
  }

  /** The latest `fecha_hora` per point, built visit by visit as the source's loop does. */
  function LastVisitMap(visitas: seq<VisitRow>): map<int, int>
    decreases |visitas|
  {
    if visitas == [] then map[]
    else
      var m := LastVisitMap(visitas[..|visitas| - 1]);
      var v := visitas[|visitas| - 1];
      if v.puntoQrId !in m || v.fechaHora > m[v.puntoQrId] then m[v.puntoQrId := v.fechaHora] else m
  }

  /** The map has a key exactly for the visited points, and its value is the latest time
      among that point's visits. */
  lemma {:induction false} LastVisitMapIsMaximum(visitas: seq<VisitRow>)
    decreases |visitas|
    ensures var m := LastVisitMap(visitas);
      (forall pid :: pid in m <==> exists v :: v in visitas && v.puntoQrId == pid) &&
      (forall v :: v in visitas ==> v.fechaHora <= m[v.puntoQrId]) &&
      (forall pid :: pid in m ==> exists v :: v in visitas && v.puntoQrId == pid && v.fechaHora == m[pid])
  {
    if visitas != [] {
      var n := |visitas| - 1;
      var prefix := visitas[..n];
      var last := visitas[n];
      LastVisitMapIsMaximum(prefix);
      assert visitas == prefix + [last];
      var pm := LastVisitMap(prefix);
      var m := LastVisitMap(visitas);
      assert m == if last.puntoQrId !in pm || last.fechaHora > pm[last.puntoQrId]
                  then pm[last.puntoQrId := last.fechaHora] else pm;
      forall pid
        ensures pid in m <==> exists v :: v in visitas && v.puntoQrId == pid
      {
        if pid in m && pid != last.puntoQrId {
          var v :| v in prefix && v.puntoQrId == pid;
          assert v in visitas;
        }
        if pid == last.puntoQrId {
          assert last in visitas;
        }
      }
      forall v | v in visitas
        ensures v.fechaHora <= m[v.puntoQrId]
      {
        if v != last {
          assert v in prefix;
        }
      }
      forall pid | pid in m
        ensures exists v :: v in visitas && v.puntoQrId == pid && v.fechaHora == m[pid]
      {
        if pid == last.puntoQrId && m[pid] == last.fechaHora {
          assert last in visitas;
        } else {
          assert pid in pm && m[pid] == pm[pid];
          var v :| v in prefix && v.puntoQrId == pid && v.fechaHora == pm[pid];
          assert v in visitas;
        }
      }
    }
  }

  /** The map-building loop. */
  method BuildLastVisitMap(visitas: seq<VisitRow>) returns (m: map<int, int>)
    ensures m == LastVisitMap(visitas)
  {
    m := map[];
    var i := 0;
    while i < |visitas|
      invariant 0 <= i <= |visitas|
      invariant m == LastVisitMap(visitas[..i])
    {
      var v := visitas[i];
      assert visitas[..i + 1][..i] == visitas[..i];
      if v.puntoQrId !in m || v.fechaHora > m[v.puntoQrId] {
        m := m[v.puntoQrId := v.fechaHora];
      }
      i := i + 1;
    }
    assert visitas[..i] == visitas;
  }

  /** `int(x / 60)` on seconds: Python's `int` truncates toward zero. */
  function MinutesBetween(lastMs: int, nowMs: int): (minutes: int)
    ensures nowMs >= lastMs ==> minutes * 60000 <= nowMs - lastMs < (minutes + 1) * 60000
    ensures nowMs < lastMs ==> (minutes - 1) * 60000 < nowMs - lastMs <= minutes * 60000
  {
    var d := nowMs - lastMs;
    if d >= 0 then d / 60000 else -((-d) / 60000)
  }

  /** The alert for a point visited `minutes` ago, if any. */
  function Classify(minutes: int): (r: Option<Priority>)
    ensures r.Some? <==> minutes > AlertMinutes
    ensures r == Some(Alta) <==> minutes > 180
    ensures r == Some(Media) <==> 120 < minutes <= 180
    ensures r == Some(Baja) <==> AlertMinutes < minutes <= 120
  {
    if minutes <= AlertMinutes then None
    else if minutes > 180 then Some(Alta)
    else if minutes > 120 then Some(Media)
    else Some(Baja)
  }

  /** The alerts of one point, before ordering. */
  function PointAlerts(p: PuntoRow, last: map<int, int>, now: int): seq<Alerta> {
    if p.id !in last then [Alerta(p.id, p.nombre, None, None, Alta)]
    else
      var minutes := MinutesBetween(last[p.id], now);
      match Classify(minutes)
      case None => []
      case Some(prio) => [Alerta(p.id, p.nombre, Some(last[p.id]), Some(minutes), prio)]
  }

  /** The alert-generating loop over the points, in their order. */
  function AlertsFor(puntos: seq<PuntoRow>, last: map<int, int>, now: int): seq<Alerta>
    decreases |puntos|
  {
    if puntos == [] then []
    else AlertsFor(puntos[..|puntos| - 1], last, now) + PointAlerts(puntos[|puntos| - 1], last, now)
  }

  /** A never-visited point gives one 'alta' alert without times; a visited one alerts exactly
      when its minutes exceed 70, with the priority of its minutes. */
  lemma PointAlertsRule(p: PuntoRow, last: map<int, int>, now: int)
    ensures p.id !in last ==> PointAlerts(p, last, now) == [Alerta(p.id, p.nombre, None, None, Alta)]
    ensures p.id in last ==>
      var minutes := MinutesBetween(last[p.id], now);
      (|PointAlerts(p, last, now)| == 1 <==> minutes > AlertMinutes) &&
      (minutes <= AlertMinutes ==> PointAlerts(p, last, now) == []) &&
      (minutes > AlertMinutes ==>
         PointAlerts(p, last, now) == [Alerta(p.id, p.nombre, Some(last[p.id]), Some(minutes), Classify(minutes).value)])
  {
  }

  /** Every alert belongs to one of the points given, and each point gives at most one. */
  lemma {:induction false} AlertsComeFromPoints(puntos: seq<PuntoRow>, last: map<int, int>, now: int)
    decreases |puntos|
    ensures |AlertsFor(puntos, last, now)| <= |puntos|
    ensures forall a :: a in AlertsFor(puntos, last, now) ==>
      exists p :: p in puntos && p.id == a.puntoId && p.nombre == a.puntoNombre
  {
    if puntos != [] {
      var n := |puntos| - 1;
      AlertsComeFromPoints(puntos[..n], last, now);
      assert puntos == puntos[..n] + [puntos[n]];
      forall a | a in AlertsFor(puntos, last, now)
        ensures exists p :: p in puntos && p.id == a.puntoId && p.nombre == a.puntoNombre
      {
        if a in AlertsFor(puntos[..n], last, now) {
          var p :| p in puntos[..n] && p.id == a.puntoId && p.nombre == a.puntoNombre;
          assert p in puntos;
        } else {
          assert a in PointAlerts(puntos[n], last, now);
          assert puntos[n] in puntos;
        }
      }
    }
  }

  /** The sort key `(prioridad_orden[prioridad], minutos_sin_visitar or 999999)`. */
  function AlertKey(a: Alerta): Key {
    Key(Rank(a.prioridad),
        if a.minutosSinVisitar.None? || a.minutosSinVisitar.value == 0 then NoMinutesSortValue
        else a.minutosSinVisitar.value)
  }

  /** The points the alert loop goes through. */
  function SelectedPoints(target: Option<int>, puntos: seq<PuntoRow>): seq<PuntoRow> {
    Filter(puntos, (p: PuntoRow) => PointSelected(target, p))
  }

  /** The visits the last-visit map is built from. */
  function SeenVisits(target: Option<int>, visitas: seq<VisitRow>): seq<VisitRow> {
    Filter(visitas, (v: VisitRow) => VisitSelected(target, v))
  }

  /** One more point extends the alerts of the points before it by its own. */
  lemma AlertsForStep(puntos: seq<PuntoRow>, i: nat, last: map<int, int>, now: int)
    requires i < |puntos|
    ensures AlertsFor(puntos[..i + 1], last, now) == AlertsFor(puntos[..i], last, now) + PointAlerts(puntos[i], last, now)
  {
    assert puntos[..i + 1][..i] == puntos[..i];
  }

  /** The reply of `get_alertas`. */
  function GetAlertas(current: User, servicioId: Option<int>, puntos: seq<PuntoRow>, visitas: seq<VisitRow>, now: int)
    : Result<seq<Alerta>>
  {
    match TargetServicio(current, servicioId)
    case Err(e) => Err(e)
    case Ok(target) =>
      var selected := SelectedPoints(target, puntos);
      var seen := SeenVisits(target, visitas);
      Ok(SortDesc(AlertsFor(selected, LastVisitMap(seen), now), AlertKey))
  }

  /** `get_alertas` as the source runs it: the map loop, the alert loop, then the sort. */
  method ComputeAlertas(current: User, servicioId: Option<int>, puntos: seq<PuntoRow>, visitas: seq<VisitRow>, now: int)
    returns (r: Result<seq<Alerta>>)
    ensures r == GetAlertas(current, servicioId, puntos, visitas, now)
  {
    var t := TargetServicio(current, servicioId);
    if t.Err? {
      return Err(t.error);
    }
    var target := t.value;
    var selected := SelectedPoints(target, puntos);
    var seen := SeenVisits(target, visitas);
    var last := BuildLastVisitMap(seen);
    var alertas: seq<Alerta> := [];
    var i := 0;
    while i < |selected|
      invariant 0 <= i <= |selected|
      invariant alertas == AlertsFor(selected[..i], last, now)
    {
      AlertsForStep(selected, i, last, now);
      alertas := alertas + PointAlerts(selected[i], last, now);
      i := i + 1;
    }
    assert selected[..i] == selected;
    alertas := SortDesc(alertas, AlertKey);
    r := Ok(alertas);
  }

  /** The reply lists the alerts of the active points of the target service only, and lists
      them by non-increasing rank (so 'baja' first, then 'media', then 'alta'), ties by
      non-increasing minutes. */
  lemma GetAlertasShape(current: User, servicioId: Option<int>, puntos: seq<PuntoRow>, visitas: seq<VisitRow>, now: int)
    requires GetAlertas(current, servicioId, puntos, visitas, now).Ok?
    ensures var r := GetAlertas(current, servicioId, puntos, visitas, now).value;
      var target := TargetServicio(current, servicioId).value;
      (forall a :: a in r ==> exists p :: p in puntos && PointSelected(target, p) && p.id == a.puntoId) &&
      (forall i, j :: 0 <= i < j < |r| ==> Rank(r[j].prioridad) <= Rank(r[i].prioridad))
  {
    var target := TargetServicio(current, servicioId).value;
    var selected := SelectedPoints(target, puntos);
    var seen := SeenVisits(target, visitas);
    var unsorted := AlertsFor(selected, LastVisitMap(seen), now);
    var r := SortDesc(unsorted, AlertKey);
    AlertsComeFromPoints(selected, LastVisitMap(seen), now);
    forall a | a in r
      ensures exists p :: p in puntos && PointSelected(target, p) && p.id == a.puntoId
    {
      assert a in multiset(r);
      assert a in unsorted;
      var p :| p in selected && p.id == a.puntoId && p.nombre == a.puntoNombre;
    }
    forall i, j | 0 <= i < j < |r|
      ensures Rank(r[j].prioridad) <= Rank(r[i].prioridad)
    {
      assert KeyLe(AlertKey(r[j]), AlertKey(r[i]));
    }
  }

  /** The reply of `get_alertas_count`. */
  datatype AlertCount = AlertCount(total: nat, alta: nat, media: nat, baja: nat)

  function CountAlertas(alertas: seq<Alerta>): (c: AlertCount)
    ensures c.total == |alertas|
  {
    AlertCount(|alertas|,
               Count(alertas, (a: Alerta) => a.prioridad == Alta),
               Count(alertas, (a: Alerta) => a.prioridad == Media),
               Count(alertas, (a: Alerta) => a.prioridad == Baja))
  }

  /** Every alert has exactly one priority, so the three counts add up to the total. */
  lemma CountsAddUp(alertas: seq<Alerta>)
    ensures var c := CountAlertas(alertas); c.alta + c.media + c.baja == c.total
  {
    CountThreeWay(alertas, (a: Alerta) => a.prioridad == Alta, (a: Alerta) => a.prioridad == Media,
                  (a: Alerta) => a.prioridad == Baja);
  }
}
