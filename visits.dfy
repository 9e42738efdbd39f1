/** The server's visit endpoints (backend/app/routers/visits.py): GPS validation, creating one
    visit, listing visits by role and the batch sync of offline visits. Tables are sequences
    of rows; the great-circle distance is an arbitrary function of the two coordinate pairs. */
module Visits {
  import opened Common
  import opened Records
  import opened Sorting

  /** `settings.gps_radius_meters` at its default. */
  const GpsRadiusMeters: real := 50.0

  /** The most rows `get_visits` returns. */
  const VisitsLimit: nat := 100

  const NoAccessMessage := "No tienes acceso a este servicio"

  /** The distance in metres between a point and a device, as `calculate_distance` computes it. */
  type DistanceFn = (real, real, real, real) -> real

  /** `validate_gps`: valid exactly when the device is within the radius. */
  function ValidateGps(distance: real): (valid: bool)
    ensures valid <==> distance <= GpsRadiusMeters
  {
    distance <= GpsRadiusMeters
  }

  /** The point `create_visit` looks up: that id within that service. */
  function PointOf(puntos: seq<PuntoRow>, v: VisitData): Option<PuntoRow> {
    FindFirst(puntos, (p: PuntoRow) => p.id == v.puntoQrId && p.servicioId == v.servicioId)
  }

  /** The guard `create_visit` looks up: that id, in that service, with role 'guardia'. */
  function GuardOf(usuarios: seq<UsuarioRow>, v: VisitData): Option<UsuarioRow> {
    FindFirst(usuarios, (u: UsuarioRow) => u.id == v.guardiaId && u.servicioId == Some(v.servicioId) && u.rol == "guardia")
  }

  /** The row an accepted visit is stored as: its own fields, the current time when it has
      none, and `sincronizado` always true. */
  function StoredRow(v: VisitData, id: int, createdAt: int, now: int): VisitRow {
    VisitRow(id, v.servicioId, v.puntoQrId, v.guardiaId, VisitTypeName(v.tipo), v.observacion,
             v.latitud, v.longitud, v.fechaHora.GetOr(now), true, createdAt)
  }

  /** `create_visit`: the checks in the source's order, each failing with its own status. */
  function CreateVisit(v: VisitData, current: User, puntos: seq<PuntoRow>, usuarios: seq<UsuarioRow>,
                       distance: DistanceFn, now: int, insert: InsertReply): (r: Result<VisitRow>)
    ensures !ServiceAccessOk(current, v.servicioId) ==> r == Err(HttpError(403, NoAccessMessage))
    ensures ServiceAccessOk(current, v.servicioId) && PointOf(puntos, v).None? ==>
      r == Err(HttpError(404, "Punto QR no encontrado"))
    ensures r.Ok? <==>
      ServiceAccessOk(current, v.servicioId) && PointOf(puntos, v).Some? &&
      PuntoActive(PointOf(puntos, v).value) &&
      distance(PointOf(puntos, v).value.latitud, PointOf(puntos, v).value.longitud, v.latitud, v.longitud) <= GpsRadiusMeters &&
      GuardOf(usuarios, v).Some? && insert.Inserted?
    ensures ServiceAccessOk(current, v.servicioId) && PointOf(puntos, v).Some? ==>
      var p := PointOf(puntos, v).value;
      var near := distance(p.latitud, p.longitud, v.latitud, v.longitud) <= GpsRadiusMeters;
      (!PuntoActive(p) ==> r == Err(HttpError(400, "El punto QR está inactivo"))) &&
      (PuntoActive(p) && !near ==> r == Err(HttpError(400, "Ubicación inválida"))) &&
      (PuntoActive(p) && near && GuardOf(usuarios, v).None? ==>
         r == Err(HttpError(404, "Guardia no encontrado o no pertenece a este servicio"))) &&
      (PuntoActive(p) && near && GuardOf(usuarios, v).Some? ==>
         (insert.InsertEmpty? ==> r == Err(HttpError(500, "Error al guardar la visita"))) &&
         (insert.InsertRaised? ==> r == Err(HttpError(500, "Internal Server Error"))))
    ensures r.Ok? ==> r.value == StoredRow(v, insert.id, insert.createdAt, now)
  {
    if !ServiceAccessOk(current, v.servicioId) then Err(HttpError(403, NoAccessMessage))
    else match PointOf(puntos, v)
      case None => Err(HttpError(404, "Punto QR no encontrado"))
      case Some(p) =>
        if !PuntoActive(p) then Err(HttpError(400, "El punto QR está inactivo"))
        else if distance(p.latitud, p.longitud, v.latitud, v.longitud) > GpsRadiusMeters then
          Err(HttpError(400, "Ubicación inválida"))
        else if GuardOf(usuarios, v).None? then
          Err(HttpError(404, "Guardia no encontrado o no pertenece a este servicio"))
        else match insert
          case Inserted(id, createdAt) => Ok(StoredRow(v, id, createdAt, now))
          case InsertEmpty => Err(HttpError(500, "Error al guardar la visita"))
          case InsertRaised(_) => Err(HttpError(500, "Internal Server Error"))
  }

  /** A stored row records the visit as sent, with `sincronizado` true and the time defaulted
      to now only when the visit carries none. */
  lemma CreatedRowIsSynchronised(v: VisitData, current: User, puntos: seq<PuntoRow>, usuarios: seq<UsuarioRow>,
                                 distance: DistanceFn, now: int, insert: InsertReply)
    requires CreateVisit(v, current, puntos, usuarios, distance, now, insert).Ok?
    ensures var row := CreateVisit(v, current, puntos, usuarios, distance, now, insert).value;
      row.sincronizado && row.servicioId == v.servicioId && row.puntoQrId == v.puntoQrId &&
      row.guardiaId == v.guardiaId && row.observacion == v.observacion &&
      row.fechaHora == (if v.fechaHora.Some? then v.fechaHora.value else now)
  {
  }

  /** The radius check of `create_visit` agrees with `validate_gps` on the same distance. */
  lemma CreateAgreesWithValidateGps(v: VisitData, current: User, puntos: seq<PuntoRow>, usuarios: seq<UsuarioRow>,
                                    distance: DistanceFn, now: int, insert: InsertReply)
    requires ServiceAccessOk(current, v.servicioId) && PointOf(puntos, v).Some? && PuntoActive(PointOf(puntos, v).value)
    ensures var p := PointOf(puntos, v).value;
      !ValidateGps(distance(p.latitud, p.longitud, v.latitud, v.longitud)) <==>
      CreateVisit(v, current, puntos, usuarios, distance, now, insert) == Err(HttpError(400, "Ubicación inválida"))
  {
  }

  /** Roles other than guardia and supervisor skip the access check: an administrator's
      visit for any service passes it and fails, if at all, on a later check. */
  lemma AdminSkipsAccessCheck(v: VisitData, current: User, puntos: seq<PuntoRow>, usuarios: seq<UsuarioRow>,
                              distance: DistanceFn, now: int, insert: InsertReply)
    requires IsAdminRole(current.rol)
    ensures CreateVisit(v, current, puntos, usuarios, distance, now, insert) != Err(HttpError(403, NoAccessMessage))
  {
  }

  /** The rows `get_visits` selects before ordering: a guard's own visits, a supervisor's
      service, an administrator's chosen service when one is given, otherwise everything. */
  predicate VisibleTo(current: User, servicioId: Option<int>, row: VisitRow) {
    if current.rol == "guardia" then row.guardiaId == current.id
    else if current.rol == "supervisor" then current.servicioId == Some(row.servicioId)
    else if IsAdminRole(current.rol) && TruthyId(servicioId) then row.servicioId == servicioId.value
    else true
  }

  function ByFechaDesc(row: VisitRow): Key {
    Key(row.fechaHora, 0)
  }

  /** `get_visits`: the visible rows, newest first, at most 100. */
  function GetVisits(current: User, servicioId: Option<int>, visitas: seq<VisitRow>): seq<VisitRow> {
    Take(SortDesc(Visible(current, servicioId, visitas), ByFechaDesc), VisitsLimit)
  }

  function Visible(current: User, servicioId: Option<int>, visitas: seq<VisitRow>): seq<VisitRow> {
    Filter(visitas, (row: VisitRow) => VisibleTo(current, servicioId, row))
  }

  /** Every row returned is a stored row the caller may see, and there are at most 100. */
  lemma GetVisitsFilters(current: User, servicioId: Option<int>, visitas: seq<VisitRow>)
    ensures var r := GetVisits(current, servicioId, visitas);
      |r| <= VisitsLimit && forall row :: row in r ==> row in visitas && VisibleTo(current, servicioId, row)
  {
    var visible := Visible(current, servicioId, visitas);
    var sorted := SortDesc(visible, ByFechaDesc);
    var r := GetVisits(current, servicioId, visitas);
    assert r == Take(sorted, VisitsLimit);
    forall row | row in r
      ensures row in visible
    {
      var k :| 0 <= k < |r| && r[k] == row;
      assert sorted[k] == row;
      assert row in multiset(sorted);
    }
  }

  /** The rows come newest first. */
  lemma GetVisitsNewestFirst(current: User, servicioId: Option<int>, visitas: seq<VisitRow>)
    ensures var r := GetVisits(current, servicioId, visitas);
      forall i, j :: 0 <= i < j < |r| ==> r[j].fechaHora <= r[i].fechaHora
  {
    var sorted := SortDesc(Visible(current, servicioId, visitas), ByFechaDesc);
    var r := GetVisits(current, servicioId, visitas);
    assert r == Take(sorted, VisitsLimit);
    forall i, j | 0 <= i < j < |r|
      ensures r[j].fechaHora <= r[i].fechaHora
    {
      assert r[i] == sorted[i] && r[j] == sorted[j];
      assert KeyLe(ByFechaDesc(sorted[j]), ByFechaDesc(sorted[i]));
    }
  }

  /** The listing is the 100 newest visible rows: as many as there are visible rows, up to
      100, each taken from them, and no visible row left out is newer than a listed one. */
  lemma GetVisitsKeepsNewest(current: User, servicioId: Option<int>, visitas: seq<VisitRow>)
    ensures var r := GetVisits(current, servicioId, visitas);
      |r| == Min(VisitsLimit, |Visible(current, servicioId, visitas)|) &&
      multiset(r) <= multiset(Visible(current, servicioId, visitas)) &&
      forall v, w :: v in visitas && VisibleTo(current, servicioId, v) && v !in r && w in r ==> v.fechaHora <= w.fechaHora
  {
    var visible := Visible(current, servicioId, visitas);
    var sorted := SortDesc(visible, ByFechaDesc);
    var r := GetVisits(current, servicioId, visitas);
    assert r == Take(sorted, VisitsLimit);
    TakeOfSorted(sorted, ByFechaDesc, VisitsLimit);
    forall v, w | v in visitas && VisibleTo(current, servicioId, v) && v !in r && w in r
      ensures v.fechaHora <= w.fechaHora
    {
      assert v in visible;
      assert v in multiset(sorted);
      assert v !in multiset(r);
      assert v in multiset(sorted) - multiset(r);
      assert KeyLe(ByFechaDesc(v), ByFechaDesc(w));
    }
  }

  /** With at most 100 visible rows none is cut off. */
  lemma GetVisitsKeepsAllWhenFew(current: User, servicioId: Option<int>, visitas: seq<VisitRow>)
    requires |Visible(current, servicioId, visitas)| <= VisitsLimit
    ensures forall row :: row in visitas && VisibleTo(current, servicioId, row) ==> row in GetVisits(current, servicioId, visitas)
  {
    var visible := Visible(current, servicioId, visitas);
    var sorted := SortDesc(visible, ByFechaDesc);
    var r := GetVisits(current, servicioId, visitas);
    assert r == Take(sorted, VisitsLimit);
    assert r == sorted;
    forall row | row in visitas && VisibleTo(current, servicioId, row)
      ensures row in r
    {
      assert row in visible;
      assert row in multiset(visible);
      assert row in multiset(sorted);
    }
  }

  /** One visit's share of the sync: the result entries it adds and the insert it issues. */
  datatype SyncRun = SyncRun(success: seq<int>, failed: seq<SyncFailure>, attempted: seq<VisitData>)

  /** The insert payload for a synced visit: the same defaults as `create_visit`. */
  function Defaulted(v: VisitData, now: int): VisitData {
    v.(fechaHora := Some(v.fechaHora.GetOr(now)))
  }

  function SyncEntry(v: VisitData, current: User, reply: InsertReply, now: int): SyncRun {
    if !ServiceAccessOk(current, v.servicioId) then SyncRun([], [SyncFailure(v, NoAccessMessage)], [])
    else match reply
      case Inserted(id, _) => SyncRun([id], [], [Defaulted(v, now)])
      case InsertEmpty => SyncRun([], [SyncFailure(v, "Error al guardar")], [Defaulted(v, now)])
      case InsertRaised(msg) => SyncRun([], [SyncFailure(v, msg)], [Defaulted(v, now)])
  }

  function Then(a: SyncRun, b: SyncRun): SyncRun {
    SyncRun(a.success + b.success, a.failed + b.failed, a.attempted + b.attempted)
  }

  /** The whole batch, visit by visit in order; `replies[i]` is what the database answers to
      the insert for `visits[i]` (unused when the visit fails the access check). */
  function SyncAll(visits: seq<VisitData>, current: User, replies: seq<InsertReply>, now: int): SyncRun
    requires |replies| == |visits|
    decreases |visits|
  {
    if visits == [] then SyncRun([], [], [])
    else
      var n := |visits| - 1;
      Then(SyncAll(visits[..n], current, replies[..n], now), SyncEntry(visits[n], current, replies[n], now))
  }

  /** `sync_offline_visits`: the loop over the batch, appending to `success` or `failed`. */
  method SyncOfflineVisits(visits: seq<VisitData>, current: User, replies: seq<InsertReply>, now: int)
    returns (result: SyncResult, attempted: seq<VisitData>)
    requires |replies| == |visits|
    ensures SyncRun(result.success, result.failed, attempted) == SyncAll(visits, current, replies, now)
  {
    var success: seq<int> := [];
    var failed: seq<SyncFailure> := [];
    attempted := [];
    var i := 0;
    while i < |visits|
      invariant 0 <= i <= |visits|
      invariant SyncRun(success, failed, attempted) == SyncAll(visits[..i], current, replies[..i], now)
    {
      var v := visits[i];
      if IsFieldRole(current.rol) && current.servicioId != Some(v.servicioId) {
        failed := failed + [SyncFailure(v, NoAccessMessage)];
      } else {
        var payload := Defaulted(v, now);
        attempted := attempted + [payload];
        match replies[i] {
          case Inserted(id, _) =>
            success := success + [id];
          case InsertEmpty =>
            failed := failed + [SyncFailure(v, "Error al guardar")];
          case InsertRaised(msg) =>
            failed := failed + [SyncFailure(v, msg)];
        }
      }
      assert visits[..i + 1][..i] == visits[..i];
      assert replies[..i + 1][..i] == replies[..i];
      i := i + 1;
    }
    assert visits[..i] == visits;
    assert replies[..i] == replies;
    result := SyncResult(success, failed);
  }

  /** Every visit of the batch lands in exactly one of the two lists. */
  lemma {:induction false} SyncPartitions(visits: seq<VisitData>, current: User, replies: seq<InsertReply>, now: int)
    requires |replies| == |visits|
    decreases |visits|
    ensures var run := SyncAll(visits, current, replies, now);
      |run.success| + |run.failed| == |visits|
  {
    if visits != [] {
      var n := |visits| - 1;
      SyncPartitions(visits[..n], current, replies[..n], now);
    }
  }

  /** A visit outside the user's service is reported with the access message and never
      inserted; every other visit is inserted, with none of the point, GPS or guard checks
      of `create_visit`. */
  lemma {:induction false} SyncChecksOnlyAccess(visits: seq<VisitData>, current: User, replies: seq<InsertReply>, now: int)
    requires |replies| == |visits|
    decreases |visits|
    ensures var run := SyncAll(visits, current, replies, now);
      (forall a :: a in run.attempted ==> ServiceAccessOk(current, a.servicioId)) &&
      (forall i :: 0 <= i < |visits| && !ServiceAccessOk(current, visits[i].servicioId) ==>
         SyncFailure(visits[i], NoAccessMessage) in run.failed) &&
      (forall i :: 0 <= i < |visits| && ServiceAccessOk(current, visits[i].servicioId) ==>
         Defaulted(visits[i], now) in run.attempted)
  {
    if visits != [] {
      var n := |visits| - 1;
      SyncChecksOnlyAccess(visits[..n], current, replies[..n], now);
      forall i | 0 <= i < n
        ensures visits[..n][i] == visits[i]
      {
      }
    }
  }

  /** Every id in `success` is the database id of a row inserted for one of the batch's
      visits; the client's own offline ids never appear. */
  lemma {:induction false} SyncSuccessAreDatabaseIds(visits: seq<VisitData>, current: User, replies: seq<InsertReply>, now: int)
    requires |replies| == |visits|
    decreases |visits|
    ensures forall id :: id in SyncAll(visits, current, replies, now).success ==>
      exists i :: (0 <= i < |visits| && ServiceAccessOk(current, visits[i].servicioId) &&
                   replies[i].Inserted? && replies[i].id == id)
  {
    if visits != [] {
      var n := |visits| - 1;
      SyncSuccessAreDatabaseIds(visits[..n], current, replies[..n], now);
      forall id | id in SyncAll(visits, current, replies, now).success
        ensures exists i :: (0 <= i < |visits| && ServiceAccessOk(current, visits[i].servicioId) &&
                             replies[i].Inserted? && replies[i].id == id)
      {
        if id in SyncAll(visits[..n], current, replies[..n], now).success {
          var i :| 0 <= i < n && ServiceAccessOk(current, visits[..n][i].servicioId) &&
            replies[..n][i].Inserted? && replies[..n][i].id == id;
          assert visits[..n][i] == visits[i] && replies[..n][i] == replies[i];
        } else {
          assert ServiceAccessOk(current, visits[n].servicioId) && replies[n].Inserted? && replies[n].id == id;
        }
      }
    }
  }

  /** The server reads a queued record as the visit it carries: the client id, the
      `syncronizado` flag and the queueing time are dropped. */
  function ParseBatch(batch: seq<QueuedVisit>): (visits: seq<VisitData>)
    ensures |visits| == |batch| && forall i :: 0 <= i < |batch| ==> visits[i] == batch[i].visit
  {
    seq(|batch|, i requires 0 <= i < |batch| => batch[i].visit)
  }
}
