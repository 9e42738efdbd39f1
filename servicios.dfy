/** Service administration (backend/app/routers/servicios.py): listing, fetch, create and
    partial update with their ordered checks, soft or permanent delete, and the summary
    counters. Whether a text is a valid time of day (`time.fromisoformat`) is given as the
    predicate `isTime`. */
module Servicios {
  import opened Common
  import opened Text
  import opened Records

  const ServicioNoEncontrado := "Servicio no encontrado"
  const DiasFueraDeRango := "Días inválidos. Deben estar entre 0 (Lunes) y 6 (Domingo)"
  const SinDias := "Debe seleccionar al menos un día activo"
  const IntervaloMinimo := "El intervalo mínimo es de 5 minutos"

  /** Every day is a weekday number, 0 (Monday) to 6 (Sunday). An empty list qualifies. */
  predicate DaysInRange(dias: seq<int>) {
    forall i :: 0 <= i < |dias| ==> 0 <= dias[i] <= 6
  }

  predicate NameTaken(servicios: seq<ServicioRow>, nombre: string) {
    exists i :: 0 <= i < |servicios| && servicios[i].nombre == nombre
  }

  /** `.eq("nombre", nombre).neq("id", id)`: the name belongs to some other service. */
  predicate NameTakenByOther(servicios: seq<ServicioRow>, nombre: string, id: int) {
    exists i :: 0 <= i < |servicios| && servicios[i].nombre == nombre && servicios[i].id != id
  }

  predicate UniqueNames(servicios: seq<ServicioRow>) {
    forall i, j :: 0 <= i < j < |servicios| ==> servicios[i].nombre != servicios[j].nombre
  }

  predicate UniqueIds(servicios: seq<ServicioRow>) {
    forall i, j :: 0 <= i < j < |servicios| ==> servicios[i].id != servicios[j].id
  }

  /** The schedule rules a create enforces: days in range, at least one, a round every 5
      minutes or more. */
  predicate ScheduleOk(s: ServicioRow) {
    DaysInRange(s.diasActivo) && |s.diasActivo| > 0 && s.intervaloRondaMinutos >= 5
  }

  // ---------------------------------------------------------------------------------------
  // Listing and fetch

  /** `listar_servicios`, in the order the query returns the rows. */
  function ListarServicios(activo: Option<bool>, servicios: seq<ServicioRow>): (r: seq<ServicioRow>)
    ensures forall s :: s in r <==> s in servicios && (activo.Some? ==> s.activo == activo.value)
  {
    Filter(servicios, (s: ServicioRow) => activo.Some? ==> s.activo == activo.value)
  }

  /** `obtener_servicio`. */
  function ObtenerServicio(id: int, servicios: seq<ServicioRow>): (r: Result<ServicioRow>)
    ensures r.Ok? <==> exists s :: s in servicios && s.id == id
    ensures r.Ok? ==> r.value in servicios && r.value.id == id
    ensures r.Err? ==> r.error == HttpError(404, ServicioNoEncontrado)
  {
    match ServicioById(servicios, id)
    case Some(s) => Ok(s)
    case None => Err(HttpError(404, ServicioNoEncontrado))
  }

  // ---------------------------------------------------------------------------------------
  // Create

  /** The body of a create request; `activo` defaults to true. */
  datatype ServicioCreate = ServicioCreate(
    nombre: string,
    descripcion: Option<string>,
    horaInicio: string,
    horaFin: string,
    diasActivo: seq<int>,
    intervaloRondaMinutos: int,
    activo: bool)

  /** The create checks, first failure wins: administrator, both times parse, days in range,
      at least one day, interval of 5 or more, name unused. The two times are never
      compared, so a night service (end before start) passes, and repeated days pass. */
  function CreateError(rol: string, c: ServicioCreate, servicios: seq<ServicioRow>,
                       isTime: string -> bool): (r: Option<HttpError>)
    ensures r.None? <==>
      IsAdminRole(rol) && isTime(c.horaInicio) && isTime(c.horaFin) && DaysInRange(c.diasActivo) &&
      |c.diasActivo| > 0 && c.intervaloRondaMinutos >= 5 && !NameTaken(servicios, c.nombre)
    ensures !IsAdminRole(rol) ==> r == Some(HttpError(403, SoloAdministradores))
    ensures IsAdminRole(rol) && !(isTime(c.horaInicio) && isTime(c.horaFin)) ==>
      r == Some(HttpError(400, "Formato de hora inválido. Usar HH:MM"))
    ensures (IsAdminRole(rol) && isTime(c.horaInicio) && isTime(c.horaFin) &&
             !DaysInRange(c.diasActivo)) ==> r == Some(HttpError(400, DiasFueraDeRango))
    ensures (IsAdminRole(rol) && isTime(c.horaInicio) && isTime(c.horaFin) &&
             c.diasActivo == []) ==> r == Some(HttpError(400, SinDias))
    ensures (IsAdminRole(rol) && isTime(c.horaInicio) && isTime(c.horaFin) && DaysInRange(c.diasActivo) &&
             |c.diasActivo| > 0 && c.intervaloRondaMinutos < 5) ==> r == Some(HttpError(400, IntervaloMinimo))
  {
    if !IsAdminRole(rol) then RequireAdmin(rol)
    else if !isTime(c.horaInicio) || !isTime(c.horaFin) then
      Some(HttpError(400, "Formato de hora inválido. Usar HH:MM"))
    else if !DaysInRange(c.diasActivo) then Some(HttpError(400, DiasFueraDeRango))
    else if |c.diasActivo| == 0 then Some(HttpError(400, SinDias))
    else if c.intervaloRondaMinutos < 5 then Some(HttpError(400, IntervaloMinimo))
    else if NameTaken(servicios, c.nombre) then Some(HttpError(400, "Ya existe un servicio con ese nombre"))
    else None
  }

  /** `crear_servicio`: `newId` is the id the database assigns and `now` the creation time. */
  function CrearServicio(rol: string, c: ServicioCreate, servicios: seq<ServicioRow>, isTime: string -> bool,
                         newId: int, now: int): (r: Result<ServicioRow>)
    ensures r.Err? <==> CreateError(rol, c, servicios, isTime).Some?
    ensures r.Err? ==> r.error == CreateError(rol, c, servicios, isTime).value
    ensures r.Ok? ==>
      ScheduleOk(r.value) && !NameTaken(servicios, r.value.nombre) &&
      r.value == ServicioRow(newId, c.nombre, c.descripcion, c.horaInicio, c.horaFin, c.diasActivo,
        c.intervaloRondaMinutos, c.activo, now, None)
  {
    match CreateError(rol, c, servicios, isTime)
    case Some(e) => Err(e)
    case None =>
      Ok(ServicioRow(newId, c.nombre, c.descripcion, c.horaInicio, c.horaFin, c.diasActivo,
        c.intervaloRondaMinutos, c.activo, now, None))
  }

  /** The hours are never compared: swapping start and end changes nothing in the checks,
      so a service from 22:00 to 06:00 is as acceptable as one from 06:00 to 22:00. */
  lemma NightServiceAccepted(rol: string, c: ServicioCreate, servicios: seq<ServicioRow>, isTime: string -> bool)
    ensures CreateError(rol, c, servicios, isTime) ==
      CreateError(rol, c.(horaInicio := c.horaFin, horaFin := c.horaInicio), servicios, isTime)
  {
  }

  /** A repeated day is not rejected. */
  lemma RepeatedDaysAccepted(isTime: string -> bool)
    requires isTime("22:00") && isTime("06:00")
    ensures CreateError("admin", ServicioCreate("Nocturno", None, "22:00", "06:00", [1, 1], 30, true), [], isTime).None?
  {
  }

  /** Inserting an accepted service keeps the names unique. */
  lemma CreateKeepsNamesUnique(rol: string, c: ServicioCreate, servicios: seq<ServicioRow>,
                               isTime: string -> bool, newId: int, now: int)
    requires UniqueNames(servicios)
    requires CrearServicio(rol, c, servicios, isTime, newId, now).Ok?
    ensures UniqueNames(servicios + [CrearServicio(rol, c, servicios, isTime, newId, now).value])
  {
    var t := servicios + [CrearServicio(rol, c, servicios, isTime, newId, now).value];
    forall i, j | 0 <= i < j < |t|
      ensures t[i].nombre != t[j].nombre
    {
      if j == |servicios| {
        assert t[i] == servicios[i];
      }
    }
  }

  // ---------------------------------------------------------------------------------------
  // Update

  /** The body of an update request: every field may be left out. */
  datatype ServicioUpdate = ServicioUpdate(
    nombre: Option<string>,
    descripcion: Option<string>,
    horaInicio: Option<string>,
    horaFin: Option<string>,
    diasActivo: Option<seq<int>>,
    intervaloRondaMinutos: Option<int>,
    activo: Option<bool>)

  /** The `update_data` dictionary. */
  datatype ServicioPatch = ServicioPatch(
    nombre: Option<string>,
    descripcion: Option<string>,
    horaInicio: Option<string>,
    horaFin: Option<string>,
    diasActivo: Option<seq<int>>,
    intervaloRondaMinutos: Option<int>,
    activo: Option<bool>,
    ultimaModificacion: Option<int>)

  const EmptyPatch := ServicioPatch(None, None, None, None, None, None, None, None)

  /** `table.update(update_data)` on one row. */
  function ApplyPatch(s: ServicioRow, d: ServicioPatch): ServicioRow {
    ServicioRow(s.id, d.nombre.GetOr(s.nombre),
      if d.descripcion.Some? then d.descripcion else s.descripcion,
      d.horaInicio.GetOr(s.horaInicio), d.horaFin.GetOr(s.horaFin), d.diasActivo.GetOr(s.diasActivo),
      d.intervaloRondaMinutos.GetOr(s.intervaloRondaMinutos), d.activo.GetOr(s.activo), s.fechaCreacion,
      if d.ultimaModificacion.Some? then d.ultimaModificacion else s.ultimaModificacion)
  }

  /** The fields an accepted update writes: name, hours and interval when truthy (an interval
      of 0 is skipped), description, days and flag whenever supplied, and always the
      modification time. */
  function PatchOf(u: ServicioUpdate, now: int): ServicioPatch {
    ServicioPatch(
      if TruthyStr(u.nombre) then u.nombre else None,
      u.descripcion,
      if TruthyStr(u.horaInicio) then u.horaInicio else None,
      if TruthyStr(u.horaFin) then u.horaFin else None,
      u.diasActivo,
      if TruthyId(u.intervaloRondaMinutos) then u.intervaloRondaMinutos else None,
      u.activo,
      Some(now))
  }

  /** The update's checks in the order the fields are visited. */
  function UpdateError(id: int, u: ServicioUpdate, servicios: seq<ServicioRow>, isTime: string -> bool): Option<HttpError> {
    if TruthyStr(u.nombre) && NameTakenByOther(servicios, u.nombre.value, id) then
      Some(HttpError(400, "Ya existe otro servicio con ese nombre"))
    else if TruthyStr(u.horaInicio) && !isTime(u.horaInicio.value) then
      Some(HttpError(400, "Formato de hora_inicio inválido"))
    else if TruthyStr(u.horaFin) && !isTime(u.horaFin.value) then
      Some(HttpError(400, "Formato de hora_fin inválido"))
    else if u.diasActivo.Some? && !DaysInRange(u.diasActivo.value) then Some(HttpError(400, "Días inválidos"))
    else if u.diasActivo.Some? && |u.diasActivo.value| == 0 then Some(HttpError(400, SinDias))
    else if TruthyId(u.intervaloRondaMinutos) && u.intervaloRondaMinutos.value < 5 then
      Some(HttpError(400, IntervaloMinimo))
    else None
  }

  /** What `actualizar_servicio` answers. */
  function UpdateResult(rol: string, id: int, u: ServicioUpdate, servicios: seq<ServicioRow>,
                        isTime: string -> bool, now: int): Result<ServicioRow> {
    if !IsAdminRole(rol) then Err(RequireAdmin(rol).value)
    else match ServicioById(servicios, id)
      case None => Err(HttpError(404, ServicioNoEncontrado))
      case Some(row) =>
        match UpdateError(id, u, servicios, isTime)
        case Some(e) => Err(e)
        case None => Ok(ApplyPatch(row, PatchOf(u, now)))
  }

  /** `actualizar_servicio` as the source runs it, building `update_data` field by field. */
  method ActualizarServicio(rol: string, id: int, u: ServicioUpdate, servicios: seq<ServicioRow>,
                            isTime: string -> bool, now: int) returns (r: Result<ServicioRow>)
    ensures r == UpdateResult(rol, id, u, servicios, isTime, now)
  {
    var denied := RequireAdmin(rol);
    if denied.Some? {
      return Err(denied.value);
    }
    var existing := ServicioById(servicios, id);
    if existing.None? {
      return Err(HttpError(404, ServicioNoEncontrado));
    }
    var d := EmptyPatch;
    if TruthyStr(u.nombre) {
      if NameTakenByOther(servicios, u.nombre.value, id) {
        return Err(HttpError(400, "Ya existe otro servicio con ese nombre"));
      }
      d := d.(nombre := u.nombre);
    }
    if u.descripcion.Some? {
      d := d.(descripcion := u.descripcion);
    }
    if TruthyStr(u.horaInicio) {
      if !isTime(u.horaInicio.value) {
        return Err(HttpError(400, "Formato de hora_inicio inválido"));
      }
      d := d.(horaInicio := u.horaInicio);
    }
    if TruthyStr(u.horaFin) {
      if !isTime(u.horaFin.value) {
        return Err(HttpError(400, "Formato de hora_fin inválido"));
      }
      d := d.(horaFin := u.horaFin);
    }
    if u.diasActivo.Some? {
      if !DaysInRange(u.diasActivo.value) {
        return Err(HttpError(400, "Días inválidos"));
      }
      if |u.diasActivo.value| == 0 {
        return Err(HttpError(400, SinDias));
      }
      d := d.(diasActivo := u.diasActivo);
    }
    if TruthyId(u.intervaloRondaMinutos) {
      if u.intervaloRondaMinutos.value < 5 {
        return Err(HttpError(400, IntervaloMinimo));
      }
      d := d.(intervaloRondaMinutos := u.intervaloRondaMinutos);
    }
    if u.activo.Some? {
      d := d.(activo := u.activo);
    }
    d := d.(ultimaModificacion := Some(now));
    assert UpdateError(id, u, servicios, isTime) == None;
    assert d == PatchOf(u, now);
    r := Ok(ApplyPatch(existing.value, d));
  }

  /** An update is accepted exactly when every supplied value passes its check; it then
      changes only the supplied fields (an interval of 0 is ignored) and always sets
      `ultima_modificacion`. */
  lemma UpdateChangesOnlySupplied(rol: string, id: int, u: ServicioUpdate, servicios: seq<ServicioRow>,
                                  isTime: string -> bool, now: int)
    ensures UpdateResult(rol, id, u, servicios, isTime, now).Ok? <==>
      IsAdminRole(rol) && ServicioById(servicios, id).Some? &&
      (TruthyStr(u.nombre) ==> !NameTakenByOther(servicios, u.nombre.value, id)) &&
      (TruthyStr(u.horaInicio) ==> isTime(u.horaInicio.value)) &&
      (TruthyStr(u.horaFin) ==> isTime(u.horaFin.value)) &&
      (u.diasActivo.Some? ==> DaysInRange(u.diasActivo.value) && |u.diasActivo.value| > 0) &&
      (TruthyId(u.intervaloRondaMinutos) ==> u.intervaloRondaMinutos.value >= 5)
    ensures UpdateResult(rol, id, u, servicios, isTime, now).Ok? ==>
      var row := ServicioById(servicios, id).value;
      var s := UpdateResult(rol, id, u, servicios, isTime, now).value;
      row in servicios && s.id == id && s.fechaCreacion == row.fechaCreacion &&
      s.nombre == (if TruthyStr(u.nombre) then u.nombre.value else row.nombre) &&
      s.descripcion == (if u.descripcion.Some? then u.descripcion else row.descripcion) &&
      s.horaInicio == (if TruthyStr(u.horaInicio) then u.horaInicio.value else row.horaInicio) &&
      s.horaFin == (if TruthyStr(u.horaFin) then u.horaFin.value else row.horaFin) &&
      s.diasActivo == u.diasActivo.GetOr(row.diasActivo) &&
      s.intervaloRondaMinutos ==
        (if TruthyId(u.intervaloRondaMinutos) then u.intervaloRondaMinutos.value else row.intervaloRondaMinutos) &&
      s.activo == u.activo.GetOr(row.activo) &&
      s.ultimaModificacion == Some(now)
  {
    var r := UpdateResult(rol, id, u, servicios, isTime, now);
    if IsAdminRole(rol) && ServicioById(servicios, id).Some? {
      var row := ServicioById(servicios, id).value;
      assert r.Ok? <==> UpdateError(id, u, servicios, isTime).None?;
      if r.Ok? {
        assert r.value == ApplyPatch(row, PatchOf(u, now));
      }
    }
  }

  /** An accepted update keeps a service within the schedule rules within them. */
  lemma UpdateKeepsSchedule(rol: string, id: int, u: ServicioUpdate, servicios: seq<ServicioRow>,
                            isTime: string -> bool, now: int)
    requires ServicioById(servicios, id).Some? && ScheduleOk(ServicioById(servicios, id).value)
    requires UpdateResult(rol, id, u, servicios, isTime, now).Ok?
    ensures ScheduleOk(UpdateResult(rol, id, u, servicios, isTime, now).value)
  {
  }

  /** `table.update(d).eq("id", id)` on the whole table. */
  function UpdateRows(servicios: seq<ServicioRow>, id: int, d: ServicioPatch): (r: seq<ServicioRow>)
    ensures |r| == |servicios|
    ensures forall i :: 0 <= i < |servicios| ==>
      r[i] == if servicios[i].id == id then ApplyPatch(servicios[i], d) else servicios[i]
  {
    Map(servicios, (s: ServicioRow) => if s.id == id then ApplyPatch(s, d) else s)
  }

  /** Writing an accepted rename back keeps the names unique: the name check excludes only
      the service being renamed, so its own name may be kept. */
  lemma UpdateKeepsNamesUnique(rol: string, id: int, u: ServicioUpdate, servicios: seq<ServicioRow>,
                               isTime: string -> bool, now: int)
    requires UniqueNames(servicios) && UniqueIds(servicios)
    requires UpdateResult(rol, id, u, servicios, isTime, now).Ok?
    ensures UniqueNames(UpdateRows(servicios, id, PatchOf(u, now)))
  {
    var d := PatchOf(u, now);
    var t := UpdateRows(servicios, id, d);
    assert UpdateError(id, u, servicios, isTime).None?;
    assert d.nombre.Some? ==> !NameTakenByOther(servicios, d.nombre.value, id);
    forall i, j | 0 <= i < j < |t|
      ensures t[i].nombre != t[j].nombre
    {
      assert t[i].nombre == if servicios[i].id == id then d.nombre.GetOr(servicios[i].nombre) else servicios[i].nombre;
      assert t[j].nombre == if servicios[j].id == id then d.nombre.GetOr(servicios[j].nombre) else servicios[j].nombre;
      if d.nombre.Some? && (servicios[i].id == id || servicios[j].id == id) {
        var k := if servicios[i].id == id then j else i;
        assert servicios[k].id != id;
        assert servicios[k].nombre != d.nombre.value;
      }
    }
  }

  // ---------------------------------------------------------------------------------------
  // Delete

  function TienePuntos(n: int): string {
    "No se puede eliminar. Hay " + IntToString(n) + " puntos QR asociados a este servicio"
  }

  /** The shared shape of the delete once the associated checkpoints have been counted:
      403, 404, the refusal of a permanent delete while points remain, then deletion or
      deactivation (with the modification time). */
  function DeleteWithCount(rol: string, id: int, permanente: bool, associated: nat,
                           servicios: seq<ServicioRow>, now: int): (r: Result<seq<ServicioRow>>)
    ensures r.Ok? <==>
      IsAdminRole(rol) && ServicioById(servicios, id).Some? && !(permanente && associated > 0)
    ensures IsAdminRole(rol) && ServicioById(servicios, id).Some? && permanente && associated > 0 ==>
      r == Err(HttpError(400, TienePuntos(associated)))
    ensures r.Ok? && permanente ==> forall s :: s in r.value <==> s in servicios && s.id != id
    ensures r.Ok? && !permanente ==>
      |r.value| == |servicios| &&
      forall i :: 0 <= i < |servicios| ==>
        r.value[i] == if servicios[i].id == id then servicios[i].(activo := false, ultimaModificacion := Some(now))
                      else servicios[i]
  {
    if !IsAdminRole(rol) then Err(RequireAdmin(rol).value)
    else if ServicioById(servicios, id).None? then Err(HttpError(404, ServicioNoEncontrado))
    else if associated > 0 && permanente then Err(HttpError(400, TienePuntos(associated)))
    else if permanente then Ok(Filter(servicios, (s: ServicioRow) => s.id != id))
    else Ok(UpdateRows(servicios, id, EmptyPatch.(activo := Some(false), ultimaModificacion := Some(now))))
  }

  /** The service's checkpoints in a table of points. */
  function PointsOf(puntos: seq<PuntoRow>, id: int): nat {
    Count(puntos, (p: PuntoRow) => p.servicioId == id)
  }

  /** Some point of the table belongs to the service. */
  predicate HasPoints(puntos: seq<PuntoRow>, id: int) {
    exists p :: p in puntos && p.servicioId == id
  }

  /** The count is positive exactly when some point belongs to the service. */
  lemma PointsOfPositive(puntos: seq<PuntoRow>, id: int)
    ensures PointsOf(puntos, id) > 0 <==> HasPoints(puntos, id)
  {
    var f := (q: PuntoRow) => q.servicioId == id;
    assert forall p :: p in Filter(puntos, f) <==> p in puntos && p.servicioId == id;
    if PointsOf(puntos, id) > 0 {
      assert Filter(puntos, f)[0] in Filter(puntos, f);
    }
  }

  /** `eliminar_servicio` as written: the associated points are counted in the table
      `puntos_control`, which no router writes; the checkpoints live in `puntos_qr`. */
  function EliminarServicioAsWritten(rol: string, id: int, permanente: bool, puntosControl: seq<PuntoRow>,
                                     servicios: seq<ServicioRow>, now: int): (r: Result<seq<ServicioRow>>)
    ensures r.Ok? <==>
      IsAdminRole(rol) && ServicioById(servicios, id).Some? && !(permanente && HasPoints(puntosControl, id))
    ensures IsAdminRole(rol) && ServicioById(servicios, id).Some? && permanente && HasPoints(puntosControl, id) ==>
      r == Err(HttpError(400, TienePuntos(PointsOf(puntosControl, id))))
    ensures r.Ok? && permanente ==>
      (forall p :: p in puntosControl ==> p.servicioId != id) &&
      (forall s :: s in r.value <==> s in servicios && s.id != id)
    ensures r.Ok? && !permanente ==>
      |r.value| == |servicios| &&
      forall i :: 0 <= i < |servicios| ==>
        r.value[i] == if servicios[i].id == id then servicios[i].(activo := false, ultimaModificacion := Some(now))
                      else servicios[i]
  {
    PointsOfPositive(puntosControl, id);
    DeleteWithCount(rol, id, permanente, PointsOf(puntosControl, id), servicios, now)
  }

  /** `eliminar_servicio` counting the service's checkpoints where they are stored. */
  function EliminarServicio(rol: string, id: int, permanente: bool, puntosQr: seq<PuntoRow>,
                            servicios: seq<ServicioRow>, now: int): (r: Result<seq<ServicioRow>>)
    ensures r.Ok? <==>
      IsAdminRole(rol) && ServicioById(servicios, id).Some? && !(permanente && HasPoints(puntosQr, id))
    ensures IsAdminRole(rol) && ServicioById(servicios, id).Some? && permanente && HasPoints(puntosQr, id) ==>
      r == Err(HttpError(400, TienePuntos(PointsOf(puntosQr, id))))
    ensures r.Ok? && permanente ==>
      (forall p :: p in puntosQr ==> p.servicioId != id) &&
      (forall s :: s in r.value <==> s in servicios && s.id != id)
    ensures r.Ok? && !permanente ==>
      |r.value| == |servicios| &&
      forall i :: 0 <= i < |servicios| ==>
        r.value[i] == if servicios[i].id == id then servicios[i].(activo := false, ultimaModificacion := Some(now))
                      else servicios[i]
  {
    PointsOfPositive(puntosQr, id);
    DeleteWithCount(rol, id, permanente, PointsOf(puntosQr, id), servicios, now)
  }

  /** As written, a service with a checkpoint is deleted permanently, leaving the point
      pointing at a service that no longer exists; the corrected deletion refuses the same
      request with the 400 that names the one associated point. */
  lemma AsWrittenDeletesServiceWithPoints()
    ensures var servicios := [ServicioRow(1, "Planta", None, "08:00", "20:00", [0], 60, true, 0, None)];
      var punto := PuntoRow(5, 1, "Entrada", None, 0.0, 0.0, None, None, Some(true), None, None);
      var r := EliminarServicioAsWritten("admin", 1, true, [], servicios, 0);
      r.Ok? && r.value == [] && ServicioById(r.value, punto.servicioId).None? &&
      EliminarServicio("admin", 1, true, [punto], servicios, 0) == Err(HttpError(400, TienePuntos(1)))
  {
    var servicios := [ServicioRow(1, "Planta", None, "08:00", "20:00", [0], 60, true, 0, None)];
    var punto := PuntoRow(5, 1, "Entrada", None, 0.0, 0.0, None, None, Some(true), None, None);
    var r := EliminarServicioAsWritten("admin", 1, true, [], servicios, 0);
    assert r.Ok?;
    assert forall s :: s !in r.value;
    assert PointsOf([punto], 1) == 1;
  }

  // ---------------------------------------------------------------------------------------
  // Statistics

  datatype ServicioStats = ServicioStats(total: int, activos: int, inactivos: int)

  /** `estadisticas_servicios`: administrators and supervisors only; `inactivos` is the
      difference of the two counts. */
  function EstadisticasServicios(rol: string, servicios: seq<ServicioRow>): (r: Result<ServicioStats>)
    ensures r.Ok? <==> IsAdminRole(rol) || rol == "supervisor"
    ensures r.Err? ==> r.error == HttpError(403, "Solo administradores o supervisores pueden acceder")
    ensures r.Ok? ==>
      r.value.total == |servicios| &&
      r.value.activos == Count(servicios, (s: ServicioRow) => s.activo) &&
      r.value.inactivos == Count(servicios, (s: ServicioRow) => !s.activo) &&
      r.value.activos + r.value.inactivos == r.value.total
  {
    if !(IsAdminRole(rol) || rol == "supervisor") then
      Err(HttpError(403, "Solo administradores o supervisores pueden acceder"))
    else
      var activos := Count(servicios, (s: ServicioRow) => s.activo);
      CountComplement(servicios, (s: ServicioRow) => s.activo, (s: ServicioRow) => !s.activo);
      Ok(ServicioStats(|servicios|, activos, |servicios| - activos))
  }
}
