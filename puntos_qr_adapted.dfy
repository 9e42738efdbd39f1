/** The checkpoint administration router over integer service ids
    (backend/app/routers/puntos_qr_adapted.py): create with validation and a fresh
    "ACRUX-" code, partial update, soft or permanent delete, the listing with its
    `codigo_qr` alias, the summary counters and the lookups by id and by code. */
module PuntosQrAdapted {
  import opened Common
  import opened Text
  import opened Records
  import opened PuntoRules

  /** The body of a create request; `radio_validacion` defaults to 50 and `activo` to true. */
  datatype PuntoCreate = PuntoCreate(
    nombre: string,
    descripcion: Option<string>,
    latitud: real,
    longitud: real,
    servicioId: int,
    radioValidacion: int,
    activo: bool)

  /** The body of an update request: every field may be left out. */
  datatype PuntoUpdate = PuntoUpdate(
    nombre: Option<string>,
    descripcion: Option<string>,
    latitud: Option<real>,
    longitud: Option<real>,
    servicioId: Option<int>,
    radioValidacion: Option<int>,
    activo: Option<bool>)

  predicate RadioOk(radio: int) {
    10 <= radio <= 500
  }

  /** A stored row whose coordinates and radius are within the ranges the router enforces. */
  predicate InRange(p: PuntoRow) {
    LatitudeOk(p.latitud) && LongitudeOk(p.longitud) &&
    (p.radioValidacion.Some? ==> RadioOk(p.radioValidacion.value))
  }

  const LatitudRango := "Latitud debe estar entre -90 y 90"
  const LongitudRango := "Longitud debe estar entre -180 y 180"
  const RadioRango := "Radio de validación debe estar entre 10 y 500 metros"

  // ---------------------------------------------------------------------------------------
  // Create

  /** The create checks, first failure wins: administrator, service exists, latitude range,
      longitude range, radius range. */
  function CreateError(rol: string, p: PuntoCreate, servicios: seq<ServicioRow>): (r: Option<HttpError>)
    ensures r.None? <==>
      IsAdminRole(rol) && ServicioExists(servicios, p.servicioId) &&
      LatitudeOk(p.latitud) && LongitudeOk(p.longitud) && RadioOk(p.radioValidacion)
    ensures !IsAdminRole(rol) ==> r == Some(HttpError(403, SoloAdministradores))
    ensures IsAdminRole(rol) && !ServicioExists(servicios, p.servicioId) ==>
      r == Some(HttpError(404, ServicioNoEncontrado))
    ensures IsAdminRole(rol) && ServicioExists(servicios, p.servicioId) && !LatitudeOk(p.latitud) ==>
      r == Some(HttpError(400, LatitudRango))
    ensures (IsAdminRole(rol) && ServicioExists(servicios, p.servicioId) && LatitudeOk(p.latitud) &&
             !LongitudeOk(p.longitud)) ==> r == Some(HttpError(400, LongitudRango))
    ensures (IsAdminRole(rol) && ServicioExists(servicios, p.servicioId) && LatitudeOk(p.latitud) &&
             LongitudeOk(p.longitud) && !RadioOk(p.radioValidacion)) ==> r == Some(HttpError(400, RadioRango))
  {
    if !IsAdminRole(rol) then RequireAdmin(rol)
    else if !ServicioExists(servicios, p.servicioId) then Some(HttpError(404, ServicioNoEncontrado))
    else if !LatitudeOk(p.latitud) then Some(HttpError(400, LatitudRango))
    else if !LongitudeOk(p.longitud) then Some(HttpError(400, LongitudRango))
    else if !RadioOk(p.radioValidacion) then Some(HttpError(400, RadioRango))
    else None
  }

  /** `crear_punto`. `tokens` are the successive `secrets.token_hex(6)` draws; `newId` is the
      id the database assigns and `now` the clock's reading, used for both timestamps. */
  method CrearPunto(rol: string, p: PuntoCreate, servicios: seq<ServicioRow>, puntos: seq<PuntoRow>,
                    tokens: seq<string>, newId: int, now: int) returns (r: Result<PuntoRow>)
    requires AllHexTokens(tokens)
    requires CreateError(rol, p, servicios).None? ==> SomeDrawUnused(tokens, puntos)
    ensures r.Err? <==> CreateError(rol, p, servicios).Some?
    ensures r.Err? ==> r.error == CreateError(rol, p, servicios).value
    ensures r.Ok? ==>
      r.value.qrCode.Some? && IsPointCode(r.value.qrCode.value) &&
      FirstUnusedCode(r.value.qrCode.value, tokens, puntos)
    ensures r.Ok? ==> r.value == PuntoRow(newId, p.servicioId, p.nombre, p.descripcion, p.latitud,
      p.longitud, Some(p.radioValidacion), r.value.qrCode, Some(p.activo), Some(now), Some(now))
    ensures r.Ok? ==> InRange(r.value)
  {
    var error := CreateError(rol, p, servicios);
    if error.Some? {
      return Err(error.value);
    }
    var code := GenerateCode(tokens, puntos);
    r := Ok(PuntoRow(newId, p.servicioId, p.nombre, p.descripcion, p.latitud, p.longitud,
      Some(p.radioValidacion), Some(code), Some(p.activo), Some(now), Some(now)));
  }

  // ---------------------------------------------------------------------------------------
  // Update

  /** A radius is applied only when truthy: absent and 0 are skipped. */
  predicate RadioSupplied(u: PuntoUpdate) {
    TruthyId(u.radioValidacion)
  }

  /** Every supplied value the update checks is acceptable. */
  predicate UpdateValid(u: PuntoUpdate, servicios: seq<ServicioRow>) {
    (u.latitud.Some? ==> LatitudeOk(u.latitud.value)) &&
    (u.longitud.Some? ==> LongitudeOk(u.longitud.value)) &&
    (TruthyId(u.servicioId) ==> ServicioExists(servicios, u.servicioId.value)) &&
    (RadioSupplied(u) ==> RadioOk(u.radioValidacion.value))
  }

  /** The update's checks in the order the fields are visited. */
  function UpdateError(u: PuntoUpdate, servicios: seq<ServicioRow>): (r: Option<HttpError>)
    ensures r.None? <==> UpdateValid(u, servicios)
    ensures u.latitud.Some? && !LatitudeOk(u.latitud.value) ==> r == Some(HttpError(400, "Latitud inválida"))
    ensures ((u.latitud.Some? ==> LatitudeOk(u.latitud.value)) &&
             u.longitud.Some? && !LongitudeOk(u.longitud.value)) ==> r == Some(HttpError(400, "Longitud inválida"))
    ensures r.Some? && r.value.status == 404 <==>
      (u.latitud.Some? ==> LatitudeOk(u.latitud.value)) &&
      (u.longitud.Some? ==> LongitudeOk(u.longitud.value)) &&
      TruthyId(u.servicioId) && !ServicioExists(servicios, u.servicioId.value)
    ensures r.Some? && r.value.status == 404 ==> r.value.detail == ServicioNoEncontrado
    ensures (UpdateValid(u.(radioValidacion := None), servicios) && RadioSupplied(u) &&
             !RadioOk(u.radioValidacion.value)) ==> r == Some(HttpError(400, "Radio inválido"))
  {
    if u.latitud.Some? && !LatitudeOk(u.latitud.value) then Some(HttpError(400, "Latitud inválida"))
    else if u.longitud.Some? && !LongitudeOk(u.longitud.value) then Some(HttpError(400, "Longitud inválida"))
    else if TruthyId(u.servicioId) && !ServicioExists(servicios, u.servicioId.value) then
      Some(HttpError(404, ServicioNoEncontrado))
    else if RadioSupplied(u) && !RadioOk(u.radioValidacion.value) then Some(HttpError(400, "Radio inválido"))
    else None
  }

  /** The fields an accepted update writes: name, service and radius only when truthy, the
      rest whenever supplied, and always the modification time. */
  function PatchOf(u: PuntoUpdate, now: int): PuntoPatch {
    PuntoPatch(
      if TruthyStr(u.nombre) then u.nombre else None,
      u.descripcion,
      u.latitud,
      u.longitud,
      if TruthyId(u.servicioId) then u.servicioId else None,
      if RadioSupplied(u) then u.radioValidacion else None,
      u.activo,
      Some(now))
  }

  /** What `actualizar_punto` answers: 403 for a non-administrator, 404 for a missing point,
      the first failed check, or the row with the patch applied. */
  function UpdateResult(rol: string, id: int, u: PuntoUpdate, puntos: seq<PuntoRow>,
                        servicios: seq<ServicioRow>, now: int): Result<PuntoRow> {
    if !IsAdminRole(rol) then Err(RequireAdmin(rol).value)
    else match PointById(puntos, id)
      case None => Err(HttpError(404, PuntoNoEncontrado))
      case Some(row) =>
        match UpdateError(u, servicios)
        case Some(e) => Err(e)
        case None => Ok(ApplyPatch(row, PatchOf(u, now)))
  }

  /** `actualizar_punto` as the source runs it: the `update_data` dictionary is built field by
      field, and a failed check returns at once. */
  method ActualizarPunto(rol: string, id: int, u: PuntoUpdate, puntos: seq<PuntoRow>,
                         servicios: seq<ServicioRow>, now: int) returns (r: Result<PuntoRow>)
    ensures r == UpdateResult(rol, id, u, puntos, servicios, now)
  {
    var denied := RequireAdmin(rol);
    if denied.Some? {
      return Err(denied.value);
    }
    var existing := PointById(puntos, id);
    if existing.None? {
      return Err(HttpError(404, PuntoNoEncontrado));
    }
    var d := EmptyPatch;
    if TruthyStr(u.nombre) {
      d := d.(nombre := u.nombre);
    }
    if u.descripcion.Some? {
      d := d.(descripcion := u.descripcion);
    }
    if u.latitud.Some? {
      if !LatitudeOk(u.latitud.value) {
        return Err(HttpError(400, "Latitud inválida"));
      }
      d := d.(latitud := u.latitud);
    }
    if u.longitud.Some? {
      if !LongitudeOk(u.longitud.value) {
        return Err(HttpError(400, "Longitud inválida"));
      }
      d := d.(longitud := u.longitud);
    }
    if TruthyId(u.servicioId) {
      if !ServicioExists(servicios, u.servicioId.value) {
        return Err(HttpError(404, ServicioNoEncontrado));
      }
      d := d.(servicioId := u.servicioId);
    }
    if RadioSupplied(u) {
      if !RadioOk(u.radioValidacion.value) {
        return Err(HttpError(400, "Radio inválido"));
      }
      d := d.(radioValidacion := u.radioValidacion);
    }
    if u.activo.Some? {
      d := d.(activo := u.activo);
    }
    d := d.(updatedAt := Some(now));
    assert UpdateError(u, servicios) == None;
    assert d == PatchOf(u, now);
    r := Ok(ApplyPatch(existing.value, d));
  }

  /** An update is accepted exactly when the caller is an administrator, the point exists and
      every supplied value passes its check. */
  lemma UpdateAcceptedIff(rol: string, id: int, u: PuntoUpdate, puntos: seq<PuntoRow>,
                          servicios: seq<ServicioRow>, now: int)
    ensures UpdateResult(rol, id, u, puntos, servicios, now).Ok? <==>
      IsAdminRole(rol) && PointById(puntos, id).Some? && UpdateValid(u, servicios)
  {
  }

  /** An accepted update changes only what was supplied: the name, service and radius when
      truthy (a radius of 0 is ignored), the description, coordinates and flag when present,
      and always `updated_at`; the id, code and creation time stay. */
  lemma UpdateTouchesOnlySupplied(rol: string, id: int, u: PuntoUpdate, puntos: seq<PuntoRow>,
                                  servicios: seq<ServicioRow>, now: int)
    requires UpdateResult(rol, id, u, puntos, servicios, now).Ok?
    ensures var row := PointById(puntos, id).value;
      var p := UpdateResult(rol, id, u, puntos, servicios, now).value;
      row in puntos && row.id == id &&
      p.id == row.id && p.qrCode == row.qrCode && p.createdAt == row.createdAt &&
      p.nombre == (if TruthyStr(u.nombre) then u.nombre.value else row.nombre) &&
      p.descripcion == (if u.descripcion.Some? then u.descripcion else row.descripcion) &&
      p.latitud == u.latitud.GetOr(row.latitud) && p.longitud == u.longitud.GetOr(row.longitud) &&
      p.servicioId == (if TruthyId(u.servicioId) then u.servicioId.value else row.servicioId) &&
      p.radioValidacion == (if RadioSupplied(u) then u.radioValidacion else row.radioValidacion) &&
      p.activo == (if u.activo.Some? then u.activo else row.activo) &&
      p.updatedAt == Some(now)
  {
  }

  /** An accepted update keeps a row that was within range within range, and moves a point
      only to a service that exists. */
  lemma UpdateKeepsRanges(rol: string, id: int, u: PuntoUpdate, puntos: seq<PuntoRow>,
                          servicios: seq<ServicioRow>, now: int)
    requires PointById(puntos, id).Some? && InRange(PointById(puntos, id).value)
    requires UpdateResult(rol, id, u, puntos, servicios, now).Ok?
    ensures InRange(UpdateResult(rol, id, u, puntos, servicios, now).value)
    ensures var p := UpdateResult(rol, id, u, puntos, servicios, now).value;
      p.servicioId != PointById(puntos, id).value.servicioId ==> ServicioExists(servicios, p.servicioId)
  {
  }

  // ---------------------------------------------------------------------------------------
  // Delete

  function TieneVisitas(n: int): string {
    "No se puede eliminar permanentemente. Hay " + IntToString(n) + " visitas asociadas"
  }

  /** `eliminar_punto` on the table. `visitCount` is the count the visit query reports (None
      when the reply carries none, which lets a permanent delete through). */
  function EliminarPunto(rol: string, id: int, permanente: bool, visitCount: Option<int>,
                         puntos: seq<PuntoRow>, now: int): (r: Result<seq<PuntoRow>>)
    ensures !IsAdminRole(rol) ==> r == Err(HttpError(403, SoloAdministradores))
    ensures IsAdminRole(rol) && PointById(puntos, id).None? ==> r == Err(HttpError(404, PuntoNoEncontrado))
    ensures (IsAdminRole(rol) && PointById(puntos, id).Some? && permanente &&
             visitCount.Some? && visitCount.value > 0) ==> r == Err(HttpError(400, TieneVisitas(visitCount.value)))
    ensures r.Ok? <==>
      IsAdminRole(rol) && PointById(puntos, id).Some? &&
      !(permanente && visitCount.Some? && visitCount.value > 0)
    ensures r.Ok? && permanente ==> forall p :: p in r.value <==> p in puntos && p.id != id
    ensures r.Ok? && !permanente ==>
      |r.value| == |puntos| &&
      forall i :: 0 <= i < |puntos| ==>
        r.value[i] == if puntos[i].id == id then puntos[i].(activo := Some(false), updatedAt := Some(now))
                      else puntos[i]
  {
    if !IsAdminRole(rol) then Err(RequireAdmin(rol).value)
    else if PointById(puntos, id).None? then Err(HttpError(404, PuntoNoEncontrado))
    else if visitCount.Some? && visitCount.value != 0 && visitCount.value > 0 && permanente then
      Err(HttpError(400, TieneVisitas(visitCount.value)))
    else if permanente then Ok(RemoveRows(puntos, id))
    else Ok(UpdateRows(puntos, id, EmptyPatch.(activo := Some(false), updatedAt := Some(now))))
  }

  // ---------------------------------------------------------------------------------------
  // Listing, statistics and lookups

  /** A listed point: the row, its `codigo_qr` alias and its service's name. The alias is
      `punto.get("qr_code", "")`; the column is always present, so a NULL code stays None. */
  datatype PuntoConServicio = PuntoConServicio(punto: PuntoRow, codigoQr: Option<string>, servicioNombre: Option<string>)

  function WithServicio(p: PuntoRow, servicios: seq<ServicioRow>, raises: set<int>): PuntoConServicio {
    PuntoConServicio(p, p.qrCode, ServicioNombre(p, servicios, raises))
  }

  /** `listar_puntos` in the order the query returns the rows. */
  function ListarPuntos(activo: Option<bool>, servicioId: Option<int>, puntos: seq<PuntoRow>,
                        servicios: seq<ServicioRow>, raises: set<int>): (r: seq<PuntoConServicio>)
    ensures |r| <= |puntos|
    ensures forall e :: e in r ==>
      e.punto in puntos && Listed(e.punto, activo, servicioId) &&
      e.codigoQr == e.punto.qrCode &&
      e.servicioNombre == ServicioNombre(e.punto, servicios, raises)
    ensures forall p :: p in puntos && Listed(p, activo, servicioId) ==>
      WithServicio(p, servicios, raises) in r
  {
    var rows := Filter(puntos, ListFilter(activo, servicioId));
    var r := seq(|rows|, i requires 0 <= i < |rows| => WithServicio(rows[i], servicios, raises));
    assert forall e :: e in r ==> e.punto in rows by {
      forall e | e in r
        ensures e.punto in rows
      {
        var i :| 0 <= i < |r| && r[i] == e;
        assert e.punto == rows[i];
      }
    }
    assert forall p :: p in rows ==> WithServicio(p, servicios, raises) in r by {
      forall p | p in rows
        ensures WithServicio(p, servicios, raises) in r
      {
        var i :| 0 <= i < |rows| && rows[i] == p;
        assert r[i] == WithServicio(p, servicios, raises);
      }
    }
    r
  }

  /** The summary counters; the database may report no count, which reads as 0. */
  datatype PuntoStats = PuntoStats(total: int, activos: int, inactivos: int)

  function EstadisticasPuntos(total: Option<int>, activos: Option<int>): (r: PuntoStats)
    ensures r.total == total.GetOr(0) && r.activos == activos.GetOr(0)
    ensures r.activos + r.inactivos == r.total
  {
    PuntoStats(total.GetOr(0), activos.GetOr(0), total.GetOr(0) - activos.GetOr(0))
  }

  function IsActiveRow(): PuntoRow -> bool {
    (p: PuntoRow) => p.activo == Some(true)
  }

  function IsNotActiveRow(): PuntoRow -> bool {
    (p: PuntoRow) => p.activo != Some(true)
  }

  /** With both counts taken from the table, `inactivos` counts the rows whose flag is not
      true (false or absent), and is never negative. */
  lemma StatsFromTable(puntos: seq<PuntoRow>)
    ensures var r := EstadisticasPuntos(Some(|puntos|), Some(Count(puntos, IsActiveRow())));
      r.total == |puntos| && r.inactivos == Count(puntos, IsNotActiveRow()) && r.inactivos >= 0
  {
    CountComplement(puntos, IsActiveRow(), IsNotActiveRow());
  }

  /** `obtener_punto_por_qr`: only an active point is found by its code. */
  function ObtenerPuntoPorQr(code: string, puntos: seq<PuntoRow>): (r: Result<PuntoRow>)
    ensures r.Ok? <==> exists p :: p in puntos && p.qrCode == Some(code) && p.activo == Some(true)
    ensures r.Ok? ==> r.value in puntos && r.value.qrCode == Some(code) && r.value.activo == Some(true)
    ensures r.Err? ==> r.error == HttpError(404, "Código QR no encontrado o inactivo")
  {
    match FindFirst(puntos, (p: PuntoRow) => p.qrCode == Some(code) && p.activo == Some(true))
    case Some(p) => Ok(p)
    case None => Err(HttpError(404, "Código QR no encontrado o inactivo"))
  }
}
