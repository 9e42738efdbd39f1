/** The earlier checkpoint administration router (backend/app/routers/puntos_crud.py): the
    same operations as the adapted one, without a validation radius, with codes cut from a
    uuid4, with updates that set no timestamp and a delete that sets only the flag. */
module PuntosCrud {
  import opened Common
  import opened Text
  import opened Records
  import opened PuntoRules

  /** The body of a create request; `activo` defaults to true. */
  datatype PuntoCreate = PuntoCreate(
    nombre: string,
    descripcion: Option<string>,
    latitud: real,
    longitud: real,
    servicioId: int,
    activo: bool)

  /** The body of an update request: every field may be left out. */
  datatype PuntoUpdate = PuntoUpdate(
    nombre: Option<string>,
    descripcion: Option<string>,
    latitud: Option<real>,
    longitud: Option<real>,
    servicioId: Option<int>,
    activo: Option<bool>)

  /** uuid4 draws in their `.hex` rendering: 32 lower-case hexadecimal digits each. */
  predicate AllUuidHex(uuids: seq<string>) {
    AllHexTokens(uuids) && forall i :: 0 <= i < |uuids| ==> |uuids[i]| == 32
  }

  /** The create checks, first failure wins: administrator, service exists, latitude range,
      longitude range. No radius is involved. */
  function CreateError(rol: string, p: PuntoCreate, servicios: seq<ServicioRow>): (r: Option<HttpError>)
    ensures r.None? <==>
      IsAdminRole(rol) && ServicioExists(servicios, p.servicioId) &&
      LatitudeOk(p.latitud) && LongitudeOk(p.longitud)
    ensures !IsAdminRole(rol) ==> r == Some(HttpError(403, SoloAdministradores))
    ensures IsAdminRole(rol) && !ServicioExists(servicios, p.servicioId) ==>
      r == Some(HttpError(404, ServicioNoEncontrado))
    ensures IsAdminRole(rol) && ServicioExists(servicios, p.servicioId) && !LatitudeOk(p.latitud) ==>
      r == Some(HttpError(400, "Latitud debe estar entre -90 y 90"))
    ensures (IsAdminRole(rol) && ServicioExists(servicios, p.servicioId) && LatitudeOk(p.latitud) &&
             !LongitudeOk(p.longitud)) ==> r == Some(HttpError(400, "Longitud debe estar entre -180 y 180"))
  {
    if !IsAdminRole(rol) then RequireAdmin(rol)
    else if !ServicioExists(servicios, p.servicioId) then Some(HttpError(404, ServicioNoEncontrado))
    else if !LatitudeOk(p.latitud) then Some(HttpError(400, "Latitud debe estar entre -90 y 90"))
    else if !LongitudeOk(p.longitud) then Some(HttpError(400, "Longitud debe estar entre -180 y 180"))
    else None
  }

  /** `crear_punto`. `uuids` are the successive `uuid.uuid4().hex` draws, `newId` the id and
      `createdAt` the creation time the database fills in; the router itself writes neither
      a radius nor a timestamp. */
  method CrearPunto(rol: string, p: PuntoCreate, servicios: seq<ServicioRow>, puntos: seq<PuntoRow>,
                    uuids: seq<string>, newId: int, createdAt: Option<int>) returns (r: Result<PuntoRow>)
    requires AllUuidHex(uuids)
    requires CreateError(rol, p, servicios).None? ==> SomeDrawUnused(uuids, puntos)
    ensures r.Err? <==> CreateError(rol, p, servicios).Some?
    ensures r.Err? ==> r.error == CreateError(rol, p, servicios).value
    ensures r.Ok? ==>
      r.value.qrCode.Some? && IsPointCode(r.value.qrCode.value) &&
      FirstUnusedCode(r.value.qrCode.value, uuids, puntos)
    ensures r.Ok? ==> r.value == PuntoRow(newId, p.servicioId, p.nombre, p.descripcion, p.latitud,
      p.longitud, None, r.value.qrCode, Some(p.activo), createdAt, None)
  {
    var error := CreateError(rol, p, servicios);
    if error.Some? {
      return Err(error.value);
    }
    var code := GenerateCode(uuids, puntos);
    r := Ok(PuntoRow(newId, p.servicioId, p.nombre, p.descripcion, p.latitud, p.longitud,
      None, Some(code), Some(p.activo), createdAt, None));
  }

  /** Every supplied value the update checks is acceptable. */
  predicate UpdateValid(u: PuntoUpdate, servicios: seq<ServicioRow>) {
    (u.latitud.Some? ==> LatitudeOk(u.latitud.value)) &&
    (u.longitud.Some? ==> LongitudeOk(u.longitud.value)) &&
    (TruthyId(u.servicioId) ==> ServicioExists(servicios, u.servicioId.value))
  }

  /** The fields an accepted update writes: name and service only when truthy, the rest
      whenever supplied; no timestamp. */
  function PatchOf(u: PuntoUpdate): PuntoPatch {
    PuntoPatch(
      if TruthyStr(u.nombre) then u.nombre else None,
      u.descripcion,
      u.latitud,
      u.longitud,
      if TruthyId(u.servicioId) then u.servicioId else None,
      None,
      u.activo,
      None)
  }

  /** What `actualizar_punto` answers: 403, 404 for a missing point, the first failed check in
      field order, or the row with the patch applied. */
  function UpdateResult(rol: string, id: int, u: PuntoUpdate, puntos: seq<PuntoRow>,
                        servicios: seq<ServicioRow>): Result<PuntoRow> {
    if !IsAdminRole(rol) then Err(RequireAdmin(rol).value)
    else match PointById(puntos, id)
      case None => Err(HttpError(404, PuntoNoEncontrado))
      case Some(row) =>
        if u.latitud.Some? && !LatitudeOk(u.latitud.value) then Err(HttpError(400, "Latitud inválida"))
        else if u.longitud.Some? && !LongitudeOk(u.longitud.value) then Err(HttpError(400, "Longitud inválida"))
        else if TruthyId(u.servicioId) && !ServicioExists(servicios, u.servicioId.value) then
          Err(HttpError(404, ServicioNoEncontrado))
        else Ok(ApplyPatch(row, PatchOf(u)))
  }

  /** `actualizar_punto` as the source runs it, building `update_data` field by field. */
  method ActualizarPunto(rol: string, id: int, u: PuntoUpdate, puntos: seq<PuntoRow>,
                         servicios: seq<ServicioRow>) returns (r: Result<PuntoRow>)
    ensures r == UpdateResult(rol, id, u, puntos, servicios)
  {
    var denied := RequireAdmin(rol);
    if denied.Some? {
      return Err(denied.value);
    }
    var existing := PointById(puntos, id);
    if existing.None? {
      return Err(HttpError(404, PuntoNoEncontrado));
    }
    var d := EmptyPatch;
    if TruthyStr(u.nombre) {
      d := d.(nombre := u.nombre);
    }
    if u.descripcion.Some? {
      d := d.(descripcion := u.descripcion);
    }
    if u.latitud.Some? {
      if !LatitudeOk(u.latitud.value) {
        return Err(HttpError(400, "Latitud inválida"));
      }
      d := d.(latitud := u.latitud);
    }
    if u.longitud.Some? {
      if !LongitudeOk(u.longitud.value) {
        return Err(HttpError(400, "Longitud inválida"));
      }
      d := d.(longitud := u.longitud);
    }
    if TruthyId(u.servicioId) {
      if !ServicioExists(servicios, u.servicioId.value) {
        return Err(HttpError(404, ServicioNoEncontrado));
      }
      d := d.(servicioId := u.servicioId);
    }
    if u.activo.Some? {
      d := d.(activo := u.activo);
    }
    r := Ok(ApplyPatch(existing.value, d));
  }

  /** An update is accepted exactly when the caller is an administrator, the point exists and
      every supplied value passes; it then changes only the supplied fields and leaves the
      radius and `updated_at` as they were. */
  lemma UpdateChangesOnlySupplied(rol: string, id: int, u: PuntoUpdate, puntos: seq<PuntoRow>,
                                  servicios: seq<ServicioRow>)
    ensures UpdateResult(rol, id, u, puntos, servicios).Ok? <==>
      IsAdminRole(rol) && PointById(puntos, id).Some? && UpdateValid(u, servicios)
    ensures UpdateResult(rol, id, u, puntos, servicios).Ok? ==>
      var row := PointById(puntos, id).value;
      var p := UpdateResult(rol, id, u, puntos, servicios).value;
      row in puntos && row.id == id &&
      p.id == row.id && p.qrCode == row.qrCode && p.createdAt == row.createdAt &&
      p.radioValidacion == row.radioValidacion && p.updatedAt == row.updatedAt &&
      p.nombre == (if TruthyStr(u.nombre) then u.nombre.value else row.nombre) &&
      p.descripcion == (if u.descripcion.Some? then u.descripcion else row.descripcion) &&
      p.latitud == u.latitud.GetOr(row.latitud) && p.longitud == u.longitud.GetOr(row.longitud) &&
      p.servicioId == (if TruthyId(u.servicioId) then u.servicioId.value else row.servicioId) &&
      p.activo == (if u.activo.Some? then u.activo else row.activo)
  {
  }

  /** The delete's first three outcomes for a point that may not exist, in the order the
      source checks them. */
  function DeleteError(rol: string, id: int, permanente: bool, visitCount: Option<int>,
                       puntos: seq<PuntoRow>): (r: Option<HttpError>)
    ensures r.None? <==>
      IsAdminRole(rol) && PointById(puntos, id).Some? && visitCount.Some? &&
      !(visitCount.value > 0 && permanente)
    ensures (IsAdminRole(rol) && PointById(puntos, id).Some? && visitCount.None?) ==>
      r == Some(HttpError(500, "Internal Server Error"))
  {
    if !IsAdminRole(rol) then RequireAdmin(rol)
    else if PointById(puntos, id).None? then Some(HttpError(404, PuntoNoEncontrado))
    else if visitCount.None? then Some(HttpError(500, "Internal Server Error"))
    else if visitCount.value > 0 && permanente then
      Some(HttpError(400, "No se puede eliminar permanentemente. Hay " + IntToString(visitCount.value) +
        " visitas asociadas"))
    else None
  }

  /** `eliminar_punto` on the table. The count is compared with 0 before `permanente` is
      read, so a reply without a count fails with a TypeError (500) on either kind of
      delete. */
  function EliminarPunto(rol: string, id: int, permanente: bool, visitCount: Option<int>,
                         puntos: seq<PuntoRow>): (r: Result<seq<PuntoRow>>)
    ensures r.Err? <==> DeleteError(rol, id, permanente, visitCount, puntos).Some?
    ensures r.Err? ==> r.error == DeleteError(rol, id, permanente, visitCount, puntos).value
    ensures r.Ok? && permanente ==>
      visitCount.Some? && visitCount.value <= 0
    ensures r.Ok? && permanente ==> forall p :: p in r.value <==> p in puntos && p.id != id
    ensures r.Ok? && !permanente ==>
      |r.value| == |puntos| &&
      forall i :: 0 <= i < |puntos| ==>
        r.value[i] == if puntos[i].id == id then puntos[i].(activo := Some(false)) else puntos[i]
  {
    match DeleteError(rol, id, permanente, visitCount, puntos)
    case Some(e) => Err(e)
    case None =>
      if permanente then Ok(RemoveRows(puntos, id))
      else Ok(UpdateRows(puntos, id, EmptyPatch.(activo := Some(false))))
  }

  /** A listed point: the row and its service's name. */
  datatype PuntoConServicio = PuntoConServicio(punto: PuntoRow, servicioNombre: Option<string>)

  function WithServicio(p: PuntoRow, servicios: seq<ServicioRow>, raises: set<int>): PuntoConServicio {
    PuntoConServicio(p, ServicioNombre(p, servicios, raises))
  }

  /** `listar_puntos` in the order the query returns the rows. */
  function ListarPuntos(activo: Option<bool>, servicioId: Option<int>, puntos: seq<PuntoRow>,
                        servicios: seq<ServicioRow>, raises: set<int>): (r: seq<PuntoConServicio>)
    ensures |r| == Count(puntos, ListFilter(activo, servicioId))
    ensures forall i :: 0 <= i < |r| ==>
      r[i].punto == Filter(puntos, ListFilter(activo, servicioId))[i] &&
      r[i].servicioNombre == ServicioNombre(r[i].punto, servicios, raises)
    ensures forall e :: e in r ==> e.punto in puntos && Listed(e.punto, activo, servicioId)
  {
    var rows := Filter(puntos, ListFilter(activo, servicioId));
    var r := seq(|rows|, i requires 0 <= i < |rows| => WithServicio(rows[i], servicios, raises));
    assert forall e :: e in r ==> e.punto in rows by {
      forall e | e in r
        ensures e.punto in rows
      {
        var i :| 0 <= i < |r| && r[i] == e;
        assert e.punto == rows[i];
      }
    }
    r
  }

  /** Without a truthy service id the listing is not narrowed by service: a request for
      service 0 lists every row the flag admits. */
  lemma ZeroServicioIsNoFilter(activo: Option<bool>, puntos: seq<PuntoRow>, servicios: seq<ServicioRow>,
                               raises: set<int>)
    ensures ListarPuntos(activo, Some(0), puntos, servicios, raises) == ListarPuntos(activo, None, puntos, servicios, raises)
  {
    FilterSamePredicate(puntos, ListFilter(activo, Some(0)), ListFilter(activo, None));
  }
}
