/** The checkpoint reader for guards and supervisors (backend/app/routers/puntos.py): the
    listing of active checkpoints narrowed by role, and the fetch by id with its service
    check. */
module Puntos {
  import opened Common
  import opened Records

  /** The reply model: here `qr_code` and `activo` are required, so a row without them
      cannot be rendered. */
  datatype PuntoQrResponse = PuntoQrResponse(
    id: int,
    servicioId: int,
    nombre: string,
    descripcion: Option<string>,
    latitud: real,
    longitud: real,
    qrCode: string,
    activo: bool)

  const InternalError := HttpError(500, "Internal Server Error")

  /** Building the reply model from a row: a missing `qr_code` is a KeyError and a missing
      `activo` a validation error, both None here. */
  function ToResponse(p: PuntoRow): (r: Option<PuntoQrResponse>)
    ensures r.Some? <==> p.qrCode.Some? && p.activo.Some?
    ensures r.Some? ==>
      r.value.id == p.id && r.value.servicioId == p.servicioId && r.value.nombre == p.nombre &&
      r.value.descripcion == p.descripcion && r.value.latitud == p.latitud &&
      r.value.longitud == p.longitud && Some(r.value.qrCode) == p.qrCode && Some(r.value.activo) == p.activo
  {
    if p.qrCode.Some? && p.activo.Some? then
      Some(PuntoQrResponse(p.id, p.servicioId, p.nombre, p.descripcion, p.latitud, p.longitud,
        p.qrCode.value, p.activo.value))
    else None
  }

  /** The append loop: every row rendered in order, or None as soon as one cannot be. */
  function ToResponses(rows: seq<PuntoRow>): (r: Option<seq<PuntoQrResponse>>)
    ensures r.Some? <==> forall i :: 0 <= i < |rows| ==> ToResponse(rows[i]).Some?
    ensures r.Some? ==>
      |r.value| == |rows| &&
      forall i :: 0 <= i < |rows| ==> Some(r.value[i]) == ToResponse(rows[i])
  {
    if rows == [] then Some([])
    else match ToResponse(rows[0])
      case None => None
      case Some(x) =>
        match ToResponses(rows[1..])
        case None => None
        case Some(xs) => Some([x] + xs)
  }

  /** The service a listing is narrowed to: a field role's own service (its `servicio_id`
      parameter is ignored), an administrator's truthy parameter, otherwise none. */
  function ServiceScope(u: User, servicioId: Option<int>): Option<int> {
    if IsFieldRole(u.rol) then u.servicioId
    else if IsAdminRole(u.rol) && TruthyId(servicioId) then servicioId
    else None
  }

  /** The rows `get_puntos` selects: active ones, within the scope. */
  predicate Selected(p: PuntoRow, scope: Option<int>) {
    p.activo == Some(true) && (scope.Some? ==> p.servicioId == scope.value)
  }

  function SelectedIn(scope: Option<int>): PuntoRow -> bool {
    (p: PuntoRow) => Selected(p, scope)
  }

  /** The selected rows all render exactly when each of them has a code (their flag is
      true by selection). */
  lemma SelectedRender(puntos: seq<PuntoRow>, scope: Option<int>)
    ensures ToResponses(Filter(puntos, SelectedIn(scope))).Some? <==>
      forall p :: p in puntos && Selected(p, scope) ==> p.qrCode.Some?
  {
    var rows := Filter(puntos, SelectedIn(scope));
    if forall p :: p in puntos && Selected(p, scope) ==> p.qrCode.Some? {
      forall i | 0 <= i < |rows|
        ensures ToResponse(rows[i]).Some?
      {
        assert rows[i] in rows;
      }
    } else {
      var p :| p in puntos && Selected(p, scope) && p.qrCode.None?;
      assert p in rows;
      var i :| 0 <= i < |rows| && rows[i] == p;
      assert ToResponse(rows[i]).None?;
    }
  }

  /** `get_puntos`: 400 for a guard or supervisor without a service; otherwise the selected
      rows in table order, each rendered, or 500 when one of them has no code. */
  function GetPuntos(u: User, servicioId: Option<int>, puntos: seq<PuntoRow>): (r: Result<seq<PuntoQrResponse>>)
    ensures IsFieldRole(u.rol) && !TruthyId(u.servicioId) ==> r == Err(HttpError(400, "Usuario sin servicio asignado"))
    ensures r.Ok? <==>
      !(IsFieldRole(u.rol) && !TruthyId(u.servicioId)) &&
      forall p :: p in puntos && Selected(p, ServiceScope(u, servicioId)) ==> p.qrCode.Some?
    ensures r.Err? && !(IsFieldRole(u.rol) && !TruthyId(u.servicioId)) ==> r.error == InternalError
    ensures r.Ok? ==>
      var rows := Filter(puntos, SelectedIn(ServiceScope(u, servicioId)));
      |r.value| == |rows| && forall i :: 0 <= i < |rows| ==> Some(r.value[i]) == ToResponse(rows[i])
    ensures r.Ok? ==> forall x :: x in r.value ==> x.activo
  {
    if IsFieldRole(u.rol) && !TruthyId(u.servicioId) then Err(HttpError(400, "Usuario sin servicio asignado"))
    else
      var rows := Filter(puntos, SelectedIn(ServiceScope(u, servicioId)));
      SelectedRender(puntos, ServiceScope(u, servicioId));
      match ToResponses(rows)
      case None => Err(InternalError)
      case Some(xs) =>
        assert forall x :: x in xs ==> x.activo by {
          forall x | x in xs
            ensures x.activo
          {
            var i :| 0 <= i < |xs| && xs[i] == x;
            assert rows[i] in rows;
          }
        }
        Ok(xs)
  }

  /** A guard or supervisor sees only its own service's points, whatever `servicio_id` it
      sends: two requests differing only in the parameter get the same answer. */
  lemma FieldRoleSeesOwnService(u: User, s1: Option<int>, s2: Option<int>, puntos: seq<PuntoRow>)
    requires IsFieldRole(u.rol)
    ensures GetPuntos(u, s1, puntos) == GetPuntos(u, s2, puntos)
    ensures GetPuntos(u, s1, puntos).Ok? ==>
      forall x :: x in GetPuntos(u, s1, puntos).value ==> Some(x.servicioId) == u.servicioId
  {
    var r := GetPuntos(u, s1, puntos);
    if r.Ok? {
      var rows := Filter(puntos, SelectedIn(ServiceScope(u, s1)));
      var xs := ToResponses(rows).value;
      forall x | x in r.value
        ensures Some(x.servicioId) == u.servicioId
      {
        var i :| 0 <= i < |xs| && xs[i] == x;
        assert rows[i] in rows;
      }
    }
  }

  /** An administrator's listing: with a truthy `servicio_id`, exactly that service's
      active points render, in table order; without one, every active point. */
  lemma AdminScope(u: User, servicioId: Option<int>, puntos: seq<PuntoRow>)
    requires IsAdminRole(u.rol)
    ensures var scope := if TruthyId(servicioId) then servicioId else None;
      var r := GetPuntos(u, servicioId, puntos);
      var rows := Filter(puntos, SelectedIn(scope));
      (r.Ok? <==> forall p :: p in puntos && Selected(p, scope) ==> p.qrCode.Some?) &&
      (r.Ok? ==>
         |r.value| == Count(puntos, SelectedIn(scope)) &&
         forall i :: 0 <= i < |rows| ==> Some(r.value[i]) == ToResponse(rows[i]))
  {
    assert ServiceScope(u, servicioId) == if TruthyId(servicioId) then servicioId else None;
  }

  /** `get_punto`: 404 for a missing point, 403 for a guard or supervisor of another service;
      otherwise the point's rendering, returned even when the point is inactive. */
  function GetPunto(u: User, id: int, puntos: seq<PuntoRow>): (r: Result<PuntoQrResponse>)
    ensures PointById(puntos, id).None? ==> r == Err(HttpError(404, "Punto QR no encontrado"))
    ensures PointById(puntos, id).Some? && !ServiceAccessOk(u, PointById(puntos, id).value.servicioId) ==>
      r == Err(HttpError(403, "No tienes acceso a este punto"))
    ensures r.Ok? <==>
      PointById(puntos, id).Some? && ServiceAccessOk(u, PointById(puntos, id).value.servicioId) &&
      ToResponse(PointById(puntos, id).value).Some?
    ensures r.Ok? ==> Some(r.value) == ToResponse(PointById(puntos, id).value)
    ensures r.Ok? ==> r.value.id == id && Some(r.value.activo) == PointById(puntos, id).value.activo
  {
    match PointById(puntos, id)
    case None => Err(HttpError(404, "Punto QR no encontrado"))
    case Some(p) =>
      if IsFieldRole(u.rol) && Some(p.servicioId) != u.servicioId then
        Err(HttpError(403, "No tienes acceso a este punto"))
      else match ToResponse(p)
        case None => Err(InternalError)
        case Some(x) => Ok(x)
  }

  /** Unlike the listing, which renders only active points, the fetch by id returns an
      inactive point to a guard of its service. */
  lemma InactivePointIsFetched(u: User, id: int, puntos: seq<PuntoRow>)
    requires IsFieldRole(u.rol)
    requires PointById(puntos, id).Some?
    requires var p := PointById(puntos, id).value;
      p.activo == Some(false) && p.qrCode.Some? && u.servicioId == Some(p.servicioId)
    ensures GetPunto(u, id, puntos).Ok? && !GetPunto(u, id, puntos).value.activo
  {
  }
}
