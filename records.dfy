/** The records the client and the server exchange: visits, users and roles.
    Timestamps are integer milliseconds; coordinates are reals. */
module Records {
  import opened Common

  /** The three kinds of visit a guard can record. */
  datatype VisitType = Normal | Observacion | Incidencia

  /** The wire name of a visit type. */
  function VisitTypeName(t: VisitType): string {
    match t
    case Normal => "normal"
    case Observacion => "observacion"
    case Incidencia => "incidencia"
  }

  /** A visit as the form builds it and as the server's create and sync endpoints receive it. */
  datatype VisitData = VisitData(
    servicioId: int,
    puntoQrId: int,
    guardiaId: int,
    tipo: VisitType,
    observacion: Option<string>,
    latitud: real,
    longitud: real,
    fechaHora: Option<int>)

  /** A visit kept in the client's offline queue: the visit's own fields plus a client id,
      the flag `syncronizado` (spelled this way in the store) and the time it was queued. */
  datatype QueuedVisit = QueuedVisit(visit: VisitData, id: string, syncronizado: bool, createdAt: int)

  /** A stored visit row as the server returns it. `tipo` is free text here because
      the readers of these rows handle values outside the three known types. */
  datatype VisitRow = VisitRow(
    id: int,
    servicioId: int,
    puntoQrId: int,
    guardiaId: int,
    tipo: string,
    observacion: Option<string>,
    latitud: real,
    longitud: real,
    fechaHora: int,
    sincronizado: bool,
    createdAt: int)

  /** One rejected visit of a sync batch and the reason the server gives. */
  datatype SyncFailure = SyncFailure(visit: VisitData, error: string)

  /** The server's reply to a sync batch: the database ids of the inserted rows and the
      rejected visits. */
  datatype SyncResult = SyncResult(success: seq<int>, failed: seq<SyncFailure>)

  /** The authenticated user as the server returns it and the client caches it. */
  datatype User = User(
    id: int,
    email: string,
    nombre: string,
    rol: string,
    servicioId: Option<int>,
    servicioNombre: Option<string>)

  /** Both spellings of the administrator role that the routers accept. */
  predicate IsAdminRole(rol: string) {
    rol == "admin" || rol == "administrador"
  }

  const SoloAdministradores := "Solo administradores pueden realizar esta acción"

  /** `require_admin` of the checkpoint and service routers: only the two administrator
      spellings pass; everyone else gets 403. */
  function RequireAdmin(rol: string): (r: Option<HttpError>)
    ensures r.None? <==> IsAdminRole(rol)
    ensures r.Some? ==> r.value == HttpError(403, SoloAdministradores)
  {
    if IsAdminRole(rol) then None else Some(HttpError(403, SoloAdministradores))
  }

  /** The two field roles whose access is limited to their own service. */
  predicate IsFieldRole(rol: string) {
    rol == "guardia" || rol == "supervisor"
  }

  /** The servers' service access rule: a guard or supervisor may act only on its own service
      (a user without a service on none); every other role on any service. */
  predicate ServiceAccessOk(u: User, servicioId: int) {
    !IsFieldRole(u.rol) || u.servicioId == Some(servicioId)
  }

  /** A row of the checkpoint table `puntos_qr`. A NULL column is None; every column of the
      table is present in a row read with `select("*")`. */
  datatype PuntoRow = PuntoRow(
    id: int,
    servicioId: int,
    nombre: string,
    descripcion: Option<string>,
    latitud: real,
    longitud: real,
    radioValidacion: Option<int>,
    qrCode: Option<string>,
    activo: Option<bool>,
    createdAt: Option<int>,
    updatedAt: Option<int>)

  /** `punto.get("activo", True)` read as a truth value: the column is always present, so
      the default never applies and a NULL flag (None) counts as inactive. */
  predicate PuntoActive(p: PuntoRow) {
    p.activo == Some(true)
  }

  /** A row of the user table `usuarios`. */
  datatype UsuarioRow = UsuarioRow(
    id: int,
    email: string,
    nombre: string,
    rol: string,
    servicioId: Option<int>,
    telefono: Option<string>,
    passwordHash: string,
    activo: bool,
    createdAt: int)

  /** What a database insert reports: the new row's id and creation time, an empty reply,
      or a raised exception with its text. */
  datatype InsertReply = Inserted(id: int, createdAt: int) | InsertEmpty | InsertRaised(message: string)

  /** A row of the service table `servicios`. Days are 0 (Monday) to 6 (Sunday); the hours
      are kept as the "HH:MM" text the client sends. */
  datatype ServicioRow = ServicioRow(
    id: int,
    nombre: string,
    descripcion: Option<string>,
    horaInicio: string,
    horaFin: string,
    diasActivo: seq<int>,
    intervaloRondaMinutos: int,
    activo: bool,
    fechaCreacion: int,
    ultimaModificacion: Option<int>)

  /** The point with this id (`.eq("id", id)`), if any. */
  function PointById(puntos: seq<PuntoRow>, id: int): Option<PuntoRow> {
    FindFirst(puntos, (p: PuntoRow) => p.id == id)
  }

  /** The service with this id, if any. */
  function ServicioById(servicios: seq<ServicioRow>, id: int): Option<ServicioRow> {
    FindFirst(servicios, (s: ServicioRow) => s.id == id)
  }

  /** `.eq("id", id)` on the service table finds a row. */
  predicate ServicioExists(servicios: seq<ServicioRow>, id: int) {
    ServicioById(servicios, id).Some?
  }

  /** The name of the service with this id, if any. */
  function ServiceName(servicios: seq<ServicioRow>, id: int): Option<string> {
    match ServicioById(servicios, id)
    case Some(s) => Some(s.nombre)
    case None => None
  }

  /** The user with this id, if any. */
  function UsuarioById(usuarios: seq<UsuarioRow>, id: int): Option<UsuarioRow> {
    FindFirst(usuarios, (u: UsuarioRow) => u.id == id)
  }
}
