/** User administration (backend/app/routers/usuarios.py): listing, fetch, create with its
    ordered checks, partial update, a soft delete that refuses to remove the caller, and the
    listing of guards; plus the order in which the router's GET paths are matched. */
module Usuarios {
  import opened Common
  import opened Text
  import opened Records
  import opened Sorting

  const SoloAdministradoresUsuarios := "Solo administradores pueden acceder a este recurso"
  const UsuarioNoEncontrado := "Usuario no encontrado"
  const ServicioNoExiste := "El servicio especificado no existe"

  /** `require_admin` of this router, which words its refusal differently. */
  function RequireUsersAdmin(rol: string): (r: Option<HttpError>)
    ensures r.None? <==> IsAdminRole(rol)
    ensures r.Some? ==> r.value == HttpError(403, SoloAdministradoresUsuarios)
  {
    if IsAdminRole(rol) then None else Some(HttpError(403, SoloAdministradoresUsuarios))
  }

  /** The roles a user may be given. */
  predicate ValidRole(rol: string) {
    rol in {"guardia", "supervisor", "administrador", "admin"}
  }

  predicate EmailTaken(usuarios: seq<UsuarioRow>, email: string) {
    exists i :: 0 <= i < |usuarios| && usuarios[i].email == email
  }

  /** `.eq("email", email).neq("id", id)`: the address belongs to some other user. */
  predicate EmailTakenByOther(usuarios: seq<UsuarioRow>, email: string, id: int) {
    exists i :: 0 <= i < |usuarios| && usuarios[i].email == email && usuarios[i].id != id
  }

  predicate UniqueEmails(usuarios: seq<UsuarioRow>) {
    forall i, j :: 0 <= i < j < |usuarios| ==> usuarios[i].email != usuarios[j].email
  }

  predicate UniqueIds(usuarios: seq<UsuarioRow>) {
    forall i, j :: 0 <= i < j < |usuarios| ==> usuarios[i].id != usuarios[j].id
  }

  // ---------------------------------------------------------------------------------------
  // Listing and fetch

  function ByCreatedDesc(): UsuarioRow -> Key {
    (u: UsuarioRow) => Key(u.createdAt, 0)
  }

  /** The listing filters: `activo` when given, `rol` when truthy. */
  predicate ListedUser(u: UsuarioRow, activo: Option<bool>, rol: Option<string>) {
    (activo.Some? ==> u.activo == activo.value) && (TruthyStr(rol) ==> u.rol == rol.value)
  }

  function UserFilter(activo: Option<bool>, rol: Option<string>): UsuarioRow -> bool {
    (u: UsuarioRow) => ListedUser(u, activo, rol)
  }

  /** `listar_usuarios`: administrators only; the filtered users, newest first. */
  function ListarUsuarios(callerRol: string, activo: Option<bool>, rol: Option<string>,
                          usuarios: seq<UsuarioRow>): (r: Result<seq<UsuarioRow>>)
    ensures r.Ok? <==> IsAdminRole(callerRol)
    ensures r.Err? ==> r.error == HttpError(403, SoloAdministradoresUsuarios)
    ensures r.Ok? ==>
      SortedDesc(r.value, ByCreatedDesc()) &&
      multiset(r.value) == multiset(Filter(usuarios, UserFilter(activo, rol))) &&
      (forall u :: u in r.value <==> u in usuarios && ListedUser(u, activo, rol))
  {
    if !IsAdminRole(callerRol) then Err(RequireUsersAdmin(callerRol).value)
    else
      var rows := Filter(usuarios, UserFilter(activo, rol));
      var sorted := SortDesc(rows, ByCreatedDesc());
      assert forall u :: u in sorted <==> u in rows by {
        forall u
          ensures u in sorted <==> u in rows
        {
          assert u in sorted <==> u in multiset(sorted);
          assert u in rows <==> u in multiset(rows);
        }
      }
      Ok(sorted)
  }

  /** `obtener_usuario`. */
  function ObtenerUsuario(callerRol: string, id: int, usuarios: seq<UsuarioRow>): (r: Result<UsuarioRow>)
    ensures !IsAdminRole(callerRol) ==> r == Err(HttpError(403, SoloAdministradoresUsuarios))
    ensures r.Ok? <==> IsAdminRole(callerRol) && exists u :: u in usuarios && u.id == id
    ensures r.Ok? ==> r.value in usuarios && r.value.id == id
    ensures IsAdminRole(callerRol) && r.Err? ==> r.error == HttpError(404, UsuarioNoEncontrado)
  {
    if !IsAdminRole(callerRol) then Err(RequireUsersAdmin(callerRol).value)
    else match UsuarioById(usuarios, id)
      case Some(u) => Ok(u)
      case None => Err(HttpError(404, UsuarioNoEncontrado))
  }

  // ---------------------------------------------------------------------------------------
  // Create

  /** The body of a create request; the service is required, `activo` defaults to true. */
  datatype UsuarioCreate = UsuarioCreate(
    email: string,
    password: string,
    nombre: string,
    rol: string,
    servicioId: int,
    telefono: Option<string>,
    activo: bool)

  /** The create checks, first failure wins: administrator, address unused, role valid,
      service exists. */
  function CreateError(callerRol: string, u: UsuarioCreate, usuarios: seq<UsuarioRow>,
                       servicios: seq<ServicioRow>): (r: Option<HttpError>)
    ensures r.None? <==>
      IsAdminRole(callerRol) && !EmailTaken(usuarios, u.email) && ValidRole(u.rol) &&
      ServicioExists(servicios, u.servicioId)
    ensures !IsAdminRole(callerRol) ==> r == Some(HttpError(403, SoloAdministradoresUsuarios))
    ensures IsAdminRole(callerRol) && EmailTaken(usuarios, u.email) ==>
      r == Some(HttpError(400, "El email ya está registrado"))
    ensures IsAdminRole(callerRol) && !EmailTaken(usuarios, u.email) && !ValidRole(u.rol) ==>
      r == Some(HttpError(400, "Rol inválido. Debe ser: guardia, supervisor o administrador"))
    ensures (IsAdminRole(callerRol) && !EmailTaken(usuarios, u.email) && ValidRole(u.rol) &&
             !ServicioExists(servicios, u.servicioId)) ==> r == Some(HttpError(400, ServicioNoExiste))
  {
    if !IsAdminRole(callerRol) then RequireUsersAdmin(callerRol)
    else if EmailTaken(usuarios, u.email) then Some(HttpError(400, "El email ya está registrado"))
    else if !ValidRole(u.rol) then
      Some(HttpError(400, "Rol inválido. Debe ser: guardia, supervisor o administrador"))
    else if !ServicioExists(servicios, u.servicioId) then Some(HttpError(400, ServicioNoExiste))
    else None
  }

  /** `crear_usuario`. `hashed` is what `hash_password` gives for the password; `newId` and
      `createdAt` are filled in by the database. Only the hash is stored. */
  function CrearUsuario(callerRol: string, u: UsuarioCreate, hashed: string, usuarios: seq<UsuarioRow>,
                        servicios: seq<ServicioRow>, newId: int, createdAt: int): (r: Result<UsuarioRow>)
    ensures r.Err? <==> CreateError(callerRol, u, usuarios, servicios).Some?
    ensures r.Err? ==> r.error == CreateError(callerRol, u, usuarios, servicios).value
    ensures r.Ok? ==>
      r.value.email == u.email && r.value.passwordHash == hashed &&
      r.value.servicioId == Some(u.servicioId) && ValidRole(r.value.rol) &&
      r.value == UsuarioRow(newId, u.email, u.nombre, u.rol, Some(u.servicioId), u.telefono, hashed,
        u.activo, createdAt)
  {
    match CreateError(callerRol, u, usuarios, servicios)
    case Some(e) => Err(e)
    case None =>
      Ok(UsuarioRow(newId, u.email, u.nombre, u.rol, Some(u.servicioId), u.telefono, hashed, u.activo, createdAt))
  }

  /** Inserting an accepted new user keeps the addresses unique. */
  lemma CreateKeepsEmailsUnique(callerRol: string, u: UsuarioCreate, hashed: string, usuarios: seq<UsuarioRow>,
                                servicios: seq<ServicioRow>, newId: int, createdAt: int)
    requires UniqueEmails(usuarios)
    requires CrearUsuario(callerRol, u, hashed, usuarios, servicios, newId, createdAt).Ok?
    ensures UniqueEmails(usuarios + [CrearUsuario(callerRol, u, hashed, usuarios, servicios, newId, createdAt).value])
  {
    var row := CrearUsuario(callerRol, u, hashed, usuarios, servicios, newId, createdAt).value;
    var t := usuarios + [row];
    forall i, j | 0 <= i < j < |t|
      ensures t[i].email != t[j].email
    {
      if j == |usuarios| {
        assert t[i] == usuarios[i];
      }
    }
  }

  // ---------------------------------------------------------------------------------------
  // Update

  /** The body of an update request: every field may be left out. */
  datatype UsuarioUpdate = UsuarioUpdate(
    email: Option<string>,
    nombre: Option<string>,
    rol: Option<string>,
    servicioId: Option<int>,
    telefono: Option<string>,
    activo: Option<bool>,
    password: Option<string>)

  /** The `update_data` dictionary. */
  datatype UsuarioPatch = UsuarioPatch(
    email: Option<string>,
    nombre: Option<string>,
    telefono: Option<string>,
    activo: Option<bool>,
    servicioId: Option<int>,
    rol: Option<string>,
    passwordHash: Option<string>)

  const EmptyPatch := UsuarioPatch(None, None, None, None, None, None, None)

  /** `table.update(update_data)` on one row. */
  function ApplyPatch(u: UsuarioRow, d: UsuarioPatch): UsuarioRow {
    UsuarioRow(u.id, d.email.GetOr(u.email), d.nombre.GetOr(u.nombre), d.rol.GetOr(u.rol),
      if d.servicioId.Some? then d.servicioId else u.servicioId,
      if d.telefono.Some? then d.telefono else u.telefono,
      d.passwordHash.GetOr(u.passwordHash), d.activo.GetOr(u.activo), u.createdAt)
  }

  /** The fields an accepted update writes: address, name, role and password when truthy
      (the password as its hash), the telephone, flag and service whenever supplied. */
  function PatchOf(u: UsuarioUpdate, hashed: string): UsuarioPatch {
    UsuarioPatch(
      if TruthyStr(u.email) then u.email else None,
      if TruthyStr(u.nombre) then u.nombre else None,
      u.telefono,
      u.activo,
      u.servicioId,
      if TruthyStr(u.rol) then u.rol else None,
      if TruthyStr(u.password) then Some(hashed) else None)
  }

  /** The update's checks in the order the fields are visited. A service id is checked
      whenever present, 0 included. */
  function UpdateError(id: int, u: UsuarioUpdate, usuarios: seq<UsuarioRow>,
                       servicios: seq<ServicioRow>): Option<HttpError> {
    if TruthyStr(u.email) && EmailTakenByOther(usuarios, u.email.value, id) then
      Some(HttpError(400, "El email ya está en uso por otro usuario"))
    else if u.servicioId.Some? && !ServicioExists(servicios, u.servicioId.value) then
      Some(HttpError(400, ServicioNoExiste))
    else if TruthyStr(u.rol) && !ValidRole(u.rol.value) then Some(HttpError(400, "Rol inválido"))
    else None
  }

  /** What `actualizar_usuario` answers. `hashed` is what `hash_password` gives for the new
      password. */
  function UpdateResult(callerRol: string, id: int, u: UsuarioUpdate, hashed: string,
                        usuarios: seq<UsuarioRow>, servicios: seq<ServicioRow>): Result<UsuarioRow> {
    if !IsAdminRole(callerRol) then Err(RequireUsersAdmin(callerRol).value)
    else match UsuarioById(usuarios, id)
      case None => Err(HttpError(404, UsuarioNoEncontrado))
      case Some(row) =>
        match UpdateError(id, u, usuarios, servicios)
        case Some(e) => Err(e)
        case None => Ok(ApplyPatch(row, PatchOf(u, hashed)))
  }

  /** `actualizar_usuario` as the source runs it, building `update_data` field by field. */
  method ActualizarUsuario(callerRol: string, id: int, u: UsuarioUpdate, hashed: string,
                           usuarios: seq<UsuarioRow>, servicios: seq<ServicioRow>) returns (r: Result<UsuarioRow>)
    ensures r == UpdateResult(callerRol, id, u, hashed, usuarios, servicios)
  {
    var denied := RequireUsersAdmin(callerRol);
    if denied.Some? {
      return Err(denied.value);
    }
    var existing := UsuarioById(usuarios, id);
    if existing.None? {
      return Err(HttpError(404, UsuarioNoEncontrado));
    }
    var d := EmptyPatch;
    if TruthyStr(u.email) {
      if EmailTakenByOther(usuarios, u.email.value, id) {
        return Err(HttpError(400, "El email ya está en uso por otro usuario"));
      }
      d := d.(email := u.email);
    }
    if TruthyStr(u.nombre) {
      d := d.(nombre := u.nombre);
    }
    if u.telefono.Some? {
      d := d.(telefono := u.telefono);
    }
    if u.activo.Some? {
      d := d.(activo := u.activo);
    }
    if u.servicioId.Some? {
      if !ServicioExists(servicios, u.servicioId.value) {
        return Err(HttpError(400, ServicioNoExiste));
      }
      d := d.(servicioId := u.servicioId);
    }
    if TruthyStr(u.rol) {
      if !ValidRole(u.rol.value) {
        return Err(HttpError(400, "Rol inválido"));
      }
      d := d.(rol := u.rol);
    }
    if TruthyStr(u.password) {
      d := d.(passwordHash := Some(hashed));
    }
    assert UpdateError(id, u, usuarios, servicios) == None;
    assert d == PatchOf(u, hashed);
    r := Ok(ApplyPatch(existing.value, d));
  }

  /** An update is accepted exactly when the caller is an administrator, the user exists, a
      new address is not another user's, a supplied service exists and a new role is valid;
      it then changes only the supplied fields, and the password only when non-empty. */
  lemma UpdateChangesOnlySupplied(callerRol: string, id: int, u: UsuarioUpdate, hashed: string,
                                  usuarios: seq<UsuarioRow>, servicios: seq<ServicioRow>)
    ensures UpdateResult(callerRol, id, u, hashed, usuarios, servicios).Ok? <==>
      IsAdminRole(callerRol) && UsuarioById(usuarios, id).Some? &&
      (TruthyStr(u.email) ==> !EmailTakenByOther(usuarios, u.email.value, id)) &&
      (u.servicioId.Some? ==> ServicioExists(servicios, u.servicioId.value)) &&
      (TruthyStr(u.rol) ==> ValidRole(u.rol.value))
    ensures UpdateResult(callerRol, id, u, hashed, usuarios, servicios).Ok? ==>
      var row := UsuarioById(usuarios, id).value;
      var p := UpdateResult(callerRol, id, u, hashed, usuarios, servicios).value;
      row in usuarios && p.id == id && p.createdAt == row.createdAt &&
      p.email == (if TruthyStr(u.email) then u.email.value else row.email) &&
      p.nombre == (if TruthyStr(u.nombre) then u.nombre.value else row.nombre) &&
      p.rol == (if TruthyStr(u.rol) then u.rol.value else row.rol) &&
      p.servicioId == (if u.servicioId.Some? then u.servicioId else row.servicioId) &&
      p.telefono == (if u.telefono.Some? then u.telefono else row.telefono) &&
      p.activo == u.activo.GetOr(row.activo) &&
      p.passwordHash == (if TruthyStr(u.password) then hashed else row.passwordHash)
  {
  }

  /** `table.update(d).eq("id", id)` on the whole table. */
  function UpdateRows(usuarios: seq<UsuarioRow>, id: int, d: UsuarioPatch): (r: seq<UsuarioRow>)
    ensures |r| == |usuarios|
    ensures forall i :: 0 <= i < |usuarios| ==>
      r[i] == if usuarios[i].id == id then ApplyPatch(usuarios[i], d) else usuarios[i]
  {
    Map(usuarios, (u: UsuarioRow) => if u.id == id then ApplyPatch(u, d) else u)
  }

  /** Writing an accepted update back keeps the addresses unique, because the address check
      excludes only the user being updated. */
  lemma UpdateKeepsEmailsUnique(callerRol: string, id: int, u: UsuarioUpdate, hashed: string,
                                usuarios: seq<UsuarioRow>, servicios: seq<ServicioRow>)
    requires UniqueEmails(usuarios) && UniqueIds(usuarios)
    requires UpdateResult(callerRol, id, u, hashed, usuarios, servicios).Ok?
    ensures UniqueEmails(UpdateRows(usuarios, id, PatchOf(u, hashed)))
  {
    var d := PatchOf(u, hashed);
    var t := UpdateRows(usuarios, id, d);
    assert UpdateError(id, u, usuarios, servicios).None?;
    assert d.email.Some? ==> !EmailTakenByOther(usuarios, d.email.value, id);
    forall i, j | 0 <= i < j < |t|
      ensures t[i].email != t[j].email
    {
      assert t[i].email == if usuarios[i].id == id then d.email.GetOr(usuarios[i].email) else usuarios[i].email;
      assert t[j].email == if usuarios[j].id == id then d.email.GetOr(usuarios[j].email) else usuarios[j].email;
      if d.email.Some? && (usuarios[i].id == id || usuarios[j].id == id) {
        var k := if usuarios[i].id == id then j else i;
        assert usuarios[k].id != id;
        assert usuarios[k].email != d.email.value;
      }
    }
  }

  // ---------------------------------------------------------------------------------------
  // Delete

  /** `eliminar_usuario`: deleting oneself is refused before the user is even looked up;
      otherwise the user is only marked inactive. */
  function EliminarUsuario(caller: User, id: int, usuarios: seq<UsuarioRow>): (r: Result<seq<UsuarioRow>>)
    ensures !IsAdminRole(caller.rol) ==> r == Err(HttpError(403, SoloAdministradoresUsuarios))
    ensures IsAdminRole(caller.rol) && caller.id == id ==>
      r == Err(HttpError(400, "No puedes eliminar tu propio usuario"))
    ensures r.Ok? <==> IsAdminRole(caller.rol) && caller.id != id && UsuarioById(usuarios, id).Some?
    ensures r.Ok? ==>
      |r.value| == |usuarios| &&
      forall i :: 0 <= i < |usuarios| ==>
        r.value[i] == if usuarios[i].id == id then usuarios[i].(activo := false) else usuarios[i]
  {
    if !IsAdminRole(caller.rol) then Err(RequireUsersAdmin(caller.rol).value)
    else if caller.id == id then Err(HttpError(400, "No puedes eliminar tu propio usuario"))
    else if UsuarioById(usuarios, id).None? then Err(HttpError(404, UsuarioNoEncontrado))
    else Ok(UpdateRows(usuarios, id, EmptyPatch.(activo := Some(false))))
  }

  // ---------------------------------------------------------------------------------------
  // Guards listing

  /** The service the guards listing is narrowed to: a supervisor's own, an administrator's
      truthy parameter, otherwise none (a guard sees every service's guards). */
  function GuardScope(caller: User, servicioId: Option<int>): Option<int> {
    if caller.rol == "supervisor" then caller.servicioId
    else if IsAdminRole(caller.rol) && TruthyId(servicioId) then servicioId
    else None
  }

  predicate ListedGuard(u: UsuarioRow, scope: Option<int>) {
    u.rol == "guardia" && u.activo && (scope.Some? ==> u.servicioId == scope)
  }

  function GuardFilter(scope: Option<int>): UsuarioRow -> bool {
    (u: UsuarioRow) => ListedGuard(u, scope)
  }

  /** `listar_guardias`, in the order the query returns the rows. */
  function ListarGuardias(caller: User, servicioId: Option<int>, usuarios: seq<UsuarioRow>): (r: Result<seq<UsuarioRow>>)
    ensures r.Err? <==> caller.rol == "supervisor" && !TruthyId(caller.servicioId)
    ensures r.Err? ==> r.error == HttpError(400, "Supervisor sin servicio asignado")
    ensures r.Ok? ==> forall u :: u in r.value <==> u in usuarios && ListedGuard(u, GuardScope(caller, servicioId))
  {
    if caller.rol == "supervisor" && !TruthyId(caller.servicioId) then
      Err(HttpError(400, "Supervisor sin servicio asignado"))
    else Ok(Filter(usuarios, GuardFilter(GuardScope(caller, servicioId))))
  }

  /** A supervisor sees only the active guards of its own service, whatever it asks for. */
  lemma SupervisorSeesOwnGuards(caller: User, servicioId: Option<int>, usuarios: seq<UsuarioRow>)
    requires caller.rol == "supervisor" && TruthyId(caller.servicioId)
    ensures ListarGuardias(caller, servicioId, usuarios) == ListarGuardias(caller, None, usuarios)
    ensures forall u :: u in ListarGuardias(caller, servicioId, usuarios).value ==>
      u.rol == "guardia" && u.activo && u.servicioId == caller.servicioId
  {
  }

  // ---------------------------------------------------------------------------------------
  // Path matching

  /** The handlers of the router's GET paths, and the 422 a non-integer id gets. */
  datatype GetHandler = ListarUsuariosHandler | ObtenerUsuarioHandler(id: int) | ListarGuardiasHandler | NotAnId

  /** A path pattern after the router's prefix: a fixed segment or the `{usuario_id}`
      parameter, which matches any one non-empty segment. */
  datatype Pattern = Fixed(segment: string) | IdParam

  datatype Route = Route(pattern: Pattern, handler: GetHandler)

  /** Whether a pattern matches the path segment. */
  predicate Matches(p: Pattern, segment: string) {
    match p
    case Fixed(f) => f == segment
    case IdParam => segment != ""
  }

  /** What a matching route answers: its handler for a fixed segment; for the id parameter,
      the fetch of the converted id, or the 422 when the segment is not an integer. */
  function Answer(route: Route, segment: string): GetHandler {
    match route.pattern
    case Fixed(_) => route.handler
    case IdParam =>
      match ParseInt(segment)
      case Some(n) => ObtenerUsuarioHandler(n)
      case None => NotAnId
  }

  /** The first route whose pattern matches, as the framework tries them in declaration
      order; the id parameter is converted only after it has matched. */
  function Dispatch(routes: seq<Route>, segment: string): (r: Option<GetHandler>)
    ensures r.Some? <==> exists i :: 0 <= i < |routes| && Matches(routes[i].pattern, segment)
    ensures r.Some? ==>
      exists i :: 0 <= i < |routes| && Matches(routes[i].pattern, segment) &&
                  (forall j :: 0 <= j < i ==> !Matches(routes[j].pattern, segment)) &&
                  r.value == Answer(routes[i], segment)
    decreases |routes|
  {
    if routes == [] then None
    else
      assert forall i :: 0 < i < |routes| ==> routes[i] == routes[1..][i - 1];
      match routes[0].pattern
      case Fixed(s) => if s == segment then Some(routes[0].handler) else Dispatch(routes[1..], segment)
      case IdParam =>
        if segment == "" then Dispatch(routes[1..], segment)
        else match ParseInt(segment)
          case Some(n) => Some(ObtenerUsuarioHandler(n))
          case None => Some(NotAnId)
  }

  /** The GET routes in the order the source declares them. */
  const DeclaredRoutes := [Route(Fixed(""), ListarUsuariosHandler), Route(IdParam, ObtenerUsuarioHandler(0)),
                           Route(Fixed("guardias"), ListarGuardiasHandler)]

  /** The same routes with the fixed segment declared before the parameter. */
  const OrderedRoutes := [Route(Fixed(""), ListarUsuariosHandler), Route(Fixed("guardias"), ListarGuardiasHandler),
                          Route(IdParam, ObtenerUsuarioHandler(0))]

  /** As declared, `GET /usuarios/guardias` is taken by the `{usuario_id}` route and fails its
      integer conversion: no path reaches `listar_guardias`. */
  lemma GuardiasRouteIsShadowed()
    ensures Dispatch(DeclaredRoutes, "guardias") == Some(NotAnId)
    ensures forall s :: Dispatch(DeclaredRoutes, s) != Some(ListarGuardiasHandler)
  {
    assert !IsIntLiteral("guardias") by {
      assert !IsDigit("guardias"[0]);
    }
  }

  /** With the fixed segment first, `guardias` reaches its handler and every other path is
      dispatched as before. */
  lemma OrderedRoutesReachGuardias()
    ensures Dispatch(OrderedRoutes, "guardias") == Some(ListarGuardiasHandler)
    ensures forall s :: s != "guardias" ==> Dispatch(OrderedRoutes, s) == Dispatch(DeclaredRoutes, s)
  {
    forall s | s != "guardias"
      ensures Dispatch(OrderedRoutes, s) == Dispatch(DeclaredRoutes, s)
    {
      if s != "" {
        assert Dispatch(OrderedRoutes, s) == Dispatch(OrderedRoutes[2..], s);
        assert Dispatch(DeclaredRoutes, s) == Dispatch(DeclaredRoutes[1..], s);
      }
    }
  }
}
