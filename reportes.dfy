/** The report endpoints (backend/app/routers/reportes.py): who may read reports, the visit
    report with its filters, name lookups and statistics, the ranking of the most visited
    points, and the alert report. Tables are sequences of rows; `raises` sets name the ids
    whose lookup query throws. Times are integer milliseconds. */
module Reportes {
  import opened Common
  import opened Text
  import opened Records
  import opened Sorting

  const DayMs := 86400000

  /** `verificar_admin`: administrators and supervisors pass, anyone else gets 403. */
  function VerificarAdmin(current: User): (r: Option<HttpError>)
    ensures r.None? <==> current.rol in {"admin", "administrador", "supervisor"}
    ensures r.Some? ==> r.value == HttpError(403, "No tienes permisos para acceder a reportes")
  {
    if IsAdminRole(current.rol) || current.rol == "supervisor" then None
    else Some(HttpError(403, "No tienes permisos para acceder a reportes"))
  }

  /** An optional end date: absent, parsed to the start of that day, or not parseable. */
  datatype DateParam = NoDate | Date(ms: int) | BadDate(message: string)

  /** `created_at >= fecha_inicio` and `created_at < fecha_fin + 1 day`, each when given. */
  predicate InDateRange(fechaInicio: Option<int>, fechaFin: DateParam, createdAt: int) {
    (fechaInicio.Some? ==> fechaInicio.value <= createdAt) &&
    (fechaFin.Date? ==> createdAt < fechaFin.ms + DayMs)
  }

  /** The whole end day is included and nothing after it. */
  lemma EndDayIncluded(day: int, t: int)
    ensures day <= t < day + DayMs ==> InDateRange(None, Date(day), t)
    ensures t >= day + DayMs ==> !InDateRange(None, Date(day), t)
  {
  }

  // ---- visit report ----

  /** The query parameters of the visit report; a present parameter is a non-empty one. */
  datatype ReportParams = ReportParams(fechaInicio: Option<int>, fechaFin: DateParam, usuarioId: Option<int>,
                                       servicioId: Option<int>, puntoQrId: Option<int>)

  /** The columns of a `visitas` row that the report reads. */
  datatype ReportVisit = ReportVisit(id: int, usuarioId: Option<int>, puntoQrId: Option<int>, createdAt: int)

  predicate InVisitReport(p: ReportParams, v: ReportVisit) {
    InDateRange(p.fechaInicio, p.fechaFin, v.createdAt) &&
    (p.usuarioId.Some? ==> v.usuarioId == p.usuarioId) &&
    (p.puntoQrId.Some? ==> v.puntoQrId == p.puntoQrId)
  }

  datatype UserInfo = UserInfo(nombre: string, email: string)
  datatype PointInfo = PointInfo(nombre: string, qrCode: Option<string>)

  /** What the user query leaves in the cache: the row's name and email, the placeholder when
      the query throws, nothing when it finds no row. */
  function UserLookup(usuarios: seq<UsuarioRow>, raises: set<int>, id: int): Option<UserInfo> {
    if id in raises then Some(UserInfo("Usuario desconocido", ""))
    else match FindFirst(usuarios, (u: UsuarioRow) => u.id == id)
      case Some(u) => Some(UserInfo(u.nombre, u.email))
      case None => None
  }

  function PointLookup(puntos: seq<PuntoRow>, raises: set<int>, id: int): Option<PointInfo> {
    if id in raises then Some(PointInfo("Punto desconocido", Some("")))
    else match FindFirst(puntos, (p: PuntoRow) => p.id == id)
      case Some(p) => Some(PointInfo(p.nombre, p.qrCode))
      case None => None
  }

  /** A visit with the names looked up for its truthy ids. */
  datatype EnrichedVisit = EnrichedVisit(visit: ReportVisit, usuario: Option<UserInfo>, punto: Option<PointInfo>)

  /** Reading the cache for an id the lookup left out raises a KeyError, whose text is the id;
      the handler turns it into a 500. */
  function KeyErrorDetail(id: int): HttpError {
    HttpError(500, "Error al obtener visitas: " + IntToString(id))
  }

  function EnrichOne(v: ReportVisit, usuarios: seq<UsuarioRow>, puntos: seq<PuntoRow>, uRaises: set<int>, pRaises: set<int>)
    : (r: Result<EnrichedVisit>)
    ensures r.Ok? <==>
      !(TruthyId(v.usuarioId) && UserLookup(usuarios, uRaises, v.usuarioId.value).None?) &&
      !(TruthyId(v.puntoQrId) && PointLookup(puntos, pRaises, v.puntoQrId.value).None?)
    ensures r.Err? ==> r.error.status == 500
    ensures r.Ok? ==> r.value.visit == v
  {
    var u := if TruthyId(v.usuarioId) then UserLookup(usuarios, uRaises, v.usuarioId.value) else None;
    var p := if TruthyId(v.puntoQrId) then PointLookup(puntos, pRaises, v.puntoQrId.value) else None;
    if TruthyId(v.usuarioId) && u.None? then Err(KeyErrorDetail(v.usuarioId.value))
    else if TruthyId(v.puntoQrId) && p.None? then Err(KeyErrorDetail(v.puntoQrId.value))
    else Ok(EnrichedVisit(v, u, p))
  }

  function PrependOk(out: seq<EnrichedVisit>, r: Result<seq<EnrichedVisit>>): Result<seq<EnrichedVisit>> {
    match r
    case Err(e) => Err(e)
    case Ok(rest) => Ok(out + rest)
  }

  /** The enrichment of every visit, stopping at the first lookup that fails. */
  function EnrichAll(visits: seq<ReportVisit>, usuarios: seq<UsuarioRow>, puntos: seq<PuntoRow>, uRaises: set<int>, pRaises: set<int>)
    : (r: Result<seq<EnrichedVisit>>)
    ensures r.Ok? ==> |r.value| == |visits| && forall i :: 0 <= i < |visits| ==> r.value[i].visit == visits[i]
    decreases |visits|
  {
    if visits == [] then Ok([])
    else match EnrichOne(visits[0], usuarios, puntos, uRaises, pRaises)
      case Err(e) => Err(e)
      case Ok(e) => PrependOk([e], EnrichAll(visits[1..], usuarios, puntos, uRaises, pRaises))
  }

  /** The enrichment succeeds exactly when every visit's does, and fails only with a 500. */
  lemma {:induction false} EnrichAllOkIff(visits: seq<ReportVisit>, usuarios: seq<UsuarioRow>, puntos: seq<PuntoRow>,
                                          uRaises: set<int>, pRaises: set<int>)
    decreases |visits|
    ensures EnrichAll(visits, usuarios, puntos, uRaises, pRaises).Ok? <==>
      forall i :: 0 <= i < |visits| ==> EnrichOne(visits[i], usuarios, puntos, uRaises, pRaises).Ok?
    ensures EnrichAll(visits, usuarios, puntos, uRaises, pRaises).Err? ==>
      EnrichAll(visits, usuarios, puntos, uRaises, pRaises).error.status == 500
  {
    if visits != [] {
      var rest := visits[1..];
      EnrichAllOkIff(rest, usuarios, puntos, uRaises, pRaises);
      assert forall i :: 0 < i < |visits| ==> visits[i] == rest[i - 1];
      if forall i :: 0 <= i < |visits| ==> EnrichOne(visits[i], usuarios, puntos, uRaises, pRaises).Ok? {
        assert forall i :: 0 <= i < |rest| ==> EnrichOne(rest[i], usuarios, puntos, uRaises, pRaises).Ok? by {
          forall i | 0 <= i < |rest|
            ensures EnrichOne(rest[i], usuarios, puntos, uRaises, pRaises).Ok?
          {
            assert rest[i] == visits[i + 1];
          }
        }
      } else if EnrichOne(visits[0], usuarios, puntos, uRaises, pRaises).Ok? {
        var i :| 0 <= i < |visits| && EnrichOne(visits[i], usuarios, puntos, uRaises, pRaises).Err?;
        assert i > 0 && EnrichOne(rest[i - 1], usuarios, puntos, uRaises, pRaises).Err?;
      }
    }
  }

  /** `usuarios_cache[id]` after the lookup the loop makes for an id not yet cached. */
  method CachedUser(id: int, usuarios: seq<UsuarioRow>, raises: set<int>, cache: map<int, UserInfo>)
    returns (cache': map<int, UserInfo>, u: Option<UserInfo>)
    requires forall k :: k in cache ==> UserLookup(usuarios, raises, k) == Some(cache[k])
    ensures forall k :: k in cache' ==> UserLookup(usuarios, raises, k) == Some(cache'[k])
    ensures u == UserLookup(usuarios, raises, id)
  {
    cache' := cache;
    if id !in cache' {
      var found := UserLookup(usuarios, raises, id);
      if found.Some? {
        cache' := cache'[id := found.value];
      }
    }
    u := if id in cache' then Some(cache'[id]) else None;
  }

  /** `puntos_cache[id]` after the lookup the loop makes for an id not yet cached. */
  method CachedPoint(id: int, puntos: seq<PuntoRow>, raises: set<int>, cache: map<int, PointInfo>)
    returns (cache': map<int, PointInfo>, p: Option<PointInfo>)
    requires forall k :: k in cache ==> PointLookup(puntos, raises, k) == Some(cache[k])
    ensures forall k :: k in cache' ==> PointLookup(puntos, raises, k) == Some(cache'[k])
    ensures p == PointLookup(puntos, raises, id)
  {
    cache' := cache;
    if id !in cache' {
      var found := PointLookup(puntos, raises, id);
      if found.Some? {
        cache' := cache'[id := found.value];
      }
    }
    p := if id in cache' then Some(cache'[id]) else None;
  }

  /** One step of the enrichment: the first visit's result decides. */
  lemma EnrichAllStep(visits: seq<ReportVisit>, i: nat, out: seq<EnrichedVisit>, usuarios: seq<UsuarioRow>,
                      puntos: seq<PuntoRow>, uRaises: set<int>, pRaises: set<int>)
    requires i < |visits|
    ensures var rest := EnrichAll(visits[i + 1..], usuarios, puntos, uRaises, pRaises);
      PrependOk(out, EnrichAll(visits[i..], usuarios, puntos, uRaises, pRaises)) ==
        match EnrichOne(visits[i], usuarios, puntos, uRaises, pRaises)
        case Err(e) => Err(e)
        case Ok(e) => PrependOk(out + [e], rest)
  {
    assert visits[i..][0] == visits[i] && visits[i..][1..] == visits[i + 1..];
    match EnrichOne(visits[i], usuarios, puntos, uRaises, pRaises) {
      case Err(_) =>
      case Ok(e) =>
        match EnrichAll(visits[i + 1..], usuarios, puntos, uRaises, pRaises) {
          case Err(_) =>
          case Ok(rest) => assert out + ([e] + rest) == (out + [e]) + rest;
        }
    }
  }

  /** The body of the enrichment loop for one visit: look up (and cache) its user, then its
      point, failing at the first id the cache does not hold. */
  method EnrichStep(v: ReportVisit, usuarios: seq<UsuarioRow>, puntos: seq<PuntoRow>, uRaises: set<int>, pRaises: set<int>,
                    usuariosCache: map<int, UserInfo>, puntosCache: map<int, PointInfo>)
    returns (usuariosCache': map<int, UserInfo>, puntosCache': map<int, PointInfo>, r: Result<EnrichedVisit>)
    requires forall k :: k in usuariosCache ==> UserLookup(usuarios, uRaises, k) == Some(usuariosCache[k])
    requires forall k :: k in puntosCache ==> PointLookup(puntos, pRaises, k) == Some(puntosCache[k])
    ensures forall k :: k in usuariosCache' ==> UserLookup(usuarios, uRaises, k) == Some(usuariosCache'[k])
    ensures forall k :: k in puntosCache' ==> PointLookup(puntos, pRaises, k) == Some(puntosCache'[k])
    ensures r == EnrichOne(v, usuarios, puntos, uRaises, pRaises)
  {
    usuariosCache', puntosCache' := usuariosCache, puntosCache;
    var u: Option<UserInfo> := None;
    if TruthyId(v.usuarioId) {
      usuariosCache', u := CachedUser(v.usuarioId.value, usuarios, uRaises, usuariosCache');
      if u.None? {
        return usuariosCache', puntosCache', Err(KeyErrorDetail(v.usuarioId.value));
      }
    }
    var p: Option<PointInfo> := None;
    if TruthyId(v.puntoQrId) {
      puntosCache', p := CachedPoint(v.puntoQrId.value, puntos, pRaises, puntosCache');
      if p.None? {
        return usuariosCache', puntosCache', Err(KeyErrorDetail(v.puntoQrId.value));
      }
    }
    r := Ok(EnrichedVisit(v, u, p));
  }

  /** The enrichment loop with its two caches, which hold only ids whose lookup succeeded. */
  method EnrichVisits(visits: seq<ReportVisit>, usuarios: seq<UsuarioRow>, puntos: seq<PuntoRow>, uRaises: set<int>, pRaises: set<int>)
    returns (r: Result<seq<EnrichedVisit>>)
    ensures r == EnrichAll(visits, usuarios, puntos, uRaises, pRaises)
  {
    var usuariosCache: map<int, UserInfo> := map[];
    var puntosCache: map<int, PointInfo> := map[];
    var out: seq<EnrichedVisit> := [];
    var i := 0;
    assert visits[0..] == visits;
    match EnrichAll(visits, usuarios, puntos, uRaises, pRaises) {
      case Err(_) =>
      case Ok(all) => assert [] + all == all;
    }
    while i < |visits|
      invariant 0 <= i <= |visits|
      invariant forall k :: k in usuariosCache ==> UserLookup(usuarios, uRaises, k) == Some(usuariosCache[k])
      invariant forall k :: k in puntosCache ==> PointLookup(puntos, pRaises, k) == Some(puntosCache[k])
      invariant EnrichAll(visits, usuarios, puntos, uRaises, pRaises) ==
                PrependOk(out, EnrichAll(visits[i..], usuarios, puntos, uRaises, pRaises))
    {
      EnrichAllStep(visits, i, out, usuarios, puntos, uRaises, pRaises);
      var e;
      usuariosCache, puntosCache, e := EnrichStep(visits[i], usuarios, puntos, uRaises, pRaises, usuariosCache, puntosCache);
      if e.Err? {
        return Err(e.error);
      }
      out := out + [e.value];
      i := i + 1;
    }
    assert visits[i..] == [];
    assert out + [] == out;
    r := Ok(out);
  }

  datatype VisitStats = VisitStats(totalVisitas: nat, usuariosUnicos: nat, puntosVisitados: nat)
  datatype VisitReport = VisitReport(visitas: seq<EnrichedVisit>, estadisticas: VisitStats)

  function UsuarioIds(vs: seq<ReportVisit>): seq<Option<int>> {
    seq(|vs|, i requires 0 <= i < |vs| => vs[i].usuarioId)
  }

  function PuntoIds(vs: seq<ReportVisit>): seq<Option<int>> {
    seq(|vs|, i requires 0 <= i < |vs| => vs[i].puntoQrId)
  }

  function ByCreatedDesc(v: ReportVisit): Key {
    Key(v.createdAt, 0)
  }

  /** The rows of the report, newest first. */
  function ReportRows(params: ReportParams, visitas: seq<ReportVisit>): seq<ReportVisit> {
    SortDesc(Filter(visitas, ReportFilter(params)), ByCreatedDesc)
  }

  function ReportFilter(params: ReportParams): ReportVisit -> bool {
    (v: ReportVisit) => InVisitReport(params, v)
  }

  /** `obtener_reporte_visitas`. */
  function ReporteVisitas(current: User, params: ReportParams, visitas: seq<ReportVisit>, usuarios: seq<UsuarioRow>,
                          puntos: seq<PuntoRow>, uRaises: set<int>, pRaises: set<int>): Result<VisitReport>
  {
    if VerificarAdmin(current).Some? then Err(VerificarAdmin(current).value)
    else if params.fechaFin.BadDate? then Err(HttpError(500, "Error al obtener visitas: " + params.fechaFin.message))
    else
      var rows := ReportRows(params, visitas);
      match EnrichAll(rows, usuarios, puntos, uRaises, pRaises)
      case Err(e) => Err(e)
      case Ok(enriched) =>
        Ok(VisitReport(enriched, VisitStats(|rows|, |set u | u in TruthyIds(UsuarioIds(rows))|,
                                            |set p | p in TruthyIds(PuntoIds(rows))|)))
  }

  /** The `servicio_id` parameter is accepted and never applied. */
  lemma ReportIgnoresServicioId(current: User, params: ReportParams, other: Option<int>, visitas: seq<ReportVisit>,
                                usuarios: seq<UsuarioRow>, puntos: seq<PuntoRow>, uRaises: set<int>, pRaises: set<int>)
    ensures ReporteVisitas(current, params.(servicioId := other), visitas, usuarios, puntos, uRaises, pRaises) ==
            ReporteVisitas(current, params, visitas, usuarios, puntos, uRaises, pRaises)
  {
    FilterSamePredicate(visitas, ReportFilter(params.(servicioId := other)), ReportFilter(params));
    assert ReportRows(params.(servicioId := other), visitas) == ReportRows(params, visitas);
  }

  /** The listed visits are the stored ones that pass the filters, newest first; the
      statistics count them and their distinct non-null user and point ids. */
  lemma ReportContents(current: User, params: ReportParams, visitas: seq<ReportVisit>, usuarios: seq<UsuarioRow>,
                       puntos: seq<PuntoRow>, uRaises: set<int>, pRaises: set<int>)
    requires ReporteVisitas(current, params, visitas, usuarios, puntos, uRaises, pRaises).Ok?
    ensures var rep := ReporteVisitas(current, params, visitas, usuarios, puntos, uRaises, pRaises).value;
      var rows := ReportRows(params, visitas);
      rep.estadisticas.totalVisitas == |rep.visitas| == |rows| &&
      (forall i :: 0 <= i < |rep.visitas| ==> rep.visitas[i].visit in visitas && InVisitReport(params, rep.visitas[i].visit)) &&
      (forall i :: 0 <= i < |rep.visitas| ==> rep.visitas[i].visit == rows[i]) &&
      multiset(rows) == multiset(Filter(visitas, ReportFilter(params))) &&
      (forall v :: v in visitas && InVisitReport(params, v) ==> exists i :: 0 <= i < |rep.visitas| && rep.visitas[i].visit == v) &&
      (forall i, j :: 0 <= i < j < |rep.visitas| ==> rep.visitas[j].visit.createdAt <= rep.visitas[i].visit.createdAt) &&
      rep.estadisticas.usuariosUnicos == |Dedup(TruthyIds(UsuarioIds(rows)))| <= |rows| &&
      rep.estadisticas.puntosVisitados == |Dedup(TruthyIds(PuntoIds(rows)))| <= |rows|
  {
    var rows := ReportRows(params, visitas);
    var rep := ReporteVisitas(current, params, visitas, usuarios, puntos, uRaises, pRaises).value;
    ReportShape(current, params, visitas, usuarios, puntos, uRaises, pRaises);
    DedupCardinality(TruthyIds(UsuarioIds(rows)));
    DedupCardinality(TruthyIds(PuntoIds(rows)));
    ListedRows(params, visitas, rep.visitas);
  }

  /** A successful report is the enrichment of the rows with the three counters. */
  lemma ReportShape(current: User, params: ReportParams, visitas: seq<ReportVisit>, usuarios: seq<UsuarioRow>,
                    puntos: seq<PuntoRow>, uRaises: set<int>, pRaises: set<int>)
    requires ReporteVisitas(current, params, visitas, usuarios, puntos, uRaises, pRaises).Ok?
    ensures var rep := ReporteVisitas(current, params, visitas, usuarios, puntos, uRaises, pRaises).value;
      var rows := ReportRows(params, visitas);
      var enriched := EnrichAll(rows, usuarios, puntos, uRaises, pRaises);
      enriched.Ok? && rep.visitas == enriched.value &&
      |rep.visitas| == |rows| && (forall i :: 0 <= i < |rows| ==> rep.visitas[i].visit == rows[i]) &&
      rep.estadisticas == VisitStats(|rows|, |set u | u in TruthyIds(UsuarioIds(rows))|,
                                     |set p | p in TruthyIds(PuntoIds(rows))|)
  {
  }

  /** Visits listed one for each report row are exactly the filtered ones, newest first. */
  lemma ListedRows(params: ReportParams, visitas: seq<ReportVisit>, listed: seq<EnrichedVisit>)
    requires var rows := ReportRows(params, visitas);
      |listed| == |rows| && forall i :: 0 <= i < |rows| ==> listed[i].visit == rows[i]
    ensures var rows := ReportRows(params, visitas);
      (forall i :: 0 <= i < |listed| ==> listed[i].visit in visitas && InVisitReport(params, listed[i].visit)) &&
      multiset(rows) == multiset(Filter(visitas, ReportFilter(params))) &&
      (forall v :: v in visitas && InVisitReport(params, v) ==> exists i :: 0 <= i < |listed| && listed[i].visit == v) &&
      (forall i, j :: 0 <= i < j < |listed| ==> listed[j].visit.createdAt <= listed[i].visit.createdAt)
  {
    var rows := ReportRows(params, visitas);
    ReportRowsFacts(params, visitas);
    forall i | 0 <= i < |listed|
      ensures listed[i].visit in visitas && InVisitReport(params, listed[i].visit)
    {
      assert listed[i].visit == rows[i] && rows[i] in rows;
    }
    forall v | v in visitas && InVisitReport(params, v)
      ensures exists i :: 0 <= i < |listed| && listed[i].visit == v
    {
      var i :| 0 <= i < |rows| && rows[i] == v;
      assert listed[i].visit == v;
    }
    forall i, j | 0 <= i < j < |listed|
      ensures listed[j].visit.createdAt <= listed[i].visit.createdAt
    {
      assert listed[i].visit == rows[i] && listed[j].visit == rows[j];
    }
  }

  /** The report's rows: exactly the stored visits that pass the filters, newest first. */
  lemma ReportRowsFacts(params: ReportParams, visitas: seq<ReportVisit>)
    ensures var rows := ReportRows(params, visitas);
      multiset(rows) == multiset(Filter(visitas, ReportFilter(params))) &&
      (forall v :: v in rows <==> v in visitas && InVisitReport(params, v)) &&
      (forall i, j :: 0 <= i < j < |rows| ==> rows[j].createdAt <= rows[i].createdAt)
  {
    var rows := ReportRows(params, visitas);
    SortFilterFacts(visitas, ReportFilter(params), ByCreatedDesc);
    forall i, j | 0 <= i < j < |rows|
      ensures rows[j].createdAt <= rows[i].createdAt
    {
      assert KeyLe(ByCreatedDesc(rows[j]), ByCreatedDesc(rows[i]));
    }
  }

  /** A filtered visit whose user has no row (and whose query does not throw) fails the whole
      request with 500, whatever else the report holds. */
  lemma MissingUserFailsReport(current: User, params: ReportParams, visitas: seq<ReportVisit>, usuarios: seq<UsuarioRow>,
                               puntos: seq<PuntoRow>, uRaises: set<int>, pRaises: set<int>, v: ReportVisit)
    requires VerificarAdmin(current).None? && !params.fechaFin.BadDate?
    requires v in visitas && InVisitReport(params, v) && TruthyId(v.usuarioId)
    requires v.usuarioId.value !in uRaises && forall u :: u in usuarios ==> u.id != v.usuarioId.value
    ensures ReporteVisitas(current, params, visitas, usuarios, puntos, uRaises, pRaises).Err?
    ensures ReporteVisitas(current, params, visitas, usuarios, puntos, uRaises, pRaises).error.status == 500
  {
    var rows := ReportRows(params, visitas);
    var filtered := Filter(visitas, ReportFilter(params));
    assert ReportFilter(params)(v);
    assert v in multiset(filtered);
    assert v in multiset(rows);
    var i :| 0 <= i < |rows| && rows[i] == v;
    assert UserLookup(usuarios, uRaises, v.usuarioId.value).None?;
    assert EnrichOne(rows[i], usuarios, puntos, uRaises, pRaises).Err?;
    EnrichAllOkIff(rows, usuarios, puntos, uRaises, pRaises);
  }

  // ---- ranking ----

  datatype PointCount = PointCount(puntoId: int, count: nat)

  /** `contador.items()`: one entry per distinct truthy point id, in first-seen order, with
      the number of visits of that point. */
  function Tally(ids: seq<Option<int>>): seq<PointCount> {
    var keys := Dedup(TruthyIds(ids));
    seq(|keys|, i requires 0 <= i < |keys| => PointCount(keys[i], Occurrences(ids, Some(keys[i]))))
  }

  /** The counting loop over a `contador` dict, whose keys keep insertion order. */
  method CountVisits(ids: seq<Option<int>>) returns (items: seq<PointCount>)
    ensures items == Tally(ids)
  {
    var keys: seq<int> := [];
    var contador: map<int, nat> := map[];
    var i := 0;
    while i < |ids|
      invariant 0 <= i <= |ids|
      invariant keys == Dedup(TruthyIds(ids[..i]))
      invariant CountsAgree(contador, keys, ids[..i])
    {
      TallyStep(ids, i);
      keys, contador := CountOne(keys, contador, ids, i);
      i := i + 1;
    }
    assert ids[..i] == ids;
    forall j | 0 <= j < |keys|
      ensures keys[j] in contador
    {
      assert keys[j] in keys;
    }
    items := seq(|keys|, j requires 0 <= j < |keys| => PointCount(keys[j], contador[keys[j]]));
  }

  /** The dict has exactly the listed keys, none of them 0, each with its count so far. */
  ghost predicate CountsAgree(contador: map<int, nat>, keys: seq<int>, seen: seq<Option<int>>) {
    (forall k :: k in contador <==> k in keys) &&
    (forall k :: k in contador ==> k != 0 && contador[k] == Occurrences(seen, Some(k)))
  }

  /** `contador[punto_id] = contador.get(punto_id, 0) + 1` for a truthy id. */
  method CountOne(keys: seq<int>, contador: map<int, nat>, ids: seq<Option<int>>, i: int)
    returns (keys': seq<int>, contador': map<int, nat>)
    requires 0 <= i < |ids|
    requires keys == Dedup(TruthyIds(ids[..i])) && CountsAgree(contador, keys, ids[..i])
    ensures keys' == Dedup(TruthyIds(ids[..i + 1])) && CountsAgree(contador', keys', ids[..i + 1])
  {
    TallyStep(ids, i);
    var pid := ids[i];
    keys', contador' := keys, contador;
    if TruthyId(pid) {
      var k := pid.value;
      var before: nat := if k in contador then contador[k] else 0;
      if k !in contador {
        assert k !in TruthyIds(ids[..i]);
        OccurrencesAbsent(ids[..i], Some(k));
      }
      assert before == Occurrences(ids[..i], Some(k));
      contador' := contador[k := before + 1];
      if k !in keys {
        keys' := keys + [k];
      }
      forall x | x in contador'
        ensures x != 0 && contador'[x] == Occurrences(ids[..i + 1], Some(x))
      {
        if x != k {
          assert x in contador;
        }
      }
      assert forall x :: x in contador' <==> x in keys';
    } else {
      forall x | x in contador
        ensures contador[x] == Occurrences(ids[..i + 1], Some(x))
      {
        assert x != 0 && ids[i] != Some(x);
      }
    }
  }

  lemma {:induction false} OccurrencesAbsent<T>(s: seq<T>, x: T)
    requires x !in s
    decreases |s|
    ensures Occurrences(s, x) == 0
  {
    if s != [] {
      var n := |s| - 1;
      assert x !in s[..n];
      OccurrencesAbsent(s[..n], x);
    }
  }

  /** What one more id does to the distinct keys and to every count. */
  lemma TallyStep(ids: seq<Option<int>>, i: int)
    requires 0 <= i < |ids|
    ensures var d := Dedup(TruthyIds(ids[..i]));
      Dedup(TruthyIds(ids[..i + 1])) == if TruthyId(ids[i]) && ids[i].value !in d then d + [ids[i].value] else d
    ensures forall x :: Occurrences(ids[..i + 1], x) == Occurrences(ids[..i], x) + (if ids[i] == x then 1 else 0)
  {
    var pre := ids[..i + 1];
    assert pre[..i] == ids[..i] && pre[i] == ids[i] && |pre| == i + 1;
    var t := TruthyIds(ids[..i]);
    assert TruthyIds(pre) == t + (if TruthyId(ids[i]) then [ids[i].value] else []);
    if TruthyId(ids[i]) {
      var u := t + [ids[i].value];
      assert u[..|u| - 1] == t && u[|u| - 1] == ids[i].value;
      assert Dedup(TruthyIds(pre)) == Dedup(u);
    } else {
      assert t + [] == t;
      assert TruthyIds(pre) == t;
    }
    forall x
      ensures Occurrences(pre, x) == Occurrences(ids[..i], x) + (if ids[i] == x then 1 else 0)
    {
    }
  }

  lemma {:induction false} OccurrencesPositive<T>(s: seq<T>, x: T)
    requires x in s
    decreases |s|
    ensures Occurrences(s, x) > 0
  {
    var n := |s| - 1;
    if s[n] != x {
      assert s == s[..n] + [s[n]];
      assert x in s[..n];
      OccurrencesPositive(s[..n], x);
    }
  }

  /** The tally has distinct points, each visited at least once, with its exact count. */
  lemma TallyCounts(ids: seq<Option<int>>)
    ensures var t := Tally(ids);
      (forall i, j :: 0 <= i < j < |t| ==> t[i].puntoId != t[j].puntoId) &&
      (forall e :: e in t ==> e.count == Occurrences(ids, Some(e.puntoId)) && e.count >= 1 && e.puntoId != 0) &&
      (forall k :: (Some(k) in ids && k != 0) <==> exists e :: e in t && e.puntoId == k)
  {
    var keys := Dedup(TruthyIds(ids));
    var t := Tally(ids);
    forall e | e in t
      ensures e.count == Occurrences(ids, Some(e.puntoId)) && e.count >= 1 && e.puntoId != 0
    {
      var i :| 0 <= i < |t| && t[i] == e;
      assert keys[i] in TruthyIds(ids);
      OccurrencesPositive(ids, Some(keys[i]));
    }
    forall k | Some(k) in ids && k != 0
      ensures exists e :: e in t && e.puntoId == k
    {
      assert k in keys;
      var i :| 0 <= i < |keys| && keys[i] == k;
      assert t[i] in t;
    }
  }

  function ByCount(e: PointCount): Key {
    Key(e.count, 0)
  }

  /** Points with the same number of visits keep their first-seen order in the sorted list. */
  lemma RankingTiesKeepFirstSeenOrder(ids: seq<Option<int>>, c: nat)
    ensures WithKey(SortDesc(Tally(ids), ByCount), ByCount, Key(c, 0)) == WithKey(Tally(ids), ByCount, Key(c, 0))
  {
    SortDescStable(Tally(ids), ByCount, Key(c, 0));
  }

  datatype RankRow = RankRow(puntoId: int, nombre: string, codigo: Option<string>, totalVisitas: nat)

  /** An entry the lookup loop keeps: the point query does not throw and finds the point. */
  function Resolved(puntos: seq<PuntoRow>, raises: set<int>): PointCount -> bool {
    (e: PointCount) => PointById(puntos, e.puntoId).Some? && e.puntoId !in raises
  }

  /** The lookup loop: an entry whose point query throws or finds nothing is skipped. */
  function RankRows(entries: seq<PointCount>, puntos: seq<PuntoRow>, raises: set<int>): (rows: seq<RankRow>)
    ensures |rows| <= |entries|
    ensures forall r :: r in rows ==> PointCount(r.puntoId, r.totalVisitas) in entries
    ensures forall r :: r in rows ==> exists p :: p in puntos && p.id == r.puntoId && p.nombre == r.nombre
    ensures var kept := Filter(entries, Resolved(puntos, raises));
      |rows| == |kept| &&
      forall i :: 0 <= i < |rows| ==>
        PointById(puntos, kept[i].puntoId).Some? &&
        rows[i] == RankRow(kept[i].puntoId, PointById(puntos, kept[i].puntoId).value.nombre,
                           PointById(puntos, kept[i].puntoId).value.qrCode, kept[i].count)
    decreases |entries|
  {
    if entries == [] then []
    else
      var e := entries[0];
      var rest := RankRows(entries[1..], puntos, raises);
      match PointById(puntos, e.puntoId)
      case Some(p) => if e.puntoId in raises then rest else [RankRow(e.puntoId, p.nombre, p.qrCode, e.count)] + rest
      case None => rest
  }

  predicate SortedByVisits(rows: seq<RankRow>) {
    forall i, j :: 0 <= i < j < |rows| ==> rows[j].totalVisitas <= rows[i].totalVisitas
  }

  lemma {:induction false} RankRowsSorted(entries: seq<PointCount>, puntos: seq<PuntoRow>, raises: set<int>)
    requires SortedDesc(entries, ByCount)
    decreases |entries|
    ensures SortedByVisits(RankRows(entries, puntos, raises))
  {
    if entries != [] {
      var rest := entries[1..];
      var bound := entries[0].count;
      assert SortedDesc(rest, ByCount) && forall e :: e in rest ==> e.count <= bound by {
        forall i, j | 0 <= i < j < |rest|
          ensures KeyLe(ByCount(rest[j]), ByCount(rest[i]))
        {
          assert rest[i] == entries[i + 1] && rest[j] == entries[j + 1];
        }
        forall e | e in rest
          ensures e.count <= bound
        {
          var k :| 0 <= k < |rest| && rest[k] == e;
          assert KeyLe(ByCount(entries[k + 1]), ByCount(entries[0]));
        }
      }
      RankRowsSorted(rest, puntos, raises);
      var tail := RankRows(rest, puntos, raises);
      assert forall r :: r in tail ==> r.totalVisitas <= bound by {
        forall r | r in tail
          ensures r.totalVisitas <= bound
        {
          assert PointCount(r.puntoId, r.totalVisitas) in rest;
        }
      }
      var rows := RankRows(entries, puntos, raises);
      if rows != tail {
        var p := PointById(puntos, entries[0].puntoId).value;
        PrependBelow(RankRow(entries[0].puntoId, p.nombre, p.qrCode, bound), tail);
      }
    }
  }

  /** A row with at least the visits of every row of a sorted list can go in front of it. */
  lemma PrependBelow(head: RankRow, tail: seq<RankRow>)
    requires SortedByVisits(tail) && forall r :: r in tail ==> r.totalVisitas <= head.totalVisitas
    ensures SortedByVisits([head] + tail)
  {
    var rows := [head] + tail;
    forall i, j | 0 <= i < j < |rows|
      ensures rows[j].totalVisitas <= rows[i].totalVisitas
    {
      assert rows[j] == tail[j - 1];
      if i > 0 {
        assert rows[i] == tail[i - 1];
      }
    }
  }

  datatype Ranking = Ranking(ranking: seq<RankRow>, totalPuntos: nat)

  /** `[:limit]` of the sorted tally. */
  function TopEntries(ids: seq<Option<int>>, limit: nat): seq<PointCount> {
    Take(SortDesc(Tally(ids), ByCount), limit)
  }

  /** The visits the ranking counts: those created in the period. */
  function InPeriod(fechaInicio: Option<int>, fechaFin: DateParam, visitas: seq<ReportVisit>): seq<ReportVisit> {
    Filter(visitas, (v: ReportVisit) => InDateRange(fechaInicio, fechaFin, v.createdAt))
  }

  /** The first `limit` entries of the sorted tally: at most `limit`, still sorted, each with
      its exact count, and no point of the tally left out has more visits than one kept. */
  lemma TopEntriesFacts(ids: seq<Option<int>>, limit: nat)
    ensures var top := TopEntries(ids, limit);
      |top| <= limit && SortedDesc(top, ByCount) &&
      (forall e :: e in top ==> e.count == Occurrences(ids, Some(e.puntoId))) &&
      (forall e, t :: e in Tally(ids) && e !in top && t in top ==> e.count <= t.count)
  {
    var sorted := SortDesc(Tally(ids), ByCount);
    var top := TopEntries(ids, limit);
    assert SortedDesc(top, ByCount) by {
      forall i, j | 0 <= i < j < |top|
        ensures KeyLe(ByCount(top[j]), ByCount(top[i]))
      {
        assert top[i] == sorted[i] && top[j] == sorted[j];
      }
    }
    TallyCounts(ids);
    forall e | e in top
      ensures e.count == Occurrences(ids, Some(e.puntoId))
    {
      var k :| 0 <= k < |top| && top[k] == e;
      assert sorted[k] == e;
      assert e in multiset(sorted);
      assert e in Tally(ids);
    }
    TakeOfSorted(sorted, ByCount, limit);
    forall e, t | e in Tally(ids) && e !in top && t in top
      ensures e.count <= t.count
    {
      assert e in multiset(sorted);
      assert e !in multiset(top);
      assert e in multiset(sorted) - multiset(top);
      assert KeyLe(ByCount(e), ByCount(t));
    }
  }

  /** `obtener_ranking_puntos`. A `limit` outside 1..100 is refused with 422, the detail
      naming the parameter, by the query validation before the handler runs. */
  function RankingPuntos(current: User, fechaInicio: Option<int>, fechaFin: DateParam, limit: int,
                         visitas: seq<ReportVisit>, puntos: seq<PuntoRow>, raises: set<int>): Result<Ranking>
  {
    if limit < 1 || limit > 100 then Err(HttpError(422, "limit"))
    else if VerificarAdmin(current).Some? then Err(VerificarAdmin(current).value)
    else if fechaFin.BadDate? then Err(HttpError(500, "Error al obtener ranking: " + fechaFin.message))
    else
      var rows := RankRows(TopEntries(PuntoIds(InPeriod(fechaInicio, fechaFin, visitas)), limit), puntos, raises);
      Ok(Ranking(rows, |rows|))
  }

  /** At most `limit` rows, `total_puntos` their number, most visited first, each with the
      exact visit count of an existing point; a point with more visits than a listed one is
      never cut off by the limit (only its failed lookup can leave it out). */
  lemma RankingShape(current: User, fechaInicio: Option<int>, fechaFin: DateParam, limit: int,
                     visitas: seq<ReportVisit>, puntos: seq<PuntoRow>, raises: set<int>)
    requires RankingPuntos(current, fechaInicio, fechaFin, limit, visitas, puntos, raises).Ok?
    ensures var r := RankingPuntos(current, fechaInicio, fechaFin, limit, visitas, puntos, raises).value;
      1 <= limit <= 100 && |r.ranking| <= limit && r.totalPuntos == |r.ranking| &&
      (forall i, j :: 0 <= i < j < |r.ranking| ==> r.ranking[j].totalVisitas <= r.ranking[i].totalVisitas) &&
      (forall row :: row in r.ranking ==>
         row.totalVisitas == Occurrences(PuntoIds(InPeriod(fechaInicio, fechaFin, visitas)), Some(row.puntoId)) &&
         exists p :: p in puntos && p.id == row.puntoId) &&
      var ids := PuntoIds(InPeriod(fechaInicio, fechaFin, visitas));
      forall k, row :: row in r.ranking && k != 0 && Occurrences(ids, Some(k)) > row.totalVisitas ==>
        PointCount(k, Occurrences(ids, Some(k))) in TopEntries(ids, limit)
  {
    var ids := PuntoIds(InPeriod(fechaInicio, fechaFin, visitas));
    var top := TopEntries(ids, limit);
    TopEntriesFacts(ids, limit);
    RankRowsSorted(top, puntos, raises);
    var rows := RankRows(top, puntos, raises);
    forall row | row in rows
      ensures row.totalVisitas == Occurrences(ids, Some(row.puntoId))
    {
      assert PointCount(row.puntoId, row.totalVisitas) in top;
    }
    TallyCounts(ids);
    forall k, row | row in rows && k != 0 && Occurrences(ids, Some(k)) > row.totalVisitas
      ensures PointCount(k, Occurrences(ids, Some(k))) in top
    {
      assert Some(k) in ids by {
        if Some(k) !in ids {
          OccurrencesAbsent(ids, Some(k));
        }
      }
      var e :| e in Tally(ids) && e.puntoId == k;
      assert PointCount(row.puntoId, row.totalVisitas) in top;
      assert e in top;
    }
  }

  // ---- alert report ----

  /** The columns of an `alertas` row that the report reads. */
  datatype AlertRow = AlertRow(id: int, usuarioId: Option<int>, tipo: Option<string>, leido: Option<bool>, createdAt: int)

  /** Dates as for the visit report, `tipo` when non-empty, `leido` when given. */
  predicate InAlertReport(fechaInicio: Option<int>, fechaFin: DateParam, tipo: Option<string>, leido: Option<bool>, a: AlertRow) {
    InDateRange(fechaInicio, fechaFin, a.createdAt) &&
    (TruthyStr(tipo) ==> a.tipo == tipo) &&
    (leido.Some? ==> a.leido == leido)
  }

  datatype AlertStats = AlertStats(totalAlertas: nat, alertasLeidas: nat, alertasPendientes: nat)

  /** One listed alert and the name found for its user (absent when there is none to find). */
  datatype ListedAlert = ListedAlert(alerta: AlertRow, usuarioNombre: Option<string>)

  function AlertUserName(usuarios: seq<UsuarioRow>, raises: set<int>, a: AlertRow): Option<string> {
    if !TruthyId(a.usuarioId) then None
    else if a.usuarioId.value in raises then Some("Desconocido")
    else match FindFirst(usuarios, (u: UsuarioRow) => u.id == a.usuarioId.value)
      case Some(u) => Some(u.nombre)
      case None => None
  }

  predicate Leida(a: AlertRow) {
    a.leido == Some(true)
  }

  function AlertStatsOf(alertas: seq<AlertRow>): AlertStats {
    AlertStats(|alertas|, Count(alertas, (a: AlertRow) => Leida(a)), Count(alertas, (a: AlertRow) => !Leida(a)))
  }

  /** `obtener_reporte_alertas`. */
  function ReporteAlertas(current: User, fechaInicio: Option<int>, fechaFin: DateParam, tipo: Option<string>, leido: Option<bool>,
                          alertas: seq<AlertRow>, usuarios: seq<UsuarioRow>, raises: set<int>)
    : (r: Result<(seq<ListedAlert>, AlertStats)>)
    ensures r.Ok? <==> VerificarAdmin(current).None? && !fechaFin.BadDate?
    ensures r.Ok? ==> |r.value.0| == r.value.1.totalAlertas
    ensures r.Ok? ==> forall i :: 0 <= i < |r.value.0| ==>
      r.value.0[i].alerta in alertas && InAlertReport(fechaInicio, fechaFin, tipo, leido, r.value.0[i].alerta)
    ensures r.Ok? ==> forall a :: a in alertas && InAlertReport(fechaInicio, fechaFin, tipo, leido, a) ==>
      exists i :: 0 <= i < |r.value.0| && r.value.0[i].alerta == a
    ensures r.Ok? ==> forall i, j :: 0 <= i < j < |r.value.0| ==> r.value.0[j].alerta.createdAt <= r.value.0[i].alerta.createdAt
  {
    if VerificarAdmin(current).Some? then Err(VerificarAdmin(current).value)
    else if fechaFin.BadDate? then Err(HttpError(500, "Error al obtener alertas: " + fechaFin.message))
    else
      var rows := AlertReportRows(fechaInicio, fechaFin, tipo, leido, alertas);
      var listed := WithUserNames(rows, usuarios, raises);
      ListingFacts(fechaInicio, fechaFin, tipo, leido, alertas, usuarios, raises);
      Ok((listed, AlertStatsOf(rows)))
  }

  /** The report's listing: exactly the stored alerts that pass the filters, newest first. */
  lemma ListingFacts(fechaInicio: Option<int>, fechaFin: DateParam, tipo: Option<string>, leido: Option<bool>,
                     alertas: seq<AlertRow>, usuarios: seq<UsuarioRow>, raises: set<int>)
    ensures var listed := WithUserNames(AlertReportRows(fechaInicio, fechaFin, tipo, leido, alertas), usuarios, raises);
      (forall i :: 0 <= i < |listed| ==>
         listed[i].alerta in alertas && InAlertReport(fechaInicio, fechaFin, tipo, leido, listed[i].alerta)) &&
      (forall a :: a in alertas && InAlertReport(fechaInicio, fechaFin, tipo, leido, a) ==>
         exists i :: 0 <= i < |listed| && listed[i].alerta == a) &&
      (forall i, j :: 0 <= i < j < |listed| ==> listed[j].alerta.createdAt <= listed[i].alerta.createdAt)
  {
    var rows := AlertReportRows(fechaInicio, fechaFin, tipo, leido, alertas);
    var listed := WithUserNames(rows, usuarios, raises);
    assert forall i :: 0 <= i < |listed| ==> listed[i].alerta == rows[i];
    forall a | a in alertas && InAlertReport(fechaInicio, fechaFin, tipo, leido, a)
      ensures exists i :: 0 <= i < |listed| && listed[i].alerta == a
    {
      var i :| 0 <= i < |rows| && rows[i] == a;
      assert listed[i].alerta == a;
    }
    forall i, j | 0 <= i < j < |listed|
      ensures listed[j].alerta.createdAt <= listed[i].alerta.createdAt
    {
      assert KeyLe(ByCreated(rows[j]), ByCreated(rows[i]));
    }
  }

  /** The enrichment loop: each alert, in order, with the name found for its user. */
  function WithUserNames(rows: seq<AlertRow>, usuarios: seq<UsuarioRow>, raises: set<int>): (listed: seq<ListedAlert>)
    ensures |listed| == |rows|
    ensures forall i :: 0 <= i < |rows| ==> listed[i] == ListedAlert(rows[i], AlertUserName(usuarios, raises, rows[i]))
  {
    seq(|rows|, i requires 0 <= i < |rows| => ListedAlert(rows[i], AlertUserName(usuarios, raises, rows[i])))
  }

  /** The alert query's filters as a predicate on rows. */
  function AlertFilter(fechaInicio: Option<int>, fechaFin: DateParam, tipo: Option<string>, leido: Option<bool>): AlertRow -> bool {
    (a: AlertRow) => InAlertReport(fechaInicio, fechaFin, tipo, leido, a)
  }

  function ByCreated(a: AlertRow): Key {
    Key(a.createdAt, 0)
  }

  /** The alerts of the report, newest first: exactly the stored alerts the filters keep,
      each as often as it is stored. */
  function AlertReportRows(fechaInicio: Option<int>, fechaFin: DateParam, tipo: Option<string>, leido: Option<bool>,
                           alertas: seq<AlertRow>): (rows: seq<AlertRow>)
    ensures multiset(rows) == multiset(Filter(alertas, AlertFilter(fechaInicio, fechaFin, tipo, leido)))
    ensures forall i :: 0 <= i < |rows| ==> rows[i] in alertas && InAlertReport(fechaInicio, fechaFin, tipo, leido, rows[i])
    ensures forall a :: a in alertas && InAlertReport(fechaInicio, fechaFin, tipo, leido, a) ==> a in rows
    ensures SortedDesc(rows, ByCreated)
  {
    var keep := AlertFilter(fechaInicio, fechaFin, tipo, leido);
    var rows := SortDesc(Filter(alertas, keep), ByCreated);
    SortFilterFacts(alertas, keep, ByCreated);
    forall i | 0 <= i < |rows|
      ensures rows[i] in alertas && InAlertReport(fechaInicio, fechaFin, tipo, leido, rows[i])
    {
      assert rows[i] in rows;
      assert keep(rows[i]);
    }
    rows
  }

  /** Every alert is either read or pending. */
  lemma ReadPlusPendingIsTotal(alertas: seq<AlertRow>)
    ensures var s := AlertStatsOf(alertas); s.alertasLeidas + s.alertasPendientes == s.totalAlertas
  {
    CountComplement(alertas, (a: AlertRow) => Leida(a), (a: AlertRow) => !Leida(a));
  }
}
