/** The administration client (frontend/src/services/adminAPI.js): dropping empty request
    parameters, building list URLs and request headers, and the statistics the client
    derives from the lists it fetches. A JavaScript object is a list of key/value entries
    in the order `for ... in` visits them: insertion order for the textual keys these
    objects hold (JavaScript would visit integer-like keys first, in ascending order). */
module AdminApi {
  import opened Common
  import opened Text
  import opened Records

  /** The JavaScript values a parameter or form field can hold. */
  datatype JsValue = JsNull | JsUndefined | JsStr(s: string) | JsNum(n: int) | JsBool(b: bool) | JsIntList(items: seq<int>)

  datatype Entry = Entry(key: string, value: JsValue)

  /** The values `cleanParams` keeps: everything except null, undefined and ''. 0, false and
      an empty list are kept. */
  predicate Kept(v: JsValue) {
    v != JsNull && v != JsUndefined && v != JsStr("")
  }

  function KeepEntry(): Entry -> bool {
    (e: Entry) => Kept(e.value)
  }

  /** What `cleanParams` returns: the kept entries in their original order. */
  function Cleaned(params: seq<Entry>): (r: seq<Entry>)
    ensures forall e :: e in r <==> e in params && Kept(e.value)
  {
    Filter(params, KeepEntry())
  }

  /** One more entry of the input extends the cleaned prefix by that entry when it is kept. */
  lemma CleanedPrefixStep(params: seq<Entry>, i: nat)
    requires i < |params|
    ensures Filter(params[..i + 1], KeepEntry()) ==
      Filter(params[..i], KeepEntry()) + (if Kept(params[i].value) then [params[i]] else [])
  {
    assert Filter([params[i]], KeepEntry()) == (if Kept(params[i].value) then [params[i]] else []);
    FilterAppend(params[..i], [params[i]], KeepEntry());
    assert params[..i + 1] == params[..i] + [params[i]];
  }

  /** `cleanParams`, as its loop builds the result key by key. */
  method CleanParams(params: seq<Entry>) returns (cleaned: seq<Entry>)
    ensures cleaned == Cleaned(params)
    ensures forall e :: e in cleaned <==> e in params && Kept(e.value)
  {
    cleaned := [];
    var i := 0;
    while i < |params|
      invariant 0 <= i <= |params|
      invariant cleaned == Filter(params[..i], KeepEntry())
    {
      CleanedPrefixStep(params, i);
      if Kept(params[i].value) {
        cleaned := cleaned + [params[i]];
      }
      i := i + 1;
    }
    assert params[..i] == params;
  }

  function Keys(entries: seq<Entry>): set<string> {
    set e | e in entries :: e.key
  }

  /** Cleaning twice changes nothing. */
  lemma {:induction false} CleanedIdempotent(params: seq<Entry>)
    ensures Cleaned(Cleaned(params)) == Cleaned(params)
  {
    if params != [] {
      var f := KeepEntry();
      var rest := Filter(params[1..], f);
      CleanedIdempotent(params[1..]);
      assert Filter(rest, f) == rest;
      if f(params[0]) {
        var c := [params[0]] + rest;
        assert Filter(params, f) == c;
        assert c[0] == params[0] && c[1..] == rest;
        assert Filter(c, f) == [params[0]] + Filter(rest, f);
      } else {
        assert Filter(params, f) == rest;
      }
    }
  }

  /** The cleaned keys are the input's keys whose value counts, so they are among the input's. */
  lemma CleanedKeys(params: seq<Entry>)
    ensures Keys(Cleaned(params)) <= Keys(params)
    ensures forall k :: k in Keys(Cleaned(params)) <==> exists e :: e in params && e.key == k && Kept(e.value)
  {
    var c := Cleaned(params);
    forall k | k in Keys(params) && (exists e :: e in params && e.key == k && Kept(e.value))
      ensures k in Keys(c)
    {
      var e :| e in params && e.key == k && Kept(e.value);
      assert e in c;
    }
  }

  // ---------------------------------------------------------------------------------------
  // URLs

  const ApiBaseUrl := "http://127.0.0.1:3001"

  /** The three listing endpoints. */
  datatype Resource = Usuarios | Servicios | PuntosAdmin

  function ResourcePath(r: Resource): string {
    match r
    case Usuarios => "/usuarios/"
    case Servicios => "/servicios/"
    case PuntosAdmin => "/admin/puntos/"
  }

  /** `String(value)` for a kept value. */
  function ValueText(v: JsValue): string {
    match v
    case JsNull => "null"
    case JsUndefined => "undefined"
    case JsStr(s) => s
    case JsNum(n) => IntToString(n)
    case JsBool(b) => if b then "true" else "false"
    case JsIntList(items) => IntListText(items)
  }

  function IntListText(items: seq<int>): string {
    if items == [] then "" else if |items| == 1 then IntToString(items[0])
    else IntToString(items[0]) + "," + IntListText(items[1..])
  }

  /** The `key=value` pairs, in entry order. */
  function Pairs(entries: seq<Entry>): (r: seq<string>)
    ensures |r| == |entries|
    ensures forall i :: 0 <= i < |entries| ==> r[i] == entries[i].key + "=" + ValueText(entries[i].value)
  {
    seq(|entries|, i requires 0 <= i < |entries| => entries[i].key + "=" + ValueText(entries[i].value))
  }

  /** `new URLSearchParams(entries).toString()`. */
  function QueryString(entries: seq<Entry>): string {
    Join(Pairs(entries), "&")
  }

  /** The query string is empty exactly when there are no entries: every pair holds an '='. */
  lemma QueryStringEmptyIff(entries: seq<Entry>)
    ensures QueryString(entries) == "" <==> entries == []
  {
    if entries != [] {
      var ps := Pairs(entries);
      assert |ps[0]| > 0;
      if |ps| > 1 {
        assert Join(ps, "&") == ps[0] + "&" + Join(ps[1..], "&");
      }
    }
  }

  /** The URL `listar` fetches: the base and path, then '?' and the query only when the
      cleaned parameters give a non-empty query string. */
  function ListUrl(resource: Resource, params: seq<Entry>): (r: string)
    ensures var prefix := ApiBaseUrl + ResourcePath(resource);
      |prefix| <= |r| && r[..|prefix|] == prefix &&
      (|r| > |prefix| <==> Cleaned(params) != []) &&
      (|r| > |prefix| ==> r[|prefix|] == '?' && r[|prefix| + 1..] == QueryString(Cleaned(params)))
  {
    var prefix := ApiBaseUrl + ResourcePath(resource);
    var q := QueryString(Cleaned(params));
    QueryStringEmptyIff(Cleaned(params));
    if q != "" then prefix + "?" + q else prefix
  }

  // ---------------------------------------------------------------------------------------
  // Headers

  datatype Header = Header(name: string, value: string)

  /** `getAuthHeaders`: the token is read at call time (`localStorage.getItem`, None when
      absent); an empty token is falsy and sends no Authorization header. */
  function AuthHeaders(token: Option<string>): (r: seq<Header>)
    ensures |r| >= 1 && r[0] == Header("Content-Type", "application/json")
    ensures (exists i :: 0 <= i < |r| && r[i].name == "Authorization") <==> TruthyStr(token)
    ensures TruthyStr(token) ==> Header("Authorization", "Bearer " + token.value) in r
    ensures forall i :: 1 <= i < |r| ==> r[i].name == "Authorization"
  {
    var base := [Header("Content-Type", "application/json")];
    if TruthyStr(token) then
      var r := base + [Header("Authorization", "Bearer " + token.value)];
      assert r[1].name == "Authorization";
      r
    else
      assert base[0].name != "Authorization";
      base
  }

  // ---------------------------------------------------------------------------------------
  // Statistics

  datatype UsuarioStats = UsuarioStats(total: nat, totalActivos: nat, guardias: nat, supervisores: nat, administradores: nat)

  function IsActiveUser(): UsuarioRow -> bool { (u: UsuarioRow) => u.activo }
  function HasRole(rol: string): UsuarioRow -> bool { (u: UsuarioRow) => u.rol == rol }
  function IsAdministrator(): UsuarioRow -> bool { (u: UsuarioRow) => u.rol == "admin" || u.rol == "administrador" }

  /** `usuariosAPI.estadisticas` over the fetched list. */
  function EstadisticasUsuarios(usuarios: seq<UsuarioRow>): (r: UsuarioStats)
    ensures r.total == |usuarios|
    ensures r.totalActivos == Count(usuarios, IsActiveUser()) <= r.total
    ensures r.guardias == Count(usuarios, HasRole("guardia"))
    ensures r.supervisores == Count(usuarios, HasRole("supervisor"))
    ensures r.administradores == Count(usuarios, HasRole("admin")) + Count(usuarios, HasRole("administrador"))
    ensures r.guardias + r.supervisores + r.administradores <= r.total
  {
    CountDisjointOr(usuarios, HasRole("admin"), HasRole("administrador"), IsAdministrator());
    var field := (u: UsuarioRow) => u.rol == "guardia" || u.rol == "supervisor";
    CountDisjointOr(usuarios, HasRole("guardia"), HasRole("supervisor"), field);
    var known := (u: UsuarioRow) => field(u) || IsAdministrator()(u);
    CountDisjointOr(usuarios, field, IsAdministrator(), known);
    CountMonotone(usuarios, known, (u: UsuarioRow) => true);
    CountMonotone(usuarios, IsActiveUser(), (u: UsuarioRow) => true);
    assert Count(usuarios, (u: UsuarioRow) => true) == |usuarios| by {
      AllPass(usuarios);
    }
    UsuarioStats(|usuarios|, Count(usuarios, IsActiveUser()), Count(usuarios, HasRole("guardia")),
      Count(usuarios, HasRole("supervisor")), Count(usuarios, IsAdministrator()))
  }

  lemma {:induction false} AllPass(usuarios: seq<UsuarioRow>)
    ensures Count(usuarios, (u: UsuarioRow) => true) == |usuarios|
  {
    if usuarios != [] {
      AllPass(usuarios[1..]);
    }
  }

  /** The active/inactive split the client shows for services and points. */
  datatype ActivoStats = ActivoStats(total: nat, activos: nat, inactivos: nat)

  /** `serviciosAPI.estadisticas`. */
  function EstadisticasServicios(servicios: seq<ServicioRow>): (r: ActivoStats)
    ensures r.total == |servicios|
    ensures r.activos == Count(servicios, (s: ServicioRow) => s.activo)
    ensures r.activos + r.inactivos == r.total
  {
    var activos := (s: ServicioRow) => s.activo;
    var inactivos := (s: ServicioRow) => !s.activo;
    CountComplement(servicios, activos, inactivos);
    ActivoStats(|servicios|, Count(servicios, activos), Count(servicios, inactivos))
  }

  /** `puntosAdminAPI.estadisticas`: a point without a flag is falsy, so it counts as inactive. */
  function EstadisticasPuntos(puntos: seq<PuntoRow>): (r: ActivoStats)
    ensures r.total == |puntos|
    ensures r.activos == Count(puntos, (p: PuntoRow) => p.activo == Some(true))
    ensures r.inactivos == Count(puntos, (p: PuntoRow) => p.activo != Some(true))
    ensures r.activos + r.inactivos == r.total
  {
    var activos := (p: PuntoRow) => p.activo == Some(true);
    var inactivos := (p: PuntoRow) => p.activo != Some(true);
    CountComplement(puntos, activos, inactivos);
    ActivoStats(|puntos|, Count(puntos, activos), Count(puntos, inactivos))
  }
}
