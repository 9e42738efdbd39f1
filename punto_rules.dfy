/** What the two checkpoint administration routers (backend/app/routers/puntos_qr_adapted.py
    and backend/app/routers/puntos_crud.py) have in common: the coordinate ranges, the
    "ACRUX-" code format and its regeneration loop, partial updates of a row, the two ways
    of deleting a row, the listing filters and the lookup by id. */
module PuntoRules {
  import opened Common
  import opened Records

  const ServicioNoEncontrado := "Servicio no encontrado"
  const PuntoNoEncontrado := "Punto QR no encontrado"

  predicate LatitudeOk(lat: real) {
    -90.0 <= lat <= 90.0
  }

  predicate LongitudeOk(lng: real) {
    -180.0 <= lng <= 180.0
  }

  // ---------------------------------------------------------------------------------------
  // Codes

  const CodePrefix := "ACRUX-"

  /** The number of hexadecimal characters after the prefix. */
  const CodeHexLength: nat := 12

  predicate IsLowerHex(c: char) {
    '0' <= c <= '9' || 'a' <= c <= 'f'
  }

  predicate IsUpperHex(c: char) {
    '0' <= c <= '9' || 'A' <= c <= 'F'
  }

  /** A random hexadecimal token as Python renders one (`secrets.token_hex`, `uuid4().hex`):
      lower-case hexadecimal digits, at least as many as a code needs. */
  predicate IsHexToken(t: string) {
    |t| >= CodeHexLength && forall i :: 0 <= i < |t| ==> IsLowerHex(t[i])
  }

  predicate AllHexTokens(tokens: seq<string>) {
    forall i :: 0 <= i < |tokens| ==> IsHexToken(tokens[i])
  }

  /** Python `str.upper` on one ASCII character. */
  function ToUpper(c: char): (u: char)
    ensures IsLowerHex(c) ==> IsUpperHex(u)
    ensures '0' <= c <= '9' ==> u == c
  {
    if 'a' <= c <= 'z' then ((c as int) - 32) as char else c
  }

  /** Python `str.upper` on an ASCII string. */
  function Upper(s: string): (r: string)
    ensures |r| == |s|
    ensures forall i :: 0 <= i < |s| ==> r[i] == ToUpper(s[i])
  {
    if s == [] then [] else [ToUpper(s[0])] + Upper(s[1..])
  }

  /** `f"ACRUX-{token[:12].upper()}"`. */
  function CodeOf(token: string): string
    requires |token| >= CodeHexLength
  {
    CodePrefix + Upper(token[..CodeHexLength])
  }

  /** The shape every generated code has. */
  predicate IsPointCode(code: string) {
    |code| == |CodePrefix| + CodeHexLength &&
    code[..|CodePrefix|] == CodePrefix &&
    forall i :: |CodePrefix| <= i < |code| ==> IsUpperHex(code[i])
  }

  /** A code made from a random token is "ACRUX-" followed by 12 upper-case hex digits. */
  lemma CodeOfShape(token: string)
    requires IsHexToken(token)
    ensures IsPointCode(CodeOf(token))
  {
    var u := Upper(token[..CodeHexLength]);
    var code := CodeOf(token);
    assert code[..|CodePrefix|] == CodePrefix;
    forall i | |CodePrefix| <= i < |code|
      ensures IsUpperHex(code[i])
    {
      assert code[i] == u[i - |CodePrefix|] == ToUpper(token[i - |CodePrefix|]);
    }
  }

  /** The codes already stored in the table (the `.eq("qr_code", code)` lookup). */
  function Codes(puntos: seq<PuntoRow>): set<string> {
    set p | p in puntos && p.qrCode.Some? :: p.qrCode.value
  }

  /** The regeneration loop: draw candidates in order until one is not yet stored. The source
      draws for ever; the model is given the draws and requires one of them to be unused. */
  method FirstUnused(candidates: seq<string>, taken: set<string>) returns (k: nat)
    requires exists i :: 0 <= i < |candidates| && candidates[i] !in taken
    ensures k < |candidates| && candidates[k] !in taken
    ensures forall j :: 0 <= j < k ==> candidates[j] in taken
  {
    k := 0;
    while candidates[k] in taken
      invariant exists i :: k <= i < |candidates| && candidates[i] !in taken
      invariant forall j :: 0 <= j < k ==> candidates[j] in taken
      decreases |candidates| - k
    {
      k := k + 1;
    }
  }

  /** The codes the draws would give, in draw order. */
  function CandidateCodes(tokens: seq<string>): (r: seq<string>)
    requires AllHexTokens(tokens)
    ensures |r| == |tokens|
    ensures forall i :: 0 <= i < |tokens| ==> r[i] == CodeOf(tokens[i])
  {
    seq(|tokens|, i requires 0 <= i < |tokens| => CodeOf(tokens[i]))
  }

  /** Some draw gives a code that is not stored yet: the condition under which the
      regeneration loop ends. */
  predicate SomeDrawUnused(tokens: seq<string>, puntos: seq<PuntoRow>)
    requires AllHexTokens(tokens)
  {
    exists i :: 0 <= i < |tokens| && CodeOf(tokens[i]) !in Codes(puntos)
  }

  /** `code` is the first draw's code that is not stored yet. */
  predicate FirstUnusedCode(code: string, tokens: seq<string>, puntos: seq<PuntoRow>)
    requires AllHexTokens(tokens)
  {
    exists k :: 0 <= k < |tokens| && code == CodeOf(tokens[k]) && code !in Codes(puntos) &&
      forall j :: 0 <= j < k ==> CodeOf(tokens[j]) in Codes(puntos)
  }

  /** Runs the regeneration loop over the draws and returns the code it settles on. */
  method GenerateCode(tokens: seq<string>, puntos: seq<PuntoRow>) returns (code: string)
    requires AllHexTokens(tokens)
    requires SomeDrawUnused(tokens, puntos)
    ensures FirstUnusedCode(code, tokens, puntos)
    ensures IsPointCode(code) && code !in Codes(puntos)
  {
    var candidates := CandidateCodes(tokens);
    var k := FirstUnused(candidates, Codes(puntos));
    code := candidates[k];
    CodeOfShape(tokens[k]);
  }

  /** No two rows share a code. */
  predicate UniqueCodes(puntos: seq<PuntoRow>) {
    forall i, j :: 0 <= i < j < |puntos| && puntos[i].qrCode.Some? ==> puntos[i].qrCode != puntos[j].qrCode
  }

  /** Inserting a row whose code the regeneration loop found unused keeps the codes unique. */
  lemma InsertKeepsCodesUnique(puntos: seq<PuntoRow>, row: PuntoRow)
    requires UniqueCodes(puntos)
    requires row.qrCode.Some? && row.qrCode.value !in Codes(puntos)
    ensures UniqueCodes(puntos + [row])
  {
    var t := puntos + [row];
    forall i, j | 0 <= i < j < |t| && t[i].qrCode.Some?
      ensures t[i].qrCode != t[j].qrCode
    {
      if j == |puntos| {
        assert t[i] in puntos;
        assert t[i].qrCode.value in Codes(puntos);
      }
    }
  }

  // ---------------------------------------------------------------------------------------
  // Partial updates

  /** The `update_data` dictionary: a field is present exactly when the update sets it. */
  datatype PuntoPatch = PuntoPatch(
    nombre: Option<string>,
    descripcion: Option<string>,
    latitud: Option<real>,
    longitud: Option<real>,
    servicioId: Option<int>,
    radioValidacion: Option<int>,
    activo: Option<bool>,
    updatedAt: Option<int>)

  const EmptyPatch := PuntoPatch(None, None, None, None, None, None, None, None)

  /** `table.update(update_data)` on one row: the fields present in the patch replace the
      row's, every other field keeps its value. */
  function ApplyPatch(p: PuntoRow, d: PuntoPatch): (r: PuntoRow)
    ensures r.id == p.id && r.qrCode == p.qrCode && r.createdAt == p.createdAt
    ensures r.nombre == d.nombre.GetOr(p.nombre)
    ensures r.descripcion == (if d.descripcion.Some? then d.descripcion else p.descripcion)
    ensures r.latitud == d.latitud.GetOr(p.latitud) && r.longitud == d.longitud.GetOr(p.longitud)
    ensures r.servicioId == d.servicioId.GetOr(p.servicioId)
    ensures r.radioValidacion == (if d.radioValidacion.Some? then d.radioValidacion else p.radioValidacion)
    ensures r.activo == (if d.activo.Some? then d.activo else p.activo)
    ensures r.updatedAt == (if d.updatedAt.Some? then d.updatedAt else p.updatedAt)
  {
    PuntoRow(p.id, d.servicioId.GetOr(p.servicioId), d.nombre.GetOr(p.nombre),
      if d.descripcion.Some? then d.descripcion else p.descripcion,
      d.latitud.GetOr(p.latitud), d.longitud.GetOr(p.longitud),
      if d.radioValidacion.Some? then d.radioValidacion else p.radioValidacion,
      p.qrCode,
      if d.activo.Some? then d.activo else p.activo,
      p.createdAt,
      if d.updatedAt.Some? then d.updatedAt else p.updatedAt)
  }

  /** `table.update(d).eq("id", id)` on the whole table. */
  function UpdateRows(puntos: seq<PuntoRow>, id: int, d: PuntoPatch): (r: seq<PuntoRow>)
    ensures |r| == |puntos|
    ensures forall i :: 0 <= i < |puntos| ==>
      r[i] == if puntos[i].id == id then ApplyPatch(puntos[i], d) else puntos[i]
  {
    Map(puntos, (p: PuntoRow) => if p.id == id then ApplyPatch(p, d) else p)
  }

  /** `table.delete().eq("id", id)`. */
  function RemoveRows(puntos: seq<PuntoRow>, id: int): (r: seq<PuntoRow>)
    ensures forall p :: p in r <==> p in puntos && p.id != id
  {
    Filter(puntos, (p: PuntoRow) => p.id != id)
  }

  // ---------------------------------------------------------------------------------------
  // Listing and statistics

  /** The listing query's filters: `.eq("activo", activo)` when a flag is given (a row without
      a flag matches neither value) and `.eq("servicio_id", id)` when the id is truthy. */
  predicate Listed(p: PuntoRow, activo: Option<bool>, servicioId: Option<int>) {
    (activo.Some? ==> p.activo == activo) &&
    (TruthyId(servicioId) ==> p.servicioId == servicioId.value)
  }

  function ListFilter(activo: Option<bool>, servicioId: Option<int>): PuntoRow -> bool {
    (p: PuntoRow) => Listed(p, activo, servicioId)
  }

  /** The name attached to a listed point: looked up only for a truthy service id; a missing
      service or a lookup that raises (`raises` holds those ids) leaves it None. */
  function ServicioNombre(p: PuntoRow, servicios: seq<ServicioRow>, raises: set<int>): (r: Option<string>)
    ensures r.Some? <==> p.servicioId != 0 && p.servicioId !in raises && ServicioExists(servicios, p.servicioId)
    ensures r.Some? ==> r == ServiceName(servicios, p.servicioId)
  {
    if p.servicioId == 0 || p.servicioId in raises then None else ServiceName(servicios, p.servicioId)
  }

  /** `obtener_punto`, the same in both routers: the row with this id, or 404. */
  function ObtenerPunto(id: int, puntos: seq<PuntoRow>): (r: Result<PuntoRow>)
    ensures r.Ok? <==> exists p :: p in puntos && p.id == id
    ensures r.Ok? ==> r.value in puntos && r.value.id == id
    ensures r.Err? ==> r.error == HttpError(404, PuntoNoEncontrado)
  {
    match PointById(puntos, id)
    case Some(p) => Ok(p)
    case None => Err(HttpError(404, PuntoNoEncontrado))
  }
}
