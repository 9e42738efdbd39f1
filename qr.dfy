/** QR validation (backend/app/routers/qr.py): the payload `servicio:<id>:punto:<id>` is
    parsed, then the point must exist and be active and the user must have access to the
    parsed service. The two table queries are sequences of rows. */
module Qr {
  import opened Common
  import opened Text
  import opened Records
  import App

  const FormatMessage := "Código QR inválido. Formato esperado: servicio:ID:punto:ID"

  /** The two ids a well-formed payload carries. */
  datatype QrPayload = QrPayload(servicioId: int, puntoId: int)

  /** The validation response; the point fields are set only when `valid`. */
  datatype QrResponse = QrResponse(
    valid: bool,
    servicioId: Option<int>,
    servicioNombre: Option<string>,
    puntoId: Option<int>,
    puntoNombre: Option<string>,
    puntoLat: Option<real>,
    puntoLng: Option<real>,
    message: string)

  function Invalid(message: string): QrResponse {
    QrResponse(false, None, None, None, None, None, None, message)
  }

  /** The payload a point's QR is meant to carry. */
  function EncodeQr(p: QrPayload): string {
    Join(["servicio", IntToString(p.servicioId), "punto", IntToString(p.puntoId)], ":")
  }

  /** The parse inside the `try`: four ':'-separated parts, the fixed words in places 0 and 2,
      integers in places 1 and 3. None stands for every path to the format message. */
  function ParseQr(data: string): (r: Option<QrPayload>)
    ensures var parts := Split(data, ':');
      r.Some? <==> |parts| == 4 && parts[0] == "servicio" && parts[2] == "punto" &&
                   ParseInt(parts[1]).Some? && ParseInt(parts[3]).Some?
    ensures r.Some? ==> var parts := Split(data, ':');
      Some(r.value.servicioId) == ParseInt(parts[1]) && Some(r.value.puntoId) == ParseInt(parts[3])
  {
    var parts := Split(data, ':');
    if |parts| != 4 || parts[0] != "servicio" || parts[2] != "punto" then None
    else match (ParseInt(parts[1]), ParseInt(parts[3]))
      case (Some(s), Some(p)) => Some(QrPayload(s, p))
      case _ => None
  }

  lemma IntToStringHasNoColon(i: int)
    ensures ':' !in IntToString(i)
  {
    var t := NatToString(if i < 0 then -i else i);
    assert forall k :: 0 <= k < |t| ==> t[k] != ':';
    if i < 0 {
      assert IntToString(i) == "-" + t;
    }
  }

  /** The encoded payload parses back to the same ids. */
  lemma ParseEncodeRoundTrip(p: QrPayload)
    ensures ParseQr(EncodeQr(p)) == Some(p)
  {
    var parts := ["servicio", IntToString(p.servicioId), "punto", IntToString(p.puntoId)];
    IntToStringHasNoColon(p.servicioId);
    IntToStringHasNoColon(p.puntoId);
    assert ':' !in "servicio" && ':' !in "punto";
    SplitJoin(parts, ':');
    IntToStringRoundTrip(p.servicioId);
    IntToStringRoundTrip(p.puntoId);
  }

  /** A text without ':' — such as the "ACRUX-…" code that the QR image generator encodes —
      is a single part and so never well-formed. */
  lemma TextWithoutColonIsRejected(data: string)
    requires ':' !in data
    ensures ParseQr(data).None?
  {
    SplitWithoutSeparator(data, ':');
  }

  /** `validate_qr`: format, point exists (looked up by id alone), point active, then the
      role's access to the parsed service. The service name query may fail; its failure or an
      empty reply leaves the name null. */
  function ValidateQr(data: string, current: User, puntos: seq<PuntoRow>, servicios: seq<ServicioRow>,
                      nameLookupFails: bool): (r: QrResponse)
    ensures ParseQr(data).None? ==> r == Invalid(FormatMessage)
    ensures ParseQr(data).Some? && PointById(puntos, ParseQr(data).value.puntoId).None? ==>
      r == Invalid("Punto QR no encontrado")
    ensures ParseQr(data).Some? && PointById(puntos, ParseQr(data).value.puntoId).Some? &&
            !PuntoActive(PointById(puntos, ParseQr(data).value.puntoId).value) ==>
      r == Invalid("Este punto QR está inactivo")
    ensures r.valid <==>
      ParseQr(data).Some? && PointById(puntos, ParseQr(data).value.puntoId).Some? &&
      PuntoActive(PointById(puntos, ParseQr(data).value.puntoId).value) &&
      ServiceAccessOk(current, ParseQr(data).value.servicioId)
    ensures r.valid ==>
      var q := ParseQr(data).value;
      var p := PointById(puntos, q.puntoId).value;
      r.servicioId == Some(q.servicioId) && r.puntoId == Some(q.puntoId) && p.id == q.puntoId &&
      r.puntoNombre == Some(p.nombre) && r.puntoLat == Some(p.latitud) && r.puntoLng == Some(p.longitud)
  {
    match ParseQr(data)
    case None => Invalid(FormatMessage)
    case Some(q) =>
      match PointById(puntos, q.puntoId)
      case None => Invalid("Punto QR no encontrado")
      case Some(p) =>
        if !PuntoActive(p) then Invalid("Este punto QR está inactivo")
        else
          var nombre := if nameLookupFails then None else ServiceName(servicios, q.servicioId);
          if !ServiceAccessOk(current, q.servicioId) then Invalid("No tienes acceso a este servicio")
          else QrResponse(true, Some(q.servicioId), nombre, Some(q.puntoId), Some(p.nombre),
                          Some(p.latitud), Some(p.longitud), "QR válido")
  }

  /** The point's own service is never compared with the payload's: a guard of service 1
      scanning a payload that names service 1 and a point of service 2 gets a valid reply. */
  lemma ForeignPointIsAccepted()
    ensures var guard := User(7, "g@acrux", "G", "guardia", Some(1), None);
      var point := PuntoRow(5, 2, "Entrada", None, 0.0, 0.0, None, None, Some(true), None, None);
      ValidateQr(EncodeQr(QrPayload(1, 5)), guard, [point], [], false).valid
  {
    ParseEncodeRoundTrip(QrPayload(1, 5));
  }

  /** A generated point code reaches the format message. */
  lemma GeneratedCodeIsRejected(code: string, current: User, puntos: seq<PuntoRow>, servicios: seq<ServicioRow>, fails: bool)
    requires |code| >= 6 && code[..6] == "ACRUX-" && ':' !in code
    ensures ValidateQr(code, current, puntos, servicios, fails) == Invalid(FormatMessage)
  {
    TextWithoutColonIsRejected(code);
  }

  /** A payload whose service id does not start with a digit or a sign fails the parse,
      whatever follows. */
  lemma {:induction false} NonNumericServiceIsRejected(b: string, tail: string)
    requires |b| > 0 && !IsDigit(b[0]) && b[0] != '-' && b[0] != '+' && b[0] != ':'
    ensures ParseQr("servicio:" + b + tail).None?
  {
    var rest := b + tail;
    assert "servicio:" + b + tail == "servicio" + [':'] + rest;
    SplitAtSeparator("servicio", rest, ':');
    assert rest[0] == b[0] && [rest[0]] + rest[1..] == rest;
    var second := Split(rest, ':')[0];
    assert second == [b[0]] + Split(rest[1..], ':')[0];
    assert !IsIntLiteral(second);
  }

  /** The development-mode payload that the app injects instead of a camera scan carries
      uuids where the ids go, so the server answers with the format message. */
  lemma SimulatedQrIsRejected()
    ensures ParseQr(App.SimulatedQr).None?
  {
    NonNumericServiceIsRejected(App.SimulatedServicio, ":punto:" + App.SimulatedPunto);
    assert App.SimulatedQr == "servicio:" + App.SimulatedServicio + (":punto:" + App.SimulatedPunto);
  }
}
