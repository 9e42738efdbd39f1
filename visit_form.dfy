/** The visit capture form (frontend/src/components/VisitForm.jsx): the QR and GPS validation
    that gates the form, and the submit that posts the visit or, failing that, queues it in the
    offline store. Server replies, the geolocation reading and clocks are parameters. */
module VisitForm {
  import opened Common
  import opened Records
  import opened Storage

  /** A coordinate pair as the form keeps it. */
  datatype Location = Location(lat: real, lng: real)

  /** The fields of a successful QR validation that the form uses (the server fills them
      all in whenever `valid` is true). */
  datatype PointInfo = PointInfo(servicioId: int, servicioNombre: Option<string>, puntoId: int,
                                 puntoNombre: string, puntoLat: real, puntoLng: real)

  /** What `api.validateQR` settles to. */
  datatype QrReply = QrValid(info: PointInfo) | QrInvalid(message: string) | QrThrew(message: string)

  /** What `navigator.geolocation.getCurrentPosition` reports. */
  datatype PositionReply = Position(lat: real, lng: real) | PositionError

  /** What `api.validateGPS` settles to. */
  datatype GpsReply = GpsResult(valid: bool, message: string) | GpsThrew

  /** What `api.createVisit` settles to. */
  datatype CreateReply = Created | CreateThrew

  /** The alerts the form shows. */
  datatype Alert = InvalidLocationAlert | RegisteredAlert | SavedOfflineAlert

  /** How a submit ends: refused before any request, posted, queued offline, or with the
      offline save's error escaping the handler. */
  datatype SubmitOutcome = Refused | Posted | QueuedOffline | SaveErrorEscaped

  const NoGeolocationMessage := "Tu dispositivo no soporta geolocalización"
  const PositionErrorMessage := "No se pudo obtener tu ubicación. Activa el GPS."

  /** The record `handleSubmit` sends: service and point from the QR validation, guard from
      the logged-in user, an empty observation sent as null, and the submit time. */
  function BuildVisitData(info: PointInfo, userId: int, tipo: VisitType, observacion: string, loc: Location, now: int): VisitData {
    VisitData(info.servicioId, info.puntoId, userId, tipo,
              if observacion == "" then None else Some(observacion),
              loc.lat, loc.lng, Some(now))
  }

  /** The built record carries exactly those values, and '' becomes null. */
  lemma BuildVisitDataFields(info: PointInfo, userId: int, tipo: VisitType, observacion: string, loc: Location, now: int)
    ensures var v := BuildVisitData(info, userId, tipo, observacion, loc, now);
      v.servicioId == info.servicioId && v.puntoQrId == info.puntoId && v.guardiaId == userId &&
      v.tipo == tipo && (v.observacion.None? <==> observacion == "") &&
      (observacion != "" ==> v.observacion == Some(observacion)) &&
      v.latitud == loc.lat && v.longitud == loc.lng && v.fechaHora == Some(now)
  {
  }

  class VisitForm {
    /** The `user` prop's id. */
    const userId: int
    var loading: bool
    var error: Option<string>
    var tipo: VisitType
    var observacion: string
    var location: Option<Location>
    var gpsValid: Option<bool>
    var puntoInfo: Option<PointInfo>
    /** The alerts shown so far. */
    var alerts: seq<Alert>
    /** The records handed to `api.createVisit`, in order. */
    var createRequests: seq<VisitData>
    /** How many times `onSuccess` was called. */
    var successCalls: nat

    /** A valid GPS state is only ever set after the point and the location are known. */
    ghost predicate Valid()
      reads this
    {
      gpsValid == Some(true) ==> puntoInfo.Some? && location.Some?
    }

    constructor (userId: int)
      ensures Valid() && this.userId == userId
      ensures !loading && error == None && tipo == Normal && observacion == ""
      ensures location == None && gpsValid == None && puntoInfo == None
      ensures alerts == [] && createRequests == [] && successCalls == 0
    {
      this.userId := userId;
      loading := false;
      error := None;
      tipo := Normal;
      observacion := "";
      location := None;
      gpsValid := None;
      puntoInfo := None;
      alerts := [];
      createRequests := [];
      successCalls := 0;
    }

    /** The type selector. */
    method SetTipo(t: VisitType)
      modifies this`tipo
      ensures tipo == t
    {
      tipo := t;
    }

    /** The observation text area. */
    method SetObservacion(text: string)
      modifies this`observacion
      ensures observacion == text
    {
      observacion := text;
    }

    /** `validateQRAndGetLocation`, run when the form mounts. */
    method ValidateQRAndGetLocation(qr: QrReply, devMode: bool, geoSupported: bool, position: PositionReply, gps: GpsReply)
      requires Valid()
      modifies this`loading, this`error, this`location, this`gpsValid, this`puntoInfo
      ensures Valid()
      // an invalid QR (or a failing request) stops with the message and leaves the GPS state alone
      ensures !qr.QrValid? ==>
        error == Some(qr.message) && !loading && gpsValid == old(gpsValid) &&
        puntoInfo == old(puntoInfo) && location == old(location)
      ensures qr.QrValid? ==> puntoInfo == Some(qr.info)
      // development mode takes the point's own coordinates as the location, without geolocation
      ensures qr.QrValid? && devMode ==>
        location == Some(Location(qr.info.puntoLat, qr.info.puntoLng)) && gpsValid == Some(true) && !loading && error == old(error)
      ensures qr.QrValid? && !devMode && !geoSupported ==>
        error == Some(NoGeolocationMessage) && !loading && gpsValid == old(gpsValid) && location == old(location)
      ensures qr.QrValid? && !devMode && geoSupported && position.PositionError? ==>
        error == Some(PositionErrorMessage) && !loading && gpsValid == old(gpsValid) && location == old(location)
      ensures qr.QrValid? && !devMode && geoSupported && position.Position? ==>
        location == Some(Location(position.lat, position.lng)) &&
        (gps.GpsResult? ==> gpsValid == Some(gps.valid) && !loading &&
                            error == (if gps.valid then old(error) else Some(gps.message))) &&
        // an error thrown by the GPS request escapes the callback: loading stays on
        (gps.GpsThrew? ==> gpsValid == old(gpsValid) && loading && error == old(error))
    {
      loading := true;
      match qr {
        case QrThrew(msg) =>
          error := Some(msg);
          loading := false;
        case QrInvalid(msg) =>
          error := Some(msg);
          loading := false;
        case QrValid(info) =>
          puntoInfo := Some(info);
          if devMode {
            location := Some(Location(info.puntoLat, info.puntoLng));
            gpsValid := Some(true);
            loading := false;
            return;
          }
          if !geoSupported {
            error := Some(NoGeolocationMessage);
            loading := false;
            return;
          }
          match position {
            case PositionError =>
              error := Some(PositionErrorMessage);
              loading := false;
            case Position(lat, lng) =>
              location := Some(Location(lat, lng));
              match gps {
                case GpsThrew =>
                case GpsResult(valid, message) =>
                  gpsValid := Some(valid);
                  if !valid {
                    error := Some(message);
                  }
                  loading := false;
              }
          }
      }
    }

    /** `handleSubmit`: refuses unless the GPS check passed; otherwise posts the record and, if
        the post fails for any reason, queues that same record offline. `now` is the submit
        time and `saveNow` the store's clock during the save. */
    method HandleSubmit(now: int, create: CreateReply, store: StorageService, saveNow: nat, readFails: bool, writeFails: bool)
      returns (outcome: SubmitOutcome)
      requires Valid()
      modifies this`loading, this`error, this`alerts, this`createRequests, this`successCalls, store
      ensures Valid()
      ensures old(gpsValid) != Some(true) ==>
        outcome == Refused && alerts == old(alerts) + [InvalidLocationAlert] &&
        createRequests == old(createRequests) && successCalls == old(successCalls) &&
        store.queue == old(store.queue) && loading == old(loading) && error == old(error)
      ensures old(gpsValid) == Some(true) ==>
        var v := BuildVisitData(puntoInfo.value, userId, tipo, observacion, location.value, now);
        createRequests == old(createRequests) + [v] && !loading && error == None &&
        (create.Created? ==> outcome == Posted && alerts == old(alerts) + [RegisteredAlert] &&
                             successCalls == old(successCalls) + 1 && store.queue == old(store.queue)) &&
        (create.CreateThrew? ==>
           store.queue == QueueAfterSave(old(store.queue), v, saveNow, readFails, writeFails) &&
           (writeFails ==> outcome == SaveErrorEscaped && alerts == old(alerts) && successCalls == old(successCalls)) &&
           (!writeFails ==> outcome == QueuedOffline && alerts == old(alerts) + [SavedOfflineAlert] &&
                            successCalls == old(successCalls) + 1))
      ensures store.user == old(store.user)
    {
      if gpsValid != Some(true) {
        alerts := alerts + [InvalidLocationAlert];
        return Refused;
      }
      loading := true;
      error := None;
      var v := BuildVisitData(puntoInfo.value, userId, tipo, observacion, location.value, now);
      createRequests := createRequests + [v];
      match create {
        case Created =>
          alerts := alerts + [RegisteredAlert];
          successCalls := successCalls + 1;
          outcome := Posted;
        case CreateThrew =>
          var saved := store.SaveVisitOffline(v, saveNow, readFails, writeFails);
          if saved.Saved? {
            alerts := alerts + [SavedOfflineAlert];
            successCalls := successCalls + 1;
            outcome := QueuedOffline;
          } else {
            outcome := SaveErrorEscaped;
          }
      }
      loading := false;
    }
  }

  /** Whatever made the create fail, the record queued is the one that was posted, and it is
      queued behind everything already waiting. */
  method FailedPostQueuesSameRecord(q0: seq<QueuedVisit>, info: PointInfo, userId: int, lat: real, lng: real,
                                    text: string, now: int, saveNow: nat)
    returns (posted: seq<VisitData>, queue: seq<QueuedVisit>, outcome: SubmitOutcome)
    ensures |posted| == 1 && queue == q0 + [NewRecord(posted[0], saveNow)]
    ensures posted[0].guardiaId == userId && posted[0].puntoQrId == info.puntoId && posted[0].servicioId == info.servicioId
    ensures outcome == QueuedOffline
  {
    var store := new StorageService();
    var _ := store.SetOfflineVisits(q0, false);
    var form := new VisitForm(userId);
    form.ValidateQRAndGetLocation(QrValid(info), false, true, Position(lat, lng), GpsResult(true, "ok"));
    form.SetObservacion(text);
    outcome := form.HandleSubmit(now, CreateThrew, store, saveNow, false, false);
    posted := form.createRequests;
    queue := store.queue;
  }

  /** Without a passed GPS check a submit sends nothing and queues nothing. */
  method SubmitWithoutGpsSendsNothing(q0: seq<QueuedVisit>, message: string, now: int, saveNow: nat)
    returns (posted: seq<VisitData>, queue: seq<QueuedVisit>, outcome: SubmitOutcome, gpsValid: Option<bool>)
    ensures outcome == Refused && posted == [] && queue == q0 && gpsValid == None
  {
    var store := new StorageService();
    var _ := store.SetOfflineVisits(q0, false);
    var form := new VisitForm(1);
    form.ValidateQRAndGetLocation(QrInvalid(message), false, true, PositionError, GpsThrew);
    gpsValid := form.gpsValid;
    outcome := form.HandleSubmit(now, CreateThrew, store, saveNow, false, false);
    posted := form.createRequests;
    queue := store.queue;
  }
}
