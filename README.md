# acrux-360 in Dafny

acrux-360 is a progressive web app for security guards and their supervisors. A guard scans the QR code at a checkpoint, the client checks the code and the guard's position, and the client records a "visit". When the server cannot be reached, the visit goes into an offline queue in the browser. A sync engine later sends the whole queue to the server in one batch. Supervisors see dashboards, maps and alerts for points nobody has visited lately. Administrators manage users, services (guard shifts) and checkpoints.

This project models three parts of that system and proves properties about them:

- **The offline queue and its synchronisation.**
  - `Storage.StorageService` is the browser store. It holds the list under 'offline-visits' and the cached user.
  - `Sync.SyncService` is the sync engine. Each `await` of `syncPendingVisits` is its own step, so a capture can append to the queue between the read and the clear.
  - `VisitForm.VisitForm` and `App.App` are the classes whose handlers feed and drive those two.
  - `Visits.SyncOfflineVisits` is the server half: the batch endpoint.
- **The server's decision rules.**
  - Each router handler is a function from a request and the table contents to an answer or an `HttpError`.
  - Tables are sequences of rows.
  - The routers covered are visits, QR validation, alerts, reports, services, the two checkpoint administration routers, the checkpoint reader and users.
- **The client's helpers.**
  - parameter cleaning, URLs, headers and counters of the admin API client;
  - the day picker and form of the service screen;
  - the QR sheet selection;
  - the supervisor's alert panel, guard list, recent visits, map and dashboard.

## Conventions

- Time is an integer number of milliseconds. The current time is always a parameter.
- Whether two moments fall on the same calendar day is a parameter `dayOf`.
- Whether a text parses as a time of day is a parameter `isTime`.
- The great-circle distance is a parameter function. Only its comparison with the 50 m radius is modelled.
- Everything outside the program is a parameter, and so is whether it fails. That covers the browser store, `fetch`, the database and the geolocation API.
  - A reply that can raise is an explicit outcome, for example `Records.InsertReply`.
  - `raises` sets name the ids whose lookup throws.
- A loop that builds a list or a dictionary is a `method` with loop invariants. Its contract ties it to a specification function, and lemmas about that function state what the source promises.
- Stable sorting is shared in `Sorting`. It models the stable sorts of Python and JavaScript and the database's `order(desc=True)`.

## Model

| member | source | states |
|---|---|---|
| Storage.OfflineIdsDistinct | frontend/src/services/storage.js:17 | two queued records get the same "offline-<clock>" id exactly when queued at the same clock value |
| Storage.SaveAppendsOne | frontend/src/services/storage.js:12-23 | a save without failures appends one record at the end, keeps the earlier records in place, and the record carries the visit, `syncronizado` false, the time and the offline id |
| Storage.SaveAfterFailedReadDropsQueue | frontend/src/services/storage.js:14-38 | a swallowed read failure inside a save makes the save overwrite the queue with the single new record, losing every earlier one |
| Storage.SavesKeepOrder | frontend/src/services/storage.js:12-23 | consecutive saves queue one record per visit, in call order, after the existing records |
| Storage.StorageService.constructor | frontend/src/services/storage.js:79 | a fresh store has an empty queue and no user |
| Storage.StorageService.GetOfflineVisits | frontend/src/services/storage.js:31-39 | returns the stored list, or [] when the read fails; never throws, changes nothing |
| Storage.StorageService.SetOfflineVisits | frontend/src/services/storage.js:22-44 | a successful write replaces the queue; a failed one changes nothing; the user is untouched |
| Storage.StorageService.SaveVisitOffline | frontend/src/services/storage.js:12-28 | the new queue is QueueAfterSave of the old one; the outcome is the new record, or a re-thrown error when the write fails |
| Storage.StorageService.ClearSyncedVisits | frontend/src/services/storage.js:42-48 | writes [] whatever the records' flags; a failure is swallowed and changes nothing |
| Storage.StorageService.SaveUser | frontend/src/services/storage.js:51-57 | stores the user unless the write fails; the queue is untouched |
| Storage.StorageService.GetUser | frontend/src/services/storage.js:60-67 | the cached user, or None when the read fails |
| Storage.StorageService.Clear | frontend/src/services/storage.js:70-76 | removes queue and user, or changes nothing when it fails |
| Storage.SaveUserThenGetUser | frontend/src/services/storage.js:51-67 | saving a user and reading it back gives that user, whatever was stored before |
| Storage.ClearThenRead | frontend/src/services/storage.js:31-76 | after a successful clear the user reads as None and the queue as [] |
| Sync.ClearIsAllOrNothing | frontend/src/services/sync.js:43-46 | a sync leaves either the whole queue or nothing, and when it clears, every record the server rejected is gone as well |
| Sync.SyncService.constructor | frontend/src/services/sync.js:5-7 | a new engine is idle, has sent nothing and has no timers or listeners |
| Sync.SyncService.Begin | frontend/src/services/sync.js:15-26 | a call made while another is in flight settles at once; offline settles without setting the flag; otherwise the flag is set and the call waits on the read |
| Sync.SyncService.OnQueueRead | frontend/src/services/sync.js:29-39 | an empty (or unreadable) queue ends the call and resets the flag; otherwise the whole queue goes to the gateway as one batch |
| Sync.SyncService.OnGatewayReply | frontend/src/services/sync.js:39-53 | a thrown error resets the flag and is re-thrown; a reply with no successes ends the call; otherwise the call goes on to clear |
| Sync.SyncService.OnClearDone | frontend/src/services/sync.js:44-49 | empties the queue as it stands by then (unless the clear fails), resets the flag and returns the reply |
| Sync.SyncService.SyncPendingVisits | frontend/src/services/sync.js:15-55 | run uninterleaved, the outcome, the queue left behind and the batches sent are the ones OutcomeOf, QueueAfterSync and ReachesGateway describe; the flag ends as it began |
| Sync.SyncService.StartAutoSync | frontend/src/services/sync.js:58-69 | registers one more interval of minutes*60000 ms and one more 'online' listener, changing nothing else |
| Sync.FiveMinuteTimer | frontend/src/services/sync.js:58-62 | the default timer fires exactly at the positive multiples of 300000 ms |
| Sync.ReentrantCallIsIgnored | frontend/src/services/sync.js:16-19 | a call made while another awaits returns at once and touches neither the store nor the gateway |
| Sync.ConcurrentAppendIsLost | frontend/src/services/sync.js:29-44 | a visit queued while the batch is at the gateway is never sent and is deleted by the clear that follows |
| Sync.RejectedVisitIsLost | frontend/src/services/sync.js:43-44 | a rejected visit is deleted along with the batch once one other visit of it is accepted |
| Sync.StaleSaveResendsRecords | frontend/src/services/sync.js:29-44 | a save whose read preceded a sync writes the sent records back, so the next sync sends them again |
| Sync.GatewayErrorKeepsQueue | frontend/src/services/sync.js:50-53 | a gateway error keeps the queue, resets the flag and re-throws, so the next call resends the same batch |
| VisitForm.BuildVisitDataFields | frontend/src/components/VisitForm.jsx:103-112 | the posted record takes service and point from the QR validation, the guard from the user, the form's type and location and the submit time; an empty observation is sent as null |
| VisitForm.VisitForm.constructor | frontend/src/components/VisitForm.jsx:6-12 | the form starts not loading, without error, type normal, empty observation and no location, GPS state or point |
| VisitForm.VisitForm.SetTipo | frontend/src/components/VisitForm.jsx:8 | the type selector sets the type and nothing else |
| VisitForm.VisitForm.SetObservacion | frontend/src/components/VisitForm.jsx:9 | the text area sets the observation and nothing else |
| VisitForm.VisitForm.ValidateQRAndGetLocation | frontend/src/components/VisitForm.jsx:18-90 | an invalid or failed QR shows its message and leaves the GPS state alone; development mode takes the point's own coordinates as valid; a missing geolocation or a position error shows its message; otherwise the GPS verdict is kept and a rejection shows its message; a GPS request that throws leaves loading on |
| VisitForm.VisitForm.HandleSubmit | frontend/src/components/VisitForm.jsx:92-126 | without a passed GPS check only the alert happens; otherwise exactly one record is posted, and a failed post queues that same record offline, with the save's own error escaping the handler when its write fails |
| VisitForm.FailedPostQueuesSameRecord | frontend/src/components/VisitForm.jsx:114-122 | after a failed post the queue is the old queue plus the posted record, for this guard and this point |
| VisitForm.SubmitWithoutGpsSendsNothing | frontend/src/components/VisitForm.jsx:25-98 | after an invalid QR a submit posts nothing and queues nothing |
| VisitList.TipoColor | frontend/src/components/VisitList.jsx:45-52 | normal is green, observacion orange, incidencia red, and any other type the grey default |
| VisitList.AllVisitsOrder | frontend/src/components/VisitList.jsx:58 | the merged list is every server row in order, then every queued record in store order |
| VisitList.RenderShowsPending | frontend/src/components/VisitList.jsx:54-111 | past loading, the placeholder shows iff both lists are empty; the banner shows iff the queue is non-empty and counts it; every queued record is tagged OFFLINE (its flag is spelled `syncronizado`), and a server row iff it is not synchronised |
| VisitList.VisitList.constructor | frontend/src/components/VisitList.jsx:6-8 | the screen starts loading with both lists empty |
| VisitList.VisitList.LoadVisits | frontend/src/components/VisitList.jsx:14-32 | loading ends off; the server list is replaced only when the request succeeds; the queue is read either way |
| VisitList.OfflineGuardSeesQueue | frontend/src/components/VisitList.jsx:24-83 | with the server unreachable, a guard still sees every queued record tagged OFFLINE, under a banner that counts them |
| App.RouteFor | frontend/src/App.jsx:36-68 | both admin spellings go to the admin view, 'supervisor' to the supervisor view, and every other role to the scanner |
| App.PanelsFollowRole | frontend/src/App.jsx:286-405 | guard screens appear only for 'guardia'; the supervisor panel iff the view is supervisor and the role is 'supervisor' or 'admin' (not 'administrador'); the admin panel iff the view is admin and the role is either admin spelling; at most one panel shows |
| App.RoutedViewShowsPanel | frontend/src/App.jsx:337-405 | each of the four server roles lands on a view that shows exactly one panel; any other role sees an empty main area |
| App.App.constructor | frontend/src/App.jsx:12-17 | the shell starts loading on the login view with no user and no scan; the browser token and the API client's token both start as the stored token |
| App.App.Mount | frontend/src/App.jsx:20-23 | runs checkAuth and registers one auto-sync interval of 300000 ms plus one 'online' listener, without starting a sync |
| App.App.CheckAuth | frontend/src/App.jsx:25-49 | without a stored token nothing changes; a rejected token is removed from the browser and the view stays; otherwise the user is set, cached only if nothing was cached, and routed by role; loading ends off |
| App.App.HandleLogin | frontend/src/App.jsx:51-74 | on success the cached user is always overwritten, the token is stored in both places when present, and the view follows the role; on failure the message, or the default one when empty, is shown and nothing else changes |
| App.App.HandleLogout | frontend/src/App.jsx:76-82 | both tokens are forgotten, the whole store (queued visits included) is cleared unless the clear fails, and the shell returns to the login view without scan |
| App.App.HandleQRScan | frontend/src/App.jsx:84-88 | keeps the scanned payload and opens the form |
| App.App.HandleSimulateQR | frontend/src/App.jsx:90-95 | opens the form with the fixed simulated payload |
| App.App.HandleVisitSuccess | frontend/src/App.jsx:97-100 | drops the payload and returns to the scanner |
| App.App.HandleVisitCancel | frontend/src/App.jsx:102-105 | drops the payload and returns to the scanner |
| App.App.NavigateToScanner | frontend/src/App.jsx:299-302 | the scan button drops the payload and shows the scanner |
| App.App.NavigateToList | frontend/src/App.jsx:317 | the history button shows the list and keeps the payload |
| App.StartupKeepsCacheLoginReplacesIt | frontend/src/App.jsx:31-59 | startup keeps a user that is already cached, while login replaces it |
| App.RejectedTokenAtStartup | frontend/src/App.jsx:43-122 | a rejected stored token leaves the login screen, removes the browser's token, and leaves the API client holding the old one |
| App.MainPanels | frontend/src/App.jsx:337-405 | at most one panel; the admin panel exactly on the admin view for either admin spelling; the supervisor panel exactly on the supervisor view for 'supervisor' or 'admin'; the scanner panel exactly for a guard on the scanner view with no payload or an empty one; the form exactly for a guard on the form view with a non-empty payload, showing that payload; the list exactly for a guard on the list view |
| App.Render | frontend/src/App.jsx:107-405 | the loading screen exactly while loading; the login screen exactly when not loading on the login view; otherwise the main screen, with the guard navigation exactly for a 'guardia' user and the panels of MainPanels for the user's role |
| App.GuardFormScreen | frontend/src/App.jsx:349-405 | a guard on the form view sees the form for a non-empty payload and an empty main area for an empty one |
| App.GuardScannerScreen | frontend/src/App.jsx:349-405 | a guard on the scanner view without a payload sees the scanner alone |
| App.ScanThenFinish | frontend/src/App.jsx:84-105 | a guard who scans sees the form for that payload (an empty payload is falsy and shows nothing), and after finishing or cancelling sees the scanner again |
| Visits.ValidateGps | backend/app/routers/visits.py:30-49 | a device is valid exactly when its distance to the point is at most the 50 m radius |
| Visits.CreateVisit | backend/app/routers/visits.py:51-155 | each check in the source's order, given that the earlier ones pass: a guard or supervisor outside the visit's service gets 403; a point missing from that service 404; an inactive (false or null) point 400 'El punto QR está inactivo'; a device beyond the radius 400 'Ubicación inválida'; a guard not found in the service with role guardia 404; an empty insert reply 500 'Error al guardar la visita' and a raising insert 500; success iff access, point found and active, within the radius, the guard found in the service with role guardia, and the insert returns a row, which is the visit with `sincronizado` true |
| Visits.CreatedRowIsSynchronised | backend/app/routers/visits.py:119-130 | a stored visit keeps the visit's service, point, guard and observation, is marked synchronised, and is dated now only when it carries no time |
| Visits.CreateAgreesWithValidateGps | backend/app/routers/visits.py:42-106 | past the access and point checks, create_visit rejects the location exactly when validate_gps would call the same distance invalid |
| Visits.AdminSkipsAccessCheck | backend/app/routers/visits.py:67-73 | an administrator never gets the service-access 403 |
| Visits.GetVisitsFilters | backend/app/routers/visits.py:157-185 | every listed row is a stored row the caller may see (own visits for a guard, the service for a supervisor, the chosen service for an administrator), and at most 100 are listed |
| Visits.GetVisitsNewestFirst | backend/app/routers/visits.py:182-183 | the listed rows come newest first |
| Visits.GetVisitsKeepsNewest | backend/app/routers/visits.py:157-185 | the reply has as many rows as are visible, up to 100, all taken from the visible rows, and no visible row left out is newer than a listed one |
| Visits.GetVisitsKeepsAllWhenFew | backend/app/routers/visits.py:183 | with at most 100 visible rows, every one of them is listed |
| Visits.SyncOfflineVisits | backend/app/routers/visits.py:205-262 | the loop's success list, failure list and inserts are exactly SyncAll's, visit by visit in batch order |
| Visits.SyncPartitions | backend/app/routers/visits.py:221-260 | every visit of the batch lands in exactly one of success and failed |
| Visits.SyncChecksOnlyAccess | backend/app/routers/visits.py:223-246 | a visit outside the user's service is reported with the access message and never inserted; every other visit is inserted, without the point, GPS or guard checks of create_visit |
| Visits.SyncSuccessAreDatabaseIds | backend/app/routers/visits.py:248-249 | every id in success is the database id of a row inserted for a visit of the batch |
| Visits.ParseBatch | backend/app/routers/visits.py:207 | the server reads each queued record as the visit it carries, in order, dropping the client's id, flag and timestamp |
| Qr.ParseQr | backend/app/routers/qr.py:24-36 | a payload parses iff it splits on ':' into exactly four parts with "servicio" and "punto" in places 0 and 2 and integers in places 1 and 3, and the ids are those integers |
| Qr.ParseEncodeRoundTrip | backend/app/routers/qr.py:15-31 | the payload `servicio:<id>:punto:<id>` written for any two ids parses back to the same ids |
| Qr.TextWithoutColonIsRejected | backend/app/routers/qr.py:26-27 | a text without ':' is never a well-formed payload |
| Qr.ValidateQr | backend/app/routers/qr.py:8-84 | a malformed payload, a missing point and an inactive point (flag false or null) each get their own message, in that order; the reply is valid iff the point exists and is active and a guard or supervisor belongs to the parsed service; a valid reply carries the parsed ids and the point's name and coordinates |
| Qr.ForeignPointIsAccepted | backend/app/routers/qr.py:39-72 | the point is looked up by id alone, so a guard scanning a payload that names their own service and a point of another service gets a valid reply |
| Qr.GeneratedCodeIsRejected | backend/app/routers/qr_generator.py:61 | the "ACRUX-" code that the QR images encode gets the format message from validate_qr |
| Qr.NonNumericServiceIsRejected | backend/app/routers/qr.py:30 | a service id that does not start with a digit or a sign fails int() and so the whole parse |
| Qr.SimulatedQrIsRejected | frontend/src/App.jsx:91 | the development-mode payload carries uuids where the ids go, so validate_qr answers with the format message |
| Text.Split | backend/app/routers/qr.py:26 | splitting on a character gives at least one part and no part holds the separator |
| Text.ParseInt | backend/app/routers/qr.py:30-31 | a text converts to an integer iff it is an optional sign followed by one or more digits |
| Text.IntToStringRoundTrip | backend/app/routers/qr.py:30-31 | the decimal text of any integer converts back to that integer |
| Alertas.TargetServicio | backend/app/routers/alertas.py:31-45 | a supervisor sees their own service (400 without one), an administrator the requested service or every service, and any other role gets 403 |
| Alertas.LastVisitMapIsMaximum | backend/app/routers/alertas.py:63-70 | the map has a key exactly for each visited point, and its value is the latest time among that point's visits |
| Alertas.BuildLastVisitMap | backend/app/routers/alertas.py:64-70 | the loop builds exactly LastVisitMap of the visits |
| Alertas.MinutesBetween | backend/app/routers/alertas.py:93 | the minutes are the elapsed time truncated toward zero, as Python's int() truncates |
| Alertas.Classify | backend/app/routers/alertas.py:95-102 | a point alerts iff more than 70 minutes passed: 'alta' above 180, 'media' above 120 up to 180, 'baja' above 70 up to 120 |
| Alertas.PointAlertsRule | backend/app/routers/alertas.py:77-111 | a never-visited point gives one 'alta' alert without times; a visited one gives one alert iff its minutes exceed 70, carrying its last visit, minutes and priority |
| Alertas.AlertsComeFromPoints | backend/app/routers/alertas.py:77-111 | every alert names one of the selected points, and there are at most as many alerts as points |
| Alertas.ComputeAlertas | backend/app/routers/alertas.py:19-117 | the map loop, the alert loop and the sort together give exactly GetAlertas |
| Alertas.GetAlertasShape | backend/app/routers/alertas.py:48-115 | only active points of the target service alert, and because the sort is reversed the reply lists 'baja' before 'media' before 'alta' |
| Alertas.CountAlertas | backend/app/routers/alertas.py:119-134 | the total is the number of alerts |
| Alertas.CountsAddUp | backend/app/routers/alertas.py:129-134 | the alta, media and baja counts add up to the total |
| Reportes.VerificarAdmin | backend/app/routers/reportes.py:33-39 | admin, administrador and supervisor pass; every other role gets 403 with the reports message |
| Reportes.EndDayIncluded | backend/app/routers/reportes.py:65-70 | the end date includes its whole day and nothing after it |
| Reportes.EnrichOne | backend/app/routers/reportes.py:85-110 | a visit is enriched exactly when neither of its truthy ids (user, then point) misses the cache after its lookup; a failure is a 500, and a success carries the visit itself |
| Reportes.EnrichAll | backend/app/routers/reportes.py:85-110 | a successful enrichment keeps every visit, in order, one entry each |
| Reportes.EnrichAllOkIff | backend/app/routers/reportes.py:85-129 | the enrichment of all visits succeeds exactly when every visit's does, and otherwise fails with a 500 |
| Reportes.EnrichVisits | backend/app/routers/reportes.py:81-110 | the loop with its two caches gives exactly EnrichAll: the caches only ever hold what the lookup gives, and an id left out of a cache fails the request |
| Reportes.CachedUser | backend/app/routers/reportes.py:87-97 | the user cache is looked up first and filled on a miss; what it returns is what the lookup gives for the id, and every cached entry stays what the lookup gives |
| Reportes.CachedPoint | backend/app/routers/reportes.py:100-110 | the same for the point cache: the answer is the lookup's, and every cached entry stays the lookup's |
| Reportes.EnrichStep | backend/app/routers/reportes.py:85-110 | one turn of the loop enriches the visit exactly as EnrichOne says, whatever the caches held, and leaves both caches faithful to the lookups |
| Reportes.ReportIgnoresServicioId | backend/app/routers/reportes.py:47-74 | the visit report's servicio_id parameter is accepted and never applied |
| Reportes.ReportRowsFacts | backend/app/routers/reportes.py:59-78 | the queried rows are a permutation of the stored visits that pass the date, user and point filters, holding exactly those visits, newest first |
| Reportes.ReportContents | backend/app/routers/reportes.py:62-124 | the i-th listed visit is the i-th queried row, the rows being a permutation of the filtered stored visits; every listed visit passes the filters and every stored visit that passes them is listed; newest first; the total is their number and the two other statistics are the numbers of distinct non-null user and point ids |
| Reportes.MissingUserFailsReport | backend/app/routers/reportes.py:87-129 | for an allowed caller with a readable end date, any filtered visit with a truthy user id that has no user row (and whose query does not raise) makes the cache read raise, and the whole report fails with 500 |
| Reportes.CountVisits | backend/app/routers/reportes.py:162-166 | the counting loop over the dict gives the tally: one entry per distinct truthy point id, in first-seen order, with its count |
| Reportes.CountOne | backend/app/routers/reportes.py:164-166 | one more visit adds its point to the keys if new and raises its count by one, keeping the dict in step with the visits seen |
| Reportes.TallyCounts | backend/app/routers/reportes.py:162-166 | the tally lists each visited truthy point once, with its exact number of visits |
| Reportes.RankingTiesKeepFirstSeenOrder | backend/app/routers/reportes.py:169 | Python's stable sort keeps points with equal counts in first-seen order |
| Reportes.RankRows | backend/app/routers/reportes.py:172-185 | the rows are exactly the entries whose point query neither throws nor comes back empty, in entry order, each with that point's name and code and the entry's count |
| Reportes.RankRowsSorted | backend/app/routers/reportes.py:169-185 | skipping entries keeps the rows ordered by visits |
| Reportes.RankingShape | backend/app/routers/reportes.py:132-193 | a limit in 1..100 is required; at most limit rows, total_puntos their number, most visited first, each with the exact visit count of an existing point; a point with more visits in the period than a listed one was not cut off by the limit |
| Reportes.ReporteAlertas | backend/app/routers/reportes.py:196-254 | succeeds exactly for an `admin`, `administrador` or `supervisor` caller with a readable end date; the listed alerts are exactly the stored alerts that pass the date, type and read filters, newest first, and the total is the number listed |
| Reportes.WithUserNames | backend/app/routers/reportes.py:223-230 | every alert stays in place, paired with the name found for its user |
| Reportes.AlertReportRows | backend/app/routers/reportes.py:213-230 | the query returns the stored alerts that pass the date, type and read filters, each as often as it is stored and no other, newest first |
| Reportes.ListingFacts | backend/app/routers/reportes.py:213-247 | the enriched listing holds exactly the stored alerts that pass the filters, newest first |
| Reportes.ReadPlusPendingIsTotal | backend/app/routers/reportes.py:243-245 | read and pending alerts add up to the total |
| PuntoRules.CodeOfShape | backend/app/routers/puntos_qr_adapted.py:158 | a code made from a random hexadecimal token is "ACRUX-" followed by 12 upper-case hexadecimal digits |
| PuntoRules.FirstUnused | backend/app/routers/puntos_qr_adapted.py:160-164 | the loop stops at the first candidate that is not taken, and every earlier one was taken |
| PuntoRules.CandidateCodes | backend/app/routers/puntos_qr_adapted.py:158-163 | one candidate code per draw, in draw order |
| PuntoRules.GenerateCode | backend/app/routers/puntos_qr_adapted.py:157-164 | the code settled on is the first draw's code not yet stored, and it has the "ACRUX-" shape |
| PuntoRules.InsertKeepsCodesUnique | backend/app/routers/puntos_qr_adapted.py:157-180 | inserting a row whose code the loop found unused keeps every stored code unique |
| PuntoRules.ApplyPatch | backend/app/routers/puntos_qr_adapted.py:247 | the fields present in the update dictionary replace the row's; every other field, and always the id, code and creation time, keep their values |
| PuntoRules.UpdateRows | backend/app/routers/puntos_qr_adapted.py:247 | the update changes exactly the rows with that id, and the table keeps its length and order |
| PuntoRules.RemoveRows | backend/app/routers/puntos_qr_adapted.py:277 | the delete keeps exactly the rows with another id |
| PuntoRules.ServicioNombre | backend/app/routers/puntos_qr_adapted.py:88-95 | a listed point gets its service's name iff its service id is truthy, the lookup does not raise and the service exists |
| PuntoRules.ObtenerPunto | backend/app/routers/puntos_qr_adapted.py:106-120 | the row with this id if there is one, otherwise 404 "Punto QR no encontrado" |
| PuntosQrAdapted.CreateError | backend/app/routers/puntos_qr_adapted.py:130-155 | a create is refused iff a check fails, with the first failing one's status and message: not an administrator 403, missing service 404, latitude, longitude, radius out of range 400 |
| PuntosQrAdapted.CrearPunto | backend/app/routers/puntos_qr_adapted.py:123-181 | it fails iff a check fails, with that error; otherwise the stored row carries the request's fields, a fresh "ACRUX-" code (the first draw not yet stored), one clock reading for both timestamps, and is within range |
| PuntosQrAdapted.UpdateError | backend/app/routers/puntos_qr_adapted.py:200-240 | an update is refused iff a supplied value fails its check, in field order: latitude, longitude (400), a truthy service that does not exist (404), a truthy radius out of range (400) |
| PuntosQrAdapted.ActualizarPunto | backend/app/routers/puntos_qr_adapted.py:184-248 | the field-by-field dictionary build with early returns gives exactly UpdateResult |
| PuntosQrAdapted.UpdateAcceptedIff | backend/app/routers/puntos_qr_adapted.py:184-248 | an update is accepted iff the caller is an administrator, the point exists and every supplied value passes its check |
| PuntosQrAdapted.UpdateTouchesOnlySupplied | backend/app/routers/puntos_qr_adapted.py:200-247 | an accepted update changes only what was supplied: name, service and radius when truthy (so a radius of 0 is ignored), description, coordinates and flag when present, always updated_at; id, code and creation time stay |
| PuntosQrAdapted.UpdateKeepsRanges | backend/app/routers/puntos_qr_adapted.py:208-240 | an accepted update keeps an in-range row in range and moves a point only to a service that exists |
| PuntosQrAdapted.EliminarPunto | backend/app/routers/puntos_qr_adapted.py:251-285 | 403, then 404, then 400 for a permanent delete of a point with a reported positive visit count; otherwise a permanent delete removes exactly the rows with that id, and a soft one clears the flag and stamps updated_at on those rows only |
| PuntosQrAdapted.ListarPuntos | backend/app/routers/puntos_qr_adapted.py:66-103 | the listing holds exactly the rows that pass the flag and service filters, each with its codigo_qr alias equal to its `qr_code` (null when that column is null) and its service's name |
| PuntosQrAdapted.EstadisticasPuntos | backend/app/routers/puntos_qr_adapted.py:287-299 | a missing count reads as 0, and active plus inactive is the total |
| PuntosQrAdapted.StatsFromTable | backend/app/routers/puntos_qr_adapted.py:292-298 | with counts from the table, inactivos counts the rows whose flag is not true (false or null) and is never negative |
| PuntosQrAdapted.ObtenerPuntoPorQr | backend/app/routers/puntos_qr_adapted.py:301-316 | only an active point is found by its code; otherwise 404 "Código QR no encontrado o inactivo" |
| PuntosCrud.CreateError | backend/app/routers/puntos_crud.py:122-141 | a create is refused iff a check fails, first failure winning: not an administrator 403, missing service 404, latitude or longitude out of range 400; no radius is checked |
| PuntosCrud.CrearPunto | backend/app/routers/puntos_crud.py:115-163 | it fails iff a check fails, with that error; otherwise the row carries the request's fields and the first "ACRUX-" code cut from a uuid4 that is not yet stored, with no radius and no update time |
| PuntosCrud.ActualizarPunto | backend/app/routers/puntos_crud.py:165-220 | the field-by-field dictionary build with early returns gives exactly UpdateResult |
| PuntosCrud.UpdateChangesOnlySupplied | backend/app/routers/puntos_crud.py:174-218 | an update is accepted iff the caller is an administrator, the point exists and every supplied value passes; it then changes only the supplied fields (name and service when truthy) and leaves the radius and updated_at as they were |
| PuntosCrud.DeleteError | backend/app/routers/puntos_crud.py:222-245 | 403, then 404; a reply without a visit count fails the comparison with 500 on either kind of delete; a permanent delete of a point with visits gets 400 |
| PuntosCrud.EliminarPunto | backend/app/routers/puntos_crud.py:222-254 | it fails iff DeleteError does; a permanent delete happens only with a count of at most 0 and removes exactly the rows with that id; a soft one clears only the flag on those rows |
| PuntosCrud.ListarPuntos | backend/app/routers/puntos_crud.py:61-96 | the listing is the filtered rows in query order, each with its service's name |
| PuntosCrud.ZeroServicioIsNoFilter | backend/app/routers/puntos_crud.py:73-74 | a service id of 0 is falsy, so it narrows nothing |
| Puntos.ToResponse | backend/app/routers/puntos.py:10-61 | a row renders iff it has a code and a flag, and the reply carries the row's own fields |
| Puntos.ToResponses | backend/app/routers/puntos.py:50-63 | the listing renders iff every row does, one entry per row in order |
| Puntos.GetPuntos | backend/app/routers/puntos.py:20-63 | a guard or supervisor without a service gets 400; otherwise the reply succeeds exactly when every active row of the scope has a code (500 otherwise) and is the active rows of the scope in table order, each rendered |
| Puntos.SelectedRender | backend/app/routers/puntos.py:50-61 | the selected rows all render exactly when each of them has a code |
| Puntos.FieldRoleSeesOwnService | backend/app/routers/puntos.py:35-41 | a guard or supervisor gets the same answer whatever servicio_id they send, and sees only their own service's points |
| Puntos.AdminScope | backend/app/routers/puntos.py:42-48 | an administrator's listing succeeds iff every selected row has a code, and is the active points of the truthy servicio_id, or every active point without one, in table order and each rendered |
| Puntos.GetPunto | backend/app/routers/puntos.py:65-102 | 404 for a missing point, 403 for a guard or supervisor of another service; success iff neither applies and the row renders, returning exactly that row's rendering |
| Puntos.InactivePointIsFetched | backend/app/routers/puntos.py:75-102 | unlike the listing, the fetch by id returns an inactive point to a guard of its service |
| Usuarios.RequireUsersAdmin | backend/app/routers/usuarios.py:41-47 | only the two administrator spellings pass; everyone else gets 403 with this router's wording |
| Usuarios.ListarUsuarios | backend/app/routers/usuarios.py:50-66 | administrators only; the listing holds exactly the users passing the flag and role filters, newest first |
| Usuarios.ObtenerUsuario | backend/app/routers/usuarios.py:69-83 | 403 for a non-administrator; otherwise the user with this id, or 404 |
| Usuarios.CreateError | backend/app/routers/usuarios.py:86-115 | a create is refused iff a check fails, first failure winning: not an administrator 403, address already registered, role not one of the four, service missing (each 400) |
| Usuarios.CrearUsuario | backend/app/routers/usuarios.py:86-131 | it fails iff a check fails, with that error; otherwise the new row carries the request's fields, a valid role, the required service and only the password's hash |
| Usuarios.CreateKeepsEmailsUnique | backend/app/routers/usuarios.py:94-99 | inserting an accepted user keeps every address unique |
| Usuarios.ActualizarUsuario | backend/app/routers/usuarios.py:134-192 | the field-by-field dictionary build with early returns gives exactly UpdateResult |
| Usuarios.UpdateChangesOnlySupplied | backend/app/routers/usuarios.py:143-191 | an update is accepted iff the caller is an administrator, the user exists, a new address is not another user's, a supplied service exists and a new role is valid; it changes only the supplied fields, and the password hash only for a non-empty password |
| Usuarios.UpdateRows | backend/app/routers/usuarios.py:191 | the update changes exactly the rows with that id, keeping the table's length and order |
| Usuarios.UpdateKeepsEmailsUnique | backend/app/routers/usuarios.py:153-191 | writing an accepted update back keeps every address unique |
| Usuarios.EliminarUsuario | backend/app/routers/usuarios.py:194-220 | 403, then 400 for deleting oneself (before the lookup), then 404; otherwise only that user's flag is cleared |
| Usuarios.ListarGuardias | backend/app/routers/usuarios.py:222-249 | a supervisor without a service gets 400; otherwise the listing is exactly the active guards of the scope: the supervisor's service, an administrator's truthy servicio_id, or every service |
| Usuarios.SupervisorSeesOwnGuards | backend/app/routers/usuarios.py:238-244 | a supervisor gets the same listing whatever servicio_id they send, and only active guards of their own service |
| Usuarios.Dispatch | backend/app/routers/usuarios.py:50-222 | a path is dispatched exactly when some route's pattern matches it (a fixed segment equal to it, or the id parameter for a non-empty segment), and then to the first such route: its handler for a fixed segment, the fetch of the converted id or the 422 for the parameter |
| Usuarios.GuardiasRouteIsShadowed | backend/app/routers/usuarios.py:69-83 | with the routes in declaration order, "/guardias" is taken by the "/{usuario_id}" route and fails as a non-integer id; no path reaches the guard listing |
| Usuarios.OrderedRoutesReachGuardias | backend/app/routers/usuarios.py:222-249 | declaring the guard listing before "/{usuario_id}" makes "/guardias" reach it and leaves every other path dispatched as before |
| Servicios.ListarServicios | backend/app/routers/servicios.py:60-73 | the listing holds exactly the services whose flag matches the one given, or every service without a flag |
| Servicios.ObtenerServicio | backend/app/routers/servicios.py:76-90 | the service with this id, or 404 exactly when there is none |
| Servicios.CreateError | backend/app/routers/servicios.py:93-140 | a create is refused iff a check fails, first failure winning: not an administrator 403, a time that does not parse, a day outside 0..6, no day, an interval under 5, a name already used (each 400) |
| Servicios.CrearServicio | backend/app/routers/servicios.py:93-154 | it fails iff a check fails, with that error; otherwise the new row keeps the schedule rules, has an unused name and carries the request's fields and the creation time |
| Servicios.NightServiceAccepted | backend/app/routers/servicios.py:100-112 | the two times are never compared: swapping start and end does not change the outcome of the checks |
| Servicios.RepeatedDaysAccepted | backend/app/routers/servicios.py:114-125 | a day list with a repeated day is accepted |
| Servicios.CreateKeepsNamesUnique | backend/app/routers/servicios.py:134-154 | inserting an accepted service keeps every name unique |
| Servicios.ActualizarServicio | backend/app/routers/servicios.py:157-237 | the field-by-field dictionary build with early returns gives exactly UpdateResult |
| Servicios.UpdateChangesOnlySupplied | backend/app/routers/servicios.py:165-236 | an update is accepted iff the caller is an administrator, the service exists and every supplied value passes its check; it changes exactly the supplied fields (an interval of 0 is ignored) and always sets the modification time |
| Servicios.UpdateKeepsSchedule | backend/app/routers/servicios.py:210-229 | an accepted update of a service within the schedule rules leaves it within them |
| Servicios.UpdateRows | backend/app/routers/servicios.py:236 | the update changes exactly the rows with that id, keeping the table's length and order |
| Servicios.UpdateKeepsNamesUnique | backend/app/routers/servicios.py:175-236 | writing an accepted rename back keeps every name unique, since only the renamed service itself is exempt from the name check |
| Servicios.DeleteWithCount | backend/app/routers/servicios.py:240-274 | given the count of associated points: 403, 404, 400 for a permanent delete while points remain; a permanent delete removes exactly that service, a soft one clears only its flag and stamps the time |
| Servicios.EliminarServicioAsWritten | backend/app/routers/servicios.py:240-274 | with the points looked up in the table `puntos_control`: succeeds exactly for an administrator, an existing service and no permanent delete while a row of that table belongs to the service; that case is the 400 with the count; a permanent delete removes exactly the service's rows (so on success no row of `puntos_control` refers to it), a soft one sets `activo` false and the modification time on that row only |
| Servicios.EliminarServicio | backend/app/routers/servicios.py:240-274 | the same delete with the points looked up in the checkpoint table `puntos_qr`: on a successful permanent delete no checkpoint refers to the service; the 400 exactly when one does |
| Servicios.PointsOfPositive | backend/app/routers/servicios.py:256-266 | the count of a service's points is positive exactly when some point belongs to it |
| Servicios.AsWrittenDeletesServiceWithPoints | backend/app/routers/servicios.py:256-262 | as written, a service that still has a checkpoint is deleted permanently, leaving that checkpoint's service missing; the corrected deletion refuses the same request with the 400 naming one associated point |
| Servicios.EstadisticasServicios | backend/app/routers/servicios.py:277-288 | administrators and supervisors only (403 otherwise); total is the table size, activos the active rows, inactivos the rest, and the two add up to the total |
| Records.RequireAdmin | backend/app/routers/servicios.py:51-57 | only the two administrator spellings pass; every other role gets 403 |
| AdminApi.Cleaned | frontend/src/services/adminAPI.js:15-23 | the cleaned parameters are exactly the entries whose value is not null, undefined or the empty string |
| AdminApi.CleanParams | frontend/src/services/adminAPI.js:15-23 | the key-by-key loop returns exactly Cleaned: the kept entries in their original order |
| AdminApi.CleanedIdempotent | frontend/src/services/adminAPI.js:15-23 | cleaning an already cleaned object changes nothing |
| AdminApi.CleanedKeys | frontend/src/services/adminAPI.js:15-23 | the cleaned keys are exactly the input keys holding a kept value, so no key is invented |
| AdminApi.QueryStringEmptyIff | frontend/src/services/adminAPI.js:29-30 | the query string is empty exactly when there are no entries left |
| AdminApi.ListUrl | frontend/src/services/adminAPI.js:27-30 | the URL is the base and path of the listing, followed by '?' and the query string exactly when some parameter survives cleaning |
| AdminApi.AuthHeaders | frontend/src/services/adminAPI.js:4-13 | always the JSON content type first; an Authorization header, "Bearer " and the token, exactly when the stored token is non-empty |
| AdminApi.EstadisticasUsuarios | frontend/src/services/adminAPI.js:79-88 | total is the list length, the other counters are the active users and the users of each role (both administrator spellings together), and the role counts add up to at most the total |
| AdminApi.EstadisticasServicios | frontend/src/services/adminAPI.js:145-152 | total is the list length, activos the active services, and activos and inactivos add up to the total |
| AdminApi.EstadisticasPuntos | frontend/src/services/adminAPI.js:209-216 | total is the list length; a point counts as active only when its flag is true, so a point without a flag counts as inactive; the two add up to the total |
| ServiciosAdmin.SortDays | frontend/src/components/admin/ServiciosAdmin.jsx:132 | the sorted day list is ascending and a permutation of the input |
| ServiciosAdmin.ToggleDia | frontend/src/components/admin/ServiciosAdmin.jsx:129-135 | the picked day is in the result iff it was not in the list, every other day keeps its membership; a present day is removed with all its copies, an absent one is added to a sorted permutation of the list |
| ServiciosAdmin.ToggleTwiceRestores | frontend/src/components/admin/ServiciosAdmin.jsx:129-135 | picking the same day twice gives back a sorted list without repeats unchanged |
| ServiciosAdmin.DayNames | frontend/src/components/admin/ServiciosAdmin.jsx:20-28 | the names exist iff every day is 0..6, and then each day's name is its table entry, in list order |
| ServiciosAdmin.DiasTexto | frontend/src/components/admin/ServiciosAdmin.jsx:137-141 | seven days give "Todos los días", none "Ningún día"; otherwise the day names joined by ", ", starting with the first day's name, and no text when a day has no name |
| ServiciosAdmin.ResetForm | frontend/src/components/admin/ServiciosAdmin.jsx:115-127 | the form returns to Monday to Friday, 08:00 to 20:00, every 60 minutes, active; nothing is being edited, the form is hidden and the list is kept |
| ServiciosAdmin.HandleSubmit | frontend/src/components/admin/ServiciosAdmin.jsx:47-62 | an empty day list gives the alert and no request; otherwise an update of the edited service or a create, carrying exactly the form fields the client's cleaning keeps |
| ServiciosAdmin.EmptyTextFieldsNotSent | frontend/src/components/admin/ServiciosAdmin.jsx:10-62 | an empty description or name is not sent, while the day list always is |
| GeneradorQr.PresentNames | frontend/src/components/admin/GeneradorQR.jsx:25 | the names kept are exactly the non-empty service names of the points |
| GeneradorQr.ServiceNames | frontend/src/components/admin/GeneradorQR.jsx:24-26 | the filter options hold every non-empty service name of the points, each once, and nothing else |
| GeneradorQr.TogglePunto | frontend/src/components/admin/GeneradorQR.jsx:67-73 | the id is selected afterwards iff it was not before, every other id keeps its state; an unselected id is appended at the end, a selected one removed |
| GeneradorQr.ToggleKeepsNoDuplicates | frontend/src/components/admin/GeneradorQR.jsx:67-73 | toggling keeps a selection free of repeated ids |
| GeneradorQr.ToggleTwiceFromUnselected | frontend/src/components/admin/GeneradorQR.jsx:67-73 | selecting an unselected id and toggling it again gives the selection back |
| GeneradorQr.SeleccionarTodos | frontend/src/components/admin/GeneradorQR.jsx:75-80 | the selection becomes the ids of the points the service filter shows, in list order, replacing the old one |
| GeneradorQr.SelectAllWithoutFilter | frontend/src/components/admin/GeneradorQR.jsx:76-79 | with an empty filter every point's id is selected |
| GeneradorQr.GenerarPdf | frontend/src/components/admin/GeneradorQR.jsx:112-130 | an empty selection alerts and sends nothing; otherwise the whole selection is posted in order |
| GeneradorQr.PdfAfterSelection | frontend/src/components/admin/GeneradorQR.jsx:75-116 | after deselecting all the button only alerts; after selecting all it posts iff the filter shows some point |
| AlertasView.ElapsedOf | frontend/src/components/supervisor/Alertas.jsx:44-49 | no visit gives "never"; under an hour the minutes themselves, under a day the whole hours (1 to 23, rounded down), otherwise the whole days (rounded down) |
| AlertasView.FormatTiempo | frontend/src/components/supervisor/Alertas.jsx:44-49 | no visit reads "Nunca visitado"; any other value is the text of the unit ElapsedOf picks |
| AlertasView.PrioridadColor | frontend/src/components/supervisor/Alertas.jsx:26-33 | each of the three priorities has its own colour triple, and exactly the other names get the grey default |
| AlertasView.PrioridadIcon | frontend/src/components/supervisor/Alertas.jsx:35-42 | 'alta' gets the siren, 'media' the warning sign, 'baja' the information sign, and every other priority the default circle |
| AlertasView.PrioridadIconsDiffer | frontend/src/components/supervisor/Alertas.jsx:35-42 | the three priorities get three different icons |
| AlertasView.CountersOf | frontend/src/components/supervisor/Alertas.jsx:94-134 | the total is the number of alerts, each counter counts its priority, and the three add up to the total |
| AlertasView.CountersMatchServer | frontend/src/components/supervisor/Alertas.jsx:94-134 | the panel's four counters equal the server's alert count over the same alerts |
| AlertasView.LoadAlertas | frontend/src/components/supervisor/Alertas.jsx:15-24 | the spinner always stops; a reply replaces the list, a failed request keeps the previous one |
| GuardiasList.BuildGroups | frontend/src/components/supervisor/GuardiasList.jsx:9-19 | the loop over the visits with its Map of positions builds exactly Groups |
| GuardiasList.PushVisit | frontend/src/components/supervisor/GuardiasList.jsx:11-19 | one turn of the forEach adds the visit exactly as AddVisit says and keeps the Map pointing at each guard's only entry |
| GuardiasList.GroupsAreFirstSeen | frontend/src/components/supervisor/GuardiasList.jsx:9-22 | there is one group per distinct guard, in the order the guards first appear among the visits |
| GuardiasList.GroupsHoldGuardVisits | frontend/src/components/supervisor/GuardiasList.jsx:11-19 | each guard's group holds exactly that guard's visits, in arrival order |
| GuardiasList.GroupsPartition | frontend/src/components/supervisor/GuardiasList.jsx:11-19 | no group is empty and the group sizes add up to the number of visits |
| GuardiasList.Summarize | frontend/src/components/supervisor/GuardiasList.jsx:22-52 | a guard's entry counts all its visits and those of today; its last visit is its newest one and gives the last point; it is active iff that visit is under 120 minutes old |
| GuardiasList.GuardiasData | frontend/src/components/supervisor/GuardiasList.jsx:22-41 | one summary per group, in group order, each over a non-empty group |
| GuardiasList.GuardiasDataShape | frontend/src/components/supervisor/GuardiasList.jsx:9-41 | the list has one entry per distinct guard, first-seen first, and the per-guard totals add up to the number of visits |
| GuardiasList.UpdateGuardias | frontend/src/components/supervisor/GuardiasList.jsx:6-45 | a missing or empty visit list leaves the previous list; otherwise it is replaced by GuardiasData |
| RecentVisits.Newest | frontend/src/components/supervisor/RecentVisits.jsx:20-23 | at most ten visits, newest first, taken from the list, and no visit left out is newer than one shown |
| RecentVisits.ShortListShownWhole | frontend/src/components/supervisor/RecentVisits.jsx:21-23 | a list of ten visits or fewer is shown whole |
| RecentVisits.TipoIcon | frontend/src/components/supervisor/RecentVisits.jsx:34-41 | a check mark exactly for "normal", the warning sign exactly for observations and incidents, the circle for any other type |
| RecentVisits.AgoOf | frontend/src/components/supervisor/RecentVisits.jsx:43-57 | under a minute reads "now", under an hour the whole minutes (1 to 59), under a day the whole hours (1 to 23), otherwise the date itself |
| RecentVisits.FutureVisitIsNow | frontend/src/components/supervisor/RecentVisits.jsx:46-48 | a visit stamped after the current time reads "Ahora mismo" |
| RecentVisits.RecentVisitsView | frontend/src/components/supervisor/RecentVisits.jsx:64-133 | the placeholder exactly for an absent or empty list; otherwise one card per shown visit with its type's colour and icon, its relative time, and the pending badge exactly when the visit is not marked synchronised |
| MapView.GetLastVisit | frontend/src/components/supervisor/MapView.jsx:33-40 | no visit exactly when there is no list or no visit of the point; otherwise one of the point's visits, none of the point's visits being newer |
| MapView.NewestOwnVisit | frontend/src/components/supervisor/MapView.jsx:35-39 | the head of the point's visits sorted newest first is a visit of that point, and none of its visits is newer |
| MapView.OtherPointsIrrelevant | frontend/src/components/supervisor/MapView.jsx:35 | a visit of another point does not change a point's last visit |
| MapView.UpdateCenter | frontend/src/components/supervisor/MapView.jsx:15-21 | a non-empty point list moves the centre to its first point; an absent or empty one leaves the centre unchanged |
| MapView.PointCircle | frontend/src/components/supervisor/MapView.jsx:62-106 | a 50 m circle at the point, green iff the point has a last visit and red iff it has none |
| Dashboard.ComputeStats | frontend/src/components/supervisor/Dashboard.jsx:19-34 | the total is the number of visits, the day count those falling on the load day (at most the total), the incident and observation counts their types (together at most the total), stamped with the load time |
| Dashboard.LoadStats | frontend/src/components/supervisor/Dashboard.jsx:15-41 | the spinner always stops; a reply gives the stats it computes, a failed request keeps the previous stats |
| Dashboard.RenderAsWritten | frontend/src/components/supervisor/Dashboard.jsx:43-58 | the spinner exactly while loading, the panel when stats exist, and a thrown TypeError exactly when loading is over with no stats |
| Dashboard.FailedFirstLoadThrows | frontend/src/components/supervisor/Dashboard.jsx:5-57 | a first load that fails leaves the stats null with the spinner off, and the render as written throws |
| Dashboard.Render | frontend/src/components/supervisor/Dashboard.jsx:43-58 | with the missing guard added the render never throws: spinner while loading, the panel when stats exist, an empty panel otherwise |
| Dashboard.RenderAgreesWhenDefined | frontend/src/components/supervisor/Dashboard.jsx:43-58 | the guarded render agrees with the one as written wherever that one does not throw |
| Dashboard.LoadsRenderSafely | frontend/src/components/supervisor/Dashboard.jsx:8-41 | after any sequence of loads from the initial state the guarded render does not throw, and once some load has succeeded stats are present |
| Dashboard.LatestLoadShown | frontend/src/components/supervisor/Dashboard.jsx:8-41 | after a sequence of loads the stats are the counters of the latest load that succeeded, whatever failed after it |

## Left out

- Great-circle distance (`calculate_distance` in backend/app/routers/visits.py): floating-point trigonometry. It is a parameter function, and only the comparison with the radius is modelled.
- Timers, listeners and React effects (`setInterval`, the 'online' event, `useEffect`): each is an explicit call of the handler it triggers. `Sync.FiveMinuteTimer` states the period.
- Date and time handling (`Date.now`, `new Date(...)`, `datetime.fromisoformat`, `datetime.utcnow`, `toLocaleString`, `toDateString`): times are integers, "same day" is the parameter `dayOf`, and locale texts are left as the time itself.
- Two `datetime.utcnow()` calls in one request are one `now` parameter. In the source they can differ by microseconds.
- `time.fromisoformat`: the predicate `isTime`. Which texts it accepts is not modelled.
- Text.ParseInt: Python `int()` also accepts surrounding whitespace and underscores between digits. The model accepts only an optional sign followed by digits.
- bcrypt: the stored hash is the parameter `hashed`, and only where it is stored is modelled.
- FastAPI `response_model` filtering (for example dropping `password_hash` from replies): the handlers return rows, and the reply shape is not modelled.
- Request validation by pydantic and FastAPI (field types, required fields): not modelled. The one range check on a query parameter, `limit` of the ranking in 1..100, is a 422 whose detail is shortened to the parameter's name.
- Error texts that embed values (the distance in "Ubicación inválida", an exception's own message): they are shortened or abstracted, and only the status and fixed part are kept.
- A database call that raises: a generic 500 (`InsertRaised`), whatever the exception. An insert reply without data is `InsertEmpty`, answered as each handler answers it.
- Ascending order by `nombre` (the service, checkpoint and guard listings): string order is not modelled. These listings keep table order, and their contracts state which rows they hold. The descending orders by `created_at` and `fecha_hora` are the shared stable sort, so ties keep table order.
- A table without an `activo` column: every row read with `select("*")` carries all the table's columns, so `.get("activo", True)` never falls back to its default. A NULL `activo` (None) is falsy there and fails `.eq("activo", True)`, so it counts as inactive everywhere. Other nullable columns are `Option` only where the source reads them.
- Servicios.EliminarServicioAsWritten: the table `puntos_control` is taken to exist. If it does not, the count query raises and the delete answers 500; the model has no such case.
- Randomness (`secrets.token_hex`, `uuid4`): the random draws are a parameter sequence. The loop drawing "for ever" is modelled under the requirement that some draw is unused.
- Routers not mounted by backend/app/main.py (puntos_qr_adapted, puntos_crud, usuarios, servicios, alertas, reportes, qr_generator): they are modelled as written, although the running server does not serve them.
- backend/app/routers/qr_generator.py: QR images, PDF layout (4 per page, descriptions cut to 50 characters) and the previews. Only the code it encodes is used, in `Qr.GeneratedCodeIsRejected`.
- Excel and PDF report rendering in backend/app/routers/reportes.py (openpyxl, reportlab): file formats, not decisions.
- Authentication (backend/app/auth.py, backend/app/routers/auth.py): the current user is a parameter. JWT checks are not modelled.
- AdminApi.ListUrl: `URLSearchParams` percent-encodes keys and values. The model joins them unencoded, so the text differs for values holding reserved characters.
- ServiciosAdmin.ToggleDia: the list is sorted numerically. JavaScript's default `sort()` compares the numbers as text, which gives the same order for the day numbers 0 to 6 that the screen offers, but not for numbers of two digits.
- `ServiciosAdmin` handlers `cargarServicios`, `handleEdit` and `handleDelete`: form-state glue around API calls, not modelled. `handleReactivar` calls `serviciosAPI.reactivar`, which frontend/src/services/adminAPI.js does not define. It would throw a TypeError, which its own catch turns into an alert.
- `GeneradorQr`: the preview and single-download requests (`cargarPreviews`, `descargarQRIndividual`) and the PDF download itself, which are browser I/O.
- UI-only files: QRScanner.jsx (camera and jsQR), the service worker, Leaflet markup and icons in MapView.jsx, and the markup of every component beyond what the render functions state.
- Admin form screens and tab containers (PuntosAdmin.jsx, UsuariosAdmin.jsx, AdminPanel.jsx, SupervisorPanel.jsx, ReportesAdmin.jsx, ReportesSupervisor.jsx): form state and tab switching only.
- Wiring and schemas (main.py, database.py, config.py, models.py): the model's datatypes follow the schema's fields and enums.
- Copying of lists (`[...visitas]`, `filter` before `sort`): Dafny sequences are values, so "the prop is not reordered" holds by construction and is not stated separately.

## Findings

| source | as written | input that shows it | evidently intended | confidence | as-written member | corrected member |
|---|---|---|---|---|---|---|
| backend/app/routers/usuarios.py:69-70,222-224 | "/{usuario_id}" is declared before "/guardias", and routes are matched in declaration order | GET /usuarios/guardias matches "/{usuario_id}" and fails as a non-integer id, so the guard listing is unreachable | "/guardias" served by `listar_guardias` | not executed | Usuarios.GuardiasRouteIsShadowed | Usuarios.OrderedRoutesReachGuardias |
| backend/app/routers/servicios.py:256-262 | the points of a service are counted in the table `puntos_control`, but every other router stores checkpoints in `puntos_qr` | a permanent delete of a service that has a checkpoint in `puntos_qr` counts 0 points and deletes the service, leaving the checkpoint's service missing | the count taken in the checkpoint table, refusing the delete | not executed | Servicios.AsWrittenDeletesServiceWithPoints | Servicios.EliminarServicio |
| frontend/src/components/supervisor/Dashboard.jsx:5,37-40,57 | a failed load sets `loading` false and leaves `stats` null, and the render reads `stats.lastUpdate` unguarded | the first `api.getVisits` rejects, so the next render throws a TypeError | a render guarded against missing stats | not executed | Dashboard.FailedFirstLoadThrows | Dashboard.LoadsRenderSafely |
