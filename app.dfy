/** The application shell (frontend/src/App.jsx): the user, loading, view and scanned-QR state,
    the handlers that move between views, and which screen the render shows for that state.
    The browser's token entry and the API client's own copy of the token are separate fields,
    because the source updates them separately. */
module App {
  import opened Common
  import opened Records
  import opened Storage
  import opened Sync

  datatype View = LoginView | ScannerView | FormView | ListView | SupervisorView | AdminView

  /** The screens the main area can show once the user is past the login view. */
  datatype Panel = AdminPanel | SupervisorPanel | ScannerPanel | FormPanel(qrData: string) | ListPanel

  /** What the whole component renders. */
  datatype Screen = LoadingScreen | LoginScreen | MainScreen(guardNav: bool, panels: seq<Panel>)

  /** What `api.getCurrentUser` settles to. */
  datatype MeReply = Me(user: User) | MeThrew

  /** What `api.login` settles to: the token response, or the thrown error's message. */
  datatype LoginReply = LoggedIn(accessToken: string, user: User) | LoginThrew(message: string)

  /** The payload the development-mode button pretends to scan. */
  const SimulatedQr := "servicio:" + SimulatedServicio + ":punto:" + SimulatedPunto
  const SimulatedServicio := "a1b2c3d4-e5f6-4a5b-8c9d-0e1f2a3b4c5d"
  const SimulatedPunto := "aaaaaaaa-aaaa-aaaa-aaaa-aaaaaaaaaaaa"

  const DefaultLoginError := "Error al iniciar sesión"

  /** The interval the application passes to `startAutoSync`, in minutes. */
  const AutoSyncMinutes := 5

  /** The view a role is sent to after startup or login. */
  function RouteFor(rol: string): (v: View)
    ensures v == AdminView <==> IsAdminRole(rol)
    ensures v == SupervisorView <==> rol == "supervisor"
    ensures v == ScannerView <==> !IsAdminRole(rol) && rol != "supervisor"
  {
    if IsAdminRole(rol) then AdminView
    else if rol == "supervisor" then SupervisorView
    else ScannerView
  }

  /** The panels of the main area for a view, the user's role and the scanned payload. The
      scanner shows only while no payload is held and the form only while one is held, both
      tested for truthiness, so an empty payload on the form view shows neither. */
  function MainPanels(view: View, rol: Option<string>, qrData: Option<string>): (r: seq<Panel>)
    ensures ScannerPanel in r <==> rol == Some("guardia") && view == ScannerView && !TruthyStr(qrData)
    ensures forall q :: FormPanel(q) in r <==> rol == Some("guardia") && view == FormView && qrData == Some(q) && q != ""
    ensures ListPanel in r <==> rol == Some("guardia") && view == ListView
    ensures AdminPanel in r <==> view == AdminView && rol.Some? && IsAdminRole(rol.value)
    ensures SupervisorPanel in r <==> view == SupervisorView && (rol == Some("supervisor") || rol == Some("admin"))
    ensures |r| <= 1
  {
    var guard := rol == Some("guardia");
    (if view == AdminView && rol.Some? && IsAdminRole(rol.value) then [AdminPanel] else []) +
    (if view == SupervisorView && (rol == Some("supervisor") || rol == Some("admin")) then [SupervisorPanel] else []) +
    (if guard && view == ScannerView && !TruthyStr(qrData) then [ScannerPanel] else []) +
    (if guard && view == FormView && TruthyStr(qrData) then [FormPanel(qrData.value)] else []) +
    (if guard && view == ListView then [ListPanel] else [])
  }

  /** The component's render: the spinner while loading, the login form on the login view,
      otherwise the guard navigation (for guards only) above the main area's panels. */
  function Render(loading: bool, view: View, user: Option<User>, qrData: Option<string>): (r: Screen)
    ensures r == LoadingScreen <==> loading
    ensures r == LoginScreen <==> !loading && view == LoginView
    ensures r.MainScreen? ==>
      (r.guardNav <==> user.Some? && user.value.rol == "guardia") &&
      r.panels == MainPanels(view, if user.Some? then Some(user.value.rol) else None, qrData)
  {
    if loading then LoadingScreen
    else if view == LoginView then LoginScreen
    else
      var rol := if user.Some? then Some(user.value.rol) else None;
      MainScreen(rol == Some("guardia"), MainPanels(view, rol, qrData))
  }

  /** Guard screens appear only for the role 'guardia'; the supervisor panel only for
      'supervisor' and 'admin' (not for 'administrador'); the admin panel for both admin spellings. */
  lemma PanelsFollowRole(view: View, rol: Option<string>, qrData: Option<string>)
    ensures var ps := MainPanels(view, rol, qrData);
      (ScannerPanel in ps || ListPanel in ps || (exists q :: FormPanel(q) in ps)) ==> rol == Some("guardia")
    ensures SupervisorPanel in MainPanels(view, rol, qrData) <==>
      view == SupervisorView && (rol == Some("supervisor") || rol == Some("admin"))
    ensures AdminPanel in MainPanels(view, rol, qrData) <==>
      view == AdminView && (rol == Some("admin") || rol == Some("administrador"))
    ensures |MainPanels(view, rol, qrData)| <= 1
  {
  }

  /** Every role the server issues lands on a view that shows a panel; any other role is
      routed to the scanner view and sees an empty main area. */
  lemma RoutedViewShowsPanel(rol: string)
    ensures (IsAdminRole(rol) || rol == "supervisor" || rol == "guardia") ==>
      |MainPanels(RouteFor(rol), Some(rol), None)| == 1
    ensures !(IsAdminRole(rol) || rol == "supervisor" || rol == "guardia") ==>
      MainPanels(RouteFor(rol), Some(rol), None) == []
  {
  }

  class App {
    const store: StorageService
    const sync: SyncService
    var user: Option<User>
    var loading: bool
    var view: View
    var qrData: Option<string>
    var loginError: Option<string>
    /** The browser's `localStorage` entry 'token'. */
    var storedToken: Option<string>
    /** The API client's `token`, read from the browser once when the client is created. */
    var apiToken: Option<string>

    constructor (store: StorageService, sync: SyncService, token: Option<string>)
      ensures this.store == store && this.sync == sync
      ensures user == None && loading && view == LoginView && qrData == None && loginError == None
      ensures storedToken == token && apiToken == token
    {
      this.store := store;
      this.sync := sync;
      user := None;
      loading := true;
      view := LoginView;
      qrData := None;
      loginError := None;
      storedToken := token;
      apiToken := token;
    }

    /** The mount effect: `checkAuth()` and `sync.startAutoSync(5)`. */
    method Mount(me: MeReply, getUserFails: bool, saveFails: bool)
      modifies this, store, sync
      ensures sync.intervals == old(sync.intervals) + [IntervalMs(AutoSyncMinutes)]
      ensures sync.onlineListeners == old(sync.onlineListeners) + 1
      ensures sync.isSyncing == old(sync.isSyncing) && sync.step == old(sync.step) && sync.submitted == old(sync.submitted)
      ensures !loading && apiToken == old(apiToken) && qrData == old(qrData) && loginError == old(loginError)
      ensures store.queue == old(store.queue)
      ensures !TruthyStr(old(storedToken)) ==>
        user == old(user) && view == old(view) && storedToken == old(storedToken) && store.user == old(store.user)
      ensures TruthyStr(old(storedToken)) && me.MeThrew? ==>
        storedToken == None && user == old(user) && view == old(view) && store.user == old(store.user)
      ensures TruthyStr(old(storedToken)) && me.Me? ==>
        user == Some(me.user) && view == RouteFor(me.user.rol) && storedToken == old(storedToken) &&
        store.user == (if !getUserFails && old(store.user).Some? then old(store.user)
                       else if saveFails then old(store.user) else Some(me.user))
    {
      CheckAuth(me, getUserFails, saveFails);
      sync.StartAutoSync(AutoSyncMinutes);
    }

    /** `checkAuth`: with a stored token, fetch the user, cache it only if nothing is cached,
        and route by role; a rejected token is removed from the browser and the view stays. */
    method CheckAuth(me: MeReply, getUserFails: bool, saveFails: bool)
      modifies this`user, this`view, this`loading, this`storedToken, store
      ensures !loading
      ensures store.queue == old(store.queue)
      ensures !TruthyStr(old(storedToken)) ==>
        user == old(user) && view == old(view) && storedToken == old(storedToken) && store.user == old(store.user)
      ensures TruthyStr(old(storedToken)) && me.MeThrew? ==>
        storedToken == None && user == old(user) && view == old(view) && store.user == old(store.user)
      ensures TruthyStr(old(storedToken)) && me.Me? ==>
        user == Some(me.user) && view == RouteFor(me.user.rol) && storedToken == old(storedToken) &&
        store.user == (if !getUserFails && old(store.user).Some? then old(store.user)
                       else if saveFails then old(store.user) else Some(me.user))
    {
      if TruthyStr(storedToken) {
        match me {
          case Me(u) =>
            user := Some(u);
            var saved := store.GetUser(getUserFails);
            if saved.None? {
              store.SaveUser(u, saveFails);
            }
            view := RouteFor(u.rol);
          case MeThrew =>
            storedToken := None;
        }
      }
      loading := false;
    }

    /** `handleLogin`: always overwrites the cached user and routes by role; an error is shown
        with its message, or a default one when the message is empty. */
    method HandleLogin(reply: LoginReply, saveFails: bool)
      modifies this`user, this`view, this`loading, this`loginError, this`storedToken, this`apiToken, store
      ensures !loading
      ensures store.queue == old(store.queue)
      ensures reply.LoggedIn? ==>
        loginError == None && user == Some(reply.user) && view == RouteFor(reply.user.rol) &&
        store.user == (if saveFails then old(store.user) else Some(reply.user)) &&
        (reply.accessToken != "" ==> storedToken == Some(reply.accessToken) && apiToken == Some(reply.accessToken)) &&
        (reply.accessToken == "" ==> storedToken == old(storedToken) && apiToken == old(apiToken))
      ensures reply.LoginThrew? ==>
        loginError == Some(if reply.message == "" then DefaultLoginError else reply.message) &&
        user == old(user) && view == old(view) && store.user == old(store.user) &&
        storedToken == old(storedToken) && apiToken == old(apiToken)
    {
      loginError := None;
      loading := true;
      match reply {
        case LoggedIn(accessToken, u) =>
          if accessToken != "" {
            apiToken := Some(accessToken);
            storedToken := Some(accessToken);
          }
          user := Some(u);
          store.SaveUser(u, saveFails);
          view := RouteFor(u.rol);
        case LoginThrew(message) =>
          loginError := Some(if message == "" then DefaultLoginError else message);
      }
      loading := false;
    }

    /** `handleLogout`: forgets the token, clears the whole store (queued visits included) and
        returns to the login view. */
    method HandleLogout(clearFails: bool)
      modifies this`user, this`view, this`qrData, this`storedToken, this`apiToken, store
      ensures storedToken == None && apiToken == None
      ensures user == None && view == LoginView && qrData == None
      ensures clearFails ==> store.queue == old(store.queue) && store.user == old(store.user)
      ensures !clearFails ==> store.queue == [] && store.user == None
    {
      apiToken := None;
      storedToken := None;
      store.Clear(clearFails);
      user := None;
      view := LoginView;
      qrData := None;
    }

    method HandleQRScan(data: string)
      modifies this`qrData, this`view
      ensures qrData == Some(data) && view == FormView
    {
      qrData := Some(data);
      view := FormView;
    }

    method HandleSimulateQR()
      modifies this`qrData, this`view
      ensures qrData == Some(SimulatedQr) && view == FormView
    {
      qrData := Some(SimulatedQr);
      view := FormView;
    }

    method HandleVisitSuccess()
      modifies this`qrData, this`view
      ensures qrData == None && view == ScannerView
    {
      qrData := None;
      view := ScannerView;
    }

    method HandleVisitCancel()
      modifies this`qrData, this`view
      ensures qrData == None && view == ScannerView
    {
      qrData := None;
      view := ScannerView;
    }

    /** The guard navigation's "scan" button. */
    method NavigateToScanner()
      modifies this`qrData, this`view
      ensures qrData == None && view == ScannerView
    {
      qrData := None;
      view := ScannerView;
    }

    /** The guard navigation's "history" button: the scanned payload is kept. */
    method NavigateToList()
      modifies this`view
      ensures view == ListView
    {
      view := ListView;
    }
  }

  /** Startup keeps a user that is already cached, while login replaces it. */
  method StartupKeepsCacheLoginReplacesIt(cached: User, me: User, token: string)
    returns (afterStartup: Option<User>, afterLogin: Option<User>)
    requires token != ""
    ensures afterStartup == Some(cached) && afterLogin == Some(me)
  {
    var store := new StorageService();
    store.SaveUser(cached, false);
    var sync := new SyncService();
    var app := new App(store, sync, Some(token));
    app.Mount(Me(me), false, false);
    afterStartup := store.user;
    app.HandleLogin(LoggedIn(token, me), false);
    afterLogin := store.user;
  }

  /** A stored token that the server rejects is removed from the browser, the view stays on
      login, and the API client still holds the old token. */
  method RejectedTokenAtStartup(token: string)
    returns (view: View, stored: Option<string>, client: Option<string>, screen: Screen)
    requires token != ""
    ensures view == LoginView && stored == None && client == Some(token) && screen == LoginScreen
  {
    var store := new StorageService();
    var sync := new SyncService();
    var app := new App(store, sync, Some(token));
    app.Mount(MeThrew, false, false);
    view := app.view;
    stored := app.storedToken;
    client := app.apiToken;
    screen := Render(app.loading, app.view, app.user, app.qrData);
  }

  /** A guard's form view shows the form for a non-empty payload, and nothing for an empty one. */
  lemma GuardFormScreen(u: User, data: string)
    requires u.rol == "guardia"
    ensures Render(false, FormView, Some(u), Some(data)) == MainScreen(true, if data == "" then [] else [FormPanel(data)])
  {
    var r := MainPanels(FormView, Some("guardia"), Some(data));
    assert |r| <= 1;
    if data == "" {
      assert forall p :: p !in r;
    } else {
      assert FormPanel(data) in r;
    }
  }

  /** A guard's scanner view without a payload shows the scanner. */
  lemma GuardScannerScreen(u: User)
    requires u.rol == "guardia"
    ensures Render(false, ScannerView, Some(u), None) == MainScreen(true, [ScannerPanel])
  {
    var r := MainPanels(ScannerView, Some("guardia"), None);
    assert ScannerPanel in r && |r| <= 1;
  }

  /** Scanning, then finishing or cancelling the visit, brings a guard back to the scanner. An
      empty payload opens the form view with neither the form nor the scanner on it. */
  method ScanThenFinish(u: User, data: string, cancel: bool)
    returns (during: Screen, after: Screen)
    requires u.rol == "guardia"
    ensures during == MainScreen(true, if data == "" then [] else [FormPanel(data)])
    ensures after == MainScreen(true, [ScannerPanel])
  {
    var store := new StorageService();
    var sync := new SyncService();
    var app := new App(store, sync, None);
    app.HandleLogin(LoggedIn("t", u), false);
    app.HandleQRScan(data);
    assert !app.loading && app.view == FormView && app.user == Some(u) && app.qrData == Some(data);
    GuardFormScreen(u, data);
    during := Render(app.loading, app.view, app.user, app.qrData);
    if cancel {
      app.HandleVisitCancel();
    } else {
      app.HandleVisitSuccess();
    }
    assert !app.loading && app.view == ScannerView && app.user == Some(u) && app.qrData == None;
    GuardScannerScreen(u);
    after := Render(app.loading, app.view, app.user, app.qrData);
  }
}
