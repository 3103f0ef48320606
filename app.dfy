/** The application shell of App.tsx: the location-tracking state (loading splash,
    location prompt, last known position, geolocation watches) and the view state with
    its admin gate. Each callback is one atomic transition of `UiState`. */
module App {
  import opened Wrappers

  datatype View = Home | Navigation | Ar | Admin | FullMap | AdminLogin

  /** `PermissionStatus.state` for the geolocation permission. */
  datatype PermissionState = Granted | Prompt | Denied

  /** A position as the rest of the application sees it; coordinates are only copied. */
  datatype LatLng = LatLng(lat: real, lng: real)

  /** The coordinates a watch callback delivers. */
  datatype Coordinates = Coordinates(latitude: real, longitude: real, accuracy: real)

  datatype PositionOptions = PositionOptions(enableHighAccuracy: bool, timeout: nat, maximumAge: nat)

  const TRACKING_OPTIONS := PositionOptions(true, 10000, 0)
  const ADMIN_PIN := "8121"

  datatype LocationCategory = Academic | Laboratory | Administrative | Facility | Hostel | Sports

  datatype CampusLocation = CampusLocation(
    id: string, name: string, latitude: real, longitude: real, description: string,
    category: LocationCategory, floor: Option<string>, modelUrl: Option<string>)

  /** The component's state; `watches` lists the options of every geolocation watch
      registered so far, in order (a watch's id is its index). */
  datatype UiState = UiState(
    loading: bool,
    showLocationPrompt: bool,
    userLocation: Option<LatLng>,
    view: View,
    isAdmin: bool,
    selectedLocation: Option<CampusLocation>,
    watches: seq<PositionOptions>)

  datatype Event =
    | PermissionQueried(state: PermissionState)   // the permissions query resolved
    | PermissionsUnavailable                       // no permissions API: the effect's else branch
    | PromptAccepted
    | PromptDeclined
    | PositionReceived(coords: Coordinates)        // a watch's success callback
    | PositionFailed                               // a watch's error callback
    | HeaderNav(target: View)
    | AdminPin(pin: string)
    | Logout(confirmed: bool)                      // `window.confirm`'s answer is an input
    | StartNavigation(loc: Option<CampusLocation>)
    | SetView(target: View)                        // an inline `setView` of a child's callback

  /** Events that register a watch. */
  predicate StartsTracking(e: Event)
  {
    e == PromptAccepted || e == PermissionQueried(Granted)
  }

  /** Events that register a watch or put up the location prompt. */
  predicate OffersTracking(e: Event)
  {
    e == PermissionQueried(Granted) || e == PermissionQueried(Prompt) || e == PermissionsUnavailable
  }

  /** The first render: the splash is up, no prompt, no position; `storedAdmin` is what
      session storage said about the admin flag. */
  function Initial(storedAdmin: bool): (r: UiState)
    ensures Render(r) == Splash && r.isAdmin == storedAdmin
    ensures r.watches == [] && r.userLocation == None
  {
    UiState(true, false, None, Home, storedAdmin, None, [])
  }

  /** `startLocationTracking`; `geolocation` says whether the browser has the API. */
  function StartTracking(geolocation: bool, s: UiState): (r: UiState)
    ensures |r.watches| == |s.watches| + (if geolocation then 1 else 0) && s.watches <= r.watches
    ensures r.loading == (s.loading && geolocation)
    ensures r.(loading := s.loading, watches := s.watches) == s
  {
    if geolocation then s.(watches := s.watches + [TRACKING_OPTIONS]) else s.(loading := false)
  }

  /** The effect of one callback. Only a watch registration adds a watch, and never
      removes one; only a watch success moves the position; only the PIN and the
      logout touch the admin flag; nothing brings the splash back. */
  function Apply(geolocation: bool, s: UiState, e: Event): (r: UiState)
    ensures s.watches <= r.watches && (r.watches != s.watches ==> StartsTracking(e))
    ensures r.userLocation != s.userLocation ==> e.PositionReceived?
    ensures r.isAdmin != s.isAdmin ==> e.AdminPin? || e.Logout?
    ensures !s.loading ==> !r.loading
  {
    match e
    case PermissionQueried(Granted) => StartTracking(geolocation, s)
    case PermissionQueried(Prompt) => s.(loading := false, showLocationPrompt := true)
    case PermissionQueried(Denied) => s.(loading := false)
    case PermissionsUnavailable => s.(showLocationPrompt := true, loading := false)
    case PromptAccepted => StartTracking(geolocation, s)
    case PromptDeclined => s.(showLocationPrompt := false)
    case PositionReceived(c) =>
      s.(userLocation := Some(LatLng(c.latitude, c.longitude)), loading := false, showLocationPrompt := false)
    case PositionFailed => s.(loading := false, showLocationPrompt := false)
    case HeaderNav(v) => if v == Admin && !s.isAdmin then s.(view := AdminLogin) else s.(view := v)
    case AdminPin(pin) => if pin == ADMIN_PIN then s.(isAdmin := true, view := Admin) else s
    case Logout(confirmed) => if confirmed then s.(isAdmin := false, view := Home) else s
    case StartNavigation(loc) =>
      if loc.Some? then s.(selectedLocation := loc, view := Ar) else s.(view := Ar)
    case SetView(v) => s.(view := v)
  }

  /** When the browser can deliver an event: watch callbacks only once a watch exists;
      the others only while the element that raises them is rendered. */
  predicate Enabled(s: UiState, e: Event)
    ensures Enabled(s, e) && s.loading ==>
      e.PermissionQueried? || e.PermissionsUnavailable? || e.PositionReceived? || e.PositionFailed?
  {
    match e
    case PermissionQueried(_) => true
    case PermissionsUnavailable => true
    case PromptAccepted => !s.loading && s.showLocationPrompt
    case PromptDeclined => !s.loading && s.showLocationPrompt
    case PositionReceived(_) => s.watches != []
    case PositionFailed => s.watches != []
    case HeaderNav(_) => !s.loading
    case AdminPin(_) => !s.loading && s.view == AdminLogin
    case Logout(_) => !s.loading
    case StartNavigation(_) => !s.loading && (s.view == Home || s.view == Navigation)
    // the children's inline callbacks set home, navigation or the login view
    case SetView(v) => !s.loading && (v == Home || v == Navigation || v == AdminLogin)
  }

  function Run(geolocation: bool, s: UiState, evs: seq<Event>): UiState
    decreases |evs|
  {
    if evs == [] then s else Run(geolocation, Apply(geolocation, s, evs[0]), evs[1..])
  }

  predicate Feasible(geolocation: bool, s: UiState, evs: seq<Event>)
    decreases |evs|
  {
    evs == [] || (Enabled(s, evs[0]) && Feasible(geolocation, Apply(geolocation, s, evs[0]), evs[1..]))
  }

  datatype Page = HomePage | NavigationPage | ArPage | AdminLoginPage | AdminPanelPage | NoPage

  /** What is on screen: the splash alone, or the shell with the prompt overlay (or not)
      and one page. */
  datatype Screen = Splash | Shell(prompt: bool, page: Page)

  function Render(s: UiState): (r: Screen)
    ensures r == Splash <==> s.loading
    ensures r.Shell? ==> r.prompt == s.showLocationPrompt
    ensures r.Shell? ==> (r.page == AdminPanelPage <==> s.view == Admin && s.isAdmin)
  {
    if s.loading then Splash
    else
      Shell(s.showLocationPrompt,
        match s.view
        case Home => HomePage
        case Navigation => NavigationPage
        case Ar => ArPage
        case AdminLogin => AdminLoginPage
        case Admin => if s.isAdmin then AdminPanelPage else NoPage
        case FullMap => NoPage)
  }

  /** What every reachable state satisfies. */
  ghost predicate Inv(geolocation: bool, s: UiState)
  {
    && (s.view == Admin ==> s.isAdmin)
    && (forall i :: 0 <= i < |s.watches| ==> s.watches[i] == TRACKING_OPTIONS)
    && (!geolocation ==> s.watches == [])
    && (s.userLocation.Some? ==> s.watches != [])
  }

  /** The last position a run of events delivers, if any. */
  function LastFix(evs: seq<Event>): Option<LatLng>
    decreases |evs|
  {
    if evs == [] then None
    else
      var later := LastFix(evs[1..]);
      if later.Some? then later
      else if evs[0].PositionReceived? then Some(LatLng(evs[0].coords.latitude, evs[0].coords.longitude))
      else None
  }

  // ---------------------------------------------------------------------------
  // Properties

  lemma InitialShowsSplash(storedAdmin: bool, geolocation: bool)
    ensures var s := Initial(storedAdmin);
      s.loading && !s.showLocationPrompt && s.userLocation == None && Render(s) == Splash
      && Inv(geolocation, s)
  {
  }

  /** The three outcomes of the startup permission query. */
  lemma PermissionOutcomes(geolocation: bool, s: UiState)
    ensures var g := Apply(geolocation, s, PermissionQueried(Granted));
      g.showLocationPrompt == s.showLocationPrompt
      && (geolocation ==> g.watches == s.watches + [TRACKING_OPTIONS] && g.loading == s.loading)
      && (!geolocation ==> g.watches == s.watches && !g.loading)
    ensures Apply(geolocation, s, PermissionQueried(Prompt)) == s.(loading := false, showLocationPrompt := true)
    ensures Apply(geolocation, s, PermissionQueried(Denied)) == s.(loading := false)
    ensures Apply(geolocation, s, PermissionsUnavailable) == s.(loading := false, showLocationPrompt := true)
  {
  }

  /** A watch success records exactly that sample's latitude and longitude. */
  lemma PositionReplacesLocation(geolocation: bool, s: UiState, c: Coordinates)
    ensures Apply(geolocation, s, PositionReceived(c))
         == s.(userLocation := Some(LatLng(c.latitude, c.longitude)), loading := false, showLocationPrompt := false)
  {
  }

  /** A watch error keeps the last position, and the watch stays registered: a later
      success still updates the position. */
  lemma ErrorKeepsWatching(geolocation: bool, s: UiState, c: Coordinates)
    ensures var t := Apply(geolocation, s, PositionFailed);
      t == s.(loading := false, showLocationPrompt := false)
      && (s.watches != [] ==> Enabled(t, PositionReceived(c)))
      && Apply(geolocation, t, PositionReceived(c)).userLocation == Some(LatLng(c.latitude, c.longitude))
  {
  }

  /** Without geolocation, starting to track registers nothing and only ends loading. */
  lemma NoGeolocationOnlyEndsLoading(s: UiState)
    ensures StartTracking(false, s) == s.(loading := false)
  {
  }

  /** Declining only hides the prompt; accepting registers a watch (with the fixed
      options) but leaves the prompt up until a watch callback arrives. */
  lemma PromptChoices(geolocation: bool, s: UiState)
    ensures Apply(geolocation, s, PromptDeclined) == s.(showLocationPrompt := false)
    ensures Apply(geolocation, s, PromptAccepted).showLocationPrompt == s.showLocationPrompt
    ensures geolocation ==> Apply(geolocation, s, PromptAccepted).watches == s.watches + [TRACKING_OPTIONS]
  {
  }

  /** Header navigation to the admin view without the admin flag lands on the login view. */
  lemma HeaderNavGatesAdmin(geolocation: bool, s: UiState, v: View)
    ensures var t := Apply(geolocation, s, HeaderNav(v));
      t.view == (if v == Admin && !s.isAdmin then AdminLogin else v)
      && t == s.(view := t.view)
  {
  }

  /** Only the PIN 8121 grants admin; any other PIN changes nothing. */
  lemma AdminPinGate(geolocation: bool, s: UiState, pin: string)
    ensures pin == ADMIN_PIN ==> Apply(geolocation, s, AdminPin(pin)) == s.(isAdmin := true, view := Admin)
    ensures pin != ADMIN_PIN ==> Apply(geolocation, s, AdminPin(pin)) == s
  {
  }

  /** Once the splash is gone it never returns. */
  lemma {:induction false} LoadingNeverReturns(geolocation: bool, s: UiState, evs: seq<Event>)
    requires !s.loading
    ensures !Run(geolocation, s, evs).loading
    decreases |evs|
  {
    if evs != [] {
      LoadingNeverReturns(geolocation, Apply(geolocation, s, evs[0]), evs[1..]);
    }
  }

  /** Every transition the browser can deliver keeps the invariant. */
  lemma ApplyKeepsInv(geolocation: bool, s: UiState, e: Event)
    requires Inv(geolocation, s) && Enabled(s, e)
    ensures Inv(geolocation, Apply(geolocation, s, e))
  {
  }

  /** Every feasible run keeps the invariant: the admin panel's view implies the admin
      flag, every watch uses the fixed options, and a position implies a watch. */
  lemma {:induction false} RunKeepsInv(geolocation: bool, s: UiState, evs: seq<Event>)
    requires Inv(geolocation, s) && Feasible(geolocation, s, evs)
    ensures Inv(geolocation, Run(geolocation, s, evs))
    decreases |evs|
  {
    if evs != [] {
      ApplyKeepsInv(geolocation, s, evs[0]);
      RunKeepsInv(geolocation, Apply(geolocation, s, evs[0]), evs[1..]);
    }
  }

  /** Last write wins: after any run the position is the last one delivered, or the
      earlier one when none was. */
  lemma {:induction false} LocationIsLastFix(geolocation: bool, s: UiState, evs: seq<Event>)
    ensures Run(geolocation, s, evs).userLocation == if LastFix(evs).Some? then LastFix(evs) else s.userLocation
    decreases |evs|
  {
    if evs != [] {
      LocationIsLastFix(geolocation, Apply(geolocation, s, evs[0]), evs[1..]);
    }
  }

  lemma ThreeFixesKeepTheLast(geolocation: bool, s: UiState, a: Coordinates, b: Coordinates, c: Coordinates)
    ensures Run(geolocation, s, [PositionReceived(a), PositionReceived(b), PositionReceived(c)]).userLocation
         == Some(LatLng(c.latitude, c.longitude))
  {
    var evs := [PositionReceived(a), PositionReceived(b), PositionReceived(c)];
    LocationIsLastFix(geolocation, s, evs);
    assert evs[1..][1..] == [PositionReceived(c)];
    assert LastFix(evs[1..][1..]) == Some(LatLng(c.latitude, c.longitude));
  }

  /** With no watch registered, the prompt hidden and no event that starts tracking
      or raises the prompt, no position is ever recorded: accepting cannot happen,
      since its button is only rendered with the prompt. */
  lemma {:induction false} NoWatchNoLocation(geolocation: bool, s: UiState, evs: seq<Event>)
    requires s.watches == [] && s.userLocation == None && !s.showLocationPrompt
    requires Feasible(geolocation, s, evs)
    requires forall i :: 0 <= i < |evs| ==> !OffersTracking(evs[i])
    ensures Run(geolocation, s, evs).userLocation == None
    ensures Run(geolocation, s, evs).watches == []
    ensures !Run(geolocation, s, evs).showLocationPrompt
    decreases |evs|
  {
    if evs != [] {
      if evs[0] == PromptAccepted {
        assert false;
      } else {
        assert !OffersTracking(evs[0]);
        NoWatchNoLocation(geolocation, Apply(geolocation, s, evs[0]), evs[1..]);
      }
    }
  }

  /** After a denied permission at startup, no later run the browser can deliver
      records a position, unless permission is queried again with another answer. */
  lemma DeniedNeverLocates(geolocation: bool, storedAdmin: bool, evs: seq<Event>)
    requires Feasible(geolocation, Apply(geolocation, Initial(storedAdmin), PermissionQueried(Denied)), evs)
    requires forall i :: 0 <= i < |evs| ==> !OffersTracking(evs[i])
    ensures Run(geolocation, Apply(geolocation, Initial(storedAdmin), PermissionQueried(Denied)), evs).userLocation == None
  {
    NoWatchNoLocation(geolocation, Apply(geolocation, Initial(storedAdmin), PermissionQueried(Denied)), evs);
  }

  /** Declining the prompt before any watch exists leaves the user unlocated in every
      later run that does not raise the prompt again. */
  lemma DeclinedNeverLocates(geolocation: bool, s: UiState, evs: seq<Event>)
    requires s.watches == [] && s.userLocation == None && Enabled(s, PromptDeclined)
    requires Feasible(geolocation, Apply(geolocation, s, PromptDeclined), evs)
    requires forall i :: 0 <= i < |evs| ==> !OffersTracking(evs[i])
    ensures Run(geolocation, Apply(geolocation, s, PromptDeclined), evs).userLocation == None
  {
    NoWatchNoLocation(geolocation, Apply(geolocation, s, PromptDeclined), evs);
  }

  /** A denied permission at startup ends the splash without a prompt or a watch. */
  lemma DeniedStartup(geolocation: bool, storedAdmin: bool)
    ensures var s := Apply(geolocation, Initial(storedAdmin), PermissionQueried(Denied));
      Render(s) == Shell(false, HomePage) && s.watches == [] && s.userLocation == None
  {
  }

  // ---------------------------------------------------------------------------
  // The component, its state setters as field updates

  class AppState {
    const geolocation: bool
    var loading: bool
    var showLocationPrompt: bool
    var userLocation: Option<LatLng>
    var view: View
    var isAdmin: bool
    var selectedLocation: Option<CampusLocation>
    var watches: seq<PositionOptions>

    function State(): UiState
      reads this
    {
      UiState(loading, showLocationPrompt, userLocation, view, isAdmin, selectedLocation, watches)
    }

    ghost predicate Valid()
      reads this
    {
      Inv(geolocation, State())
    }

    constructor (geolocation: bool, storedAdmin: bool)
      ensures this.geolocation == geolocation
      ensures Valid() && State() == Initial(storedAdmin)
    {
      this.geolocation := geolocation;
      loading, showLocationPrompt, userLocation := true, false, None;
      view, isAdmin, selectedLocation, watches := Home, storedAdmin, None, [];
    }

    /** `startLocationTracking`: registers a watch with the fixed options and returns
        its id, or only ends loading when the browser has no geolocation. */
    method StartLocationTracking() returns (watchId: Option<nat>)
      requires Valid()
      modifies this
      ensures Valid() && State() == StartTracking(geolocation, old(State()))
      ensures watchId == if geolocation then Some(|old(watches)|) else None
    {
      if geolocation {
        watchId := Some(|watches|);
        watches := watches + [TRACKING_OPTIONS];
      } else {
        loading := false;
        watchId := None;
      }
    }

    method OnPermissionState(state: PermissionState)
      requires Valid()
      modifies this
      ensures Valid() && State() == Apply(geolocation, old(State()), PermissionQueried(state))
    {
      match state
      case Granted =>
        var _ := StartLocationTracking();
      case Prompt =>
        loading := false;
        showLocationPrompt := true;
      case Denied =>
        loading := false;
    }

    method OnPermissionsUnavailable()
      requires Valid()
      modifies this
      ensures Valid() && State() == Apply(geolocation, old(State()), PermissionsUnavailable)
    {
      showLocationPrompt := true;
      loading := false;
    }

    method OnAccept()
      requires Valid() && Enabled(State(), PromptAccepted)
      modifies this
      ensures Valid() && State() == Apply(geolocation, old(State()), PromptAccepted)
    {
      var _ := StartLocationTracking();
    }

    method OnDecline()
      requires Valid() && Enabled(State(), PromptDeclined)
      modifies this
      ensures Valid() && State() == Apply(geolocation, old(State()), PromptDeclined)
    {
      showLocationPrompt := false;
    }

    method OnPosition(coords: Coordinates)
      requires Valid() && Enabled(State(), PositionReceived(coords))
      modifies this
      ensures Valid() && State() == Apply(geolocation, old(State()), PositionReceived(coords))
    {
      userLocation := Some(LatLng(coords.latitude, coords.longitude));
      loading := false;
      showLocationPrompt := false;
    }

    method OnPositionError()
      requires Valid() && Enabled(State(), PositionFailed)
      modifies this
      ensures Valid() && State() == Apply(geolocation, old(State()), PositionFailed)
    {
      loading := false;
      showLocationPrompt := false;
    }

    method HandleHeaderNav(target: View)
      requires Valid() && Enabled(State(), HeaderNav(target))
      modifies this
      ensures Valid() && State() == Apply(geolocation, old(State()), HeaderNav(target))
    {
      if target == Admin && !isAdmin {
        view := AdminLogin;
      } else {
        view := target;
      }
    }

    method HandleAdminAuth(pin: string)
      requires Valid() && Enabled(State(), AdminPin(pin))
      modifies this
      ensures Valid() && State() == Apply(geolocation, old(State()), AdminPin(pin))
    {
      if pin == ADMIN_PIN {
        isAdmin := true;
        view := Admin;
      }
    }

    method HandleLogout(confirmed: bool)
      requires Valid() && Enabled(State(), Logout(confirmed))
      modifies this
      ensures Valid() && State() == Apply(geolocation, old(State()), Logout(confirmed))
    {
      if confirmed {
        isAdmin := false;
        view := Home;
      }
    }

    method HandleStartNavigation(loc: Option<CampusLocation>)
      requires Valid() && Enabled(State(), StartNavigation(loc))
      modifies this
      ensures Valid() && State() == Apply(geolocation, old(State()), StartNavigation(loc))
    {
      if loc.Some? {
        selectedLocation := loc;
      }
      view := Ar;
    }

    method SetViewFromChild(target: View)
      requires Valid() && Enabled(State(), SetView(target))
      modifies this
      ensures Valid() && State() == Apply(geolocation, old(State()), SetView(target))
    {
      view := target;
    }
  }
}
