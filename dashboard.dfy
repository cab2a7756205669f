/**
 * The dashboard component of frontend/src/App.js as a state machine: its
 * `useState` fields, the login and logout handlers, the fetch lifecycle, the
 * effect that starts a fetch, the selection of a user and the render gate.
 *
 * Each handler runs to completion and then the effect runs once, as React
 * does after re-rendering: the effect fires when `admin` or the fetch
 * callback (which changes with `model`) differs from the previous render and
 * `admin` is truthy. A handler whose control is rendered on one screen only
 * requires that screen, except `Logout`, which is also admitted on the login
 * form (where no Logout button is rendered) so that its idempotence can be
 * stated.
 */
module Dashboard {
  import opened View

  /** The one password `handleLogin` accepts. */
  const SECRET := "admin123"
  /** The storage key of the session marker. */
  const ADMIN_KEY := "admin"

  /**
   * The value of the `admin` state: what `localStorage.getItem('admin')`
   * returned at start-up (null or a string), or a boolean set by a handler.
   */
  datatype AdminFlag = Absent | StoredText(text: string) | Flag(on: bool)

  /** JavaScript truthiness of the `admin` value. */
  predicate Truthy(a: AdminFlag)
    ensures a == Absent ==> !Truthy(a)
    ensures a.StoredText? ==> (Truthy(a) <==> a.text != "")
    ensures a.Flag? ==> (Truthy(a) <==> a.on)
  {
    match a
    case Absent => false
    case StoredText(text) => text != ""
    case Flag(on) => on
  }

  /** What the component renders: the login form, the spinner or the dashboard. */
  datatype Screen = LoginScreen | Spinner | Board

  /** The line chart of the selected user. */
  datatype TrendChart = TrendChart(userId: string, points: seq<TrendPoint>, stroke: string)

  class App {
    /** `localStorage`, as a map from keys to strings. */
    var store: map<string, string>
    var admin: AdminFlag
    var password: string
    var risks: seq<RiskRecord>
    var filter: string
    var sortKey: string
    var model: string
    var loading: bool
    var selectedUser: Option<RiskRecord>
    /** The `model` parameter of every request issued and not yet answered. */
    var inFlight: seq<string>

    /**
     * The spinner is up exactly while one request for the current model is
     * outstanding, and only during a session.
     */
    ghost predicate Valid()
      reads this
      ensures Valid() ==> (loading <==> inFlight != []) && |inFlight| <= 1
      ensures Valid() && loading ==> inFlight[0] == model && Truthy(admin)
    {
      && inFlight == (if loading then [model] else [])
      && (loading ==> Truthy(admin))
    }

    /** The render gate: login form, then spinner, then dashboard. */
    function CurrentScreen(): (screen: Screen)
      reads this
      ensures screen == LoginScreen <==> !Truthy(admin)
      ensures screen == Spinner <==> Truthy(admin) && loading
      ensures screen == Board <==> Truthy(admin) && !loading
    {
      if !Truthy(admin) then LoginScreen else if loading then Spinner else Board
    }

    /** `filteredRisks`: the cards and the bars on display. */
    function FilteredRisks(): (view: seq<RiskRecord>)
      reads this
      ensures multiset(view) == multiset(FilterByStatus(risks, filter))
      ensures sortKey == SCORE_KEY ==> forall i, j :: 0 <= i < j < |view| ==> view[i].score >= view[j].score
      ensures sortKey != SCORE_KEY ==> forall i, j :: 0 <= i < j < |view| ==> IdLe(view[i].id, view[j].id)
    {
      Project(risks, filter, sortKey)
    }

    /**
     * The trend panel: shown on the dashboard while a user is selected, with
     * the points of `generateMockTrend` and the colour of the user's status.
     */
    function DetailChart(raw: nat -> int): (chart: Option<TrendChart>)
      reads this
      ensures chart.Some? <==> CurrentScreen() == Board && selectedUser.Some?
      ensures chart.Some? ==>
        && chart.value.userId == selectedUser.value.id
        && chart.value.points == MockTrend(raw)
        && chart.value.stroke == ChartColor(selectedUser.value.status)
    {
      if CurrentScreen() == Board && selectedUser.Some? then
        Some(TrendChart(selectedUser.value.id, MockTrend(raw), ChartColor(selectedUser.value.status)))
      else
        None
    }

    /** The component's state after logout, which a second logout leaves alone. */
    predicate SignedOut()
      reads this
    {
      ADMIN_KEY !in store && admin == Flag(false) && password == "" && selectedUser == None
    }

    /** Mounting: the initial state, then the effect of the first render. */
    constructor (stored: map<string, string>)
      ensures Valid()
      ensures store == stored
      ensures admin == if ADMIN_KEY in stored then StoredText(stored[ADMIN_KEY]) else Absent
      ensures password == "" && risks == [] && filter == ALL && sortKey == "id"
      ensures model == "iforest" && selectedUser == None
      ensures loading == Truthy(admin)
      ensures inFlight == if loading then ["iforest"] else []
    {
      store := stored;
      admin := if ADMIN_KEY in stored then StoredText(stored[ADMIN_KEY]) else Absent;
      password := "";
      risks := [];
      filter := ALL;
      sortKey := "id";
      model := "iforest";
      loading := false;
      selectedUser := None;
      inFlight := [];
      new;
      if Truthy(admin) {
        FetchStart();
      }
    }

    /** The synchronous start of `fetchRisks`: spinner on, request for `model` issued. */
    method FetchStart()
      modifies this`loading, this`inFlight
      ensures loading
      ensures inFlight == old(inFlight) + [model]
    {
      loading := true;
      inFlight := inFlight + [model];
    }

    /** The effect, which fetches when `admin` is truthy, run after a render whose dependencies were `prevAdmin` and `prevModel`. */
    method RunEffect(prevAdmin: AdminFlag, prevModel: string)
      modifies this`loading, this`inFlight
      ensures var fires := (admin != prevAdmin || model != prevModel) && Truthy(admin);
        && loading == (old(loading) || fires)
        && inFlight == old(inFlight) + (if fires then [model] else [])
    {
      if (admin != prevAdmin || model != prevModel) && Truthy(admin) {
        FetchStart();
      }
    }

    /** Typing into the password field. */
    method SetPassword(text: string)
      requires Valid() && CurrentScreen() == LoginScreen
      modifies this
      ensures Valid()
      ensures password == text
      ensures store == old(store) && admin == old(admin) && risks == old(risks)
      ensures filter == old(filter) && sortKey == old(sortKey) && model == old(model)
      ensures loading == old(loading) && selectedUser == old(selectedUser) && inFlight == old(inFlight)
    {
      var prevAdmin, prevModel := admin, model;
      password := text;
      RunEffect(prevAdmin, prevModel);
    }

    /**
     * `handleLogin`: the right password stores the marker and opens the
     * session, whose effect issues a fetch; any other password is rejected
     * (the alert) and nothing changes.
     */
    method Login() returns (rejected: bool)
      requires Valid() && CurrentScreen() == LoginScreen
      modifies this
      ensures Valid()
      ensures rejected <==> old(password) != SECRET
      ensures rejected ==> unchanged(this)
      ensures !rejected ==>
        && store == old(store)[ADMIN_KEY := "true"]
        && admin == Flag(true)
        && loading && inFlight == [model]
        && password == old(password) && risks == old(risks) && selectedUser == old(selectedUser)
        && filter == old(filter) && sortKey == old(sortKey) && model == old(model)
    {
      var prevAdmin, prevModel := admin, model;
      if password == SECRET {
        store := store[ADMIN_KEY := "true"];
        admin := Flag(true);
        rejected := false;
      } else {
        rejected := true;
      }
      RunEffect(prevAdmin, prevModel);
    }

    /**
     * `handleLogout`: the marker is removed, the session closed, the
     * password and the selection cleared; records, filter, sort key and model
     * stay. Applied to a signed-out state it changes nothing.
     */
    method Logout()
      requires Valid() && CurrentScreen() != Spinner
      modifies this
      ensures Valid() && SignedOut() && CurrentScreen() == LoginScreen
      ensures store == old(store) - {ADMIN_KEY}
      ensures admin == Flag(false) && password == "" && selectedUser == None
      ensures risks == old(risks) && filter == old(filter) && sortKey == old(sortKey) && model == old(model)
      ensures !loading && loading == old(loading) && inFlight == old(inFlight)
      ensures old(SignedOut()) ==> unchanged(this)
    {
      var prevAdmin, prevModel := admin, model;
      if ADMIN_KEY !in store {
        assert store - {ADMIN_KEY} == store;
      }
      store := store - {ADMIN_KEY};
      admin := Flag(false);
      password := "";
      selectedUser := None;
      RunEffect(prevAdmin, prevModel);
    }

    /** Choosing a status filter: the view is projected anew, nothing is fetched. */
    method SetFilter(value: string)
      requires Valid() && CurrentScreen() == Board
      modifies this
      ensures Valid()
      ensures filter == value
      ensures store == old(store) && admin == old(admin) && password == old(password) && risks == old(risks)
      ensures sortKey == old(sortKey) && model == old(model)
      ensures loading == old(loading) && selectedUser == old(selectedUser) && inFlight == old(inFlight)
    {
      var prevAdmin, prevModel := admin, model;
      filter := value;
      RunEffect(prevAdmin, prevModel);
    }

    /** Choosing a sort key: the view is projected anew, nothing is fetched. */
    method SetSortKey(value: string)
      requires Valid() && CurrentScreen() == Board
      modifies this
      ensures Valid()
      ensures sortKey == value
      ensures store == old(store) && admin == old(admin) && password == old(password) && risks == old(risks)
      ensures filter == old(filter) && model == old(model)
      ensures loading == old(loading) && selectedUser == old(selectedUser) && inFlight == old(inFlight)
    {
      var prevAdmin, prevModel := admin, model;
      sortKey := value;
      RunEffect(prevAdmin, prevModel);
    }

    /** Choosing a model: a different model gets a new fetch callback, so the effect re-fetches. */
    method SetModel(value: string)
      requires Valid() && CurrentScreen() == Board
      modifies this
      ensures Valid()
      ensures model == value
      ensures loading <==> value != old(model)
      ensures inFlight == if value != old(model) then [value] else []
      ensures store == old(store) && admin == old(admin) && password == old(password) && risks == old(risks)
      ensures filter == old(filter) && sortKey == old(sortKey) && selectedUser == old(selectedUser)
    {
      var prevAdmin, prevModel := admin, model;
      model := value;
      RunEffect(prevAdmin, prevModel);
    }

    /** Clicking a card: that record becomes the selected user. */
    method Select(user: RiskRecord)
      requires Valid() && CurrentScreen() == Board && user in FilteredRisks()
      modifies this
      ensures Valid()
      ensures selectedUser == Some(user)
      ensures store == old(store) && admin == old(admin) && password == old(password) && risks == old(risks)
      ensures filter == old(filter) && sortKey == old(sortKey) && model == old(model)
      ensures loading == old(loading) && inFlight == old(inFlight)
    {
      var prevAdmin, prevModel := admin, model;
      selectedUser := Some(user);
      RunEffect(prevAdmin, prevModel);
    }

    /** The Close button of the trend panel; the list itself is not touched. */
    method Deselect()
      requires Valid() && CurrentScreen() == Board && selectedUser.Some?
      modifies this
      ensures Valid()
      ensures selectedUser == None
      ensures store == old(store) && admin == old(admin) && password == old(password) && risks == old(risks)
      ensures filter == old(filter) && sortKey == old(sortKey) && model == old(model)
      ensures loading == old(loading) && inFlight == old(inFlight)
    {
      var prevAdmin, prevModel := admin, model;
      selectedUser := None;
      RunEffect(prevAdmin, prevModel);
    }

    /**
     * The outstanding request answered with `data`: the records are replaced
     * wholesale and the spinner goes. The answer is always for the model on
     * display, because the model cannot change while the spinner is up.
     */
    method FetchSucceeded(data: seq<RiskRecord>)
      requires Valid() && inFlight != []
      modifies this
      ensures Valid()
      ensures old(inFlight) == [model]
      ensures risks == data && !loading && inFlight == []
      ensures store == old(store) && admin == old(admin) && password == old(password)
      ensures filter == old(filter) && sortKey == old(sortKey) && model == old(model)
      ensures selectedUser == old(selectedUser)
    {
      var prevAdmin, prevModel := admin, model;
      inFlight := inFlight[1..];
      risks := data;
      loading := false;
      RunEffect(prevAdmin, prevModel);
    }

    /** The outstanding request failed (logged only): the old records stay and the spinner goes. */
    method FetchFailed()
      requires Valid() && inFlight != []
      modifies this
      ensures Valid()
      ensures !loading && inFlight == []
      ensures store == old(store) && admin == old(admin) && password == old(password) && risks == old(risks)
      ensures filter == old(filter) && sortKey == old(sortKey) && model == old(model)
      ensures selectedUser == old(selectedUser)
    {
      var prevAdmin, prevModel := admin, model;
      inFlight := inFlight[1..];
      loading := false;
      RunEffect(prevAdmin, prevModel);
    }
  }

  /** A session as a user goes through it, stated with the contracts above only. */
  method SessionWalkthrough(data: seq<RiskRecord>)
  {
    var app := new App(map[]);
    assert app.CurrentScreen() == LoginScreen;
    app.SetPassword("wrong");
    var rejected := app.Login();
    assert rejected && app.CurrentScreen() == LoginScreen && ADMIN_KEY !in app.store;
    app.SetPassword(SECRET);
    rejected := app.Login();
    assert !rejected && app.CurrentScreen() == Spinner && app.store[ADMIN_KEY] == "true";
    app.FetchSucceeded(data);
    assert app.risks == data && app.CurrentScreen() == Board;
    app.SetModel("random");
    assert app.CurrentScreen() == Spinner && app.inFlight == ["random"];
    app.FetchFailed();
    assert app.risks == data && app.CurrentScreen() == Board;
    app.Logout();
    assert ADMIN_KEY !in app.store && app.CurrentScreen() == LoginScreen && app.risks == data;
    app.Logout();
    assert app.SignedOut() && app.risks == data;
  }
}
