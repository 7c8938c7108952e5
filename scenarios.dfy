/**
 * The scenario presets: named batches of field assignments, grouped by
 * category and variant (`os.osx`, `location.beijing`, ...). A scenario is
 * declarative data, a list of typed setters; applying it merges each setter
 * into the model in order and publishes that setter's dotted path.
 */
module Scenarios {
  import opened Wrappers
  import opened Enums
  import opened Store

  /** One settable path of the model, with the value it receives. */
  datatype FieldUpdate =
    | SetOs(os: Os)
    | SetInternet(internet: bool)
    | SetGtalkAuthorized(authorized: bool)
    | SetGtalk(gtalk: Gtalk)
    | SetLocation(country: string)
    | SetIp(ip: string)

  /** The dotted path that is published after the setter is merged. */
  function PathOf(u: FieldUpdate): Path
  {
    match u
    case SetOs(_) => OsPath
    case SetInternet(_) => InternetPath
    case SetGtalkAuthorized(_) => GtalkAuthorizedPath
    case SetGtalk(_) => GtalkPath
    case SetLocation(_) => LocationPath
    case SetIp(_) => IpPath
  }

  /** Writes one path of the model and nothing else. */
  function Merge(m: Model, u: FieldUpdate): (r: Model)
    ensures r.settings == m.settings && r.modal == m.modal && r.roster == m.roster
    ensures r.setupComplete == m.setupComplete && r.showVis == m.showVis
    ensures r.censoringCountries == m.censoringCountries && r.scenariosApplied == m.scenariosApplied
    ensures r.connectivity.peers == m.connectivity.peers
    ensures u.SetOs? ==> r.system.os == u.os
    ensures u.SetInternet? ==> r.connectivity.internet == u.internet
    ensures u.SetGtalkAuthorized? ==> r.connectivity.gtalkAuthorized == u.authorized
    ensures u.SetGtalk? ==> r.connectivity.gtalk == u.gtalk
    ensures u.SetLocation? ==> r.location.country == u.country
    ensures u.SetIp? ==> r.connectivity.ip == u.ip
    ensures !u.SetOs? ==> r.system == m.system
    ensures !u.SetLocation? ==> r.location == m.location
    ensures !u.SetInternet? ==> r.connectivity.internet == m.connectivity.internet
    ensures !u.SetGtalkAuthorized? ==> r.connectivity.gtalkAuthorized == m.connectivity.gtalkAuthorized
    ensures !u.SetGtalk? ==> r.connectivity.gtalk == m.connectivity.gtalk
    ensures !u.SetIp? ==> r.connectivity.ip == m.connectivity.ip
  {
    match u
    case SetOs(os) => m.(system := m.system.(os := os))
    case SetInternet(b) => m.(connectivity := m.connectivity.(internet := b))
    case SetGtalkAuthorized(b) => m.(connectivity := m.connectivity.(gtalkAuthorized := b))
    case SetGtalk(g) => m.(connectivity := m.connectivity.(gtalk := g))
    case SetLocation(c) => m.(location := m.location.(country := c))
    case SetIp(ip) => m.(connectivity := m.connectivity.(ip := ip))
  }

  /** Merges the setters left to right. */
  function MergeAll(m: Model, us: seq<FieldUpdate>): Model
    decreases |us|
  {
    if us == [] then m else Merge(MergeAll(m, us[..|us| - 1]), us[|us| - 1])
  }

  /** The paths published while merging `us`, one per setter, in order. */
  function Paths(us: seq<FieldUpdate>): (ps: seq<Path>)
    ensures |ps| == |us| && forall k :: 0 <= k < |us| ==> ps[k] == PathOf(us[k])
  {
    seq(|us|, k requires 0 <= k < |us| => PathOf(us[k]))
  }

  datatype Category = OsCategory | InternetCategory | GtalkAuthorizationCategory | GtalkConnectivityCategory | LocationCategory

  datatype Scenario =
    | OsWindows | OsUbuntu | OsOsx
    | InternetConnection | InternetNoConnection
    | GtalkNotAuthorized | GtalkAuthorized
    | GtalkNotConnected | GtalkConnecting | GtalkConnected
    | LocationBeijing | LocationParis

  function CategoryOf(sc: Scenario): Category
  {
    match sc
    case OsWindows | OsUbuntu | OsOsx => OsCategory
    case InternetConnection | InternetNoConnection => InternetCategory
    case GtalkNotAuthorized | GtalkAuthorized => GtalkAuthorizationCategory
    case GtalkNotConnected | GtalkConnecting | GtalkConnected => GtalkConnectivityCategory
    case LocationBeijing | LocationParis => LocationCategory
  }

  /** The `category.variant` path under which the scenario table files the preset. */
  function ScenarioPath(sc: Scenario): string
  {
    match sc
    case OsWindows => "os.windows"
    case OsUbuntu => "os.ubuntu"
    case OsOsx => "os.osx"
    case InternetConnection => "internet.connection"
    case InternetNoConnection => "internet.noConnection"
    case GtalkNotAuthorized => "gtalkAuthorization.notAuthorized"
    case GtalkAuthorized => "gtalkAuthorization.authorized"
    case GtalkNotConnected => "gtalkConnectivity.notConnected"
    case GtalkConnecting => "gtalkConnectivity.connecting"
    case GtalkConnected => "gtalkConnectivity.connected"
    case LocationBeijing => "location.beijing"
    case LocationParis => "location.paris"
  }

  /** Looks a preset up by its path; a path the table does not hold gives `None`. */
  function ScenarioFromPath(p: string): (r: Option<Scenario>)
    ensures r.Some? ==> ScenarioPath(r.value) == p
    ensures r.None? ==> forall sc :: ScenarioPath(sc) != p
  {
    if p == "os.windows" then Some(OsWindows)
    else if p == "os.ubuntu" then Some(OsUbuntu)
    else if p == "os.osx" then Some(OsOsx)
    else if p == "internet.connection" then Some(InternetConnection)
    else if p == "internet.noConnection" then Some(InternetNoConnection)
    else if p == "gtalkAuthorization.notAuthorized" then Some(GtalkNotAuthorized)
    else if p == "gtalkAuthorization.authorized" then Some(GtalkAuthorized)
    else if p == "gtalkConnectivity.notConnected" then Some(GtalkNotConnected)
    else if p == "gtalkConnectivity.connecting" then Some(Scenario.GtalkConnecting)
    else if p == "gtalkConnectivity.connected" then Some(GtalkConnected)
    else if p == "location.beijing" then Some(LocationBeijing)
    else if p == "location.paris" then Some(LocationParis)
    else Option.None
  }

  /** Every preset is found under its own path. */
  lemma ScenarioPathRoundTrip(sc: Scenario)
    ensures ScenarioFromPath(ScenarioPath(sc)) == Some(sc)
  {
  }

  /** The field assignments of a preset, in the order the table lists them. */
  function ScenarioState(sc: Scenario): seq<FieldUpdate>
  {
    match sc
    case OsWindows => [SetOs(Os.Windows)]
    case OsUbuntu => [SetOs(Os.Ubuntu)]
    case OsOsx => [SetOs(Os.Osx)]
    case InternetConnection => [SetInternet(true)]
    case InternetNoConnection => [SetInternet(false)]
    case GtalkNotAuthorized => [SetGtalkAuthorized(false)]
    case GtalkAuthorized => [SetGtalkAuthorized(true)]
    case GtalkNotConnected => [SetGtalk(Gtalk.NotConnected)]
    case GtalkConnecting => [SetGtalk(Gtalk.Connecting)]
    case GtalkConnected => [SetGtalk(Gtalk.Connected)]
    case LocationBeijing => [SetLocation("cn"), SetIp("123.123.123.123")]
    case LocationParis => [SetLocation("fr"), SetIp("78.250.177.119")]
  }

  function ApplyScenario(m: Model, sc: Scenario): Model
  {
    MergeAll(m, ScenarioState(sc))
  }

  /** A preset holds one or two setters, merged in order. */
  lemma ApplyScenarioSteps(m: Model, sc: Scenario)
    ensures var us := ScenarioState(sc);
      && 1 <= |us| <= 2
      && ApplyScenario(m, sc) == if |us| == 1 then Merge(m, us[0]) else Merge(Merge(m, us[0]), us[1])
  {
    var us := ScenarioState(sc);
    assert MergeAll(m, us[..1]) == Merge(m, us[0]) by {
      assert us[..1][..0] == [];
    }
    if |us| == 2 {
      assert us[..|us| - 1] == us[..1];
    } else {
      assert us == us[..1];
    }
  }

  /**
   * What each preset does, written directly as updates of the model; the
   * setter table above must agree with it (ApplyScenarioIsPreset).
   */
  function Preset(m: Model, sc: Scenario): Model
  {
    match sc
    case OsWindows => m.(system := SystemInfo(Os.Windows))
    case OsUbuntu => m.(system := SystemInfo(Os.Ubuntu))
    case OsOsx => m.(system := SystemInfo(Os.Osx))
    case InternetConnection => m.(connectivity := m.connectivity.(internet := true))
    case InternetNoConnection => m.(connectivity := m.connectivity.(internet := false))
    case GtalkNotAuthorized => m.(connectivity := m.connectivity.(gtalkAuthorized := false))
    case GtalkAuthorized => m.(connectivity := m.connectivity.(gtalkAuthorized := true))
    case GtalkNotConnected => m.(connectivity := m.connectivity.(gtalk := Gtalk.NotConnected))
    case GtalkConnecting => m.(connectivity := m.connectivity.(gtalk := Gtalk.Connecting))
    case GtalkConnected => m.(connectivity := m.connectivity.(gtalk := Gtalk.Connected))
    case LocationBeijing => m.(location := Location("cn"), connectivity := m.connectivity.(ip := "123.123.123.123"))
    case LocationParis => m.(location := Location("fr"), connectivity := m.connectivity.(ip := "78.250.177.119"))
  }

  /** Merging a preset's setters one by one has exactly the preset's effect. */
  lemma ApplyScenarioIsPreset(m: Model, sc: Scenario)
    ensures ApplyScenario(m, sc) == Preset(m, sc)
  {
    ApplyScenarioSteps(m, sc);
  }

  /** Applying a preset changes only the fields of its own category. */
  lemma ScenarioFrame(m: Model, sc: Scenario)
    ensures var r := ApplyScenario(m, sc);
      && r.settings == m.settings && r.modal == m.modal && r.roster == m.roster
      && r.setupComplete == m.setupComplete && r.showVis == m.showVis
      && r.censoringCountries == m.censoringCountries && r.scenariosApplied == m.scenariosApplied
      && r.connectivity.peers == m.connectivity.peers
      && (CategoryOf(sc) != OsCategory ==> r.system == m.system)
      && (CategoryOf(sc) != InternetCategory ==> r.connectivity.internet == m.connectivity.internet)
      && (CategoryOf(sc) != GtalkAuthorizationCategory ==> r.connectivity.gtalkAuthorized == m.connectivity.gtalkAuthorized)
      && (CategoryOf(sc) != GtalkConnectivityCategory ==> r.connectivity.gtalk == m.connectivity.gtalk)
      && (CategoryOf(sc) != LocationCategory ==> r.location == m.location && r.connectivity.ip == m.connectivity.ip)
  {
    ApplyScenarioIsPreset(m, sc);
  }

  /** Applying the same preset twice leaves the fields as applying it once. */
  lemma ScenarioIdempotent(m: Model, sc: Scenario)
    ensures ApplyScenario(ApplyScenario(m, sc), sc) == ApplyScenario(m, sc)
  {
    ApplyScenarioIsPreset(m, sc);
    ApplyScenarioIsPreset(ApplyScenario(m, sc), sc);
  }

  /** Within a category the later preset wins outright. */
  lemma SameCategoryOverrides(m: Model, a: Scenario, b: Scenario)
    requires CategoryOf(a) == CategoryOf(b)
    ensures ApplyScenario(ApplyScenario(m, a), b) == ApplyScenario(m, b)
  {
    ApplyScenarioIsPreset(m, a);
    ApplyScenarioIsPreset(m, b);
    ApplyScenarioIsPreset(ApplyScenario(m, a), b);
  }

  /** The presets applied when the session is created and whenever it is reset. */
  const DefaultScenarios: seq<Scenario> :=
    [OsOsx, LocationBeijing, InternetConnection, GtalkNotConnected, GtalkNotAuthorized]

  /** The preset paths the reset state lists, in order. */
  const DefaultScenarioPathList: seq<string> :=
    ["os.osx", "location.beijing", "internet.connection",
     "gtalkConnectivity.notConnected", "gtalkAuthorization.notAuthorized"]

  /**
   * Looking up each listed path finds the corresponding entry of
   * `DefaultScenarios`, so applying `DefaultScenarios` is applying the
   * presets the reset state names.
   */
  lemma DefaultScenariosLookedUp()
    ensures |DefaultScenarioPathList| == |DefaultScenarios|
    ensures forall k :: 0 <= k < |DefaultScenarios| ==>
      ScenarioFromPath(DefaultScenarioPathList[k]) == Some(DefaultScenarios[k])
  {
  }

  /**
   * Applies the presets in order, as `_reset` does with its list of
   * scenario paths; each step has the effect of `Preset`, which is the
   * effect of merging that preset's setters (ApplyScenarioIsPreset).
   */
  function ApplyAll(m: Model, scs: seq<Scenario>): Model
    decreases |scs|
  {
    if scs == [] then m else Preset(ApplyAll(m, scs[..|scs| - 1]), scs[|scs| - 1])
  }

  /** The paths published while applying the presets in order. */
  function ScenarioPaths(scs: seq<Scenario>): seq<Path>
    decreases |scs|
  {
    if scs == [] then [] else ScenarioPaths(scs[..|scs| - 1]) + Paths(ScenarioState(scs[|scs| - 1]))
  }

  /** Applying the first k + 1 presets of a list applies preset k after the first k. */
  lemma ApplyAllStep(m: Model, scs: seq<Scenario>, k: nat)
    requires k < |scs|
    ensures ApplyAll(m, scs[..k + 1]) == Preset(ApplyAll(m, scs[..k]), scs[k])
  {
    assert scs[..k + 1][..k] == scs[..k];
  }

  /** Publishing for the first k + 1 presets publishes preset k's paths after the first k's. */
  lemma ScenarioPathsStep(scs: seq<Scenario>, k: nat)
    requires k < |scs|
    ensures ScenarioPaths(scs[..k + 1]) == ScenarioPaths(scs[..k]) + Paths(ScenarioState(scs[k]))
  {
    assert scs[..k + 1][..k] == scs[..k];
  }


  /** Applying two lists in turn is applying their concatenation. */
  lemma {:induction false} ApplyAllAppend(m: Model, a: seq<Scenario>, b: seq<Scenario>)
    ensures ApplyAll(m, a + b) == ApplyAll(ApplyAll(m, a), b)
    decreases |b|
  {
    if b != [] {
      var ab := a + b;
      assert ab[..|ab| - 1] == a + b[..|b| - 1];
      ApplyAllAppend(m, a, b[..|b| - 1]);
    } else {
      assert a + b == a;
    }
  }

  /** Two lists applied in turn publish the first list's paths, then the second's. */
  lemma {:induction false} ScenarioPathsAppend(a: seq<Scenario>, b: seq<Scenario>)
    ensures ScenarioPaths(a + b) == ScenarioPaths(a) + ScenarioPaths(b)
    decreases |b|
  {
    if b != [] {
      var ab, b' := a + b, b[..|b| - 1];
      var last := Paths(ScenarioState(b[|b| - 1]));
      assert ab[..|ab| - 1] == a + b';
      assert ab[|ab| - 1] == b[|b| - 1];
      assert ScenarioPaths(ab) == ScenarioPaths(a + b') + last;
      assert ScenarioPaths(b) == ScenarioPaths(b') + last;
      ScenarioPathsAppend(a, b');
      AppendAssociative(ScenarioPaths(a), ScenarioPaths(b'), last);
    } else {
      assert a + b == a;
    }
  }

  /** Concatenation of sequences is associative. */
  lemma AppendAssociative<T>(a: seq<T>, b: seq<T>, c: seq<T>)
    ensures a + (b + c) == (a + b) + c
  {
  }

  /** The default list is applied preset by preset, in the order it lists them. */
  lemma DefaultScenariosInOrder(m: Model)
    ensures ApplyAll(m, DefaultScenarios) ==
      Preset(Preset(Preset(Preset(Preset(
        m, OsOsx), LocationBeijing), InternetConnection), GtalkNotConnected), GtalkNotAuthorized)
  {
    var l := DefaultScenarios;
    assert l[..0] == [];
    ApplyAllStep(m, l, 0);
    ApplyAllStep(m, l, 1);
    ApplyAllStep(m, l, 2);
    ApplyAllStep(m, l, 3);
    ApplyAllStep(m, l, 4);
    assert l[..5] == l;
  }

  /** The default list publishes each preset's paths in turn. */
  lemma DefaultScenarioPaths()
    ensures ScenarioPaths(DefaultScenarios) ==
      [OsPath, LocationPath, IpPath, InternetPath, GtalkPath, GtalkAuthorizedPath]
  {
    var l := DefaultScenarios;
    assert l[..0] == [];
    ScenarioPathsStep(l, 0);
    assert ScenarioPaths(l[..1]) == [OsPath];
    ScenarioPathsStep(l, 1);
    assert ScenarioPaths(l[..2]) == [OsPath, LocationPath, IpPath];
    ScenarioPathsStep(l, 2);
    assert ScenarioPaths(l[..3]) == [OsPath, LocationPath, IpPath, InternetPath];
    ScenarioPathsStep(l, 3);
    ScenarioPathsStep(l, 4);
    assert l[..5] == l;
  }
}
