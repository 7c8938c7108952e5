/**
 * The mock backend's model: the session state that the front end observes,
 * and the canned roster and peer fixtures that the connect flow installs.
 * Latitude, longitude and the peers' IP addresses are not modelled.
 */
module Store {
  import opened Wrappers
  import opened Enums

  datatype Settings = Settings(
    mode: Mode,
    userid: Option<string>,
    systemProxy: bool,
    proxiedSites: seq<string>,
    lang: string,
    autoStart: bool,
    autoReport: bool,
    proxyAllSites: bool)

  datatype Peer = Peer(peerid: string, userid: string, mode: Mode, country: string, kind: string)

  datatype Peers = Peers(current: seq<string>, lifetime: seq<Peer>)

  datatype Connectivity = Connectivity(
    internet: bool,
    ip: string,
    gtalk: Gtalk,
    gtalkAuthorized: bool,
    peers: Peers)

  datatype SystemInfo = SystemInfo(os: Os)

  datatype Location = Location(country: string)

  datatype Contact = Contact(userid: string, name: string, status: string, peers: seq<string>)

  /**
   * The whole model. `censoringCountries` stands for the countries table
   * the model carries: the countries whose entry says they censor.
   * `scenariosApplied` is `mock.scenarios.applied`, kept as the opaque
   * query value the scenario picker stores.
   */
  datatype Model = Model(
    settings: Settings,
    connectivity: Connectivity,
    system: SystemInfo,
    location: Location,
    censoringCountries: set<string>,
    modal: Modal,
    roster: seq<Contact>,
    setupComplete: bool,
    showVis: bool,
    scenariosApplied: Option<string>)

  predicate InCensoringCountry(m: Model)
  {
    m.location.country in m.censoringCountries
  }

  predicate InGiveMode(m: Model)
  {
    m.settings.mode == Mode.Give
  }

  /** Only Ubuntu asks for a password before authorizing. */
  predicate PasswordCreateRequired(m: Model)
  {
    m.system.os == Os.Ubuntu
  }

  /** The identity the connect flow treats as unable to reach Google Talk. */
  const UnreachableUser: string := "user_cant_reach_gtalk@example.com"

  /** The only identity the connect flow treats as invited to Lantern. */
  const InvitedUser: string := "user@example.com"

  const PeerFixtures: seq<Peer> := [
    Peer("peerid1", "lantern_friend1@example.com", Mode.Give, "de", "desktop"),
    Peer("peerid2", "lantern_power_user@example.com", Mode.Give, "se", "lec2proxy"),
    Peer("peerid3", "lantern_power_user@example.com", Mode.Give, "us", "laeproxy"),
    Peer("peerid4", "lantern_power_user@example.com", Mode.Give, "gb", "lec2proxy"),
    Peer("peerid5", "lantern_power_user@example.com", Mode.Get, "cn", "desktop")
  ]

  /** The ids of the current peers: those of the fixture peers, in order (PeerIdsOfFixtures). */
  const PeerIds: seq<string> := ["peerid1", "peerid2", "peerid3", "peerid4", "peerid5"]

  const RosterFixture: seq<Contact> := [
    Contact("lantern_friend1@example.com", "Lantern Friend1", "available", ["peerid1"])
  ]

  /** The current peer ids are exactly the fixture peers' ids, in order. */
  lemma PeerIdsOfFixtures()
    ensures |PeerIds| == |PeerFixtures| == 5
    ensures forall k :: 0 <= k < 5 ==> PeerIds[k] == PeerFixtures[k].peerid
  {
  }

  /**
   * The paths of the model that handlers publish to the front end after
   * changing them; `WholeModelPath` publishes the whole model.
   */
  datatype Path =
    | ModalPath
    | GtalkAuthorizedPath
    | GtalkPath
    | PeersPath
    | InternetPath
    | IpPath
    | RosterPath
    | OsPath
    | LocationPath
    | ShowVisPath
    | SetupCompletePath
    | ScenariosAppliedPath
    | UseridPath
    | ModePath
    | SystemProxyPath
    | LangPath
    | AutoStartPath
    | AutoReportPath
    | ProxyAllSitesPath
    | ProxiedSitesPath
    | WholeModelPath

  /** The dotted name a path is published under; the whole model is the empty path. */
  function Dotted(p: Path): string
  {
    match p
    case ModalPath => "modal"
    case GtalkAuthorizedPath => "connectivity.gtalkAuthorized"
    case GtalkPath => "connectivity.gtalk"
    case PeersPath => "connectivity.peers"
    case InternetPath => "connectivity.internet"
    case IpPath => "connectivity.ip"
    case RosterPath => "roster"
    case OsPath => "system.os"
    case LocationPath => "location"
    case ShowVisPath => "showVis"
    case SetupCompletePath => "setupComplete"
    case ScenariosAppliedPath => "mock.scenarios.applied"
    case UseridPath => "settings.userid"
    case ModePath => "settings.mode"
    case SystemProxyPath => "settings.systemProxy"
    case LangPath => "settings.lang"
    case AutoStartPath => "settings.autoStart"
    case AutoReportPath => "settings.autoReport"
    case ProxyAllSitesPath => "settings.proxyAllSites"
    case ProxiedSitesPath => "settings.proxiedSites"
    case WholeModelPath => ""
  }
}
