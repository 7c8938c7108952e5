/**
 * The closed value sets of the mock API: operating modes, modal dialogs,
 * interactions, Google Talk connectivity and operating systems, each with
 * the exact string the front end sees.
 */
module Enums {
  import opened Wrappers

  datatype Mode = Give | Get

  /** The dialogs the front end can show; `None` (the empty string) means no dialog. */
  datatype Modal =
    | SettingsUnlock | SettingsLoadFailure | Welcome | Authorize | GtalkConnecting
    | GtalkUnreachable | AuthorizeLater | NotInvited | RequestInvite | RequestSent
    | FirstInviteReceived | ProxiedSites | SystemProxy | PasswordCreate | InviteFriends
    | Finished | ContactDevs | Settings | ConfirmReset | GiveModeForbidden | About
    | UpdateAvailable | Scenarios | None

  /** User actions; `Give` and `Get` are the two mode strings, which are also accepted as interactions. */
  datatype Interaction =
    | InviteFriends | ContactDevs | Settings | ProxiedSites | Reset | About
    | UpdateAvailable | RequestInvite | RetryNow | RetryLater | Cancel | Continue
    | Close | Quit | Scenarios | Give | Get

  datatype Gtalk = Connected | Connecting | NotConnected

  datatype Os = Windows | Ubuntu | Osx

  function ModeName(m: Mode): string
  {
    match m
    case Give => "give"
    case Get => "get"
  }

  function ModalName(m: Modal): string
  {
    match m
    case SettingsUnlock => "settingsUnlock"
    case SettingsLoadFailure => "settingsLoadFailure"
    case Welcome => "welcome"
    case Authorize => "authorize"
    case GtalkConnecting => "gtalkConnecting"
    case GtalkUnreachable => "gtalkUnreachable"
    case AuthorizeLater => "authorizeLater"
    case NotInvited => "notInvited"
    case RequestInvite => "requestInvite"
    case RequestSent => "requestSent"
    case FirstInviteReceived => "firstInviteReceived"
    case ProxiedSites => "proxiedSites"
    case SystemProxy => "systemProxy"
    case PasswordCreate => "passwordCreate"
    case InviteFriends => "inviteFriends"
    case Finished => "finished"
    case ContactDevs => "contactDevs"
    case Settings => "settings"
    case ConfirmReset => "confirmReset"
    case GiveModeForbidden => "giveModeForbidden"
    case About => "about"
    case UpdateAvailable => "updateAvailable"
    case Scenarios => "scenarios"
    case None => ""
  }

  function InteractionName(i: Interaction): string
  {
    match i
    case InviteFriends => "inviteFriends"
    case ContactDevs => "contactDevs"
    case Settings => "settings"
    case ProxiedSites => "proxiedSites"
    case Reset => "reset"
    case About => "about"
    case UpdateAvailable => "updateAvailable"
    case RequestInvite => "requestInvite"
    case RetryNow => "retryNow"
    case RetryLater => "retryLater"
    case Cancel => "cancel"
    case Continue => "continue"
    case Close => "close"
    case Quit => "quit"
    case Scenarios => "scenarios"
    case Give => "give"
    case Get => "get"
  }

  /**
   * Decodes the `interaction` query parameter. A string that names no
   * interaction gives `None`: every modal rejects it, as it rejects a
   * missing parameter.
   */
  function ParseInteraction(s: string): (r: Option<Interaction>)
    ensures r.Some? ==> InteractionName(r.value) == s
    ensures r.None? ==> forall i :: InteractionName(i) != s
  {
    if s == "inviteFriends" then Some(Interaction.InviteFriends)
    else if s == "contactDevs" then Some(Interaction.ContactDevs)
    else if s == "settings" then Some(Interaction.Settings)
    else if s == "proxiedSites" then Some(Interaction.ProxiedSites)
    else if s == "reset" then Some(Interaction.Reset)
    else if s == "about" then Some(Interaction.About)
    else if s == "updateAvailable" then Some(Interaction.UpdateAvailable)
    else if s == "requestInvite" then Some(Interaction.RequestInvite)
    else if s == "retryNow" then Some(Interaction.RetryNow)
    else if s == "retryLater" then Some(Interaction.RetryLater)
    else if s == "cancel" then Some(Interaction.Cancel)
    else if s == "continue" then Some(Interaction.Continue)
    else if s == "close" then Some(Interaction.Close)
    else if s == "quit" then Some(Interaction.Quit)
    else if s == "scenarios" then Some(Interaction.Scenarios)
    else if s == "give" then Some(Interaction.Give)
    else if s == "get" then Some(Interaction.Get)
    else Option.None
  }

  /** Every interaction's own name decodes back to it. */
  lemma ParseInteractionName(i: Interaction)
    ensures ParseInteraction(InteractionName(i)) == Some(i)
  {
  }

  /** The mode named by a `give` or `get` interaction; the strings coincide. */
  function ModeChosen(i: Interaction): (r: Option<Mode>)
    ensures r.Some? <==> i == Interaction.Give || i == Interaction.Get
    ensures r.Some? ==> ModeName(r.value) == InteractionName(i)
  {
    match i
    case Give => Some(Mode.Give)
    case Get => Some(Mode.Get)
    case _ => Option.None
  }
}
