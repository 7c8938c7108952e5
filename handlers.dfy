/**
 * The API servlet's endpoints as functions from the session before a
 * request to an `Outcome`: the session after it, the HTTP status it
 * answers with, and the model paths it publishes to the front end, in
 * order. The class in the Servlet module performs the same steps in place
 * and is proved against these functions.
 */
module Handlers {
  import opened Wrappers
  import opened Enums
  import opened Store
  import opened Scenarios
  import opened Sequencer
  import opened ResetState
  import opened Strings

  /**
   * `Threw` is a request whose handler ends in an uncaught exception after
   * changing the session; `wroteBadRequest` records that a 400 header had
   * already been written when it threw.
   */
  datatype Status = Ok | BadRequest | Forbidden | Threw(wroteBadRequest: bool)

  /**
   * What the servlet holds besides the session: the model the backend
   * restores on `resetModel`, and the proxied-sites list captured when the
   * servlet was built.
   */
  datatype Env = Env(seed: Model, defaultProxiedSites: seq<string>)

  datatype Outcome = Outcome(after: Session, status: Status, published: seq<Path>)

  /** A 400 that leaves everything as it was and publishes nothing. */
  function Reject(s: Session): Outcome
  {
    Outcome(s, BadRequest, [])
  }

  function WithModal(s: Session, m: Modal): Session
  {
    s.(model := s.model.(modal := m))
  }

  function WithMode(s: Session, mode: Mode): Session
  {
    s.(model := s.model.(settings := s.model.settings.(mode := mode)))
  }

  /** Shows dialog `m` and publishes `modal`. */
  function Show(s: Session, m: Modal): Outcome
  {
    Outcome(WithModal(s, m), Ok, [ModalPath])
  }

  /** Sets the completion flag of dialog `m`. */
  function MarkDone(s: Session, m: Modal): (r: Session)
    requires Valid(s) && m in TrackedModals
    ensures Valid(r)
  {
    s.(internal := s.internal.(modalsCompleted := s.internal.modalsCompleted[m := true]))
  }

  /** The completion flags of `t` are those of `s`, possibly with `m`'s set. */
  predicate RaisesAtMost(s: Session, t: Session, m: Modal)
  {
    t.internal.modalsCompleted == s.internal.modalsCompleted
    || t.internal.modalsCompleted == s.internal.modalsCompleted[m := true]
  }

  /** `o` preceded by the publications `pubs`. */
  function Prefixed(pubs: seq<Path>, o: Outcome): Outcome
  {
    o.(published := pubs + o.published)
  }

  /** `_advanceModal(backTo)`: shows the next dialog the sequencer chooses. */
  function Advance(s: Session, backTo: Option<Modal>): Outcome
    requires Valid(s)
  {
    Show(s, NextModal(s.model.settings.mode, s.internal.modalsCompleted, backTo))
  }

  /** The mode named by an interaction, if it names one. */
  function ChosenMode(i: Option<Interaction>): Option<Mode>
  {
    if i.Some? then ModeChosen(i.value) else Option.None
  }

  /**
   * The dialog that an interaction opens from the main screen: the dialog
   * with the same name as the interaction, for the five that have one.
   */
  function DialogFor(i: Interaction): (r: Option<Modal>)
    ensures r.Some? ==> ModalName(r.value) == InteractionName(i)
    ensures r.Some? <==> i in {Interaction.InviteFriends, Interaction.ContactDevs,
                              Interaction.About, Interaction.UpdateAvailable, Interaction.Settings}
  {
    match i
    case InviteFriends => Some(Modal.InviteFriends)
    case ContactDevs => Some(Modal.ContactDevs)
    case About => Some(Modal.About)
    case UpdateAvailable => Some(Modal.UpdateAvailable)
    case Settings => Some(Modal.Settings)
    case _ => Option.None
  }

  /** Choosing give mode from a censoring country: forbidden, shown as a dialog, answered 400. */
  function GiveForbidden(s: Session): Outcome
  {
    Outcome(WithModal(s, Modal.GiveModeForbidden), BadRequest, [ModalPath])
  }

  /**
   * `_tryConnect`: connect to Google Talk; an unreachable user ends at the
   * unreachable dialog, an uninvited one gets the roster and the
   * not-invited dialog, the invited one also gets the peer fixtures and
   * moves on in the sequence.
   */
  function TryConnect(s: Session): (o: Outcome)
    requires Valid(s)
    ensures Valid(o.after) && o.status == Ok
    ensures o.after.internal == s.internal
  {
    var userid := s.model.settings.userid;
    var connecting := s.model.(
      connectivity := s.model.connectivity.(gtalk := Gtalk.Connecting),
      modal := Modal.GtalkConnecting);
    var pubs := [GtalkPath, ModalPath];
    if userid == Some(UnreachableUser) then
      var unreachable := connecting.(
        connectivity := connecting.connectivity.(gtalk := Gtalk.NotConnected),
        modal := Modal.GtalkUnreachable);
      Outcome(s.(model := unreachable), Ok, pubs + [GtalkPath, ModalPath])
    else
      var connected := connecting.(
        connectivity := connecting.connectivity.(gtalk := Gtalk.Connected),
        roster := RosterFixture);
      var pubs2 := pubs + [GtalkPath, RosterPath];
      if userid != Some(InvitedUser) then
        Outcome(s.(model := connected.(modal := Modal.NotInvited)), Ok, pubs2 + [ModalPath])
      else
        var withPeers := connected.(
          connectivity := connected.connectivity.(peers := Peers(PeerIds, PeerFixtures)));
        Prefixed(pubs2 + [PeersPath], Advance(s.(model := withPeers), Option.None))
  }

  /** Opening the scenario picker remembers the dialog it was opened from. */
  function OpenScenarios(s: Session): Outcome
  {
    Outcome(
      Session(s.model.(modal := Modal.Scenarios), s.internal.(lastModal := s.model.modal)),
      Ok, [ModalPath])
  }

  /** The picker's `continue` stores the chosen presets and returns to the remembered dialog. */
  function ScenariosCase(s: Session, i: Option<Interaction>, applied: Option<string>): Outcome
  {
    if i != Some(Interaction.Continue) then Reject(s)
    else
      Outcome(
        s.(model := s.model.(scenariosApplied := applied, modal := s.internal.lastModal)),
        Ok, [ScenariosAppliedPath, ModalPath])
  }

  function WelcomeCase(s: Session, i: Option<Interaction>): (o: Outcome)
    requires Valid(s)
    ensures Valid(o.after) && RaisesAtMost(s, o.after, Modal.Welcome)
  {
    match ChosenMode(i)
    case None => Reject(s)
    case Some(mode) =>
      if mode == Mode.Give && InCensoringCountry(s.model) then GiveForbidden(s)
      else
        var chosen := WithMode(s, mode);
        var next := if PasswordCreateRequired(chosen.model) then Modal.PasswordCreate else Modal.Authorize;
        Outcome(MarkDone(WithModal(chosen, next), Modal.Welcome), Ok, [ModePath, ModalPath])
  }

  function GiveModeForbiddenCase(s: Session, i: Option<Interaction>): (o: Outcome)
    requires Valid(s)
    ensures Valid(o.after) && RaisesAtMost(s, o.after, Modal.Welcome)
  {
    if i == Some(Interaction.Continue) then
      Prefixed([ModePath], Advance(MarkDone(WithMode(s, Mode.Get), Modal.Welcome), Some(Modal.Settings)))
    else if i == Some(Interaction.Cancel) && !IsDone(s.internal.modalsCompleted, Modal.Welcome) then
      Show(s, Modal.Welcome)
    else Reject(s)
  }

  function ProxiedSitesCase(env: Env, s: Session, i: Option<Interaction>): (o: Outcome)
    requires Valid(s)
    ensures Valid(o.after) && RaisesAtMost(s, o.after, Modal.ProxiedSites)
  {
    if i == Some(Interaction.Continue) then
      Advance(MarkDone(s, Modal.ProxiedSites), Some(Modal.Settings))
    else if i == Some(Interaction.Reset) then
      Outcome(
        s.(model := s.model.(settings := s.model.settings.(proxiedSites := env.defaultProxiedSites))),
        Ok, [ProxiedSitesPath])
    else Reject(s)
  }

  /** The system-proxy choice is stored but, unlike in `settings/`, not published. */
  function SystemProxyCase(s: Session, i: Option<Interaction>, systemProxy: Option<string>): (o: Outcome)
    requires Valid(s)
    ensures Valid(o.after) && RaisesAtMost(s, o.after, Modal.SystemProxy)
  {
    if i != Some(Interaction.Continue) || (systemProxy != Some("true") && systemProxy != Some("false")) then
      Reject(s)
    else
      var chosen := s.(model := s.model.(settings := s.model.settings.(systemProxy := systemProxy == Some("true"))));
      Advance(MarkDone(chosen, Modal.SystemProxy), Some(Modal.Settings))
  }

  function InviteFriendsCase(s: Session, i: Option<Interaction>): (o: Outcome)
    requires Valid(s)
    ensures Valid(o.after) && RaisesAtMost(s, o.after, Modal.InviteFriends)
  {
    if i != Some(Interaction.Continue) then Reject(s)
    else Advance(MarkDone(s, Modal.InviteFriends), Option.None)
  }

  function GtalkUnreachableCase(s: Session, i: Option<Interaction>): (o: Outcome)
    requires Valid(s)
    ensures Valid(o.after) && o.after.internal.modalsCompleted == s.internal.modalsCompleted
  {
    if i == Some(Interaction.RetryNow) then TryConnect(s)
    else if i == Some(Interaction.RetryLater) then Show(s, Modal.AuthorizeLater)
    else Reject(s)
  }

  /** `continue` from "authorize later" or "request sent": no dialog, and the visualisation shows. */
  function ToVisCase(s: Session, i: Option<Interaction>): Outcome
  {
    if i != Some(Interaction.Continue) then Reject(s)
    else Outcome(s.(model := s.model.(modal := Modal.None, showVis := true)), Ok, [ModalPath, ShowVisPath])
  }

  function NotInvitedCase(s: Session, i: Option<Interaction>): Outcome
  {
    if i != Some(Interaction.RequestInvite) then Reject(s)
    else Show(s, Modal.RequestInvite)
  }

  /** `continue` moves on in the sequence without completing this dialog. */
  function FirstInviteReceivedCase(s: Session, i: Option<Interaction>): (o: Outcome)
    requires Valid(s)
    ensures Valid(o.after) && o.after.internal.modalsCompleted == s.internal.modalsCompleted
  {
    if i != Some(Interaction.Continue) then Reject(s)
    else Advance(s, Option.None)
  }

  function FinishedCase(s: Session, i: Option<Interaction>): (o: Outcome)
    requires Valid(s)
    ensures Valid(o.after) && RaisesAtMost(s, o.after, Modal.Finished)
  {
    if i != Some(Interaction.Continue) then Reject(s)
    else
      var a := Advance(MarkDone(s, Modal.Finished), Option.None);
      Outcome(
        a.after.(model := a.after.model.(setupComplete := true, showVis := true)),
        Ok, a.published + [SetupCompletePath, ShowVisPath])
  }

  /**
   * From the main screen: inviting friends and contacting the developers
   * need a Google Talk connection and otherwise ask to authorize; about,
   * update and settings open their dialog.
   */
  function NoModalCase(s: Session, i: Option<Interaction>): Outcome
  {
    if i.None? || DialogFor(i.value).None? then Reject(s)
    else if (i.value == Interaction.InviteFriends || i.value == Interaction.ContactDevs)
         && s.model.connectivity.gtalk != Gtalk.Connected then
      Show(s, Modal.Authorize)
    else Show(s, DialogFor(i.value).value)
  }

  function ContactDevsCase(s: Session, i: Option<Interaction>): Outcome
  {
    if i != Some(Interaction.Continue) then Reject(s)
    else Show(s, Modal.None)
  }

  function SettingsCase(s: Session, i: Option<Interaction>): (o: Outcome)
    requires Valid(s)
    ensures Valid(o.after) && o.after.internal.modalsCompleted == s.internal.modalsCompleted
  {
    match ChosenMode(i)
    case Some(mode) =>
      if mode == Mode.Give && InCensoringCountry(s.model) then GiveForbidden(s)
      else Prefixed([ModePath], Advance(WithMode(s, mode), Some(Modal.Settings)))
    case None =>
      if i == Some(Interaction.ProxiedSites) then Show(s, Modal.ProxiedSites)
      else if i == Some(Interaction.Close) then Show(s, Modal.None)
      else if i == Some(Interaction.Reset) then Show(s, Modal.ConfirmReset)
      else Reject(s)
  }

  /** "about" and "update available" only close. */
  function CloseOnlyCase(s: Session, i: Option<Interaction>): Outcome
  {
    if i != Some(Interaction.Close) then Reject(s)
    else Show(s, Modal.None)
  }

  /**
   * Confirming the reset restores the backend's model, re-runs `_reset`,
   * which publishes each default preset's paths, and then publishes the
   * whole model (recorded as `WholeModelPath`).
   */
  function ConfirmResetCase(env: Env, s: Session, i: Option<Interaction>): (o: Outcome)
    requires Valid(s)
    ensures Valid(o.after)
  {
    if i == Some(Interaction.Cancel) then Show(s, Modal.Settings)
    else if i == Some(Interaction.Reset) then
      ReseedInternal(env.seed);
      Outcome(Reseed(env.seed), Ok, ScenarioPaths(InitialInternal.appliedScenarios) + [WholeModelPath])
    else Reject(s)
  }

  /** The decoded `interaction` query value; a value naming no interaction is none at all. */
  function Decode(q: Option<string>): Option<Interaction>
  {
    if q.None? then Option.None else ParseInteraction(q.value)
  }

  /**
   * The dialogs the `interaction` switch has a case for, in three groups:
   * the onboarding sequence, the Google Talk and invitation dialogs, and
   * the dialogs of the main screen's menus (with the scenario picker).
   */
  datatype DialogGroup = SequenceGroup | ConnectGroup | MenuGroup | Unhandled

  function GroupOf(m: Modal): DialogGroup
  {
    match m
    case Welcome => SequenceGroup
    case GiveModeForbidden => SequenceGroup
    case ProxiedSites => SequenceGroup
    case SystemProxy => SequenceGroup
    case InviteFriends => SequenceGroup
    case FirstInviteReceived => SequenceGroup
    case Finished => SequenceGroup
    case GtalkUnreachable => ConnectGroup
    case AuthorizeLater => ConnectGroup
    case NotInvited => ConnectGroup
    case RequestSent => ConnectGroup
    case Scenarios => MenuGroup
    case None => MenuGroup
    case ContactDevs => MenuGroup
    case Settings => MenuGroup
    case About => MenuGroup
    case UpdateAvailable => MenuGroup
    case ConfirmReset => MenuGroup
    case _ => Unhandled
  }

  function SequenceDialogCase(env: Env, s: Session, i: Option<Interaction>, systemProxy: Option<string>): (o: Outcome)
    requires Valid(s) && GroupOf(s.model.modal) == SequenceGroup
    ensures Valid(o.after)
  {
    match s.model.modal
    case Welcome => WelcomeCase(s, i)
    case GiveModeForbidden => GiveModeForbiddenCase(s, i)
    case ProxiedSites => ProxiedSitesCase(env, s, i)
    case SystemProxy => SystemProxyCase(s, i, systemProxy)
    case InviteFriends => InviteFriendsCase(s, i)
    case FirstInviteReceived => FirstInviteReceivedCase(s, i)
    case Finished => FinishedCase(s, i)
  }

  function ConnectDialogCase(s: Session, i: Option<Interaction>): (o: Outcome)
    requires Valid(s) && GroupOf(s.model.modal) == ConnectGroup
    ensures Valid(o.after)
  {
    match s.model.modal
    case GtalkUnreachable => GtalkUnreachableCase(s, i)
    case AuthorizeLater => ToVisCase(s, i)
    case NotInvited => NotInvitedCase(s, i)
    case RequestSent => ToVisCase(s, i)
  }

  function MenuDialogCase(env: Env, s: Session, i: Option<Interaction>, applied: Option<string>): (o: Outcome)
    requires Valid(s) && GroupOf(s.model.modal) == MenuGroup
    ensures Valid(o.after)
  {
    match s.model.modal
    case Scenarios => ScenariosCase(s, i, applied)
    case None => NoModalCase(s, i)
    case ContactDevs => ContactDevsCase(s, i)
    case Settings => SettingsCase(s, i)
    case About => CloseOnlyCase(s, i)
    case UpdateAvailable => CloseOnlyCase(s, i)
    case ConfirmReset => ConfirmResetCase(env, s, i)
  }

  /**
   * The `interaction` endpoint. `scenarios` opens the picker from any
   * dialog; otherwise the current dialog decides, and dialogs without a
   * case reject everything.
   */
  function Interact(env: Env, s: Session, i: Option<Interaction>,
                    applied: Option<string>, systemProxy: Option<string>): (o: Outcome)
    requires Valid(s)
    ensures Valid(o.after)
  {
    if i == Some(Interaction.Scenarios) then OpenScenarios(s)
    else
      match GroupOf(s.model.modal)
      case SequenceGroup => SequenceDialogCase(env, s, i, systemProxy)
      case ConnectGroup => ConnectDialogCase(s, i)
      case MenuGroup => MenuDialogCase(env, s, i, applied)
      case Unhandled => Reject(s)
  }

  /**
   * `oauthAuthorized`: stores the user id (possibly absent), marks
   * authorization complete and tries to connect.
   */
  function OnOauthAuthorized(s: Session, userid: Option<string>): (o: Outcome)
    requires Valid(s)
    ensures Valid(o.after)
  {
    var authorized := s.(model := s.model.(
      settings := s.model.settings.(userid := userid),
      connectivity := s.model.connectivity.(gtalkAuthorized := true)));
    Prefixed([UseridPath, GtalkAuthorizedPath],
      TryConnect(MarkDone(authorized, Modal.Authorize)))
  }

  /** A query value the handler treats as given: present and not empty. */
  predicate Given(q: Option<string>)
  {
    q.Some? && q.value != ""
  }

  /**
   * `settings/unlock`: a missing or empty password is a bad request, the
   * demo password opens the welcome dialog (or none once set up), any
   * other is forbidden.
   */
  function OnUnlock(s: Session, password: Option<string>): Outcome
  {
    if !Given(password) then Reject(s)
    else if password.value == "password" then
      Show(s, if s.model.setupComplete then Modal.None else Modal.Welcome)
    else Outcome(s, Forbidden, [])
  }

  /**
   * `passwordCreate`: two equal non-empty passwords show the authorize
   * dialog and complete password creation; the handler then throws, since
   * it publishes through a name it never binds.
   */
  function OnPasswordCreate(s: Session, password1: Option<string>, password2: Option<string>): (o: Outcome)
    requires Valid(s)
    ensures Valid(o.after)
  {
    if Given(password1) && Given(password2) && password1 == password2 then
      Outcome(MarkDone(WithModal(s, Modal.Authorize), Modal.PasswordCreate), Threw(false), [])
    else Reject(s)
  }

  /**
   * `requestInvite`: shows "request sent" and then throws like
   * `passwordCreate`; a `lanternDevs` other than `true`/`false` only gets a
   * 400 header written first.
   */
  function OnRequestInvite(s: Session, lanternDevs: Option<string>): Outcome
  {
    var bad := lanternDevs.Some? && lanternDevs.value != "true" && lanternDevs.value != "false";
    Outcome(WithModal(s, Modal.RequestSent), Threw(bad), [])
  }

  /** The query of `settings/`, one optional value per setting. */
  datatype SettingsQuery = SettingsQuery(
    mode: Option<string>,
    systemProxy: Option<string>,
    lang: Option<string>,
    autoStart: Option<string>,
    autoReport: Option<string>,
    proxyAllSites: Option<string>,
    proxiedSites: Option<string>)

  predicate AllAbsent(q: SettingsQuery)
  {
    q.mode.None? && q.systemProxy.None? && q.lang.None? && q.autoStart.None?
    && q.autoReport.None? && q.proxyAllSites.None? && q.proxiedSites.None?
  }

  function ParseMode(v: string): (r: Option<Mode>)
    ensures r.Some? ==> ModeName(r.value) == v
    ensures r.None? ==> v != "give" && v != "get"
  {
    if v == "give" then Some(Mode.Give) else if v == "get" then Some(Mode.Get) else Option.None
  }

  function ParseBool(v: string): (r: Option<bool>)
    ensures r.Some? <==> v == "true" || v == "false"
    ensures r.Some? ==> (r.value <==> v == "true")
  {
    if v == "true" then Some(true) else if v == "false" then Some(false) else Option.None
  }

  /** The four languages the settings accept. */
  predicate IsLang(v: string)
  {
    v == "en" || v == "zh" || v == "fa" || v == "ar"
  }

  /** The settings as the handler goes through the fields, with the 400 flag and publications so far. */
  datatype Pending = Pending(settings: Settings, bad: bool, published: seq<Path>)

  function ModeStep(p: Pending, q: Option<string>): Pending
  {
    if !Given(q) then p
    else match ParseMode(q.value)
      case None => p.(bad := true)
      case Some(mode) => Pending(p.settings.(mode := mode), p.bad, p.published + [ModePath])
  }

  function SystemProxyStep(p: Pending, q: Option<string>): Pending
  {
    if !Given(q) then p
    else match ParseBool(q.value)
      case None => p.(bad := true)
      case Some(b) => Pending(p.settings.(systemProxy := b), p.bad, p.published + [SystemProxyPath])
  }

  function LangStep(p: Pending, q: Option<string>): Pending
  {
    if !Given(q) then p
    else if !IsLang(q.value) then p.(bad := true)
    else Pending(p.settings.(lang := q.value), p.bad, p.published + [LangPath])
  }

  function AutoStartStep(p: Pending, q: Option<string>): Pending
  {
    if !Given(q) then p
    else match ParseBool(q.value)
      case None => p.(bad := true)
      case Some(b) => Pending(p.settings.(autoStart := b), p.bad, p.published + [AutoStartPath])
  }

  function AutoReportStep(p: Pending, q: Option<string>): Pending
  {
    if !Given(q) then p
    else match ParseBool(q.value)
      case None => p.(bad := true)
      case Some(b) => Pending(p.settings.(autoReport := b), p.bad, p.published + [AutoReportPath])
  }

  function ProxyAllSitesStep(p: Pending, q: Option<string>): Pending
  {
    if !Given(q) then p
    else match ParseBool(q.value)
      case None => p.(bad := true)
      case Some(b) => Pending(p.settings.(proxyAllSites := b), p.bad, p.published + [ProxyAllSitesPath])
  }

  /** The sites list is split on commas and never rejected. */
  function ProxiedSitesStep(p: Pending, q: Option<string>): Pending
  {
    if !Given(q) then p
    else Pending(p.settings.(proxiedSites := Split(q.value)), p.bad, p.published + [ProxiedSitesPath])
  }

  /** The fields in the order the handler checks them. */
  function SettingsSteps(p: Pending, q: SettingsQuery): Pending
  {
    ProxiedSitesStep(ProxyAllSitesStep(AutoReportStep(AutoStartStep(LangStep(SystemProxyStep(ModeStep(
      p, q.mode), q.systemProxy), q.lang), q.autoStart), q.autoReport), q.proxyAllSites), q.proxiedSites)
  }

  /**
   * `settings/`: with no field at all a bad request; otherwise every valid
   * field is stored and published, and any invalid one turns the answer
   * into a 400 without undoing the others.
   */
  function OnSettingsUpdate(s: Session, q: SettingsQuery): Outcome
  {
    if AllAbsent(q) then Reject(s)
    else
      var p := SettingsSteps(Pending(s.model.settings, false, []), q);
      Outcome(s.(model := s.model.(settings := p.settings)), if p.bad then BadRequest else Ok, p.published)
  }
}
