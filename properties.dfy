/**
 * What the servlet's endpoints promise about the onboarding flow: which
 * interactions each dialog accepts and that a rejected one changes
 * nothing, that completion flags only rise until a confirmed reset clears
 * them, that the scenario picker returns to where it was opened, the rules
 * of the welcome and main-screen dialogs, the three ends of the connect
 * flow, and the field-by-field behaviour of `settings/`.
 */
module Properties {
  import opened Wrappers
  import opened Enums
  import opened Store
  import opened Scenarios
  import opened Sequencer
  import opened ResetState
  import opened Strings
  import opened Handlers

  /**
   * The interactions each dialog has a case for, written out as a table
   * independently of the handlers.
   */
  predicate Accepted(s: Session, i: Option<Interaction>, systemProxy: Option<string>)
  {
    i == Some(Interaction.Scenarios) ||
    (i.Some? &&
      var x := i.value;
      match s.model.modal
      case Scenarios => x == Interaction.Continue
      case Welcome => x == Interaction.Give || x == Interaction.Get
      case GiveModeForbidden =>
        x == Interaction.Continue ||
        (x == Interaction.Cancel && !IsDone(s.internal.modalsCompleted, Modal.Welcome))
      case ProxiedSites => x == Interaction.Continue || x == Interaction.Reset
      case SystemProxy =>
        x == Interaction.Continue && (systemProxy == Some("true") || systemProxy == Some("false"))
      case InviteFriends => x == Interaction.Continue
      case GtalkUnreachable => x == Interaction.RetryNow || x == Interaction.RetryLater
      case AuthorizeLater => x == Interaction.Continue
      case NotInvited => x == Interaction.RequestInvite
      case RequestSent => x == Interaction.Continue
      case FirstInviteReceived => x == Interaction.Continue
      case Finished => x == Interaction.Continue
      case None =>
        x == Interaction.InviteFriends || x == Interaction.ContactDevs || x == Interaction.About
        || x == Interaction.UpdateAvailable || x == Interaction.Settings
      case ContactDevs => x == Interaction.Continue
      case Settings =>
        x == Interaction.Give || x == Interaction.Get || x == Interaction.ProxiedSites
        || x == Interaction.Close || x == Interaction.Reset
      case About => x == Interaction.Close
      case UpdateAvailable => x == Interaction.Close
      case ConfirmReset => x == Interaction.Cancel || x == Interaction.Reset
      case _ => false)
  }

  /** Choosing give mode, on the welcome or settings dialog, from a censoring country. */
  predicate ForbiddenGive(s: Session, i: Option<Interaction>)
  {
    i == Some(Interaction.Give) && InCensoringCountry(s.model)
    && (s.model.modal == Modal.Welcome || s.model.modal == Modal.Settings)
  }

  /** An interaction the current dialog has no case for is answered 400 and changes and publishes nothing. */
  lemma RejectedUnlessAccepted(env: Env, s: Session, i: Option<Interaction>,
                               applied: Option<string>, systemProxy: Option<string>)
    requires Valid(s) && !Accepted(s, i, systemProxy)
    ensures Interact(env, s, i, applied, systemProxy) == Reject(s)
  {
    var o := Interact(env, s, i, applied, systemProxy);
    match s.model.modal
    case Welcome => assert o == WelcomeCase(s, i);
    case Settings => assert o == SettingsCase(s, i);
    case _ =>
  }

  /**
   * An interaction the current dialog has a case for succeeds, unless it is
   * give mode chosen from a censoring country.
   */
  lemma AcceptedSucceeds(env: Env, s: Session, i: Option<Interaction>,
                         applied: Option<string>, systemProxy: Option<string>)
    requires Valid(s) && Accepted(s, i, systemProxy) && !ForbiddenGive(s, i)
    ensures Interact(env, s, i, applied, systemProxy).status == Ok
  {
    var o := Interact(env, s, i, applied, systemProxy);
    if i != Some(Interaction.Scenarios) {
      match s.model.modal
      case Welcome => assert o == WelcomeCase(s, i);
      case Settings => assert o == SettingsCase(s, i);
      case None => assert DialogFor(i.value).Some?;
      case _ =>
    }
  }

  /**
   * Give mode from a censoring country shows the give-mode-forbidden dialog
   * and is answered 400, with mode and flags as they were.
   */
  lemma ForbiddenGiveOutcome(env: Env, s: Session, applied: Option<string>, systemProxy: Option<string>)
    requires Valid(s) && ForbiddenGive(s, Some(Interaction.Give))
    ensures Interact(env, s, Some(Interaction.Give), applied, systemProxy) == GiveForbidden(s)
  {
  }

  /** A 400 changes something only when it is the forbidden give. */
  lemma BadRequestChangesNothing(env: Env, s: Session, i: Option<Interaction>,
                                 applied: Option<string>, systemProxy: Option<string>)
    requires Valid(s)
    ensures var o := Interact(env, s, i, applied, systemProxy);
      o.status == BadRequest ==>
        (o.after == s && o.published == []) ||
        (ForbiddenGive(s, i) && o.after == WithModal(s, Modal.GiveModeForbidden))
  {
    if !Accepted(s, i, systemProxy) {
      RejectedUnlessAccepted(env, s, i, applied, systemProxy);
    } else if ForbiddenGive(s, i) {
      ForbiddenGiveOutcome(env, s, applied, systemProxy);
    } else {
      AcceptedSucceeds(env, s, i, applied, systemProxy);
    }
  }

  /** An interaction that names nothing known is rejected from every dialog. */
  lemma UnknownInteractionRejected(env: Env, s: Session, q: string,
                                   applied: Option<string>, systemProxy: Option<string>)
    requires Valid(s)
    requires forall x :: InteractionName(x) != q
    ensures Interact(env, s, Decode(Some(q)), applied, systemProxy) == Reject(s)
  {
    assert Decode(Some(q)) == Option.None;
    RejectedUnlessAccepted(env, s, Option.None, applied, systemProxy);
  }

  /** True when the interaction is the confirmation of a reset. */
  predicate ConfirmsReset(s: Session, i: Option<Interaction>)
  {
    s.model.modal == Modal.ConfirmReset && i == Some(Interaction.Reset)
  }

  /**
   * Apart from a confirmed reset, no interaction clears a completion flag,
   * and the only flags it can raise are those of the dialog it answers
   * (welcome also from give-mode-forbidden).
   */
  lemma FlagsOnlyRise(env: Env, s: Session, i: Option<Interaction>,
                      applied: Option<string>, systemProxy: Option<string>, x: Modal)
    requires Valid(s) && !ConfirmsReset(s, i)
    ensures var after := Interact(env, s, i, applied, systemProxy).after;
      && (IsDone(s.internal.modalsCompleted, x) ==> IsDone(after.internal.modalsCompleted, x))
      && (!IsDone(s.internal.modalsCompleted, x) && IsDone(after.internal.modalsCompleted, x) ==>
            x == s.model.modal || (x == Modal.Welcome && s.model.modal == Modal.GiveModeForbidden))
  {
    FlagsAfterInteraction(env, s, i, applied, systemProxy);
  }

  /**
   * Outside a confirmed reset the flags after an interaction are the flags
   * before it, possibly with the answered dialog's flag (or welcome's, from
   * give-mode-forbidden) set.
   */
  lemma FlagsAfterInteraction(env: Env, s: Session, i: Option<Interaction>,
                              applied: Option<string>, systemProxy: Option<string>)
    requires Valid(s) && !ConfirmsReset(s, i)
    ensures var after := Interact(env, s, i, applied, systemProxy).after;
      RaisesAtMost(s, after, if s.model.modal == Modal.GiveModeForbidden then Modal.Welcome else s.model.modal)
  {
    if i != Some(Interaction.Scenarios) {
      match GroupOf(s.model.modal)
      case SequenceGroup => SequenceDialogFlags(env, s, i, systemProxy);
      case ConnectGroup => ConnectDialogFlags(s, i);
      case MenuGroup => MenuDialogFlags(env, s, i, applied);
      case Unhandled =>
    }
  }

  /** Each sequence dialog raises at most its own flag (give-mode-forbidden: welcome's). */
  lemma SequenceDialogFlags(env: Env, s: Session, i: Option<Interaction>, systemProxy: Option<string>)
    requires Valid(s) && GroupOf(s.model.modal) == SequenceGroup
    ensures RaisesAtMost(s, SequenceDialogCase(env, s, i, systemProxy).after,
                         if s.model.modal == Modal.GiveModeForbidden then Modal.Welcome else s.model.modal)
  {
  }

  /** Each connection dialog raises at most its own flag. */
  lemma ConnectDialogFlags(s: Session, i: Option<Interaction>)
    requires Valid(s) && GroupOf(s.model.modal) == ConnectGroup
    ensures RaisesAtMost(s, ConnectDialogCase(s, i).after, s.model.modal)
  {
  }

  /** Menu dialogs raise at most their own flag, a confirmed reset aside. */
  lemma MenuDialogFlags(env: Env, s: Session, i: Option<Interaction>, applied: Option<string>)
    requires Valid(s) && GroupOf(s.model.modal) == MenuGroup && !ConfirmsReset(s, i)
    ensures RaisesAtMost(s, MenuDialogCase(env, s, i, applied).after, s.model.modal)
  {
  }

  /** Apart from `scenarios`, an onboarding dialog is answered by `SequenceDialogCase`. */
  lemma SequenceDispatch(env: Env, s: Session, i: Option<Interaction>, applied: Option<string>, systemProxy: Option<string>)
    requires Valid(s) && GroupOf(s.model.modal) == SequenceGroup && i != Some(Interaction.Scenarios)
    ensures Interact(env, s, i, applied, systemProxy) == SequenceDialogCase(env, s, i, systemProxy)
  {
  }

  /** Apart from `scenarios`, a connection dialog is answered by `ConnectDialogCase`. */
  lemma ConnectDispatch(env: Env, s: Session, i: Option<Interaction>, applied: Option<string>, systemProxy: Option<string>)
    requires Valid(s) && GroupOf(s.model.modal) == ConnectGroup && i != Some(Interaction.Scenarios)
    ensures Interact(env, s, i, applied, systemProxy) == ConnectDialogCase(s, i)
  {
  }

  /** Apart from `scenarios`, a menu dialog is answered by `MenuDialogCase`. */
  lemma MenuDispatch(env: Env, s: Session, i: Option<Interaction>, applied: Option<string>, systemProxy: Option<string>)
    requires Valid(s) && GroupOf(s.model.modal) == MenuGroup && i != Some(Interaction.Scenarios)
    ensures Interact(env, s, i, applied, systemProxy) == MenuDialogCase(env, s, i, applied)
  {
  }

  /** Which case answers each onboarding dialog. */
  lemma SequenceRoutes(env: Env, s: Session, i: Option<Interaction>, systemProxy: Option<string>)
    requires Valid(s) && GroupOf(s.model.modal) == SequenceGroup
    ensures s.model.modal == Modal.Welcome ==> SequenceDialogCase(env, s, i, systemProxy) == WelcomeCase(s, i)
    ensures s.model.modal == Modal.GiveModeForbidden ==> SequenceDialogCase(env, s, i, systemProxy) == GiveModeForbiddenCase(s, i)
    ensures s.model.modal == Modal.ProxiedSites ==> SequenceDialogCase(env, s, i, systemProxy) == ProxiedSitesCase(env, s, i)
    ensures s.model.modal == Modal.SystemProxy ==> SequenceDialogCase(env, s, i, systemProxy) == SystemProxyCase(s, i, systemProxy)
    ensures s.model.modal == Modal.InviteFriends ==> SequenceDialogCase(env, s, i, systemProxy) == InviteFriendsCase(s, i)
    ensures s.model.modal == Modal.FirstInviteReceived ==> SequenceDialogCase(env, s, i, systemProxy) == FirstInviteReceivedCase(s, i)
    ensures s.model.modal == Modal.Finished ==> SequenceDialogCase(env, s, i, systemProxy) == FinishedCase(s, i)
  {
  }

  /** Which case answers each connection dialog. */
  lemma ConnectRoutes(s: Session, i: Option<Interaction>)
    requires Valid(s) && GroupOf(s.model.modal) == ConnectGroup
    ensures s.model.modal == Modal.GtalkUnreachable ==> ConnectDialogCase(s, i) == GtalkUnreachableCase(s, i)
    ensures s.model.modal == Modal.AuthorizeLater ==> ConnectDialogCase(s, i) == ToVisCase(s, i)
    ensures s.model.modal == Modal.NotInvited ==> ConnectDialogCase(s, i) == NotInvitedCase(s, i)
    ensures s.model.modal == Modal.RequestSent ==> ConnectDialogCase(s, i) == ToVisCase(s, i)
  {
  }

  /** Which case answers each menu dialog. */
  lemma MenuRoutes(env: Env, s: Session, i: Option<Interaction>, applied: Option<string>)
    requires Valid(s) && GroupOf(s.model.modal) == MenuGroup
    ensures s.model.modal == Modal.Scenarios ==> MenuDialogCase(env, s, i, applied) == ScenariosCase(s, i, applied)
    ensures s.model.modal == Modal.None ==> MenuDialogCase(env, s, i, applied) == NoModalCase(s, i)
    ensures s.model.modal == Modal.ContactDevs ==> MenuDialogCase(env, s, i, applied) == ContactDevsCase(s, i)
    ensures s.model.modal == Modal.Settings ==> MenuDialogCase(env, s, i, applied) == SettingsCase(s, i)
    ensures s.model.modal == Modal.About ==> MenuDialogCase(env, s, i, applied) == CloseOnlyCase(s, i)
    ensures s.model.modal == Modal.UpdateAvailable ==> MenuDialogCase(env, s, i, applied) == CloseOnlyCase(s, i)
    ensures s.model.modal == Modal.ConfirmReset ==> MenuDialogCase(env, s, i, applied) == ConfirmResetCase(env, s, i)
  {
  }

  /**
   * A confirmed reset restores the backend's model with the default
   * presets on top, clears every completion flag, forgets the picker's
   * return dialog, and publishes each preset path and then everything.
   */
  lemma ResetClearsFlags(env: Env, s: Session, applied: Option<string>, systemProxy: Option<string>)
    requires Valid(s) && s.model.modal == Modal.ConfirmReset
    ensures var o := Interact(env, s, Some(Interaction.Reset), applied, systemProxy);
      && o.status == Ok
      && o.after.model == env.seed.(
           system := env.seed.system.(os := Os.Osx),
           location := env.seed.location.(country := "cn"),
           connectivity := env.seed.connectivity.(
             internet := true, ip := "123.123.123.123",
             gtalk := Gtalk.NotConnected, gtalkAuthorized := false))
      && (forall x :: !IsDone(o.after.internal.modalsCompleted, x))
      && o.after.internal.lastModal == Modal.None
      && o.published == [OsPath, LocationPath, IpPath, InternetPath,
                         GtalkPath, GtalkAuthorizedPath, WholeModelPath]
  {
    ReseedModel(env.seed);
    ReseedInternal(env.seed);
    DefaultScenarioPaths();
  }


  /**
   * `scenarios` is accepted from every dialog: it opens the picker,
   * remembers the dialog it came from and changes nothing else.
   */
  lemma ScenariosAcceptedEverywhere(env: Env, s: Session, applied: Option<string>, systemProxy: Option<string>)
    requires Valid(s)
    ensures var o := Interact(env, s, Some(Interaction.Scenarios), applied, systemProxy);
      && o.status == Ok && o.published == [ModalPath]
      && o.after.model == s.model.(modal := Modal.Scenarios)
      && o.after.internal == s.internal.(lastModal := s.model.modal)
  {
  }

  /** In the picker, only `continue` (or reopening it) is accepted. */
  lemma PickerOnlyContinues(env: Env, s: Session, i: Option<Interaction>,
                            applied: Option<string>, systemProxy: Option<string>)
    requires Valid(s) && s.model.modal == Modal.Scenarios
    requires i != Some(Interaction.Continue) && i != Some(Interaction.Scenarios)
    ensures Interact(env, s, i, applied, systemProxy) == Reject(s)
  {
    RejectedUnlessAccepted(env, s, i, applied, systemProxy);
  }

  /**
   * Opening the picker and continuing returns to exactly the dialog it was
   * opened from, with the model otherwise as it was apart from the stored
   * scenario choice.
   */
  lemma ScenarioPickerRoundTrip(env: Env, s: Session, applied: Option<string>, systemProxy: Option<string>)
    requires Valid(s)
    ensures var picking := Interact(env, s, Some(Interaction.Scenarios), Option.None, systemProxy).after;
      var o := Interact(env, picking, Some(Interaction.Continue), applied, systemProxy);
      && o.status == Ok
      && o.after.model == s.model.(scenariosApplied := applied)
      && o.after.internal == s.internal.(lastModal := s.model.modal)
      && o.published == [ScenariosAppliedPath, ModalPath]
  {
    var picking := Interact(env, s, Some(Interaction.Scenarios), Option.None, systemProxy).after;
    assert picking.model.modal == Modal.Scenarios;
    assert picking.internal.lastModal == s.model.modal;
  }

  /**
   * Reopening the picker from the picker overwrites the remembered dialog
   * with the picker itself, so `continue` then stays in the picker.
   */
  lemma ReopeningPickerLosesReturnDialog(env: Env, s: Session, applied: Option<string>, systemProxy: Option<string>)
    requires Valid(s) && s.model.modal == Modal.Scenarios
    ensures var reopened := Interact(env, s, Some(Interaction.Scenarios), Option.None, systemProxy).after;
      && reopened.internal.lastModal == Modal.Scenarios
      && Interact(env, reopened, Some(Interaction.Continue), applied, systemProxy).after.model.modal == Modal.Scenarios
  {
    var reopened := Interact(env, s, Some(Interaction.Scenarios), Option.None, systemProxy).after;
    assert reopened == s.(internal := s.internal.(lastModal := Modal.Scenarios));
    PickerContinue(env, reopened, applied, systemProxy);
  }

  /** `continue` in the picker returns to the remembered dialog. */
  lemma PickerContinue(env: Env, s: Session, applied: Option<string>, systemProxy: Option<string>)
    requires Valid(s) && s.model.modal == Modal.Scenarios
    ensures Interact(env, s, Some(Interaction.Continue), applied, systemProxy)
         == Outcome(s.(model := s.model.(scenariosApplied := applied, modal := s.internal.lastModal)),
                    Ok, [ScenariosAppliedPath, ModalPath])
  {
    MenuDispatch(env, s, Some(Interaction.Continue), applied, systemProxy);
    MenuRoutes(env, s, Some(Interaction.Continue), applied);
  }

  /**
   * On the welcome dialog, choosing a mode: give from a censoring country
   * is forbidden and keeps the mode and flags; otherwise the mode is stored,
   * welcome is completed, and Ubuntu goes on to create a password while
   * every other system goes on to authorize.
   */
  lemma WelcomeChoice(env: Env, s: Session, mode: Mode, applied: Option<string>, systemProxy: Option<string>)
    requires Valid(s) && s.model.modal == Modal.Welcome
    ensures var i := if mode == Mode.Give then Interaction.Give else Interaction.Get;
      var o := Interact(env, s, Some(i), applied, systemProxy);
      if mode == Mode.Give && InCensoringCountry(s.model) then
        && o.status == BadRequest
        && o.after.model.modal == Modal.GiveModeForbidden
        && o.after.model.settings == s.model.settings
        && o.after.internal == s.internal
        && o.after.model == s.model.(modal := Modal.GiveModeForbidden)
        && o.published == [ModalPath]
      else
        && o.status == Ok
        && o.after.model.settings.mode == mode
        && o.after.model.modal == (if s.model.system.os == Os.Ubuntu then Modal.PasswordCreate else Modal.Authorize)
        && o.after.model == s.model.(
             settings := s.model.settings.(mode := mode),
             modal := if s.model.system.os == Os.Ubuntu then Modal.PasswordCreate else Modal.Authorize)
        && o.after.internal == s.internal.(modalsCompleted := s.internal.modalsCompleted[Modal.Welcome := true])
        && IsDone(o.after.internal.modalsCompleted, Modal.Welcome)
        && (forall x :: x != Modal.Welcome ==>
              (IsDone(o.after.internal.modalsCompleted, x) <==> IsDone(s.internal.modalsCompleted, x)))
        && o.published == [ModePath, ModalPath]
  {
    var i := if mode == Mode.Give then Interaction.Give else Interaction.Get;
    SequenceDispatch(env, s, Some(i), applied, systemProxy);
    SequenceRoutes(env, s, Some(i), systemProxy);
    assert ChosenMode(Some(i)) == Some(mode);
  }

  /**
   * From give-mode-forbidden, `continue` switches to get mode, completes
   * welcome and moves on, with settings standing in for the end of the
   * sequence, so it never shows welcome or no dialog next.
   */
  lemma GiveModeForbiddenContinue(s: Session)
    requires Valid(s)
    ensures var o := GiveModeForbiddenCase(s, Some(Interaction.Continue));
      && o.status == Ok
      && o.after.model.settings.mode == Mode.Get
      && IsDone(o.after.internal.modalsCompleted, Modal.Welcome)
      && o.after.model.modal != Modal.Welcome
      && o.after.model.modal != Modal.None
      && o.after.model == s.model.(
           settings := s.model.settings.(mode := Mode.Get),
           modal := NextModal(Mode.Get, s.internal.modalsCompleted[Modal.Welcome := true], Some(Modal.Settings)))
      && o.after.internal == s.internal.(modalsCompleted := s.internal.modalsCompleted[Modal.Welcome := true])
      && o.published == [ModePath, ModalPath]
  {
    var t := MarkDone(WithMode(s, Mode.Get), Modal.Welcome);
    var done := t.internal.modalsCompleted;
    assert IsDone(done, Modal.Welcome);
    NextModalGet(done, Some(Modal.Settings));
  }

  /** From give-mode-forbidden, `cancel` goes back to welcome only while welcome is not completed. */
  lemma GiveModeForbiddenCancel(env: Env, s: Session, applied: Option<string>, systemProxy: Option<string>)
    requires Valid(s) && s.model.modal == Modal.GiveModeForbidden
    ensures var o := Interact(env, s, Some(Interaction.Cancel), applied, systemProxy);
      if IsDone(s.internal.modalsCompleted, Modal.Welcome) then o == Reject(s)
      else o == Outcome(WithModal(s, Modal.Welcome), Ok, [ModalPath])
  {
    SequenceDispatch(env, s, Some(Interaction.Cancel), applied, systemProxy);
    SequenceRoutes(env, s, Some(Interaction.Cancel), systemProxy);
  }

  /**
   * On the main screen, inviting friends and contacting the developers
   * need a Google Talk connection and otherwise ask to authorize; about,
   * update and settings always open the dialog of the same name; only the
   * shown dialog changes.
   */
  lemma NoModalChoices(env: Env, s: Session, i: Interaction, applied: Option<string>, systemProxy: Option<string>)
    requires Valid(s) && s.model.modal == Modal.None && i != Interaction.Scenarios
    ensures var o := Interact(env, s, Some(i), applied, systemProxy);
      if DialogFor(i).None? then o == Reject(s)
      else
        && o.status == Ok && o.published == [ModalPath]
        && o.after == WithModal(s, o.after.model.modal)
        && (if (i == Interaction.InviteFriends || i == Interaction.ContactDevs)
               && s.model.connectivity.gtalk != Gtalk.Connected
            then o.after.model.modal == Modal.Authorize
            else ModalName(o.after.model.modal) == InteractionName(i))
  {
  }

  /**
   * `_tryConnect` ends in one of three ways, by user id: unreachable
   * (disconnected, unreachable dialog, roster untouched), not invited
   * (connected, roster fetched, not-invited dialog, no peers) or invited
   * (connected, roster and peers fetched, next dialog of the sequence).
   */
  lemma ConnectOutcomes(s: Session)
    requires Valid(s)
    ensures var o := TryConnect(s);
      var m := o.after.model;
      && o.status == Ok
      && o.after.internal == s.internal
      && (if s.model.settings.userid == Some(UnreachableUser) then
            && m == s.model.(connectivity := s.model.connectivity.(gtalk := Gtalk.NotConnected),
                             modal := Modal.GtalkUnreachable)
            && o.published == [GtalkPath, ModalPath, GtalkPath, ModalPath]
          else if s.model.settings.userid != Some(InvitedUser) then
            && m == s.model.(connectivity := s.model.connectivity.(gtalk := Gtalk.Connected),
                             roster := RosterFixture,
                             modal := Modal.NotInvited)
            && o.published == [GtalkPath, ModalPath, GtalkPath, RosterPath, ModalPath]
          else
            && m == s.model.(connectivity := s.model.connectivity.(gtalk := Gtalk.Connected,
                                                                  peers := Peers(PeerIds, PeerFixtures)),
                             roster := RosterFixture,
                             modal := NextModal(s.model.settings.mode, s.internal.modalsCompleted, Option.None))
            && o.published == [GtalkPath, ModalPath, GtalkPath, RosterPath,
                               PeersPath, ModalPath])
  {
  }

  /**
   * After `oauthAuthorized` the user id is stored, Google Talk access is
   * authorized and the authorize dialog is completed, so the invited user
   * never comes back to it; the connect flow then ends as `ConnectOutcomes`
   * describes.
   */
  lemma OauthAuthorizedCompletesAuthorize(s: Session, userid: Option<string>)
    requires Valid(s)
    ensures var o := OnOauthAuthorized(s, userid);
      var a := Authorized(s.model, userid);
      var done := s.internal.modalsCompleted[Modal.Authorize := true];
      && o.status == Ok
      && o.after.internal == s.internal.(modalsCompleted := done)
      && (if userid == Some(UnreachableUser) then
            && o.after.model == a.(connectivity := a.connectivity.(gtalk := Gtalk.NotConnected),
                                   modal := Modal.GtalkUnreachable)
            && o.published == [UseridPath, GtalkAuthorizedPath, GtalkPath, ModalPath, GtalkPath, ModalPath]
          else if userid != Some(InvitedUser) then
            && o.after.model == a.(connectivity := a.connectivity.(gtalk := Gtalk.Connected),
                                   roster := RosterFixture,
                                   modal := Modal.NotInvited)
            && o.published == [UseridPath, GtalkAuthorizedPath, GtalkPath, ModalPath, GtalkPath, RosterPath, ModalPath]
          else
            && o.after.model == a.(connectivity := a.connectivity.(gtalk := Gtalk.Connected,
                                                                   peers := Peers(PeerIds, PeerFixtures)),
                                   roster := RosterFixture,
                                   modal := NextModal(s.model.settings.mode, done, Option.None))
            && o.after.model.modal != Modal.Authorize
            && o.published == [UseridPath, GtalkAuthorizedPath, GtalkPath, ModalPath, GtalkPath, RosterPath,
                               PeersPath, ModalPath])
  {
    var t := MarkDone(s.(model := Authorized(s.model, userid)), Modal.Authorize);
    OauthAuthorizedConnects(s, userid);
    if userid == Some(UnreachableUser) {
      UnreachableConnect(t);
    } else if userid != Some(InvitedUser) {
      NotInvitedConnect(t);
    } else {
      InvitedConnect(t);
      CompletedModalSkipped(t.model.settings.mode, t.internal.modalsCompleted, Option.None, Modal.Authorize);
    }
  }

  /** `oauthAuthorized` publishes its two writes and then runs the connect flow. */
  lemma OauthAuthorizedConnects(s: Session, userid: Option<string>)
    requires Valid(s)
    ensures OnOauthAuthorized(s, userid)
         == Prefixed([UseridPath, GtalkAuthorizedPath],
                     TryConnect(MarkDone(s.(model := Authorized(s.model, userid)), Modal.Authorize)))
  {
  }

  /** The model once `oauthAuthorized` has stored the user id and authorized Google Talk. */
  function Authorized(m: Model, userid: Option<string>): Model
  {
    m.(settings := m.settings.(userid := userid),
       connectivity := m.connectivity.(gtalkAuthorized := true))
  }

  /** Connecting as the unreachable user ends on the unreachable dialog. */
  lemma UnreachableConnect(s: Session)
    requires Valid(s) && s.model.settings.userid == Some(UnreachableUser)
    ensures TryConnect(s) == Outcome(
      s.(model := s.model.(connectivity := s.model.connectivity.(gtalk := Gtalk.NotConnected),
                           modal := Modal.GtalkUnreachable)),
      Ok, [GtalkPath, ModalPath, GtalkPath, ModalPath])
  {
  }

  /** Connecting as a user who is neither unreachable nor invited ends on not-invited. */
  lemma NotInvitedConnect(s: Session)
    requires Valid(s)
    requires s.model.settings.userid != Some(UnreachableUser) && s.model.settings.userid != Some(InvitedUser)
    ensures TryConnect(s) == Outcome(
      s.(model := s.model.(connectivity := s.model.connectivity.(gtalk := Gtalk.Connected),
                           roster := RosterFixture,
                           modal := Modal.NotInvited)),
      Ok, [GtalkPath, ModalPath, GtalkPath, RosterPath, ModalPath])
  {
  }

  /** Connecting as the invited user fetches the peers and advances the sequence. */
  lemma InvitedConnect(s: Session)
    requires Valid(s) && s.model.settings.userid == Some(InvitedUser)
    ensures TryConnect(s) == Outcome(
      s.(model := s.model.(connectivity := s.model.connectivity.(gtalk := Gtalk.Connected,
                                                                 peers := Peers(PeerIds, PeerFixtures)),
                           roster := RosterFixture,
                           modal := NextModal(s.model.settings.mode, s.internal.modalsCompleted, Option.None))),
      Ok, [GtalkPath, ModalPath, GtalkPath, RosterPath, PeersPath, ModalPath])
  {
  }

  /**
   * `continue` on invite-friends completes it and shows the next dialog of
   * the sequence, with no dialog at the end.
   */
  lemma InviteFriendsContinue(env: Env, s: Session, applied: Option<string>, systemProxy: Option<string>)
    requires Valid(s) && s.model.modal == Modal.InviteFriends
    ensures var o := Interact(env, s, Some(Interaction.Continue), applied, systemProxy);
      var done := s.internal.modalsCompleted[Modal.InviteFriends := true];
      && o.status == Ok && o.published == [ModalPath]
      && o.after.internal == s.internal.(modalsCompleted := done)
      && o.after.model == s.model.(modal := NextModal(s.model.settings.mode, done, Option.None))
  {
    SequenceDispatch(env, s, Some(Interaction.Continue), applied, systemProxy);
    SequenceRoutes(env, s, Some(Interaction.Continue), systemProxy);
    InviteFriendsOutcome(s);
  }

  /** The invite-friends case's answer to `continue`. */
  lemma InviteFriendsOutcome(s: Session)
    requires Valid(s)
    ensures var done := s.internal.modalsCompleted[Modal.InviteFriends := true];
      InviteFriendsCase(s, Some(Interaction.Continue))
        == Outcome(Session(s.model.(modal := NextModal(s.model.settings.mode, done, Option.None)),
                           s.internal.(modalsCompleted := done)),
                   Ok, [ModalPath])
  {
  }

  /**
   * `continue` on finished completes it, shows the next dialog of the
   * sequence, and marks setup complete with the visualisation shown.
   */
  lemma FinishedContinue(env: Env, s: Session, applied: Option<string>, systemProxy: Option<string>)
    requires Valid(s) && s.model.modal == Modal.Finished
    ensures var o := Interact(env, s, Some(Interaction.Continue), applied, systemProxy);
      var done := s.internal.modalsCompleted[Modal.Finished := true];
      && o.status == Ok && o.published == [ModalPath, SetupCompletePath, ShowVisPath]
      && o.after.internal == s.internal.(modalsCompleted := done)
      && o.after.model == s.model.(
           modal := NextModal(s.model.settings.mode, done, Option.None),
           setupComplete := true, showVis := true)
  {
    SequenceDispatch(env, s, Some(Interaction.Continue), applied, systemProxy);
    SequenceRoutes(env, s, Some(Interaction.Continue), systemProxy);
    FinishedOutcome(s);
  }

  /** The finished case's answer to `continue`. */
  lemma FinishedOutcome(s: Session)
    requires Valid(s)
    ensures var done := s.internal.modalsCompleted[Modal.Finished := true];
      FinishedCase(s, Some(Interaction.Continue))
        == Outcome(Session(s.model.(modal := NextModal(s.model.settings.mode, done, Option.None),
                                    setupComplete := true, showVis := true),
                           s.internal.(modalsCompleted := done)),
                   Ok, [ModalPath, SetupCompletePath, ShowVisPath])
  {
  }

  /**
   * `continue` on proxied sites completes it and shows the next dialog of
   * the sequence, with settings standing in for the end of the sequence.
   */
  lemma ProxiedSitesContinue(env: Env, s: Session, applied: Option<string>, systemProxy: Option<string>)
    requires Valid(s) && s.model.modal == Modal.ProxiedSites
    ensures var o := Interact(env, s, Some(Interaction.Continue), applied, systemProxy);
      var done := s.internal.modalsCompleted[Modal.ProxiedSites := true];
      && o.status == Ok && o.published == [ModalPath]
      && o.after.internal == s.internal.(modalsCompleted := done)
      && o.after.model == s.model.(modal := NextModal(s.model.settings.mode, done, Some(Modal.Settings)))
  {
    SequenceDispatch(env, s, Some(Interaction.Continue), applied, systemProxy);
    SequenceRoutes(env, s, Some(Interaction.Continue), systemProxy);
  }

  /**
   * `reset` on proxied sites restores the sites the servlet started with,
   * publishes them and keeps the dialog open.
   */
  lemma ProxiedSitesReset(env: Env, s: Session, applied: Option<string>, systemProxy: Option<string>)
    requires Valid(s) && s.model.modal == Modal.ProxiedSites
    ensures Interact(env, s, Some(Interaction.Reset), applied, systemProxy)
         == Outcome(s.(model := s.model.(settings := s.model.settings.(proxiedSites := env.defaultProxiedSites))),
                    Ok, [ProxiedSitesPath])
  {
    SequenceDispatch(env, s, Some(Interaction.Reset), applied, systemProxy);
    SequenceRoutes(env, s, Some(Interaction.Reset), systemProxy);
  }

  /**
   * `continue` on system proxy with `true` or `false` stores that choice,
   * completes the dialog and shows the next one, with settings standing in
   * for the end of the sequence; only `modal` is published.
   */
  lemma SystemProxyContinue(env: Env, s: Session, applied: Option<string>, choice: bool)
    requires Valid(s) && s.model.modal == Modal.SystemProxy
    ensures var o := Interact(env, s, Some(Interaction.Continue), applied, Some(if choice then "true" else "false"));
      var done := s.internal.modalsCompleted[Modal.SystemProxy := true];
      && o.status == Ok && o.published == [ModalPath]
      && o.after.internal == s.internal.(modalsCompleted := done)
      && o.after.model == s.model.(
           settings := s.model.settings.(systemProxy := choice),
           modal := NextModal(s.model.settings.mode, done, Some(Modal.Settings)))
  {
    SequenceDispatch(env, s, Some(Interaction.Continue), applied, Some(if choice then "true" else "false"));
    SequenceRoutes(env, s, Some(Interaction.Continue), Some(if choice then "true" else "false"));
  }

  /**
   * On the unreachable dialog, `retryNow` runs the connect flow again and
   * `retryLater` shows the authorize-later dialog.
   */
  lemma GtalkUnreachableChoices(env: Env, s: Session, applied: Option<string>, systemProxy: Option<string>)
    requires Valid(s) && s.model.modal == Modal.GtalkUnreachable
    ensures Interact(env, s, Some(Interaction.RetryNow), applied, systemProxy) == TryConnect(s)
    ensures Interact(env, s, Some(Interaction.RetryLater), applied, systemProxy)
         == Outcome(WithModal(s, Modal.AuthorizeLater), Ok, [ModalPath])
  {
    ConnectDispatch(env, s, Some(Interaction.RetryNow), applied, systemProxy);
    ConnectRoutes(s, Some(Interaction.RetryNow));
    ConnectDispatch(env, s, Some(Interaction.RetryLater), applied, systemProxy);
    ConnectRoutes(s, Some(Interaction.RetryLater));
  }

  /**
   * `continue` from authorize-later or request-sent closes the dialog and
   * shows the visualisation.
   */
  lemma ToVisContinue(env: Env, s: Session, applied: Option<string>, systemProxy: Option<string>)
    requires Valid(s) && (s.model.modal == Modal.AuthorizeLater || s.model.modal == Modal.RequestSent)
    ensures Interact(env, s, Some(Interaction.Continue), applied, systemProxy)
         == Outcome(s.(model := s.model.(modal := Modal.None, showVis := true)), Ok, [ModalPath, ShowVisPath])
  {
    ConnectDispatch(env, s, Some(Interaction.Continue), applied, systemProxy);
    ConnectRoutes(s, Some(Interaction.Continue));
  }

  /** `requestInvite` from not-invited opens the request-invite dialog. */
  lemma NotInvitedRequest(env: Env, s: Session, applied: Option<string>, systemProxy: Option<string>)
    requires Valid(s) && s.model.modal == Modal.NotInvited
    ensures Interact(env, s, Some(Interaction.RequestInvite), applied, systemProxy)
         == Outcome(WithModal(s, Modal.RequestInvite), Ok, [ModalPath])
  {
    ConnectDispatch(env, s, Some(Interaction.RequestInvite), applied, systemProxy);
    ConnectRoutes(s, Some(Interaction.RequestInvite));
  }

  /**
   * `continue` on first-invite-received shows the next dialog of the
   * sequence, with no stand-in for its end, and completes nothing.
   */
  lemma FirstInviteReceivedContinue(env: Env, s: Session, applied: Option<string>, systemProxy: Option<string>)
    requires Valid(s) && s.model.modal == Modal.FirstInviteReceived
    ensures Interact(env, s, Some(Interaction.Continue), applied, systemProxy)
         == Outcome(WithModal(s, NextModal(s.model.settings.mode, s.internal.modalsCompleted, Option.None)),
                    Ok, [ModalPath])
  {
    SequenceDispatch(env, s, Some(Interaction.Continue), applied, systemProxy);
    SequenceRoutes(env, s, Some(Interaction.Continue), systemProxy);
  }

  /**
   * On the settings dialog, `get` stores and publishes the mode and shows
   * the next dialog of get mode's sequence, with settings standing in for
   * its end.
   */
  lemma SettingsGetChoice(env: Env, s: Session, applied: Option<string>, systemProxy: Option<string>)
    requires Valid(s) && s.model.modal == Modal.Settings
    ensures Interact(env, s, Some(Interaction.Get), applied, systemProxy)
         == Outcome(s.(model := s.model.(
                      settings := s.model.settings.(mode := Mode.Get),
                      modal := NextModal(Mode.Get, s.internal.modalsCompleted, Some(Modal.Settings)))),
                    Ok, [ModePath, ModalPath])
  {
    MenuDispatch(env, s, Some(Interaction.Get), applied, systemProxy);
    MenuRoutes(env, s, Some(Interaction.Get), applied);
    SettingsModeOutcome(s, Mode.Get);
  }

  /**
   * On the settings dialog outside a censoring country, `give` stores and
   * publishes the mode and shows the next dialog of give mode's sequence,
   * with settings standing in for its end (inside one, see
   * `ForbiddenGiveOutcome`).
   */
  lemma SettingsGiveChoice(env: Env, s: Session, applied: Option<string>, systemProxy: Option<string>)
    requires Valid(s) && s.model.modal == Modal.Settings && !InCensoringCountry(s.model)
    ensures Interact(env, s, Some(Interaction.Give), applied, systemProxy)
         == Outcome(s.(model := s.model.(
                      settings := s.model.settings.(mode := Mode.Give),
                      modal := NextModal(Mode.Give, s.internal.modalsCompleted, Some(Modal.Settings)))),
                    Ok, [ModePath, ModalPath])
  {
    MenuDispatch(env, s, Some(Interaction.Give), applied, systemProxy);
    MenuRoutes(env, s, Some(Interaction.Give), applied);
    SettingsModeOutcome(s, Mode.Give);
  }

  /** The settings case's answer to a mode choice that is not a forbidden give. */
  lemma SettingsModeOutcome(s: Session, mode: Mode)
    requires Valid(s) && !(mode == Mode.Give && InCensoringCountry(s.model))
    ensures SettingsCase(s, Some(if mode == Mode.Give then Interaction.Give else Interaction.Get))
         == Outcome(s.(model := s.model.(
                      settings := s.model.settings.(mode := mode),
                      modal := NextModal(mode, s.internal.modalsCompleted, Some(Modal.Settings)))),
                    Ok, [ModePath, ModalPath])
  {
  }

  /**
   * On the settings dialog, `proxiedSites`, `close` and `reset` show the
   * proxied-sites dialog, no dialog and the reset confirmation.
   */
  lemma SettingsMenuChoices(env: Env, s: Session, applied: Option<string>, systemProxy: Option<string>)
    requires Valid(s) && s.model.modal == Modal.Settings
    ensures Interact(env, s, Some(Interaction.ProxiedSites), applied, systemProxy)
         == Outcome(WithModal(s, Modal.ProxiedSites), Ok, [ModalPath])
    ensures Interact(env, s, Some(Interaction.Close), applied, systemProxy)
         == Outcome(WithModal(s, Modal.None), Ok, [ModalPath])
    ensures Interact(env, s, Some(Interaction.Reset), applied, systemProxy)
         == Outcome(WithModal(s, Modal.ConfirmReset), Ok, [ModalPath])
  {
    MenuDispatch(env, s, Some(Interaction.ProxiedSites), applied, systemProxy);
    MenuRoutes(env, s, Some(Interaction.ProxiedSites), applied);
    MenuDispatch(env, s, Some(Interaction.Close), applied, systemProxy);
    MenuRoutes(env, s, Some(Interaction.Close), applied);
    MenuDispatch(env, s, Some(Interaction.Reset), applied, systemProxy);
    MenuRoutes(env, s, Some(Interaction.Reset), applied);
  }

  /**
   * The close-only dialogs: `continue` on contact-devs and `close` on
   * about or update-available return to the main screen.
   */
  lemma BackToMainScreen(env: Env, s: Session, applied: Option<string>, systemProxy: Option<string>)
    requires Valid(s)
    requires s.model.modal == Modal.ContactDevs || s.model.modal == Modal.About || s.model.modal == Modal.UpdateAvailable
    ensures var i := if s.model.modal == Modal.ContactDevs then Interaction.Continue else Interaction.Close;
      Interact(env, s, Some(i), applied, systemProxy) == Outcome(WithModal(s, Modal.None), Ok, [ModalPath])
  {
    var i := if s.model.modal == Modal.ContactDevs then Interaction.Continue else Interaction.Close;
    MenuDispatch(env, s, Some(i), applied, systemProxy);
    MenuRoutes(env, s, Some(i), applied);
  }

  /** `cancel` on the reset confirmation goes back to settings. */
  lemma ConfirmResetCancel(env: Env, s: Session, applied: Option<string>, systemProxy: Option<string>)
    requires Valid(s) && s.model.modal == Modal.ConfirmReset
    ensures Interact(env, s, Some(Interaction.Cancel), applied, systemProxy)
         == Outcome(WithModal(s, Modal.Settings), Ok, [ModalPath])
  {
    MenuDispatch(env, s, Some(Interaction.Cancel), applied, systemProxy);
    MenuRoutes(env, s, Some(Interaction.Cancel), applied);
  }

  /** Exactly the dialogs of `xs` are completed. */
  predicate CompletedExactly(s: Session, xs: set<Modal>)
  {
    forall x :: IsDone(s.internal.modalsCompleted, x) <==> x in xs
  }

  /** Completing one more dialog adds exactly that dialog to the completed ones. */
  lemma CompletedOneMore(s: Session, t: Session, xs: set<Modal>, m: Modal)
    requires CompletedExactly(s, xs)
    requires t.internal.modalsCompleted == s.internal.modalsCompleted[m := true]
    ensures CompletedExactly(t, xs + {m})
  {
  }

  /**
   * On a session where nothing is completed, outside a censoring country
   * and not on Ubuntu (as after a reset), unlocking shows the welcome
   * dialog and choosing give goes on to authorizing.
   */
  lemma UnlockThenGive(env: Env, s: Session)
    requires Valid(s) && CompletedExactly(s, {}) && !s.model.setupComplete
    requires !InCensoringCountry(s.model) && s.model.system.os != Os.Ubuntu
    ensures var o1 := OnUnlock(s, Some("password"));
      var o2 := Interact(env, o1.after, Some(Interaction.Give), Option.None, Option.None);
      && o1.status == Ok && o1.after.model.modal == Modal.Welcome
      && o2.status == Ok && o2.after.model.modal == Modal.Authorize
      && o2.after.model.settings.mode == Mode.Give
      && CompletedExactly(o2.after, {Modal.Welcome})
  {
    var s1 := OnUnlock(s, Some("password")).after;
    assert s1 == WithModal(s, Modal.Welcome);
    WelcomeChoice(env, s1, Mode.Give, Option.None, Option.None);
  }

  /**
   * In give mode with only welcome completed, authorizing as the invited
   * user completes authorizing and goes on to inviting friends.
   */
  lemma InvitedAuthorizeInGiveMode(s: Session)
    requires Valid(s) && s.model.settings.mode == Mode.Give
    requires CompletedExactly(s, {Modal.Welcome})
    ensures var o := OnOauthAuthorized(s, Some(InvitedUser));
      && o.status == Ok && o.after.model.modal == Modal.InviteFriends
      && o.after.model.settings.mode == Mode.Give
      && CompletedExactly(o.after, {Modal.Welcome, Modal.Authorize})
  {
    var t := MarkDone(s.(model := s.model.(
      settings := s.model.settings.(userid := Some(InvitedUser)),
      connectivity := s.model.connectivity.(gtalkAuthorized := true))), Modal.Authorize);
    ConnectOutcomes(t);
    var d := t.internal.modalsCompleted;
    assert IsDone(s.internal.modalsCompleted, Modal.Welcome);
    assert !IsDone(s.internal.modalsCompleted, Modal.InviteFriends);
    NextModalGive(d, Option.None);
  }

  /**
   * In give mode with welcome and authorize completed, `continue` on
   * inviting friends goes on to the finished dialog.
   */
  lemma InviteFriendsToFinished(env: Env, s: Session)
    requires Valid(s) && s.model.modal == Modal.InviteFriends && s.model.settings.mode == Mode.Give
    requires CompletedExactly(s, {Modal.Welcome, Modal.Authorize})
    ensures var o := Interact(env, s, Some(Interaction.Continue), Option.None, Option.None);
      && o.status == Ok && o.after.model.modal == Modal.Finished
      && o.after.model.settings.mode == Mode.Give
      && CompletedExactly(o.after, {Modal.Welcome, Modal.Authorize, Modal.InviteFriends})
  {
    InviteFriendsContinue(env, s, Option.None, Option.None);
    var o := Interact(env, s, Some(Interaction.Continue), Option.None, Option.None);
    CompletedOneMore(s, o.after, {Modal.Welcome, Modal.Authorize}, Modal.InviteFriends);
    assert IsDone(s.internal.modalsCompleted, Modal.Welcome);
    assert IsDone(s.internal.modalsCompleted, Modal.Authorize);
    assert !IsDone(s.internal.modalsCompleted, Modal.Finished);
    NextModalGive(s.internal.modalsCompleted[Modal.InviteFriends := true], Option.None);
  }

  /**
   * With every give-mode dialog but the last completed, `continue` on the
   * finished dialog closes the sequence: no dialog, setup complete.
   */
  lemma FinishedClosesOnboarding(env: Env, s: Session)
    requires Valid(s) && s.model.modal == Modal.Finished && s.model.settings.mode == Mode.Give
    requires CompletedExactly(s, {Modal.Welcome, Modal.Authorize, Modal.InviteFriends})
    ensures var o := Interact(env, s, Some(Interaction.Continue), Option.None, Option.None);
      && o.status == Ok && o.after.model.modal == Modal.None
      && o.after.model.setupComplete
      && CompletedExactly(o.after, {Modal.Welcome, Modal.Authorize, Modal.InviteFriends, Modal.Finished})
  {
    FinishedContinue(env, s, Option.None, Option.None);
    var o := Interact(env, s, Some(Interaction.Continue), Option.None, Option.None);
    CompletedOneMore(s, o.after, {Modal.Welcome, Modal.Authorize, Modal.InviteFriends}, Modal.Finished);
    assert IsDone(s.internal.modalsCompleted, Modal.Welcome);
    assert IsDone(s.internal.modalsCompleted, Modal.Authorize);
    assert IsDone(s.internal.modalsCompleted, Modal.InviteFriends);
    NextModalGive(s.internal.modalsCompleted[Modal.Finished := true], Option.None);
  }

  /**
   * A freshly reset session qualifies for the onboarding above when the
   * backend's model is not set up and Beijing is not a censoring country.
   */
  lemma ResetSessionStartsOnboarding(m: Model)
    requires !m.setupComplete && "cn" !in m.censoringCountries
    ensures var s := Reseed(m);
      && Valid(s) && CompletedExactly(s, {}) && !s.model.setupComplete
      && !InCensoringCountry(s.model) && s.model.system.os == Os.Osx
  {
    ReseedModel(m);
    ReseedInternal(m);
  }
}
