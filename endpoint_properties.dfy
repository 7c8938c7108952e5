/**
 * What the endpoints other than `interaction` promise: `settings/` checks
 * each field on its own and keeps the valid ones even when it answers 400,
 * `settings/unlock` answers by the password, and `passwordCreate` and
 * `requestInvite` change the dialog before they throw.
 */
module EndpointProperties {
  import opened Wrappers
  import opened Enums
  import opened Store
  import opened Sequencer
  import opened ResetState
  import opened Strings
  import opened Handlers

  /** A given value that is `true` or `false`. */
  predicate GoodBool(q: Option<string>)
  {
    Given(q) && (q.value == "true" || q.value == "false")
  }

  /** A given value that is neither `true` nor `false`. */
  predicate BadBool(q: Option<string>)
  {
    Given(q) && !GoodBool(q)
  }

  predicate GoodMode(q: Option<string>)
  {
    Given(q) && (q.value == "give" || q.value == "get")
  }

  predicate GoodLang(q: Option<string>)
  {
    Given(q) && IsLang(q.value)
  }

  /** Some given field has a value the handler refuses; the sites list is never refused. */
  predicate InvalidField(q: SettingsQuery)
  {
    (Given(q.mode) && !GoodMode(q.mode))
    || BadBool(q.systemProxy)
    || (Given(q.lang) && !GoodLang(q.lang))
    || BadBool(q.autoStart) || BadBool(q.autoReport) || BadBool(q.proxyAllSites)
  }

  /*
   * The value each setting ends with, field by field, stated apart from
   * the handler: the given value when it is valid, the old value otherwise.
   */

  function ModeAfter(q: Option<string>, was: Mode): Mode
  {
    if !GoodMode(q) then was else if q.value == "give" then Mode.Give else Mode.Get
  }

  function BoolAfter(q: Option<string>, was: bool): bool
  {
    if GoodBool(q) then q.value == "true" else was
  }

  function LangAfter(q: Option<string>, was: string): string
  {
    if GoodLang(q) then q.value else was
  }

  function SitesAfter(q: Option<string>, was: seq<string>): seq<string>
  {
    if Given(q) then Split(q.value) else was
  }

  function PathIf(c: bool, path: Path): seq<Path>
  {
    if c then [path] else []
  }

  lemma ModeStepEffect(p: Pending, q: Option<string>)
    ensures var r := ModeStep(p, q);
      && r.settings == p.settings.(mode := ModeAfter(q, p.settings.mode))
      && r.bad == (p.bad || (Given(q) && !GoodMode(q)))
      && r.published == p.published + PathIf(GoodMode(q), ModePath)
  {
  }

  lemma SystemProxyStepEffect(p: Pending, q: Option<string>)
    ensures var r := SystemProxyStep(p, q);
      && r.settings == p.settings.(systemProxy := BoolAfter(q, p.settings.systemProxy))
      && r.bad == (p.bad || BadBool(q))
      && r.published == p.published + PathIf(GoodBool(q), SystemProxyPath)
  {
  }

  lemma LangStepEffect(p: Pending, q: Option<string>)
    ensures var r := LangStep(p, q);
      && r.settings == p.settings.(lang := LangAfter(q, p.settings.lang))
      && r.bad == (p.bad || (Given(q) && !GoodLang(q)))
      && r.published == p.published + PathIf(GoodLang(q), LangPath)
  {
  }

  lemma AutoStartStepEffect(p: Pending, q: Option<string>)
    ensures var r := AutoStartStep(p, q);
      && r.settings == p.settings.(autoStart := BoolAfter(q, p.settings.autoStart))
      && r.bad == (p.bad || BadBool(q))
      && r.published == p.published + PathIf(GoodBool(q), AutoStartPath)
  {
  }

  lemma AutoReportStepEffect(p: Pending, q: Option<string>)
    ensures var r := AutoReportStep(p, q);
      && r.settings == p.settings.(autoReport := BoolAfter(q, p.settings.autoReport))
      && r.bad == (p.bad || BadBool(q))
      && r.published == p.published + PathIf(GoodBool(q), AutoReportPath)
  {
  }

  lemma ProxyAllSitesStepEffect(p: Pending, q: Option<string>)
    ensures var r := ProxyAllSitesStep(p, q);
      && r.settings == p.settings.(proxyAllSites := BoolAfter(q, p.settings.proxyAllSites))
      && r.bad == (p.bad || BadBool(q))
      && r.published == p.published + PathIf(GoodBool(q), ProxyAllSitesPath)
  {
  }

  lemma ProxiedSitesStepEffect(p: Pending, q: Option<string>)
    ensures var r := ProxiedSitesStep(p, q);
      && r.settings == p.settings.(proxiedSites := SitesAfter(q, p.settings.proxiedSites))
      && r.bad == p.bad
      && r.published == p.published + PathIf(Given(q), ProxiedSitesPath)
  {
  }

  /** All seven steps, each with the effect stated above. */
  lemma AllStepEffects(p0: Pending, q: SettingsQuery)
    ensures var r := SettingsSteps(p0, q);
      && r.settings == p0.settings.(
           mode := ModeAfter(q.mode, p0.settings.mode),
           systemProxy := BoolAfter(q.systemProxy, p0.settings.systemProxy),
           lang := LangAfter(q.lang, p0.settings.lang),
           autoStart := BoolAfter(q.autoStart, p0.settings.autoStart),
           autoReport := BoolAfter(q.autoReport, p0.settings.autoReport),
           proxyAllSites := BoolAfter(q.proxyAllSites, p0.settings.proxyAllSites),
           proxiedSites := SitesAfter(q.proxiedSites, p0.settings.proxiedSites))
      && r.bad == (p0.bad || InvalidField(q))
      && r.published == p0.published
           + PathIf(GoodMode(q.mode), ModePath)
           + PathIf(GoodBool(q.systemProxy), SystemProxyPath)
           + PathIf(GoodLang(q.lang), LangPath)
           + PathIf(GoodBool(q.autoStart), AutoStartPath)
           + PathIf(GoodBool(q.autoReport), AutoReportPath)
           + PathIf(GoodBool(q.proxyAllSites), ProxyAllSitesPath)
           + PathIf(Given(q.proxiedSites), ProxiedSitesPath)
  {
    var p1 := ModeStep(p0, q.mode);
    var p2 := SystemProxyStep(p1, q.systemProxy);
    var p3 := LangStep(p2, q.lang);
    var p4 := AutoStartStep(p3, q.autoStart);
    var p5 := AutoReportStep(p4, q.autoReport);
    var p6 := ProxyAllSitesStep(p5, q.proxyAllSites);
    ModeStepEffect(p0, q.mode);
    SystemProxyStepEffect(p1, q.systemProxy);
    LangStepEffect(p2, q.lang);
    AutoStartStepEffect(p3, q.autoStart);
    AutoReportStepEffect(p4, q.autoReport);
    ProxyAllSitesStepEffect(p5, q.proxyAllSites);
    ProxiedSitesStepEffect(p6, q.proxiedSites);
  }

  /**
   * `settings/` answers 400 exactly when no field is present at all or
   * some given field is invalid, and 200 otherwise; it touches nothing but
   * the settings.
   */
  lemma SettingsStatus(s: Session, q: SettingsQuery)
    ensures var o := OnSettingsUpdate(s, q);
      && (o.status == Ok || o.status == BadRequest)
      && (o.status == BadRequest <==> AllAbsent(q) || InvalidField(q))
      && o.after.internal == s.internal
      && o.after.model == s.model.(settings := o.after.model.settings)
  {
    AllStepEffects(Pending(s.model.settings, false, []), q);
  }

  /**
   * Each setting takes its given value when that value is valid and keeps
   * its old value otherwise, whatever the other fields hold; the sites list
   * is the given value split at its commas.
   */
  lemma SettingsCommitted(s: Session, q: SettingsQuery)
    ensures var was := s.model.settings;
      OnSettingsUpdate(s, q).after.model.settings == was.(
        mode := ModeAfter(q.mode, was.mode),
        systemProxy := BoolAfter(q.systemProxy, was.systemProxy),
        lang := LangAfter(q.lang, was.lang),
        autoStart := BoolAfter(q.autoStart, was.autoStart),
        autoReport := BoolAfter(q.autoReport, was.autoReport),
        proxyAllSites := BoolAfter(q.proxyAllSites, was.proxyAllSites),
        proxiedSites := SitesAfter(q.proxiedSites, was.proxiedSites))
  {
    AllStepEffects(Pending(s.model.settings, false, []), q);
  }

  /** `settings/` publishes exactly the settings it stored, in the handler's order. */
  lemma SettingsPublished(s: Session, q: SettingsQuery)
    ensures OnSettingsUpdate(s, q).published ==
      PathIf(GoodMode(q.mode), ModePath)
      + PathIf(GoodBool(q.systemProxy), SystemProxyPath)
      + PathIf(GoodLang(q.lang), LangPath)
      + PathIf(GoodBool(q.autoStart), AutoStartPath)
      + PathIf(GoodBool(q.autoReport), AutoReportPath)
      + PathIf(GoodBool(q.proxyAllSites), ProxyAllSitesPath)
      + PathIf(Given(q.proxiedSites), ProxiedSitesPath)
  {
    AllStepEffects(Pending(s.model.settings, false, []), q);
    assert [] + PathIf(GoodMode(q.mode), ModePath) == PathIf(GoodMode(q.mode), ModePath);
  }

  /**
   * A stored sites list holds no commas and joins back to the value given,
   * so nothing of it is lost.
   */
  lemma ProxiedSitesKeepValue(s: Session, q: SettingsQuery)
    requires Given(q.proxiedSites)
    ensures var sites := OnSettingsUpdate(s, q).after.model.settings.proxiedSites;
      |sites| >= 1 && Join(sites) == q.proxiedSites.value && CommaFree(sites)
  {
    SettingsCommitted(s, q);
    JoinSplit(q.proxiedSites.value);
    assert OnSettingsUpdate(s, q).after.model.settings.proxiedSites == Split(q.proxiedSites.value);
  }

  /**
   * Fields that are present but empty are not absent: the request is
   * answered 200 and changes and publishes nothing.
   */
  lemma EmptyFieldsAreAccepted(s: Session)
    ensures var empty := Some("");
      OnSettingsUpdate(s, SettingsQuery(empty, empty, empty, empty, empty, empty, empty))
        == Outcome(s, Ok, [])
  {
  }

  /**
   * `settings/unlock`: a missing or empty password is a bad request, the
   * demo password opens welcome (or nothing once set up), any other is
   * forbidden; only the shown dialog can change.
   */
  lemma UnlockOutcomes(s: Session, password: Option<string>)
    ensures var o := OnUnlock(s, password);
      && (o.status == BadRequest <==> password.None? || password == Some(""))
      && (o.status == Ok <==> password == Some("password"))
      && (o.status == Forbidden <==> Given(password) && password.value != "password")
      && (o.status == Ok ==>
            o.after == WithModal(s, if s.model.setupComplete then Modal.None else Modal.Welcome)
            && o.published == [ModalPath])
      && (o.status != Ok ==> o.after == s && o.published == [])
  {
  }

  /**
   * `passwordCreate`: two equal non-empty passwords show authorize and
   * complete password creation before the handler throws; anything else is
   * a bad request that changes nothing.
   */
  lemma PasswordCreateOutcomes(s: Session, password1: Option<string>, password2: Option<string>)
    requires Valid(s)
    ensures var o := OnPasswordCreate(s, password1, password2);
      if Given(password1) && password1 == password2 then
        && o.status == Threw(false)
        && o.after.model == s.model.(modal := Modal.Authorize)
        && IsDone(o.after.internal.modalsCompleted, Modal.PasswordCreate)
        && (forall x :: x != Modal.PasswordCreate ==>
              (IsDone(o.after.internal.modalsCompleted, x) <==> IsDone(s.internal.modalsCompleted, x)))
        && o.after.internal == s.internal.(modalsCompleted := s.internal.modalsCompleted[Modal.PasswordCreate := true])
        && o.published == []
      else o == Reject(s)
  {
  }

  /**
   * `requestInvite` always shows "request sent" and then throws; a 400
   * header is written first exactly when `lanternDevs` is present and
   * neither `true` nor `false`.
   */
  lemma RequestInviteOutcomes(s: Session, lanternDevs: Option<string>)
    ensures var o := OnRequestInvite(s, lanternDevs);
      && o.status.Threw?
      && (o.status.wroteBadRequest <==> lanternDevs.Some? && lanternDevs.value != "true" && lanternDevs.value != "false")
      && o.after == WithModal(s, Modal.RequestSent)
      && o.published == []
  {
  }
}
