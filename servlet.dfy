/**
 * The servlet object itself: the backend's model and the servlet's
 * internal state as fields that each handler updates in place, and the
 * log of paths published to the front end. Every method is proved to
 * leave the state, and to publish, exactly what the corresponding
 * function of `Handlers` computes from the state before the call.
 */
module Servlet {
  import opened Wrappers
  import opened Enums
  import opened Store
  import opened Scenarios
  import opened Sequencer
  import opened ResetState
  import opened Handlers
  import opened Strings

  /**
   * The search loop of `_advanceModal`: steps along `modalSeq` while the
   * dialog reached is completed (an absent flag counts as not completed).
   */
  method FirstIncomplete(modalSeq: seq<Modal>, done: map<Modal, bool>) returns (i: nat)
    requires |modalSeq| > 0 && !IsDone(done, modalSeq[|modalSeq| - 1])
    ensures i == FirstIncompleteIndex(modalSeq, done)
  {
    i := 0;
    var next := modalSeq[0];
    while IsDone(done, next)
      invariant 0 <= i < |modalSeq| && next == modalSeq[i]
      invariant forall j :: 0 <= j < i ==> IsDone(done, modalSeq[j])
      decreases |modalSeq| - i
    {
      i := i + 1;
      next := modalSeq[i];
    }
    FirstIncompleteUnique(modalSeq, done, i);
  }

  /**
   * A preset's function, as `make_simple_scenario` builds it: merges each
   * of the preset's setters into the model and publishes its path.
   */
  method RunScenario(m: Model, sc: Scenario) returns (r: Model, pubs: seq<Path>)
    ensures r == ApplyScenario(m, sc) == Preset(m, sc)
    ensures pubs == Paths(ScenarioState(sc))
  {
    var state := ScenarioState(sc);
    r, pubs := m, [];
    var k := 0;
    while k < |state|
      invariant 0 <= k <= |state|
      invariant r == MergeAll(m, state[..k])
      invariant pubs == Paths(state[..k])
    {
      assert state[..k + 1][..k] == state[..k];
      r := Merge(r, state[k]);
      pubs := pubs + [PathOf(state[k])];
      k := k + 1;
    }
    assert state[..k] == state;
    ApplyScenarioIsPreset(m, sc);
  }

  /**
   * The connection steps of `_tryConnect` up to the point where an invited
   * user moves on in the sequence: the model they leave, what they publish,
   * and whether the sequencer still has to run.
   */
  method ConnectSteps(s: Session) returns (m: Model, pubs: seq<Path>, invited: bool)
    requires Valid(s)
    ensures invited == (s.model.settings.userid == Some(InvitedUser))
    ensures !invited ==> Handlers.TryConnect(s) == Outcome(s.(model := m), Ok, pubs)
    ensures invited ==> Handlers.TryConnect(s) == Prefixed(pubs, Advance(s.(model := m), Option.None))
  {
    var userid := s.model.settings.userid;
    m := s.model.(connectivity := s.model.connectivity.(gtalk := Gtalk.Connecting));
    pubs := [GtalkPath];
    m := m.(modal := Modal.GtalkConnecting);
    pubs := pubs + [ModalPath];
    invited := false;
    if userid == Some(UnreachableUser) {
      m := m.(connectivity := m.connectivity.(gtalk := Gtalk.NotConnected));
      pubs := pubs + [GtalkPath];
      m := m.(modal := Modal.GtalkUnreachable);
      pubs := pubs + [ModalPath];
    } else {
      m := m.(connectivity := m.connectivity.(gtalk := Gtalk.Connected));
      pubs := pubs + [GtalkPath];
      m := m.(roster := RosterFixture);
      pubs := pubs + [RosterPath];
      if userid != Some(InvitedUser) {
        m := m.(modal := Modal.NotInvited);
        pubs := pubs + [ModalPath];
      } else {
        m := m.(connectivity := m.connectivity.(peers := Peers(PeerIds, PeerFixtures)));
        pubs := pubs + [PeersPath];
        invited := true;
      }
    }
  }


  /*
   * The field checks of `settings/`, in the handler's order: a given
   * field is stored and its path published when its value is valid, and
   * the request is flagged as bad when it is not.
   */

  method CheckMode(p: Pending, q: Option<string>) returns (r: Pending)
    ensures r == ModeStep(p, q)
  {
    r := p;
    if Given(q) {
      var mode := ParseMode(q.value);
      if mode.None? {
        r := r.(bad := true);
      } else {
        r := r.(settings := r.settings.(mode := mode.value), published := r.published + [ModePath]);
      }
    }
  }

  method CheckSystemProxy(p: Pending, q: Option<string>) returns (r: Pending)
    ensures r == SystemProxyStep(p, q)
  {
    r := p;
    if Given(q) {
      var b := ParseBool(q.value);
      if b.None? {
        r := r.(bad := true);
      } else {
        r := r.(settings := r.settings.(systemProxy := b.value), published := r.published + [SystemProxyPath]);
      }
    }
  }

  method CheckLang(p: Pending, q: Option<string>) returns (r: Pending)
    ensures r == LangStep(p, q)
  {
    r := p;
    if Given(q) {
      if !IsLang(q.value) {
        r := r.(bad := true);
      } else {
        r := r.(settings := r.settings.(lang := q.value), published := r.published + [LangPath]);
      }
    }
  }

  method CheckAutoStart(p: Pending, q: Option<string>) returns (r: Pending)
    ensures r == AutoStartStep(p, q)
  {
    r := p;
    if Given(q) {
      var b := ParseBool(q.value);
      if b.None? {
        r := r.(bad := true);
      } else {
        r := r.(settings := r.settings.(autoStart := b.value), published := r.published + [AutoStartPath]);
      }
    }
  }

  method CheckAutoReport(p: Pending, q: Option<string>) returns (r: Pending)
    ensures r == AutoReportStep(p, q)
  {
    r := p;
    if Given(q) {
      var b := ParseBool(q.value);
      if b.None? {
        r := r.(bad := true);
      } else {
        r := r.(settings := r.settings.(autoReport := b.value), published := r.published + [AutoReportPath]);
      }
    }
  }

  method CheckProxyAllSites(p: Pending, q: Option<string>) returns (r: Pending)
    ensures r == ProxyAllSitesStep(p, q)
  {
    r := p;
    if Given(q) {
      var b := ParseBool(q.value);
      if b.None? {
        r := r.(bad := true);
      } else {
        r := r.(settings := r.settings.(proxyAllSites := b.value), published := r.published + [ProxyAllSitesPath]);
      }
    }
  }

  /** The sites list has no validation: it is split on commas and stored. */
  method CheckProxiedSites(p: Pending, q: Option<string>) returns (r: Pending)
    ensures r == ProxiedSitesStep(p, q)
  {
    r := p;
    if Given(q) {
      r := r.(settings := r.settings.(proxiedSites := Split(q.value)), published := r.published + [ProxiedSitesPath]);
    }
  }

  class ApiServlet {
    /** The model the backend restores when it is reset. */
    const seed: Model
    /** The proxied sites the backend started with, kept for `proxiedSites` resets. */
    const defaultProxiedSites: seq<string>

    var model: Model
    var lastModal: Modal
    var modalsCompleted: map<Modal, bool>
    var appliedScenarios: seq<Scenario>
    /** Every path passed to `publishSync`, oldest first. */
    var published: seq<Path>

    function Snapshot(): Session
      reads this
    {
      Session(model, Internal(lastModal, modalsCompleted, appliedScenarios))
    }

    function Environment(): Env
      reads this
    {
      Env(seed, defaultProxiedSites)
    }

    /** `none` has no completion flag (see `ResetState.Valid`). */
    predicate Valid()
      reads this
    {
      Modal.None !in modalsCompleted
    }

    /**
     * Takes over the backend's model and runs `_reset` on it, then keeps a
     * copy of the proxied sites it starts with.
     */
    constructor (initial: Model)
      ensures Valid()
      ensures Snapshot() == Reseed(initial)
      ensures published == ScenarioPaths(DefaultScenarios)
      ensures seed == initial
      ensures defaultProxiedSites == model.settings.proxiedSites == initial.settings.proxiedSites
    {
      seed := initial;
      defaultProxiedSites := initial.settings.proxiedSites;
      model := initial;
      lastModal := Modal.None;
      modalsCompleted := map[];
      appliedScenarios := [];
      published := [];
      new;
      Reset();
      ReseedModel(initial);
      ReseedInternal(initial);
    }

    /** The `forEach` of `_reset`: runs each preset's function in turn. */
    method RunScenarios(scs: seq<Scenario>)
      requires Valid()
      modifies this
      ensures Valid()
      ensures model == ApplyAll(old(model), scs)
      ensures published == old(published) + ScenarioPaths(scs)
      ensures lastModal == old(lastModal) && modalsCompleted == old(modalsCompleted)
      ensures appliedScenarios == old(appliedScenarios)
    {
      var m := model;
      var pubs: seq<Path> := [];
      var k := 0;
      while k < |scs|
        invariant 0 <= k <= |scs|
        invariant m == ApplyAll(model, scs[..k])
        invariant pubs == ScenarioPaths(scs[..k])
        modifies {}
      {
        ApplyAllStep(model, scs, k);
        ScenarioPathsStep(scs, k);
        var r, ps := RunScenario(m, scs[k]);
        m, pubs := r, pubs + ps;
        k := k + 1;
      }
      assert scs[..k] == scs;
      model, published := m, published + pubs;
    }

    /** `_reset`: a fresh copy of the initial internal state, then its presets applied in order. */
    method Reset()
      modifies this
      ensures Valid()
      ensures Snapshot() == Reseed(old(model))
      ensures published == old(published) + ScenarioPaths(DefaultScenarios)
    {
      lastModal := InitialInternal.lastModal;
      modalsCompleted := InitialInternal.modalsCompleted;
      appliedScenarios := InitialInternal.appliedScenarios;
      RunScenarios(appliedScenarios);
    }

    /**
     * `_advanceModal`: shows the first dialog of the mode's sequence that
     * is not completed, or `backTo` in place of `none`.
     */
    method AdvanceModal(backTo: Option<Modal>)
      requires Valid()
      modifies this
      ensures model == old(model).(modal := NextModal(old(model).settings.mode, old(modalsCompleted), backTo))
      ensures lastModal == old(lastModal) && modalsCompleted == old(modalsCompleted)
      ensures appliedScenarios == old(appliedScenarios)
      ensures published == old(published) + [ModalPath]
    {
      var modalSeq := if model.settings.mode == Mode.Give then GiveSequence else GetSequence;
      var i := FirstIncomplete(modalSeq, modalsCompleted);
      var next := modalSeq[i];
      if backTo.Some? && next == Modal.None {
        next := backTo.value;
      }
      model := model.(modal := next);
      published := published + [ModalPath];
    }

    /**
     * `_tryConnect`: connects to Google Talk step by step, stopping at the
     * unreachable or the not-invited dialog, and otherwise fetching the
     * peers and moving on in the sequence.
     */
    method TryConnect()
      requires Valid()
      modifies this
      ensures Valid()
      ensures Snapshot() == Handlers.TryConnect(old(Snapshot())).after
      ensures published == old(published) + Handlers.TryConnect(old(Snapshot())).published
    {
      var m, pubs, invited := ConnectSteps(Snapshot());
      model, published := m, published + pubs;
      if invited {
        AdvanceModal(Option.None);
        AppendAssociative(old(published), pubs, [ModalPath]);
      }
    }

    /** Installs an outcome computed on values and appends its publications. */
    method Commit(o: Outcome)
      modifies this
      ensures Snapshot() == o.after
      ensures published == old(published) + o.published
    {
      model := o.after.model;
      lastModal := o.after.internal.lastModal;
      modalsCompleted := o.after.internal.modalsCompleted;
      appliedScenarios := o.after.internal.appliedScenarios;
      published := published + o.published;
    }

    /**
     * The `interaction` endpoint: decodes the query's interaction and lets
     * the current dialog (or the scenario picker) handle it.
     */
    method Interaction(query: Option<string>, applied: Option<string>, systemProxy: Option<string>)
      returns (status: Status)
      requires Valid()
      modifies this
      ensures Valid()
      ensures var o := Interact(old(Environment()), old(Snapshot()), Decode(query), applied, systemProxy);
        && Snapshot() == o.after
        && published == old(published) + o.published
        && status == o.status
    {
      var o := Interact(Environment(), Snapshot(), Decode(query), applied, systemProxy);
      Commit(o);
      status := o.status;
    }

    /** `oauthAuthorized`: stores the user id, completes authorizing and tries to connect. */
    method OauthAuthorized(userid: Option<string>) returns (status: Status)
      requires Valid()
      modifies this
      ensures Valid()
      ensures var o := OnOauthAuthorized(old(Snapshot()), userid);
        && Snapshot() == o.after
        && published == old(published) + o.published
        && status == o.status
    {
      ghost var authorized := MarkDone(Snapshot().(model := model.(
        settings := model.settings.(userid := userid),
        connectivity := model.connectivity.(gtalkAuthorized := true))), Modal.Authorize);
      model := model.(
        settings := model.settings.(userid := userid),
        connectivity := model.connectivity.(gtalkAuthorized := true));
      published := published + [UseridPath, GtalkAuthorizedPath];
      modalsCompleted := modalsCompleted[Modal.Authorize := true];
      assert Snapshot() == authorized;
      TryConnect();
      AppendAssociative(old(published), [UseridPath, GtalkAuthorizedPath], Handlers.TryConnect(authorized).published);
      status := Ok;
    }

    /** `settings/unlock`: checks the demo password. */
    method Unlock(password: Option<string>) returns (status: Status)
      requires Valid()
      modifies this
      ensures Valid()
      ensures var o := OnUnlock(old(Snapshot()), password);
        && Snapshot() == o.after
        && published == old(published) + o.published
        && status == o.status
    {
      if !Given(password) {
        status := BadRequest;
      } else if password.value == "password" {
        model := model.(modal := if model.setupComplete then Modal.None else Modal.Welcome);
        published := published + [ModalPath];
        status := Ok;
      } else {
        status := Forbidden;
      }
    }

    /** `passwordCreate`: stores nothing on a mismatch, and throws after the update otherwise. */
    method PasswordCreate(password1: Option<string>, password2: Option<string>) returns (status: Status)
      requires Valid()
      modifies this
      ensures Valid()
      ensures var o := OnPasswordCreate(old(Snapshot()), password1, password2);
        && Snapshot() == o.after
        && published == old(published) + o.published
        && status == o.status
    {
      if !(Given(password1) && Given(password2) && password1 == password2) {
        status := BadRequest;
      } else {
        model := model.(modal := Modal.Authorize);
        modalsCompleted := modalsCompleted[Modal.PasswordCreate := true];
        status := Threw(false);
      }
    }

    /** `requestInvite`: flags a bad `lanternDevs`, shows "request sent", then throws. */
    method RequestInvite(lanternDevs: Option<string>) returns (status: Status)
      requires Valid()
      modifies this
      ensures Valid()
      ensures var o := OnRequestInvite(old(Snapshot()), lanternDevs);
        && Snapshot() == o.after
        && published == old(published) + o.published
        && status == o.status
    {
      var bad := false;
      if lanternDevs.Some? && lanternDevs.value != "true" && lanternDevs.value != "false" {
        bad := true;
      }
      model := model.(modal := Modal.RequestSent);
      status := Threw(bad);
    }

    /**
     * `settings/`: goes through the fields in order, storing and publishing
     * each valid one and remembering whether any was invalid.
     */
    method UpdateSettings(q: SettingsQuery) returns (status: Status)
      requires Valid()
      modifies this
      ensures Valid()
      ensures var o := OnSettingsUpdate(old(Snapshot()), q);
        && Snapshot() == o.after
        && published == old(published) + o.published
        && status == o.status
    {
      if AllAbsent(q) {
        return BadRequest;
      }
      var p := Pending(model.settings, false, []);
      p := CheckMode(p, q.mode);
      p := CheckSystemProxy(p, q.systemProxy);
      p := CheckLang(p, q.lang);
      p := CheckAutoStart(p, q.autoStart);
      p := CheckAutoReport(p, q.autoReport);
      p := CheckProxyAllSites(p, q.proxyAllSites);
      p := CheckProxiedSites(p, q.proxiedSites);
      model, published := model.(settings := p.settings), published + p.published;
      status := if p.bad then BadRequest else Ok;
    }
  }
}
