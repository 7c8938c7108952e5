/**
 * The servlet's session-internal state and the reset seed: the internal
 * state every session starts from (`RESET_INTERNAL_STATE`) and `_reset`,
 * which installs a fresh copy of it and applies its default presets to the
 * model.
 */
module ResetState {
  import opened Enums
  import opened Store
  import opened Scenarios
  import opened Sequencer

  /**
   * `lastModal` is where the scenario picker returns to; `modalsCompleted`
   * flags the onboarding dialogs the user has finished; `appliedScenarios`
   * lists the presets `_reset` applies.
   */
  datatype Internal = Internal(
    lastModal: Modal,
    modalsCompleted: map<Modal, bool>,
    appliedScenarios: seq<Scenario>)

  /** The backend's model together with the servlet's internal state. */
  datatype Session = Session(model: Model, internal: Internal)

  /**
   * `none` has no completion flag, so the sequencer's walk always stops at
   * the end of a sequence. (Reset installs flags for exactly the seven
   * tracked dialogs, and handlers only ever set tracked ones.)
   */
  predicate Valid(s: Session)
  {
    Modal.None !in s.internal.modalsCompleted
  }

  const InitialInternal: Internal := Internal(
    Modal.None,
    map[Modal.Welcome := false, Modal.PasswordCreate := false, Modal.Authorize := false,
        Modal.ProxiedSites := false, Modal.SystemProxy := false, Modal.InviteFriends := false,
        Modal.Finished := false],
    DefaultScenarios)

  /** `_reset` run over `model`: fresh internal state, then each default preset in turn. */
  function Reseed(model: Model): Session
  {
    Session(ApplyAll(model, InitialInternal.appliedScenarios), InitialInternal)
  }

  /**
   * After `_reset` the model is on OS X in Beijing, online, neither
   * connected to nor authorized for Google Talk, and otherwise as it was.
   */
  lemma ReseedModel(m: Model)
    ensures Reseed(m).model == m.(
      system := m.system.(os := Os.Osx),
      location := m.location.(country := "cn"),
      connectivity := m.connectivity.(
        internet := true, ip := "123.123.123.123",
        gtalk := Gtalk.NotConnected, gtalkAuthorized := false))
  {
    DefaultScenariosInOrder(m);
  }

  /** After `_reset` no dialog is completed and the picker would return to no dialog. */
  lemma ReseedInternal(m: Model)
    ensures Valid(Reseed(m))
    ensures Reseed(m).internal.modalsCompleted.Keys == TrackedModals
    ensures Reseed(m).internal.lastModal == Modal.None
    ensures forall x :: !IsDone(Reseed(m).internal.modalsCompleted, x)
  {
  }
}
