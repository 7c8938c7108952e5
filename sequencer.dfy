/**
 * The modal sequencer: the onboarding order of dialogs for each mode, and
 * the choice of the next dialog to show, which is the first one in that
 * order the user has not completed. Dialogs skipped earlier are shown again
 * as soon as they come first.
 */
module Sequencer {
  import opened Wrappers
  import opened Enums

  const GiveSequence: seq<Modal> :=
    [Modal.Welcome, Modal.Authorize, Modal.InviteFriends, Modal.Finished, Modal.None]

  const GetSequence: seq<Modal> :=
    [Modal.Welcome, Modal.Authorize, Modal.ProxiedSites, Modal.SystemProxy,
     Modal.InviteFriends, Modal.Finished, Modal.None]

  function SequenceFor(mode: Mode): (s: seq<Modal>)
    ensures |s| > 0 && s[|s| - 1] == Modal.None
  {
    if mode == Mode.Give then GiveSequence else GetSequence
  }

  /** The seven dialogs whose completion is tracked; `none` is not among them. */
  const TrackedModals: set<Modal> :=
    {Modal.Welcome, Modal.PasswordCreate, Modal.Authorize, Modal.ProxiedSites,
     Modal.SystemProxy, Modal.InviteFriends, Modal.Finished}

  /** A dialog counts as completed only if its flag is present and true. */
  predicate IsDone(done: map<Modal, bool>, m: Modal)
  {
    m in done && done[m]
  }

  /** The position of the first dialog of `s` that is not completed. */
  function FirstIncompleteIndex(s: seq<Modal>, done: map<Modal, bool>): (k: nat)
    requires |s| > 0 && !IsDone(done, s[|s| - 1])
    ensures k < |s| && !IsDone(done, s[k])
    ensures forall j :: 0 <= j < k ==> IsDone(done, s[j])
    decreases |s|
  {
    if !IsDone(done, s[0]) then 0 else 1 + FirstIncompleteIndex(s[1..], done)
  }

  /** Any position meeting the two conditions above is that first one. */
  lemma FirstIncompleteUnique(s: seq<Modal>, done: map<Modal, bool>, i: nat)
    requires |s| > 0 && !IsDone(done, s[|s| - 1])
    requires i < |s| && !IsDone(done, s[i])
    requires forall j :: 0 <= j < i ==> IsDone(done, s[j])
    ensures i == FirstIncompleteIndex(s, done)
  {
  }

  /**
   * The dialog to show next: the first uncompleted one of the mode's
   * sequence, except that `backTo`, when given, replaces `none`.
   */
  function NextModal(mode: Mode, done: map<Modal, bool>, backTo: Option<Modal>): Modal
    requires !IsDone(done, Modal.None)
  {
    var s := SequenceFor(mode);
    var next := s[FirstIncompleteIndex(s, done)];
    if backTo.Some? && next == Modal.None then backTo.value else next
  }

  /**
   * The give-mode choice written out case by case: welcome, authorize,
   * invite friends, finished, and then nothing (or `backTo`).
   */
  lemma NextModalGive(done: map<Modal, bool>, backTo: Option<Modal>)
    requires !IsDone(done, Modal.None)
    ensures NextModal(Mode.Give, done, backTo) ==
      if !IsDone(done, Modal.Welcome) then Modal.Welcome
      else if !IsDone(done, Modal.Authorize) then Modal.Authorize
      else if !IsDone(done, Modal.InviteFriends) then Modal.InviteFriends
      else if !IsDone(done, Modal.Finished) then Modal.Finished
      else if backTo.Some? then backTo.value
      else Modal.None
  {
    var s := GiveSequence;
    var k := FirstIncompleteIndex(s, done);
    if k > 0 { assert IsDone(done, s[0]); }
    if k > 1 { assert IsDone(done, s[1]); }
    if k > 2 { assert IsDone(done, s[2]); }
    if k > 3 { assert IsDone(done, s[3]); }
  }

  /**
   * The get-mode choice written out case by case: welcome, authorize,
   * proxied sites, system proxy, invite friends, finished, and then nothing
   * (or `backTo`).
   */
  lemma NextModalGet(done: map<Modal, bool>, backTo: Option<Modal>)
    requires !IsDone(done, Modal.None)
    ensures NextModal(Mode.Get, done, backTo) ==
      if !IsDone(done, Modal.Welcome) then Modal.Welcome
      else if !IsDone(done, Modal.Authorize) then Modal.Authorize
      else if !IsDone(done, Modal.ProxiedSites) then Modal.ProxiedSites
      else if !IsDone(done, Modal.SystemProxy) then Modal.SystemProxy
      else if !IsDone(done, Modal.InviteFriends) then Modal.InviteFriends
      else if !IsDone(done, Modal.Finished) then Modal.Finished
      else if backTo.Some? then backTo.value
      else Modal.None
  {
    var s := GetSequence;
    var k := FirstIncompleteIndex(s, done);
    if k > 0 { assert IsDone(done, s[0]); }
    if k > 1 { assert IsDone(done, s[1]); }
    if k > 2 { assert IsDone(done, s[2]); }
    if k > 3 { assert IsDone(done, s[3]); }
    if k > 4 { assert IsDone(done, s[4]); }
    if k > 5 { assert IsDone(done, s[5]); }
  }

  /**
   * A completed dialog is never chosen again, whatever the mode, unless it
   * is itself the `backTo` dialog.
   */
  lemma CompletedModalSkipped(mode: Mode, done: map<Modal, bool>, backTo: Option<Modal>, x: Modal)
    requires !IsDone(done, Modal.None)
    requires IsDone(done, x) && backTo != Some(x)
    ensures NextModal(mode, done, backTo) != x
  {
  }

  /**
   * `backTo` only ever stands in for `none`: the choice with it is the
   * choice without it, unless that was `none`.
   */
  lemma BackToReplacesOnlyNone(mode: Mode, done: map<Modal, bool>, backTo: Modal)
    requires !IsDone(done, Modal.None)
    ensures NextModal(mode, done, Some(backTo)) ==
      if NextModal(mode, done, Option.None) == Modal.None then backTo
      else NextModal(mode, done, Option.None)
  {
  }
}
