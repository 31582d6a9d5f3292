/** The submit protocol of the money and versioned action forms, and of the record creation form,
    against a server that applies each idempotency key at most once.

    A submit is split at its `await`: the handler sends a request and later resolves it. */
module SubmitProtocol {

  import opened Common

  type Key = nat

  datatype Outcome = Success | ConflictError | ApiError | NetworkError

  /** The refs and state flags of a form. */
  datatype Form = Form(inflight: bool, processing: bool, open: bool, conflict: bool, error: bool, key: Key)

  // ----- The handlers ---------------------------------------------------------------------------

  function Opened(f: Form): Form {
    f.(error := false, conflict := false, open := true)
  }

  function Cancelled(f: Form): Form {
    f.(open := false, inflight := false)
  }

  /** The part of `handleConfirm` before its `await`; a locked form sends nothing. */
  function Confirmed(f: Form): (Form, Option<Key>) {
    if f.inflight then (f, None)
    else (f.(inflight := true, processing := true, error := false), Some(f.key))
  }

  /** The part after it.  A version conflict keeps the lock; success draws a fresh key. */
  function Resolved(f: Form, outcome: Outcome, freshKey: Key): Form {
    match outcome
    case Success => f.(open := false, key := freshKey, inflight := false, processing := false)
    case ConflictError => f.(conflict := true, error := true, processing := false)
    case _ => f.(error := true, inflight := false, processing := false)
  }

  /** `handleSubmit` of the creation form, which has no dialog and always releases its lock. */
  function Submitted(f: Form, disabled: bool): (Form, Option<Key>) {
    if f.inflight || disabled then (f, None)
    else (f.(inflight := true, processing := true, error := false, conflict := false), Some(f.key))
  }

  function SubmitResolved(f: Form, outcome: Outcome, freshKey: Key): Form {
    var released := f.(inflight := false, processing := false);
    match outcome
    case Success => released.(key := freshKey)
    case ConflictError => released.(conflict := true, error := true)
    case _ => released.(error := true)
  }

  class ActionForm {
    var inflight: bool
    var processing: bool
    var open: bool
    var conflict: bool
    var error: bool
    var key: Key

    ghost function View(): Form
      reads this
    {
      Form(inflight, processing, open, conflict, error, key)
    }

    constructor (key: Key)
      ensures View() == Form(false, false, false, false, false, key)
    {
      this.key := key;
      inflight, processing, open, conflict, error := false, false, false, false, false;
    }

    method HandleOpen()
      modifies this
      ensures View() == Opened(old(View()))
    {
      error := false;
      conflict := false;
      open := true;
    }

    method HandleCancel()
      modifies this
      ensures View() == Cancelled(old(View()))
    {
      open := false;
      inflight := false;
    }

    method BeginConfirm() returns (sent: Option<Key>)
      modifies this
      ensures (View(), sent) == Confirmed(old(View()))
    {
      if inflight {
        return None;
      }
      inflight := true;
      processing := true;
      error := false;
      return Some(key);
    }

    method EndConfirm(outcome: Outcome, freshKey: Key)
      modifies this
      ensures View() == Resolved(old(View()), outcome, freshKey)
    {
      match outcome {
        case Success =>
          open := false;
          key := freshKey;
          inflight := false;
        case ConflictError =>
          conflict := true;
          error := true;
        case _ =>
          error := true;
          inflight := false;
      }
      processing := false;
    }
  }

  class CreateRecordForm {
    var inflight: bool
    var processing: bool
    var conflict: bool
    var error: bool
    var key: Key

    ghost function View(): Form
      reads this
    {
      Form(inflight, processing, true, conflict, error, key)
    }

    constructor (key: Key)
      ensures View() == Form(false, false, true, false, false, key)
    {
      this.key := key;
      inflight, processing, conflict, error := false, false, false, false;
    }

    method BeginSubmit(disabled: bool) returns (sent: Option<Key>)
      modifies this
      ensures (View(), sent) == Submitted(old(View()), disabled)
    {
      if inflight || disabled {
        return None;
      }
      inflight := true;
      processing := true;
      error := false;
      conflict := false;
      return Some(key);
    }

    /** `completed` tells the page to run its success callback. */
    method EndSubmit(outcome: Outcome, freshKey: Key) returns (completed: bool)
      modifies this
      ensures View() == SubmitResolved(old(View()), outcome, freshKey)
      ensures completed <==> outcome.Success?
    {
      completed := false;
      if outcome.Success? {
        key := freshKey;
        completed := true;
      } else {
        if outcome.ConflictError? {
          conflict := true;
        }
        error := true;
      }
      inflight := false;
      processing := false;
    }
  }

  // ----- Form, network and server ---------------------------------------------------------------

  /** `DialogForm` confirms in a dialog; `DirectForm` is the creation form. */
  datatype Kind = DialogForm | DirectForm

  /** `pending` holds the keys of unresolved submits, `wire` every key ever sent, `effects` the
      server's log, `succeeded` the keys of the submits reported as successes. */
  datatype System = System(
    kind: Kind, form: Form, nextKey: Key, pending: seq<Key>, wire: set<Key>, effects: seq<Key>, succeeded: seq<Key>)

  datatype Event =
    | OpenDialog
    | Cancel                             // button, Escape, or the dialog's own close event
    | Confirm                            // a click on confirm, even on the disabled button
    | Submit(disabled: bool)             // a submit of the creation form
    | Deliver(key: Key)                  // the server handles a request, however late
    | Resolve(index: nat, outcome: Outcome)

  /** The dialog form's opening button is disabled while processing; confirm needs the dialog; success is
      answered only for an applied key. */
  predicate Enabled(s: System, e: Event) {
    match e
    case OpenDialog => s.kind.DialogForm? && !s.form.processing
    case Cancel => s.kind.DialogForm?
    case Confirm => s.kind.DialogForm? && s.form.open
    case Submit(_) => s.kind.DirectForm?
    case Deliver(key) => key in s.wire
    case Resolve(index, outcome) =>
      index < |s.pending| && (outcome.Success? ==> s.pending[index] in s.effects)
  }

  function Send(s: System, attempt: (Form, Option<Key>)): System {
    match attempt.1
    case None => s.(form := attempt.0)
    case Some(key) => s.(form := attempt.0, pending := s.pending + [key], wire := s.wire + {key})
  }

  function Step(s: System, e: Event): System
    requires Enabled(s, e)
  {
    match e
    case OpenDialog => s.(form := Opened(s.form))
    case Cancel => s.(form := Cancelled(s.form))
    case Confirm => Send(s, Confirmed(s.form))
    case Submit(disabled) => Send(s, Submitted(s.form, disabled))
    case Deliver(key) => if key in s.effects then s else s.(effects := s.effects + [key])
    case Resolve(index, outcome) =>
      var form := if s.kind.DialogForm? then Resolved(s.form, outcome, s.nextKey)
                  else SubmitResolved(s.form, outcome, s.nextKey);
      var rest := s.pending[..index] + s.pending[index + 1..];
      if outcome.Success? then
        s.(form := form, pending := rest, nextKey := s.nextKey + 1, succeeded := s.succeeded + [s.pending[index]])
      else s.(form := form, pending := rest)
  }

  function Start(kind: Kind): System {
    System(kind, Form(false, false, kind.DirectForm?, false, false, 0), 1, [], {}, [], [])
  }

  /** The events can happen in this order from `s`. */
  predicate IsRun(s: System, es: seq<Event>)
    decreases es
  {
    es == [] || (Enabled(s, es[0]) && IsRun(Step(s, es[0]), es[1..]))
  }

  function After(s: System, es: seq<Event>): System
    requires IsRun(s, es)
    decreases es
  {
    if es == [] then s else After(Step(s, es[0]), es[1..])
  }

  // ----- Safety ---------------------------------------------------------------------------------

  /** The lock alone does not hold: Escape releases it while the request is pending.  What holds is
      that the dialog is then shut and cannot be reopened until the request is resolved. */
  ghost predicate Locked(s: System) {
    && |s.pending| <= 1
    && (s.form.processing <==> s.pending != [])
    && (s.pending != [] ==> (s.form.inflight <==> s.form.open))
    && (s.kind.DirectForm? ==> s.form.open)
    && (s.kind.DirectForm? && s.pending == [] ==> !s.form.inflight)
  }

  ghost predicate Keyed(s: System) {
    && (s.pending != [] ==> s.pending[0] == s.form.key)
    && s.form.key < s.nextKey
    && (forall k :: k in s.pending ==> k in s.wire)
    && (forall k :: k in s.wire ==> k in s.succeeded || k == s.form.key)
    && (forall k :: k in s.effects ==> k in s.wire)
    && (forall k :: k in s.succeeded ==> k in s.effects && k < s.nextKey && k != s.form.key)
    && NoDuplicates(s.effects)
    && NoDuplicates(s.succeeded)
  }

  lemma LockedStep(s: System, e: Event)
    requires Locked(s) && Enabled(s, e)
    ensures Locked(Step(s, e))
  {
  }

  lemma KeyedStep(s: System, e: Event)
    requires Locked(s) && Keyed(s) && Enabled(s, e)
    ensures Keyed(Step(s, e))
  {
    if e.Resolve? {
      assert s.pending[..e.index] + s.pending[e.index + 1..] == [];
    }
  }

  lemma {:induction false} AlwaysSafe(s: System, es: seq<Event>)
    requires Locked(s) && Keyed(s) && IsRun(s, es)
    ensures Locked(After(s, es)) && Keyed(After(s, es))
    decreases |es|
  {
    if es != [] {
      LockedStep(s, es[0]);
      KeyedStep(s, es[0]);
      AlwaysSafe(Step(s, es[0]), es[1..]);
    }
  }

  /** In every reachable state at most one submit is outstanding; it carries the current key, and the
      lock is held exactly as long as the dialog is still shown. */
  lemma AtMostOneOutstanding(kind: Kind, es: seq<Event>)
    requires IsRun(Start(kind), es)
    ensures var s := After(Start(kind), es);
      && |s.pending| <= 1
      && (s.pending != [] ==>
            s.form.processing && s.pending[0] == s.form.key && (s.form.inflight <==> s.form.open))
  {
    AlwaysSafe(Start(kind), es);
  }

  /** However many times the user retries and however late requests arrive, the server has applied
      every reported success and at most one more effect: retries never apply twice. */
  lemma EffectsMatchSuccesses(kind: Kind, es: seq<Event>)
    requires IsRun(Start(kind), es)
    ensures var s := After(Start(kind), es);
      && |s.succeeded| <= |s.effects| <= |s.succeeded| + 1
      && NoDuplicates(s.effects)
      && forall k :: k in s.effects ==> k in s.succeeded || k == s.form.key
  {
    AlwaysSafe(Start(kind), es);
    var s := After(Start(kind), es);
    SubsetBySize(s.succeeded, s.effects);
    forall k | k in s.effects
      ensures k in s.succeeded + [s.form.key]
    {
      if k == s.form.key {
        assert (s.succeeded + [s.form.key])[|s.succeeded|] == k;
      }
    }
    SubsetBySize(s.effects, s.succeeded + [s.form.key]);
  }

  /** The key changes exactly when a success is reported, and then to one never used before. */
  lemma KeyChangesOnSuccessOnly(s: System, e: Event)
    requires Locked(s) && Keyed(s) && Enabled(s, e)
    ensures var s' := Step(s, e);
      && (s'.form.key != s.form.key <==> e.Resolve? && e.outcome.Success?)
      && (s'.form.key != s.form.key ==> s'.form.key !in s.wire && s'.succeeded == s.succeeded + [s.form.key])
  {
  }

  // ----- Spent confirmations and recovery -------------------------------------------------------

  /** After a version conflict the confirmation stays spent: without a cancel, no sequence of events
      sends another request. */
  lemma {:induction false} SpentUntilCancel(s: System, es: seq<Event>)
    requires s.kind.DialogForm? && s.form.inflight && s.pending == [] && IsRun(s, es)
    requires forall i :: 0 <= i < |es| ==> es[i] != Cancel
    ensures After(s, es).wire == s.wire && After(s, es).pending == []
    decreases |es|
  {
    if es != [] {
      SpentUntilCancel(Step(s, es[0]), es[1..]);
    }
  }

  /** A conflict leaves that state exactly when the user has not cancelled while it was pending. */
  lemma ConflictSpends(s: System)
    requires Locked(s) && s.kind.DialogForm? && s.pending != []
    ensures var s' := Step(s, Resolve(0, ConflictError));
      s'.pending == [] && s'.form.conflict && (s'.form.inflight <==> s.form.inflight)
  {
  }

  /** The form is never stuck: whenever nothing is outstanding, cancelling, reopening and confirming
      sends the current key again. */
  lemma CanAlwaysRetry(s: System)
    requires Locked(s) && s.kind.DialogForm? && s.pending == []
    ensures var es := [Cancel, OpenDialog, Confirm];
      IsRun(s, es) && After(s, es).pending == [s.form.key] && s.form.key in After(s, es).wire
  {
    var s1 := Step(s, Cancel);
    var s2 := Step(s1, OpenDialog);
    var es := [Cancel, OpenDialog, Confirm];
    assert es[1..] == [OpenDialog, Confirm] && es[1..][1..] == [Confirm] && es[1..][1..][1..] == [];
    assert IsRun(s2, [Confirm]) && IsRun(s1, es[1..]);
    assert After(s2, [Confirm]) == Step(s2, Confirm);
  }

  /** The dialog guard is needed: with Escape pressed mid-flight, a confirm that did not need the
      dialog would send a second request. */
  lemma EscapeReleasesTheLock(f: Form)
    requires !f.inflight
    ensures var sent := Confirmed(f).0;
      Confirmed(sent).1 == None && Confirmed(Cancelled(sent)).1 == Some(f.key) && !Cancelled(sent).open
  {
  }

  // ----- What a failure leaves on the form ------------------------------------------------------

  function FailedWith(outcome: Outcome): (es: seq<Event>) {
    [Resolve(0, outcome), Confirm]
  }

  /** With the dialog still shown, confirming again after a failure sends the same key again, without a
      cancel between, exactly when the failure was no version conflict. */
  lemma FailureReleasesTheLock(s: System, outcome: Outcome)
    requires Locked(s) && Keyed(s) && s.kind.DialogForm? && s.pending != [] && s.form.open && !outcome.Success?
    ensures IsRun(s, FailedWith(outcome))
    ensures var s' := After(s, FailedWith(outcome));
      if outcome == ApiError || outcome == NetworkError then s'.pending == s.pending && s'.form.key == s.form.key
      else s'.pending == [] && s'.wire == s.wire
  {
    var s1 := Step(s, Resolve(0, outcome));
    assert s.pending == [s.form.key];
    assert FailedWith(outcome)[1..] == [Confirm] && [Confirm][1..] == [];
    assert IsRun(s1, [Confirm]);
    assert After(s1, [Confirm]) == Step(s1, Confirm);
  }

  /** The creation form sends again after any outcome: the same key, or after a success the new one. */
  lemma DirectFormSendsAgain(s: System, outcome: Outcome)
    requires Locked(s) && Keyed(s) && s.kind.DirectForm? && s.pending != []
    requires Enabled(s, Resolve(0, outcome))
    ensures var es := [Resolve(0, outcome), Submit(false)];
      && IsRun(s, es)
      && After(s, es).pending == [if outcome == Success then s.nextKey else s.form.key]
  {
    var s1, es := Step(s, Resolve(0, outcome)), [Resolve(0, outcome), Submit(false)];
    assert es[1..] == [Submit(false)] && [Submit(false)][1..] == [];
    assert IsRun(s1, [Submit(false)]);
    assert After(s1, [Submit(false)]) == Step(s1, Submit(false));
  }

  ghost predicate NoCancel(es: seq<Event>) {
    es == [] || (!es[0].Cancel? && NoCancel(es[1..]))
  }

  ghost predicate ConflictResolved(s: System, e: Event) {
    e.Resolve? && e.outcome == ConflictError && s.form.open
  }

  /** A conflict was resolved while the dialog was shown, and no cancel has followed. */
  ghost predicate Spent(s: System, es: seq<Event>)
    requires IsRun(s, es)
    decreases es
  {
    es != [] && ((ConflictResolved(s, es[0]) && NoCancel(es[1..])) || Spent(Step(s, es[0]), es[1..]))
  }

  ghost predicate Held(s: System) {
    s.pending == [] && s.form.inflight
  }

  lemma HeldStep(s: System, e: Event)
    requires s.kind.DialogForm? && Locked(s) && Enabled(s, e)
    ensures Held(Step(s, e)) <==> (Held(s) && !e.Cancel?) || ConflictResolved(s, e)
  {
  }

  lemma {:induction false} HeldOverARun(s: System, es: seq<Event>)
    requires s.kind.DialogForm? && Locked(s) && Keyed(s) && IsRun(s, es)
    ensures After(s, es).pending == [] ==>
      (After(s, es).form.inflight <==> (Held(s) && NoCancel(es)) || Spent(s, es))
    decreases es
  {
    if es != [] {
      LockedStep(s, es[0]);
      KeyedStep(s, es[0]);
      HeldStep(s, es[0]);
      HeldOverARun(Step(s, es[0]), es[1..]);
    }
  }

  /** In every run, with nothing outstanding, the lock of a dialog form is held exactly when a conflict
      was resolved while the dialog was shown and no cancel has followed. */
  lemma LockHeldIffSpent(es: seq<Event>)
    requires IsRun(Start(DialogForm), es) && After(Start(DialogForm), es).pending == []
    ensures After(Start(DialogForm), es).form.inflight <==> Spent(Start(DialogForm), es)
  {
    HeldOverARun(Start(DialogForm), es);
  }

  /** Messages are down while a request is out; a conflict is also an error, and until the dialog is
      opened again it leaves the lock and the dialog as they were. */
  ghost predicate Shown(s: System) {
    && (s.pending != [] ==> !s.form.error && !s.form.conflict)
    && (s.form.conflict ==> s.form.error)
    && (s.kind.DialogForm? && s.form.conflict ==> (s.form.open <==> s.form.inflight))
  }

  lemma ShownStep(s: System, e: Event)
    requires Locked(s) && Shown(s) && Enabled(s, e)
    ensures Shown(Step(s, e))
  {
  }

  /** Neither a reopened dialog nor an answer. */
  ghost predicate Undisturbed(es: seq<Event>) {
    es == [] || (!es[0].OpenDialog? && !es[0].Resolve? && Undisturbed(es[1..]))
  }

  ghost predicate Reports(e: Event, conflictOnly: bool) {
    e.Resolve? && (if conflictOnly then e.outcome == ConflictError else e.outcome != Success)
  }

  /** The last answer was a failure (a conflict), and the dialog has not been opened again since. */
  ghost predicate FailedLast(es: seq<Event>, conflictOnly: bool) {
    es != [] && ((Reports(es[0], conflictOnly) && Undisturbed(es[1..])) || FailedLast(es[1..], conflictOnly))
  }

  ghost predicate Message(s: System, conflictOnly: bool) {
    if conflictOnly then s.form.conflict else s.form.error
  }

  /** A request that is out is answered before nothing is outstanding. */
  lemma {:induction false} AnswerComes(s: System, es: seq<Event>)
    requires IsRun(s, es) && s.pending != [] && After(s, es).pending == []
    ensures !Undisturbed(es)
    decreases es
  {
    if !es[0].Resolve? {
      AnswerComes(Step(s, es[0]), es[1..]);
    }
  }

  lemma AnswerStep(s: System, e: Event, conflictOnly: bool)
    requires Locked(s) && Shown(s) && Enabled(s, e) && e.Resolve?
    ensures Message(Step(s, e), conflictOnly) <==> Reports(e, conflictOnly)
  {
  }

  lemma QuietStep(s: System, e: Event, conflictOnly: bool)
    requires Locked(s) && Shown(s) && Enabled(s, e) && !e.Resolve? && Step(s, e).pending == []
    ensures s.pending == []
    ensures Message(Step(s, e), conflictOnly) <==> Message(s, conflictOnly) && !e.OpenDialog?
  {
  }

  lemma MessageStep(s: System, e: Event, conflictOnly: bool)
    requires Locked(s) && Shown(s) && Enabled(s, e) && Step(s, e).pending == []
    ensures Message(Step(s, e), conflictOnly) <==>
      Reports(e, conflictOnly) || (s.pending == [] && Message(s, conflictOnly) && !e.OpenDialog? && !e.Resolve?)
  {
    if e.Resolve? {
      AnswerStep(s, e, conflictOnly);
    } else {
      QuietStep(s, e, conflictOnly);
    }
  }

  lemma {:induction false} MessageOverARun(s: System, es: seq<Event>, conflictOnly: bool)
    requires Locked(s) && Keyed(s) && Shown(s) && IsRun(s, es) && After(s, es).pending == []
    ensures Message(After(s, es), conflictOnly) <==>
      FailedLast(es, conflictOnly) || (s.pending == [] && Message(s, conflictOnly) && Undisturbed(es))
    decreases es
  {
    if es != [] {
      var s' := Step(s, es[0]);
      LockedStep(s, es[0]);
      KeyedStep(s, es[0]);
      ShownStep(s, es[0]);
      MessageOverARun(s', es[1..], conflictOnly);
      if s'.pending == [] {
        MessageStep(s, es[0], conflictOnly);
      } else {
        AnswerComes(s', es[1..]);
      }
    }
  }

  /** In every run of either form, with nothing outstanding, the error (the conflict notice) is shown
      exactly when the last answer was a failure (a conflict) and the dialog has not been opened since. */
  lemma MessagesTellTheLastAnswer(kind: Kind, es: seq<Event>)
    requires IsRun(Start(kind), es) && After(Start(kind), es).pending == []
    ensures After(Start(kind), es).form.error <==> FailedLast(es, false)
    ensures After(Start(kind), es).form.conflict <==> FailedLast(es, true)
  {
    MessageOverARun(Start(kind), es, false);
    MessageOverARun(Start(kind), es, true);
  }

  ghost predicate Closes(e: Event) {
    e.Cancel? || (e.Resolve? && e.outcome == Success)
  }

  ghost predicate NeverCloses(es: seq<Event>) {
    es == [] || (!Closes(es[0]) && NeverCloses(es[1..]))
  }

  /** The dialog was opened, and neither a cancel nor a success has followed. */
  ghost predicate LeftOpen(es: seq<Event>) {
    es != [] && ((es[0].OpenDialog? && NeverCloses(es[1..])) || LeftOpen(es[1..]))
  }

  lemma {:induction false} DialogOverARun(s: System, es: seq<Event>)
    requires s.kind.DialogForm? && IsRun(s, es)
    ensures After(s, es).form.open <==> LeftOpen(es) || (s.form.open && NeverCloses(es))
    decreases es
  {
    if es != [] {
      DialogOverARun(Step(s, es[0]), es[1..]);
    }
  }

  /** In every run the dialog is shown exactly when it was opened and neither cancelled nor confirmed
      with success since. */
  lemma DialogShownIff(es: seq<Event>)
    requires IsRun(Start(DialogForm), es)
    ensures After(Start(DialogForm), es).form.open <==> LeftOpen(es)
  {
    DialogOverARun(Start(DialogForm), es);
  }
}
