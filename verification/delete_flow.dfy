/** The two-step delete confirmation: the page's `deleteConfirm` record and the
    four handlers that move it, `initiateDelete`, `confirmDeleteStep1`,
    `confirmDeleteStep2` and `cancelDelete`. Only the last confirmation touches
    the data. */
module DeleteFlow {
  import opened Common
  import opened Records
  import opened Patches

  /** `deleteConfirm`: whether the modal is shown, its step (1 or 2), the
      target's `type` and `id`, and the name shown to the user. */
  datatype DeleteConfirm = DeleteConfirm(show: bool, step: int, target: Option<Target>, name: string)

  /** The initial record, and the one `cancelDelete` and `confirmDeleteStep2` restore. */
  const Hidden := DeleteConfirm(false, 1, None, "")

  /** `initiateDelete(type, id, name)`: open the modal on its first step. */
  function InitiateDelete(kind: TargetKind, id: Id, name: string): (c: DeleteConfirm)
    ensures c.show && c.step == 1 && c.target == Some(Target(kind, id)) && c.name == name
  {
    DeleteConfirm(true, 1, Some(Target(kind, id)), name)
  }

  /** `confirmDeleteStep1`: go to the final step; the target and the name stay. */
  function ConfirmStep1(c: DeleteConfirm): (c': DeleteConfirm)
    ensures c'.step == 2 && c'.show == c.show && c'.target == c.target && c'.name == c.name
  {
    c.(step := 2)
  }

  /** `cancelDelete`: close the modal and forget the target, whatever the step. */
  function CancelDelete(c: DeleteConfirm): (c': DeleteConfirm)
    ensures !c'.show && c'.step == 1 && c'.target.None? && c'.name == ""
  {
    Hidden
  }

  /** The record and the collections after `confirmDeleteStep2`. */
  datatype Step2Result = Step2Result(confirm: DeleteConfirm, store: Store)

  /** `confirmDeleteStep2`: apply the patch for the target (none when there is no
      target or a backend call throws), then close the modal. */
  function ConfirmStep2(c: DeleteConfirm, s: Store, failed: bool): (r: Step2Result)
    ensures r.confirm == Hidden
    ensures c.target.None? || failed ==> r.store == s
    ensures c.target.Some? && !failed ==> r.store == DeleteFromStore(s, c.target.value)
  {
    var s' := if c.target.Some? && !failed then DeleteFromStore(s, c.target.value) else s;
    Step2Result(Hidden, s')
  }

  // ----- the modal as seen by the user -----

  /** A click: a trash button, "Continue", "Yes, delete" (whose backend calls may
      throw), or "Cancel". */
  datatype Event = Initiate(kind: TargetKind, id: Id, name: string) | Continue | FinalConfirm(failed: bool) | Cancel

  datatype Screen = Screen(confirm: DeleteConfirm, store: Store)

  /** One click, dispatched to its handler. Only "Yes, delete" can change the data. */
  function Apply(w: Screen, e: Event): (w': Screen)
    ensures !e.FinalConfirm? ==> w'.store == w.store
  {
    match e
    case Initiate(kind, id, name) => w.(confirm := InitiateDelete(kind, id, name))
    case Continue => w.(confirm := ConfirmStep1(w.confirm))
    case FinalConfirm(failed) =>
      var r := ConfirmStep2(w.confirm, w.store, failed);
      Screen(r.confirm, r.store)
    case Cancel => w.(confirm := CancelDelete(w.confirm))
  }

  /** The buttons on screen: trash buttons while the modal is closed (it covers
      the page), Continue/Cancel on step 1, Yes-delete/Cancel on the other step. */
  predicate Enabled(c: DeleteConfirm, e: Event)
  {
    match e
    case Initiate(_, _, _) => !c.show
    case Continue => c.show && c.step == 1
    case FinalConfirm(_) => c.show && c.step != 1
    case Cancel => c.show
  }

  /** The buttons as the modal draws them: while it is closed only the trash
      buttons of the page; on step 1 Cancel and Continue; on the other step
      Cancel and "Yes, delete". */
  lemma ModalButtons(c: DeleteConfirm, kind: TargetKind, id: Id, name: string, failed: bool)
    ensures !c.show ==> Enabled(c, Initiate(kind, id, name)) && !Enabled(c, Continue)
                        && !Enabled(c, FinalConfirm(failed)) && !Enabled(c, Cancel)
    ensures c.show ==> !Enabled(c, Initiate(kind, id, name)) && Enabled(c, Cancel)
    ensures c.show ==> (Enabled(c, Continue) <==> c.step == 1)
    ensures c.show ==> (Enabled(c, FinalConfirm(failed)) <==> !Enabled(c, Continue))
  {
  }

  /** The shapes the record takes: hidden with no target, or shown on step 1 or 2 with one. */
  predicate WellFormed(c: DeleteConfirm)
  {
    c == Hidden || (c.show && (c.step == 1 || c.step == 2) && c.target.Some?)
  }

  /** Clicking an offered button keeps the record well-formed. */
  lemma EnabledKeepsWellFormed(w: Screen, e: Event)
    requires WellFormed(w.confirm) && Enabled(w.confirm, e)
    ensures WellFormed(Apply(w, e).confirm)
  {
  }

  /** The screen after a sequence of clicks. */
  function Run(w: Screen, es: seq<Event>): Screen
    decreases |es|
  {
    if |es| == 0 then w else Apply(Run(w, es[..|es| - 1]), es[|es| - 1])
  }

  /** Every click of `es` was on a button offered at that moment. */
  predicate EnabledRun(w: Screen, es: seq<Event>)
  {
    forall k :: 0 <= k < |es| ==> Enabled(Run(w, es[..k]).confirm, es[k])
  }

  /** Clicks other than "Yes, delete" never change the data, whatever their order. */
  lemma {:induction false} NoFinalConfirmKeepsStore(w: Screen, es: seq<Event>)
    requires forall i :: 0 <= i < |es| ==> !es[i].FinalConfirm?
    ensures Run(w, es).store == w.store
    decreases |es|
  {
    if |es| > 0 {
      NoFinalConfirmKeepsStore(w, es[..|es| - 1]);
    }
  }

  /** Opening the modal and cancelling leaves everything as it was. */
  lemma InitiateThenCancel(s: Store, kind: TargetKind, id: Id, name: string)
    ensures Run(Screen(Hidden, s), [Initiate(kind, id, name), Cancel]) == Screen(Hidden, s)
  {
    var w := Screen(Hidden, s);
    var es := [Initiate(kind, id, name), Cancel];
    assert es[..1] == [Initiate(kind, id, name)];
    assert es[..1][..0] == [];
    assert Run(w, es[..1]) == Apply(w, Initiate(kind, id, name));
  }

  /** Opening, continuing and confirming deletes exactly the chosen target once
      and closes the modal. */
  lemma InitiateContinueConfirm(s: Store, kind: TargetKind, id: Id, name: string)
    ensures Run(Screen(Hidden, s), [Initiate(kind, id, name), Continue, FinalConfirm(false)])
         == Screen(Hidden, DeleteFromStore(s, Target(kind, id)))
  {
    var es := [Initiate(kind, id, name), Continue, FinalConfirm(false)];
    var w := Screen(Hidden, s);
    assert es[..2] == [Initiate(kind, id, name), Continue];
    assert es[..2][..1] == [Initiate(kind, id, name)];
    assert es[..2][..1][..0] == [];
    var w1 := Apply(w, Initiate(kind, id, name));
    assert Run(w, es[..2][..1]) == w1;
    var w2 := Apply(w1, Continue);
    assert Run(w, es[..2]) == w2;
    assert w2.confirm.target == Some(Target(kind, id)) && w2.store == s;
  }

  /** What the record looks like after the first `k` clicks of an offered run
      from the closed modal: on step 1 the last click opened it; on step 2 the
      last two clicks opened it and continued; the target is the opened one. */
  lemma PrefixShape(s: Store, es: seq<Event>, k: nat)
    requires EnabledRun(Screen(Hidden, s), es)
    requires k <= |es|
    ensures
      var c := Run(Screen(Hidden, s), es[..k]).confirm;
      && WellFormed(c)
      && (c.show && c.step == 1 ==>
            k >= 1 && es[k - 1].Initiate? && c.target == Some(Target(es[k - 1].kind, es[k - 1].id)))
      && (c.show && c.step != 1 ==>
            k >= 2 && es[k - 1] == Continue && es[k - 2].Initiate?
            && c.target == Some(Target(es[k - 2].kind, es[k - 2].id)))
  {
  }


  /** In any run of offered clicks from the closed modal, every "Yes, delete" comes
      right after "Continue", which comes right after the trash button, and it
      deletes exactly the target that trash button chose (or nothing, when a
      backend call throws). */
  lemma TwoConfirmationsBeforeDeletion(s: Store, es: seq<Event>, i: nat)
    requires EnabledRun(Screen(Hidden, s), es)
    requires i < |es| && es[i].FinalConfirm?
    ensures i >= 2 && es[i - 1] == Continue && es[i - 2].Initiate?
    ensures
      var before := Run(Screen(Hidden, s), es[..i]).store;
      var after := Run(Screen(Hidden, s), es[..i + 1]);
      && after.confirm == Hidden
      && after.store == if es[i].failed then before
                        else DeleteFromStore(before, Target(es[i - 2].kind, es[i - 2].id))
  {
    PrefixShape(s, es, i);
    assert es[..i + 1][..i] == es[..i];
    assert es[..i + 1][i] == es[i];
  }
}
