/** A Skip admitted as a child of running playback: one slot shared by submitting requests
    and the owning worker, which alone may dispatch it. Each step is one mutex section. */
module SkipChild {
  import opened Heos

  datatype Finalizer = BySubmit | ByService | ByClose

  /** `Dropped` children were not created by this admission: it was refused, or it replayed the
      row of an earlier request. `Lost` ones were, by a commit that neither its reply nor the
      lookup after it confirmed. The others end in `Finalized`. */
  datatype Status =
    | Admitting | Ready | InService | Finalizing(who: Finalizer) | Finalized(who: Finalizer) | Dropped | Lost

  datatype Child = Child(status: Status, created: bool, dispatches: nat, finalizations: nat)

  datatype Worker = Playing | Servicing(child: nat, dispatched: bool) | Exited

  /** `revoked` is the parent's cancellation cause; the other checks of a submission can only refuse it. */
  datatype State = State(children: seq<Child>, slot: Option<nat>, closed: bool, revoked: bool, worker: Worker)

  datatype Step =
    | Submit
    | AdmitFailed(child: nat)
    | Admitted(child: nat)
    | AdmitUnresolved(child: nat)
    | Revoke
    | BeginService
    | Dispatch
    | EndService
    | Close
    | Finish(child: nat)

  ghost predicate Has(s: State, c: nat, status: Status) { c < |s.children| && s.children[c].status == status }

  ghost predicate Enabled(s: State, t: Step) {
    match t
    case Submit => !s.closed && !s.revoked && s.slot.None?
    case AdmitFailed(c) => Has(s, c, Admitting)
    case Admitted(c) => Has(s, c, Admitting)
    case AdmitUnresolved(c) => Has(s, c, Admitting)
    case Revoke => true
    case BeginService => s.worker.Playing? && !s.closed && s.slot.Some? && Has(s, s.slot.value, Ready)
    case Dispatch => s.worker.Servicing? && !s.worker.dispatched && Has(s, s.worker.child, InService)
    case EndService => s.worker.Servicing? && Has(s, s.worker.child, InService)
    case Close => s.worker.Playing?
    case Finish(c) => c < |s.children| && s.children[c].status.Finalizing?
  }

  function WithStatus(s: State, c: nat, status: Status): State
    requires c < |s.children|
  {
    s.(children := s.children[c := s.children[c].(status := status)])
  }

  /** Handing the child to its finalizer. */
  function Handed(s: State, c: nat, who: Finalizer): State
    requires c < |s.children|
  {
    var child := s.children[c];
    s.(children := s.children[c := child.(status := Finalizing(who), finalizations := child.finalizations + 1)])
  }

  function Vacated(s: State, c: nat): State { if s.slot == Some(c) then s.(slot := None) else s }

  ghost function Next(s: State, t: Step): State
    requires Enabled(s, t)
  {
    match t
    case Submit => s.(children := s.children + [Child(Admitting, false, 0, 0)], slot := Some(|s.children|))
    case AdmitFailed(c) => Vacated(WithStatus(s, c, Dropped), c)
    case Admitted(c) =>
      var created := s.(children := s.children[c := s.children[c].(created := true)]);
      if s.closed || s.revoked then Handed(created, c, BySubmit) else WithStatus(created, c, Ready)
    case AdmitUnresolved(c) =>
      Vacated(s.(children := s.children[c := s.children[c].(status := Lost, created := true)]), c)
    case Revoke => s.(revoked := true)
    case BeginService => WithStatus(s, s.slot.value, InService).(worker := Servicing(s.slot.value, false))
    case Dispatch =>
      var c := s.worker.child;
      var child := s.children[c].(dispatches := s.children[c].dispatches + 1);
      s.(children := s.children[c := child], worker := Servicing(c, true))
    case EndService => Handed(s, s.worker.child, ByService).(worker := Playing)
    case Close =>
      var closing := s.(closed := true, worker := Exited);
      if s.slot.Some? && Has(s, s.slot.value, Ready) then Handed(closing, s.slot.value, ByClose) else closing
    case Finish(c) => Vacated(WithStatus(s, c, Finalized(s.children[c].status.who)), c)
  }

  ghost predicate Runs(s: State, steps: seq<Step>)
    decreases steps
  {
    steps == [] || (Enabled(s, steps[0]) && Runs(Next(s, steps[0]), steps[1..]))
  }

  ghost function Run(s: State, steps: seq<Step>): State
    requires Runs(s, steps)
    decreases steps
  {
    if steps == [] then s else Run(Next(s, steps[0]), steps[1..])
  }

  const Start: State := State([], None, false, false, Playing)

  // ---- Invariant ----

  ghost predicate Occupies(c: Child) { !c.status.Finalized? && !c.status.Dropped? && !c.status.Lost? }

  predicate Undispatched(s: Status) { s.Admitting? || s.Ready? || s.Dropped? || s.Lost? }

  /** What each status says about creation, dispatch and finalization. */
  ghost predicate Consistent(c: Child) {
    (c.created <==> !c.status.Admitting? && !c.status.Dropped?) &&
    c.finalizations == (if c.status.Finalizing? || c.status.Finalized? then 1 else 0) &&
    c.dispatches <= 1 && (Undispatched(c.status) ==> c.dispatches == 0) &&
    ((c.status.Finalizing? || c.status.Finalized?) && c.status.who != ByService ==> c.dispatches == 0)
  }

  ghost predicate Inv(s: State) {
    (forall c :: 0 <= c < |s.children| ==> Consistent(s.children[c])) &&
    (forall c :: 0 <= c < |s.children| && Occupies(s.children[c]) ==> s.slot == Some(c)) &&
    (s.slot.Some? ==> s.slot.value < |s.children| && Occupies(s.children[s.slot.value])) &&
    (s.closed <==> s.worker.Exited?) &&
    (s.closed ==> forall c :: 0 <= c < |s.children| ==> !s.children[c].status.Ready?) &&
    (forall c :: 0 <= c < |s.children| && s.children[c].status.InService? ==>
       s.worker.Servicing? && s.worker.child == c) &&
    (s.worker.Servicing? ==>
       Has(s, s.worker.child, InService) &&
       s.children[s.worker.child].dispatches == if s.worker.dispatched then 1 else 0)
  }

  lemma WorkerInv(s: State, t: Step)
    requires Inv(s) && Enabled(s, t) && (t.BeginService? || t.Dispatch? || t.EndService? || t.Close?)
    ensures Inv(Next(s, t))
  {
  }

  lemma SubmitInv(s: State)
    requires Inv(s) && Enabled(s, Submit)
    ensures Inv(Next(s, Submit))
  {
  }

  lemma RefusedInv(s: State, t: Step)
    requires Inv(s) && Enabled(s, t) && (t.AdmitFailed? || t.AdmitUnresolved?)
    ensures Inv(Next(s, t))
  {
  }

  lemma AdmittedInv(s: State, c: nat)
    requires Inv(s) && Enabled(s, Admitted(c))
    ensures Inv(Next(s, Admitted(c)))
  {
  }

  lemma NextInv(s: State, t: Step)
    requires Inv(s) && Enabled(s, t)
    ensures Inv(Next(s, t))
  {
    match t
    case Submit => SubmitInv(s);
    case AdmitFailed(_) => RefusedInv(s, t);
    case Admitted(c) => AdmittedInv(s, c);
    case AdmitUnresolved(_) => RefusedInv(s, t);
    case Revoke =>
    case Finish(_) =>
    case _ => WorkerInv(s, t);
  }

  lemma {:induction false} RunInv(s: State, steps: seq<Step>)
    requires Inv(s) && Runs(s, steps)
    ensures Inv(Run(s, steps))
    decreases steps
  {
    if steps != [] {
      NextInv(s, steps[0]);
      RunInv(Next(s, steps[0]), steps[1..]);
    }
  }

  /** In every interleaving: two children never occupy the slot together; no child is
      dispatched or finalized twice; a child that the submitter or the closing worker
      finalizes was never dispatched; and after closing nothing is or can be dispatched. */
  lemma ChildProtocol(steps: seq<Step>, c: nat, d: nat)
    requires Runs(Start, steps) && c < |Run(Start, steps).children| && d < |Run(Start, steps).children|
    ensures var s := Run(Start, steps); var child := s.children[c];
            (Occupies(s.children[c]) && Occupies(s.children[d]) ==> c == d) &&
            child.dispatches <= 1 && child.finalizations <= 1 && (child.dispatches == 1 ==> child.created) &&
            (child.status == Finalized(BySubmit) || child.status == Finalized(ByClose) ==> child.dispatches == 0) &&
            (s.closed ==> !Enabled(s, Dispatch) && !Enabled(s, BeginService))
  {
    RunInv(Start, steps);
  }

  /** Once closed, always closed, and the dispatch count of every child is final. */
  lemma {:induction false} NoDispatchAfterClose(s: State, steps: seq<Step>, c: nat)
    requires Inv(s) && s.closed && Runs(s, steps) && c < |s.children|
    ensures var later := Run(s, steps);
            later.closed && c < |later.children| && later.children[c].dispatches == s.children[c].dispatches
    decreases steps
  {
    if steps != [] {
      NextInv(s, steps[0]);
      NoDispatchAfterClose(Next(s, steps[0]), steps[1..], c);
    }
  }

  /** A child is lost exactly if its admission was left unresolved, and then for good. */
  lemma {:induction false} LostExactly(s: State, steps: seq<Step>, c: nat)
    requires Inv(s) && Runs(s, steps) && c < |Run(s, steps).children|
    ensures Run(s, steps).children[c].status.Lost? <==>
              (c < |s.children| && s.children[c].status.Lost?) || AdmitUnresolved(c) in steps
    decreases steps
  {
    if steps != [] {
      NextInv(s, steps[0]);
      assert steps == [steps[0]] + steps[1..];
      LostStep(s, steps[0], c);
      LostExactly(Next(s, steps[0]), steps[1..], c);
    }
  }

  lemma LostStep(s: State, t: Step, c: nat)
    requires Inv(s) && Enabled(s, t)
    ensures c < |Next(s, t).children| ==>
      (Next(s, t).children[c].status.Lost? <==>
         (c < |s.children| && s.children[c].status.Lost?) || t == AdmitUnresolved(c))
    ensures t == AdmitUnresolved(c) ==> c < |Next(s, t).children|
    ensures |s.children| <= |Next(s, t).children|
  {
  }

  /** After closing, a created child has its one finalizer if and only if its admission was not
      left unresolved; an admission still in flight that turns out created will get one. */
  lemma ClosedMeansFinalized(steps: seq<Step>, c: nat)
    requires Runs(Start, steps) && Run(Start, steps).closed && c < |Run(Start, steps).children|
    ensures var s := Run(Start, steps); var child := s.children[c];
            (child.created ==> (child.finalizations == 1 <==> AdmitUnresolved(c) !in steps)) &&
            (!child.created ==> child.finalizations == 0) &&
            (child.status.Admitting? ==> Next(s, Admitted(c)).children[c].status == Finalizing(BySubmit))
  {
    RunInv(Start, steps);
    LostExactly(Start, steps, c);
  }

  const Unresolved: seq<Step> := [Submit, AdmitUnresolved(0), Close]

  /** Such a run: the slot is empty, everything has closed, and the created child was never
      handed to anybody. */
  lemma ChildLeftBehind()
    ensures Runs(Start, Unresolved)
    ensures Run(Start, Unresolved) == State([Child(Lost, true, 0, 0)], None, true, false, Exited)
  {
    var s1 := Next(Start, Submit);
    var s2 := Next(s1, AdmitUnresolved(0));
    var s3 := Next(s2, Close);
    assert s1 == State([Child(Admitting, false, 0, 0)], Some(0), false, false, Playing);
    assert s2 == State([Child(Lost, true, 0, 0)], None, false, false, Playing);
    assert Unresolved[1..] == [AdmitUnresolved(0), Close] && Unresolved[1..][1..] == [Close];
    assert [Close][1..] == [];
    assert Runs(s2, [Close]) && Run(s2, [Close]) == s3;
    assert Runs(s1, Unresolved[1..]) && Run(s1, Unresolved[1..]) == s3;
  }
}
