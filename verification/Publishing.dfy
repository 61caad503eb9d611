/** The one caller of the early scalar confirmation publishes only while no event hint is
    unread and no transition wait is open. What that guard says about the play state. */
module Publishing {
  import opened Heos
  import R = ObserverRuns
  import T = Transition

  /** The caller's guard. */
  predicate Quiet(w: T.Wait) { w.until.None? && !w.Pending() }

  /** Setters and setting notifications do not reach the transition table. */
  predicate Reaches(v: R.Evidence) { v.Ev? && (v.event.body.StateChanged? || v.event.body.NowPlayingChanged?) }

  function Step(p: T.Policy, w: T.Wait, v: R.Evidence, now: Time): T.Wait {
    if Reaches(v) then T.AfterEvent(p, w, v.event.body, now) else w
  }

  /** The shared wait after a run of evidence without any read, each at its own time. */
  function After(p: T.Policy, w: T.Wait, evidence: seq<R.Evidence>, clock: seq<Time>): T.Wait
    requires |clock| == |evidence|
    decreases evidence
  {
    if evidence == [] then w else After(p, Step(p, w, evidence[0], clock[0]), evidence[1..], clock[1..])
  }

  /** Nothing in the run revoked the operation. */
  predicate AllAccepted(p: T.Policy, w: T.Wait, evidence: seq<R.Evidence>, clock: seq<Time>)
    requires |clock| == |evidence|
    decreases evidence
  {
    evidence == [] ||
    ((Reaches(evidence[0]) ==> !T.DecideEvent(p, w, evidence[0].event.body).0.PassOn?) &&
     AllAccepted(p, Step(p, w, evidence[0], clock[0]), evidence[1..], clock[1..]))
  }

  lemma {:induction false} HintsOnlyGrow(p: T.Policy, w: T.Wait, evidence: seq<R.Evidence>, clock: seq<Time>)
    requires |clock| == |evidence|
    ensures w.eventRevision <= After(p, w, evidence, clock).eventRevision
    ensures After(p, w, evidence, clock).observedRevision == w.observedRevision
    decreases evidence
  {
    if evidence != [] { HintsOnlyGrow(p, Step(p, w, evidence[0], clock[0]), evidence[1..], clock[1..]); }
  }

  predicate StateNotice(v: R.Evidence) { v.Ev? && v.event.valid && v.event.body.StateChanged? }

  /** From a quiet moment to another one without a read, only unchanged Play was accepted, and
      that only where Play was expected; under any other policy a state notification revokes or
      opens a wait. */
  lemma {:induction false} QuietKeepsPlay(
      p: T.Policy, w: T.Wait, evidence: seq<R.Evidence>, clock: seq<Time>, s: PlayState)
    requires |clock| == |evidence|
    requires Quiet(w) && AllAccepted(p, w, evidence, clock) && Quiet(After(p, w, evidence, clock))
    ensures R.PendingState(s, evidence) ==
            if exists i :: 0 <= i < |evidence| && StateNotice(evidence[i]) then Play else s
    ensures p.expected != Play || !p.owned ==> forall i :: 0 <= i < |evidence| ==> !StateNotice(evidence[i])
    decreases evidence
  {
    if evidence != [] {
      var v, rest := evidence[0], evidence[1..];
      if Reaches(v) { HintsOnlyGrow(p, T.AfterEvent(p, w, v.event.body, clock[0]), rest, clock[1..]); }
      QuietKeepsPlay(p, w, rest, clock[1..], if StateNotice(v) then Play else s);
      assert forall i :: 1 <= i < |evidence| ==> evidence[i] == rest[i - 1];
    }
  }

  /** So when the cache was caught up at the last quiet moment and showed the expected state,
      the guard implies that the published confirmation agrees with the evidence. */
  lemma GuardSettlesState(world: R.World, p: T.Policy, w: T.Wait, clock: seq<Time>)
    requires Quiet(w) && world.obs.last.state == p.expected && |clock| == |world.pending|
    requires AllAccepted(p, w, world.pending, clock) && Quiet(After(p, w, world.pending, clock))
    ensures R.StateSettled(world)
  {
    QuietKeepsPlay(p, w, world.pending, clock, p.expected);
  }

  lemma {:induction false} PendingConcat(s: PlayState, a: seq<R.Evidence>, b: seq<R.Evidence>)
    ensures R.PendingState(s, a + b) == R.PendingState(R.PendingState(s, a), b)
    decreases a
  {
    if a == [] {
      assert a + b == b;
    } else {
      assert (a + b)[1..] == a[1..] + b;
      var v := a[0];
      PendingConcat(if v.Ev? && v.event.valid && v.event.body.StateChanged? then v.event.body.state else s, a[1..], b);
    }
  }

  /** The remaining case: a transition was open when the cache caught up, `late` arrived
      before the gate resumed on that read, and `later` after it. The guard then settles the
      state exactly when `late` ends in Play or any state notification came later. If nothing
      came late, which the caller sees by the token of the read, it always does. */
  lemma GuardAfterTransition(
      p: T.Policy, resumed: T.Wait, late: seq<R.Evidence>, later: seq<R.Evidence>, clock: seq<Time>)
    requires |clock| == |later|
    requires Quiet(resumed) && AllAccepted(p, resumed, later, clock) && Quiet(After(p, resumed, later, clock))
    ensures R.PendingState(Play, late + later) == Play <==>
              R.PendingState(Play, late) == Play || exists i :: 0 <= i < |later| && StateNotice(later[i])
    ensures late == [] ==> R.PendingState(Play, late + later) == Play
  {
    PendingConcat(Play, late, later);
    QuietKeepsPlay(p, resumed, later, clock, R.PendingState(Play, late));
  }

  /** Such a run exists for every resumption: a Stop that arrives after the read is forgotten,
      the gate resumes, the guard holds, and the published state is still Play. */
  lemma LateStopPassesGuard(p: T.Policy, w: T.Wait, at: Time, before: Snapshot, s: Snapshot, m: T.Moment, stop: Event)
    requires p.Active() && w.until.Some? && stop.body == StateChanged(Stop) && stop.valid
    requires T.DecideObservation(p, w.(observedRevision := w.eventRevision), before, s, m) == T.Resume
    ensures var read := T.AfterEvent(p, w, stop.body, at).(observedRevision := w.eventRevision);
            T.DecideObservation(p, read, before, s, m) == T.Resume &&
            Quiet(T.AfterObservation(p, read, before, s, m)) &&
            s.state == Play && R.PendingState(s.state, [R.Ev(stop)]) == Stop
  {
    var read := T.AfterEvent(p, w, stop.body, at).(observedRevision := w.eventRevision);
    assert read == w.(observedRevision := w.eventRevision);
    assert [R.Ev(stop)][1..] == [];
  }
}
