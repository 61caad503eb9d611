/** Active track transitions of an owned queue: the two decision tables, the wait they
    share, and the read-only gate that blocks work until playback is exactly confirmed. */
module Transition {
  import opened Heos
  import opened Queue

  const CONFIRMATION_TIMEOUT: Time := 12 * SECOND

  /** What stays fixed while one worker waits. */
  datatype Policy = Policy(owned: bool, automating: bool, expected: PlayState, playbackUntil: Option<Time>) {
    predicate Active() { owned && automating && expected == Play }
  }

  /** The shared wait: its limit when open, and the two revisions that order event hints
      and reads. */
  datatype Wait = Wait(until: Option<Time>, eventRevision: nat, observedRevision: nat) {
    predicate Pending() { eventRevision != observedRevision }
  }

  // ---- Notifications ----

  datatype EventAction = PassOn | Ignore | Observe | BeginWait

  predicate TransportChange(p: Policy, b: EventBody) {
    b.StateChanged? && p.automating && (b.state == Stop || b.state == Unknown)
  }

  /** First matching rule of the event table, with its `notify` column. */
  function DecideEvent(p: Policy, w: Wait, b: EventBody): (EventAction, bool) {
    var waiting := w.until.Some?;
    var play := b == StateChanged(Play);
    if !p.owned then (PassOn, false)
    else if b.NowPlayingChanged? then (Observe, true)
    else if play && p.expected != Play then (PassOn, waiting)
    else if play && waiting then (Observe, true)
    else if play then (Ignore, false)
    else if TransportChange(p, b) && waiting then (Ignore, false)
    else if TransportChange(p, b) then (BeginWait, true)
    else (PassOn, false)
  }

  function AfterEvent(p: Policy, w: Wait, b: EventBody, now: Time): Wait {
    var (action, notify) := DecideEvent(p, w, b);
    Wait(if action == BeginWait then Some(now + CONFIRMATION_TIMEOUT) else w.until,
         w.eventRevision + (if notify then 1 else 0), w.observedRevision)
  }

  // ---- Observations ----

  datatype Reason = TimedOut | Cancelled | Unsafe | Changed

  datatype Action = Pass | Resume | Hold | Release(reason: Reason)

  /** The circumstances of one decision, besides the snapshot. */
  datatype Moment = Moment(now: Time, cancelled: bool, safe: bool, expired: bool)

  predicate InTransition(before: Snapshot, s: Snapshot) {
    s.state == Stop || s.state == Unknown || (s.state == Play && TransitionalMedia(before.queue, s.media))
  }

  function WaitingUntil(p: Policy, w: Wait, before: Snapshot, s: Snapshot, now: Time): Option<Time> {
    if p.Active() && InTransition(before, s) && w.until.None? then Some(now + CONFIRMATION_TIMEOUT) else w.until
  }

  function Deadline(p: Policy, until: Time): Time {
    if p.playbackUntil.Some? && !(until < p.playbackUntil.value) then p.playbackUntil.value else until
  }

  /** Only transport, and media that the unchanged queue explains, may differ meanwhile. */
  predicate TransitionKeeps(before: Snapshot, after: Snapshot) {
    before.token.generation == after.token.generation &&
    (after.state == Stop || after.state == Unknown || after.state == Play) &&
    var explained := EmptyMedia(after.media) || QueuedMedia(before.queue, after.media) ||
                     (after.state != Play && QueuedIdentity(before.queue, after.media)) ||
                     TransitionalMedia(before.queue, after.media);
    SameState(before.(state := after.state, media := if explained then after.media else before.media), after)
  }

  function DecideObservation(p: Policy, w: Wait, before: Snapshot, s: Snapshot, m: Moment): Action {
    var until := WaitingUntil(p, w, before, s, m.now);
    var late := m.expired || (until.Some? && m.now >= Deadline(p, until.value));
    FirstRule(p.Active(), until.Some?, late, m.cancelled, m.safe,
              TransitionKeeps(before, s), s.state == Play && QueuedMedia(before.queue, s.media) && !w.Pending())
  }

  /** The observation table: timeout precedes the gap that cancelling a read can produce. */
  function FirstRule(
      active: bool, open: bool, late: bool, cancelled: bool, safe: bool, kept: bool, playing: bool): Action {
    if !active || !open then Pass
    else if late then Release(TimedOut)
    else if cancelled then Release(Cancelled)
    else if !safe then Release(Unsafe)
    else if !kept then Release(Changed)
    else if playing then Resume
    else Hold
  }

  function AfterObservation(p: Policy, w: Wait, before: Snapshot, s: Snapshot, m: Moment): Wait {
    w.(until := if DecideObservation(p, w, before, s, m) == Resume then None else WaitingUntil(p, w, before, s, m.now))
  }

  // ---- The limit is fixed ----

  datatype Input =
    | Notice(body: EventBody, at: Time)
    | Decision(before: Snapshot, observed: Snapshot, moment: Moment)
    | ReadDone(revision: nat)
    | QueueConfirmed     // a confirmed append or removal also closes the wait

  function Apply(p: Policy, w: Wait, i: Input): Wait {
    match i
    case Notice(b, at) => AfterEvent(p, w, b, at)
    case Decision(before, s, m) => AfterObservation(p, w, before, s, m)
    case ReadDone(revision) => w.(observedRevision := revision)
    case QueueConfirmed => w.(until := None)
  }

  function After(p: Policy, w: Wait, inputs: seq<Input>): Wait
    decreases inputs
  {
    if inputs == [] then w else After(p, Apply(p, w, inputs[0]), inputs[1..])
  }

  predicate Confirms(p: Policy, w: Wait, i: Input) {
    i.QueueConfirmed? || (i.Decision? && DecideObservation(p, w, i.before, i.observed, i.moment) == Resume)
  }

  function At(i: Input): Option<Time> {
    match i
    case Notice(_, at) => Some(at)
    case Decision(_, _, m) => Some(m.now)
    case _ => None
  }

  /** Some input opened the wait with its own time, and nothing since confirmed playback. */
  ghost predicate OpenedAt(p: Policy, w: Wait, inputs: seq<Input>, k: nat) {
    k < |inputs| && After(p, w, inputs[..k]).until.None? && At(inputs[k]).Some? &&
    After(p, w, inputs[..k + 1]).until == Some(At(inputs[k]).value + CONFIRMATION_TIMEOUT) &&
    forall j :: k < j < |inputs| ==> !Confirms(p, After(p, w, inputs[..j]), inputs[j])
  }

  lemma {:induction false} AfterLast(p: Policy, w: Wait, inputs: seq<Input>)
    requires inputs != []
    ensures After(p, w, inputs) == Apply(p, After(p, w, inputs[..|inputs| - 1]), inputs[|inputs| - 1])
    decreases inputs
  {
    if |inputs| > 1 {
      var rest := inputs[1..];
      AfterLast(p, Apply(p, w, inputs[0]), rest);
      assert rest[..|rest| - 1] == inputs[..|inputs| - 1][1..];
    }
  }

  /** One step moves an open limit only by confirming, and opens one at now + 12 s. */
  lemma StepLimit(p: Policy, w: Wait, i: Input)
    ensures w.until.Some? ==> Apply(p, w, i).until == if Confirms(p, w, i) then None else w.until
    ensures w.until.None? && Apply(p, w, i).until.Some? ==>
      At(i).Some? && Apply(p, w, i).until.value == At(i).value + CONFIRMATION_TIMEOUT
  {
  }

  lemma PrefixOfPrefix(inputs: seq<Input>, n: nat, j: nat)
    requires j <= n <= |inputs|
    ensures inputs[..n][..j] == inputs[..j]
  {
  }

  /** An opening is not undone by one more input that confirms nothing. */
  lemma OpenedStays(p: Policy, w: Wait, inputs: seq<Input>, k: nat)
    requires inputs != [] && OpenedAt(p, w, inputs[..|inputs| - 1], k)
    requires !Confirms(p, After(p, w, inputs[..|inputs| - 1]), inputs[|inputs| - 1])
    ensures OpenedAt(p, w, inputs, k)
  {
    var n := |inputs| - 1;
    PrefixOfPrefix(inputs, n, k);
    PrefixOfPrefix(inputs, n, k + 1);
    forall j | k < j < |inputs| ensures !Confirms(p, After(p, w, inputs[..j]), inputs[j]) {
      if j < n { PrefixOfPrefix(inputs, n, j); }
    }
  }

  /** Over any interleaving, an open limit is the opening input's time plus 12 seconds;
      neither repeated Stops nor reads, failures or timeouts since then have moved it. */
  lemma {:induction false} LimitIsFixed(p: Policy, revisions: Wait, inputs: seq<Input>)
    requires revisions.until.None?
    ensures var w := After(p, revisions, inputs);
            w.until.Some? ==>
              exists k: nat :: OpenedAt(p, revisions, inputs, k) &&
                w.until.value == At(inputs[k]).value + CONFIRMATION_TIMEOUT
    decreases |inputs|
  {
    var w := After(p, revisions, inputs);
    if w.until.Some? {
      var n := |inputs| - 1;
      var init := inputs[..n];
      var earlier := After(p, revisions, init);
      AfterLast(p, revisions, inputs);
      StepLimit(p, earlier, inputs[n]);
      if earlier.until.None? {
        assert inputs[..n + 1] == inputs;
        assert OpenedAt(p, revisions, inputs, n);
      } else {
        LimitIsFixed(p, revisions, init);
        var k: nat :| OpenedAt(p, revisions, init, k) &&
            earlier.until.value == At(init[k]).value + CONFIRMATION_TIMEOUT;
        OpenedStays(p, revisions, inputs, k);
      }
    }
  }

  // ---- An older read against a newer event ----

  /** Unchanged Play outside a wait, and a further Stop or Unknown inside one. */
  predicate LeavesNoTrace(w: Wait, b: EventBody) {
    b.StateChanged? && (if w.until.None? then b.state == Play else b.state == Stop || b.state == Unknown)
  }

  /** Every accepted notification keeps a read begun before it from confirming playback,
      except those that leave no trace at all. */
  lemma NewerEventBlocks(p: Policy, w: Wait, b: EventBody, at: Time, before: Snapshot, s: Snapshot, m: Moment)
    requires p.Active() && !DecideEvent(p, w, b).0.PassOn?
    ensures var after := AfterEvent(p, w, b, at);
            if LeavesNoTrace(w, b) then after == w
            else DecideObservation(p, after.(observedRevision := w.eventRevision), before, s, m) != Resume
  {
  }

  /** So while the wait is open a further Stop is forgotten, and an older Play read
      resumes exactly as if that Stop had not come: the revision alone orders a Stop
      against a read only when the Stop is the one that opened the wait. */
  lemma RepeatedStopIsForgotten(p: Policy, w: Wait, at: Time, before: Snapshot, s: Snapshot, m: Moment)
    requires p.Active()
    ensures var read := w.(observedRevision := w.eventRevision);
            var stopped := AfterEvent(p, w, StateChanged(Stop), at).(observedRevision := w.eventRevision);
            DecideObservation(p, read, before, s, m) == Resume ==>
              (DecideObservation(p, stopped, before, s, m) == Resume <==> w.until.Some?)
  {
  }

  // ---- The gate ----

  datatype Read = Interrupted | Failed | Observed(s: Snapshot)

  /** One turn of the gate: notices while waiting, a read during which more may arrive,
      and the moment of the decision. */
  datatype Round = Round(early: seq<Input>, read: Read, late: seq<Input>, moment: Moment)

  predicate Notices(inputs: seq<Input>) { forall i :: 0 <= i < |inputs| ==> inputs[i].Notice? }

  predicate Proper(rounds: seq<Round>) {
    forall i :: 0 <= i < |rounds| ==> Notices(rounds[i].early) && Notices(rounds[i].late)
  }

  /** Exactly confirmed playback: same queue and controls, an exact pair, in time. */
  ghost predicate PlaybackConfirmed(p: Policy, until: Time, before: Snapshot, s: Snapshot, m: Moment) {
    s.state == Play && QueuedMedia(before.queue, s.media) && before.token.generation == s.token.generation &&
    SameState(before.(state := Play, media := s.media), s) && m.safe && !m.cancelled && !m.expired &&
    m.now < until && (p.playbackUntil.Some? ==> m.now < p.playbackUntil.value)
  }

  /** The moments decisions are taken at: the caller's own, then one per round. */
  function MomentAt(first: Moment, rounds: seq<Round>, k: int): Moment
    requires -1 <= k < |rounds|
  {
    if k < 0 then first else rounds[k].moment
  }

  lemma ResumeConfirms(p: Policy, w: Wait, before: Snapshot, s: Snapshot, m: Moment)
    requires DecideObservation(p, w, before, s, m) == Resume
    ensures WaitingUntil(p, w, before, s, m.now).Some? && !w.Pending()
    ensures PlaybackConfirmed(p, WaitingUntil(p, w, before, s, m.now).value, before, s, m)
  {
  }

  /** One row of each decision table; the first row that applies decides. */
  datatype EventRule = EventRule(applies: bool, action: EventAction, notify: bool)
  datatype ObservationRule = ObservationRule(applies: bool, action: Action)

  /** The first row of a table that applies, or seven if none does. */
  method FirstApplying(rows: seq<bool>) returns (i: nat)
    requires |rows| == 7
    ensures i <= 7 && (i < 7 ==> rows[i])
    ensures (i > 0 ==> !rows[0]) && (i > 1 ==> !rows[1]) && (i > 2 ==> !rows[2]) && (i > 3 ==> !rows[3])
    ensures (i > 4 ==> !rows[4]) && (i > 5 ==> !rows[5]) && (i > 6 ==> !rows[6])
  {
    i := 0;
    while i < |rows| && !rows[i]
      invariant 0 <= i <= |rows| && forall j :: 0 <= j < i ==> !rows[j]
    {
      i := i + 1;
    }
  }

  method DecideQueueEvent(p: Policy, w: Wait, b: EventBody) returns (action: EventAction, notify: bool)
    ensures (action, notify) == DecideEvent(p, w, b)
  {
    var waiting := w.until.Some?;
    var play := b.StateChanged? && b.state == Play;
    var transition := b.StateChanged? && p.automating && (b.state == Stop || b.state == Unknown);
    var rules := [
      EventRule(!p.owned, PassOn, false),
      EventRule(b.NowPlayingChanged?, Observe, true),
      EventRule(play && p.expected != Play, PassOn, waiting),
      EventRule(play && waiting, Observe, true),
      EventRule(play, Ignore, false),
      EventRule(transition && waiting, Ignore, false),
      EventRule(transition, BeginWait, true)];
    var i := FirstApplying(seq(|rules|, k requires 0 <= k < |rules| => rules[k].applies));
    var rule := if i < |rules| then rules[i] else EventRule(true, PassOn, false);
    return rule.action, rule.notify;
  }

  method FirstObservationRule(
      active: bool, open: bool, late: bool, cancelled: bool, safe: bool, kept: bool, playing: bool)
    returns (a: Action)
    ensures a == FirstRule(active, open, late, cancelled, safe, kept, playing)
  {
    var rules := [
      ObservationRule(!active, Pass), ObservationRule(!open, Pass), ObservationRule(late, Release(TimedOut)),
      ObservationRule(cancelled, Release(Cancelled)), ObservationRule(!safe, Release(Unsafe)),
      ObservationRule(!kept, Release(Changed)), ObservationRule(playing, Resume)];
    var i := FirstApplying(seq(|rules|, k requires 0 <= k < |rules| => rules[k].applies));
    a := if i < |rules| then rules[i].action else Hold;
  }

  method DecideQueueObservation(p: Policy, w: Wait, before: Snapshot, s: Snapshot, m: Moment)
    returns (a: Action, until: Option<Time>)
    ensures a == DecideObservation(p, w, before, s, m) && until == WaitingUntil(p, w, before, s, m.now)
  {
    until := w.until;
    if p.Active() && InTransition(before, s) && until.None? { until := Some(m.now + CONFIRMATION_TIMEOUT); }
    var late := m.expired;
    if until.Some? {
      var deadline := until.value;
      if p.playbackUntil.Some? && p.playbackUntil.value <= deadline { deadline := p.playbackUntil.value; }
      late := late || m.now >= deadline;
    }
    var kept := TransitionKeeps(before, s);
    var playing := s.state == Play && QueuedMedia(before.queue, s.media) && !w.Pending();
    a := FirstObservationRule(p.Active(), until.Some?, late, m.cancelled, m.safe, kept, playing);
  }

  /** The fields the event callback and the worker share under one mutex. */
  class Gate {
    const policy: Policy
    var wait: Wait

    constructor (p: Policy, w: Wait)
      ensures policy == p && wait == w
    {
      policy := p;
      wait := w;
    }

    /** A notification moves an open limit never, opens one only at its own time, and leaves
        a hint exactly when it is one that a read has to catch up with. */
    method AcceptQueueEvent(b: EventBody, now: Time) returns (accepted: bool)
      modifies this
      ensures wait == AfterEvent(policy, old(wait), b, now)
      ensures accepted <==> !DecideEvent(policy, old(wait), b).0.PassOn?
      ensures wait.until == old(wait).until || (old(wait).until.None? && wait.until == Some(now + CONFIRMATION_TIMEOUT))
      ensures policy.Active() && accepted ==> (wait == old(wait) <==> LeavesNoTrace(old(wait), b))
    {
      var action, notify := DecideQueueEvent(policy, wait, b);
      if action == BeginWait { wait := wait.(until := Some(now + CONFIRMATION_TIMEOUT)); }
      if notify { wait := wait.(eventRevision := wait.eventRevision + 1); }
      accepted := action != PassOn;
    }

    method Deliver(notices: seq<Input>)
      requires Notices(notices)
      modifies this
      ensures old(wait).until.Some? ==> wait.until == old(wait).until
    {
      for i := 0 to |notices|
        invariant old(wait).until.Some? ==> wait.until == old(wait).until
      {
        var _ := AcceptQueueEvent(notices[i].body, notices[i].at);
      }
    }

    /** An observation closes an open limit only by resuming, and then on exactly confirmed
        playback; it opens one only for a transition it shows. */
    method QueueObservationDecision(before: Snapshot, s: Snapshot, m: Moment) returns (a: Action)
      modifies this
      ensures a == DecideObservation(policy, old(wait), before, s, m)
      ensures wait == AfterObservation(policy, old(wait), before, s, m)
      ensures a == Resume ==>
        wait.until.None? && policy.Active() && s.state == Play && QueuedMedia(before.queue, s.media)
      ensures old(wait).until.Some? && a != Resume ==> wait.until == old(wait).until
      ensures old(wait).until.None? && wait.until.Some? ==> policy.Active() && InTransition(before, s)
    {
      var until;
      a, until := DecideQueueObservation(policy, wait, before, s, m);
      wait := wait.(until := if a == Resume then None else until);
    }

    /** The gate opens at once only when no transition is open or showing. Once one is, it
        opens only on exactly confirmed playback before the limit that was already fixed at
        the first decision, with every notified event read back; the wait is then closed. */
    method AwaitOwnedPlayback(before: Snapshot, first: Snapshot, moment: Moment, rounds: seq<Round>)
      returns (s: Snapshot, waited: bool, ok: bool)
      requires Proper(rounds)
      modifies this
      ensures !policy.Active() ==> ok && !waited && s == first && wait == old(wait)
      ensures ok && !waited ==> s == first
      ensures policy.Active() && WaitingUntil(policy, old(wait), before, first, moment.now).None? ==>
        ok && s == first && wait == old(wait)
      ensures policy.Active() && ok && WaitingUntil(policy, old(wait), before, first, moment.now).Some? ==>
                wait.until.None? && !wait.Pending() &&
                var limit := WaitingUntil(policy, old(wait), before, first, moment.now).value;
                exists k :: -1 <= k < |rounds| &&
                  PlaybackConfirmed(policy, limit, before, s, MomentAt(moment, rounds, k))
      ensures policy.Active() && !ok ==> wait.until == WaitingUntil(policy, old(wait), before, first, moment.now)
    {
      ghost var limit := WaitingUntil(policy, wait, before, first, moment.now);
      s, waited := first, false;
      if DecideObservation(policy, wait, before, first, moment) == Resume {
        ResumeConfirms(policy, wait, before, first, moment);
        assert moment == MomentAt(moment, rounds, -1);
      }
      var d := QueueObservationDecision(before, s, moment);
      var i := 0;
      while d == Hold
        invariant 0 <= i <= |rounds|
        invariant d == Hold || d.Release? ==> policy.Active() && limit.Some? && wait.until == limit
        invariant d == Resume ==> policy.Active() && limit.Some? && wait.until.None? && !wait.Pending()
        invariant d == Resume ==>
          exists k :: -1 <= k < |rounds| &&
            PlaybackConfirmed(policy, limit.value, before, s, MomentAt(moment, rounds, k))
        invariant d == Pass ==> !waited && wait == old(wait) && (!policy.Active() || limit.None?)
        invariant !waited ==> s == first
        decreases |rounds| - i
      {
        waited := true;
        if i == |rounds| || rounds[i].read.Failed? { return s, waited, false; }
        var round := rounds[i];
        Deliver(round.early);
        var revision := wait.eventRevision;
        Deliver(round.late);
        if round.read.Observed? {
          s := round.read.s;
          wait := wait.(observedRevision := revision);
        }
        if DecideObservation(policy, wait, before, s, round.moment) == Resume {
          ResumeConfirms(policy, wait, before, s, round.moment);
          assert round.moment == MomentAt(moment, rounds, i);
        }
        d := QueueObservationDecision(before, s, round.moment);
        i := i + 1;
      }
      ok := !d.Release?;
    }
  }
}
