/** Confirmation of an initial queue replacement: which notifications belong to it, what
    each complete readback decides, and the one-way boundary at the first sign of Play. */
module QueueStart {
  import opened Heos
  import opened Queue

  datatype Phase = NotStarting | AwaitingPlay | PlayObserved

  datatype Reason = Inactive | Timeout | Cancelled | Unsafe | Controls | State | Items | MediaChanged | Order

  datatype Action = Wait | Confirm | Abort(reason: Reason)

  /** What one readback is judged against; `pending` says newer events await a read. */
  datatype Facts = Facts(now: Time, deadline: Time, phase: Phase, bounded: bool, members: set<ID>,
                         before: Snapshot, observed: Snapshot, cancelled: bool, safe: bool, pending: bool)

  predicate StatePending(before: PlayState, after: PlayState, started: bool) {
    match after
    case Play => true
    case Unknown => true
    case Stop => !started && (before == Stop || before == Pause)
    case Pause => !started && before == Pause
    case Absent => false
  }

  predicate LoadingMedia(before: Snapshot, after: Snapshot, members: set<ID>) {
    EmptyMedia(after.media) ||
    (before.media.Some? && before.media.value.source == after.media.value.source &&
     before.media.value.id == after.media.value.id) ||
    (after.media.value.source == LOCAL_QUEUE && after.media.value.id in members)
  }

  /** Every entry was there before or was asked for. */
  ghost predicate LoadingItems(before: QueuePage, after: QueuePage, members: set<ID>) {
    forall i :: 0 <= i < |after.items| ==>
      after.items[i].id in members || exists j :: 0 <= j < |before.items| && before.items[j].id == after.items[i].id
  }

  /** The selected result: a selected entry is playing from a queue of selected entries,
      and for a bounded run that queue is complete and contains the exact playing pair. */
  ghost predicate SelectedResult(s: Snapshot, members: set<ID>, bounded: bool) {
    s.media.Some? && s.media.value.source == LOCAL_QUEUE && s.media.value.id != "" && s.media.value.queueId != "" &&
    s.media.value.id in members && (forall i :: 0 <= i < |s.queue.items| ==> s.queue.items[i].id in members) &&
    (bounded ==> SelectedQueue(s.queue, members) && QueuedMedia(s.queue, s.media))
  }

  ghost predicate Unresolved(f: Facts) {
    f.phase == AwaitingPlay && f.observed.state == Unknown && f.observed.media.Some? &&
    f.observed.media.value.source == LOCAL_QUEUE && f.observed.media.value.id != "" &&
    !LoadingMedia(f.before, f.observed, f.members) && SelectedQueue(f.observed.queue, f.members)
  }

  ghost function Decide(f: Facts): Action {
    if f.phase == NotStarting then Abort(Inactive)
    else if f.now >= f.deadline then Abort(Timeout)
    else if f.cancelled then Abort(Cancelled)
    else if !f.safe then Abort(Unsafe)
    else if !LoadingControls(f.before, f.observed) then Abort(Controls)
    else if !StatePending(f.before.state, f.observed.state, f.phase == PlayObserved) then Abort(State)
    else if !LoadingItems(f.before.queue, f.observed.queue, f.members) then Abort(Items)
    else if !LoadingMedia(f.before, f.observed, f.members) && !Unresolved(f) then Abort(MediaChanged)
    else if f.observed.state == Play && SelectedResult(f.observed, f.members, f.bounded) && !f.pending then Confirm
    else Wait
  }

  method ItemsLoading(before: QueuePage, after: QueuePage, members: set<ID>) returns (ok: bool)
    ensures ok <==> LoadingItems(before, after, members)
  {
    var known: set<ID> := {};
    for i := 0 to |before.items|
      invariant known == set j | 0 <= j < i :: before.items[j].id
    {
      known := known + {before.items[i].id};
    }
    for i := 0 to |after.items|
      invariant forall k :: 0 <= k < i ==> after.items[k].id in members || after.items[k].id in known
    {
      if after.items[i].id !in known && after.items[i].id !in members { return false; }
    }
    return true;
  }

  method ResultSelected(s: Snapshot, members: set<ID>, bounded: bool) returns (ok: bool)
    ensures ok <==> SelectedResult(s, members, bounded)
  {
    if s.media.None? || s.media.value.source != LOCAL_QUEUE || s.media.value.id == "" || s.media.value.queueId == "" ||
       s.media.value.id !in members {
      return false;
    }
    for i := 0 to |s.queue.items|
      invariant forall k :: 0 <= k < i ==> s.queue.items[k].id in members
    {
      if s.queue.items[i].id !in members { return false; }
    }
    if bounded {
      var complete := CompleteOwnedQueue(s.queue, members);
      if !complete { return false; }
      if !QueuedMedia(s.queue, s.media) { return false; }
    }
    return true;
  }

  method DecideQueueStart(f: Facts) returns (a: Action)
    ensures a == Decide(f)
  {
    var mediaAllowed := LoadingMedia(f.before, f.observed, f.members);
    var complete := CompleteOwnedQueue(f.observed.queue, f.members);
    var unresolved := f.phase == AwaitingPlay && f.observed.state == Unknown && f.observed.media.Some? &&
                      f.observed.media.value.source == LOCAL_QUEUE && f.observed.media.value.id != "" &&
                      !mediaAllowed && complete;
    var items := ItemsLoading(f.before.queue, f.observed.queue, f.members);
    var selected := ResultSelected(f.observed, f.members, f.bounded);
    a := if f.phase == NotStarting then Abort(Inactive)
         else if f.now >= f.deadline then Abort(Timeout)
         else if f.cancelled then Abort(Cancelled)
         else if !f.safe then Abort(Unsafe)
         else if !LoadingControls(f.before, f.observed) then Abort(Controls)
         else if !StatePending(f.before.state, f.observed.state, f.phase == PlayObserved) then Abort(State)
         else if !items then Abort(Items)
         else if !mediaAllowed && !unresolved then Abort(MediaChanged)
         else if f.observed.state == Play && selected && !f.pending then Confirm
         else Wait;
  }

  // ---- Attribution of notifications ----

  /** The attribution state of one pending replacement. `wanted` are the transport states
      still expected, `queueHints` the unspent queue notifications. The owned-queue policy
      attributes nothing here: ownership begins with this confirmation. */
  datatype Attribution = Attribution(phase: Phase, wanted: seq<PlayState>, queueHints: nat, mediaHint: bool,
                                     cancelled: bool, eventRevision: nat, observedRevision: nat)

  /** Registered just before the replacement is sent, over the expected state. */
  function Expect(state: PlayState, eventRevision: nat, observedRevision: nat): Attribution {
    Attribution(AwaitingPlay, if state == Stop || state == Pause then [Stop, Play] else [Play], 1, true,
                false, eventRevision, observedRevision)
  }

  function FirstWanted(wanted: seq<PlayState>, s: PlayState): (k: int)
    ensures -1 <= k < |wanted|
    ensures k >= 0 ==> wanted[k] == s
    ensures k < 0 <==> s !in wanted
  {
    if wanted == [] then -1
    else if wanted[0] == s then 0
    else var k := FirstWanted(wanted[1..], s); if k < 0 then -1 else k + 1
  }

  function WithoutStop(wanted: seq<PlayState>): (r: seq<PlayState>)
    ensures Stop !in r && forall s :: s in r ==> s in wanted
  {
    if wanted == [] then []
    else if wanted[0] == Stop then WithoutStop(wanted[1..])
    else [wanted[0]] + WithoutStop(wanted[1..])
  }

  /** A valid, continuous notification of this player. A setting notification belongs to
      nobody, so it is accepted only when it repeats the expected value. */
  predicate Accepts(a: Attribution, expected: Snapshot, b: EventBody) {
    match b
    case StateChanged(s) => s in a.wanted
    case NowPlayingChanged => a.mediaHint
    case QueueChanged => a.queueHints > 0
    case VolumeChanged(level, muted) => expected.volume == Some(level) && expected.muted == Some(muted)
    case RepeatChanged(repeat) => repeat == expected.repeat
    case ShuffleChanged(shuffle) => shuffle == expected.shuffle
    case _ => false
  }

  function AfterState(a: Attribution, s: PlayState): Attribution
    requires s in a.wanted
  {
    if a.phase == AwaitingPlay && s == Stop then a
    else
      var hinted := a.(eventRevision := a.eventRevision + 1);
      if s == Play then hinted.(wanted := [], phase := if a.phase == NotStarting then NotStarting else PlayObserved)
      else var i := FirstWanted(a.wanted, s); hinted.(wanted := a.wanted[..i] + a.wanted[i + 1..])
  }

  /** Anything not accepted revokes the operation. */
  function AfterEvent(a: Attribution, expected: Snapshot, b: EventBody): Attribution {
    if !Accepts(a, expected, b) then a.(cancelled := true)
    else match b
      case StateChanged(s) => AfterState(a, s)
      case NowPlayingChanged => a.(eventRevision := a.eventRevision + 1)
      case QueueChanged => a.(eventRevision := a.eventRevision + 1, queueHints := a.queueHints - 1)
      case _ => a
  }

  function AfterRead(a: Attribution, state: PlayState): Attribution {
    if state == Play then a.(phase := PlayObserved, wanted := WithoutStop(a.wanted)) else a
  }

  /** One complete readback under the mutex. `revision` is the event revision when the read
      began, `covers` that its token is the latest and the player counter advanced. */
  datatype Readback = Readback(now: Time, observed: Snapshot, revision: nat, covers: bool, safe: bool)

  /** The fixed facts of one replacement. `ordered` is the exact first part of an ordered plan. */
  datatype Plan = Plan(before: Snapshot, deadline: Time, bounded: bool, members: set<ID>, ordered: Option<seq<ID>>)

  function Reconciled(a: Attribution, r: Readback): Attribution {
    var seen := AfterRead(a.(observedRevision := r.revision), r.observed.state);
    if r.covers then seen.(observedRevision := seen.eventRevision) else seen
  }

  function FactsOf(p: Plan, a: Attribution, r: Readback): Facts {
    Facts(r.now, p.deadline, a.phase, p.bounded, p.members, p.before, r.observed, a.cancelled, r.safe,
          a.eventRevision != a.observedRevision)
  }

  const EMPTY_QUEUE: QueuePage := QueuePage([], None, None, Token(0, 0, 0, 0, 0))

  ghost function StartVerdict(p: Plan, a: Attribution, r: Readback): Action {
    var d := Decide(FactsOf(p, Reconciled(a, r), r));
    if d == Confirm && p.ordered.Some? && !Ordered(r.observed.queue, p.ordered.value) then
      if Growing(EMPTY_QUEUE, r.observed.queue, p.ordered.value) then Wait
      else Abort(Order)
    else d
  }

  /** The attribution fields of the running operation. */
  class Starting {
    var state: Attribution

    constructor (expected: PlayState, eventRevision: nat, observedRevision: nat)
      ensures state == Expect(expected, eventRevision, observedRevision)
    {
      state := Expect(expected, eventRevision, observedRevision);
    }

    method HandleEvent(expected: Snapshot, b: EventBody) returns (accepted: bool)
      modifies this
      ensures accepted <==> old(Accepts(state, expected, b))
      ensures state == old(AfterEvent(state, expected, b))
    {
      accepted := false;
      match b {
        case StateChanged(s) =>
          var i := 0;
          while i < |state.wanted| && state.wanted[i] != s
            invariant 0 <= i <= |state.wanted|
            invariant forall j :: 0 <= j < i ==> state.wanted[j] != s
            invariant state == old(state)
          {
            i := i + 1;
          }
          if i < |state.wanted| {
            accepted := true;
            FirstWantedIs(state.wanted, s, i);
            if !(state.phase == AwaitingPlay && s == Stop) {
              var rest := state.wanted[..i] + state.wanted[i + 1..];
              state := state.(eventRevision := state.eventRevision + 1, wanted := rest);
              if s == Play {
                state := state.(wanted := []);
                if state.phase != NotStarting { state := state.(phase := PlayObserved); }
              }
            }
          }
        case NowPlayingChanged =>
          if state.mediaHint {
            accepted := true;
            state := state.(eventRevision := state.eventRevision + 1);
          }
        case QueueChanged =>
          if state.queueHints > 0 {
            accepted := true;
            state := state.(eventRevision := state.eventRevision + 1, queueHints := state.queueHints - 1);
          }
        case VolumeChanged(level, muted) => accepted := expected.volume == Some(level) && expected.muted == Some(muted);
        case RepeatChanged(repeat) => accepted := repeat == expected.repeat;
        case ShuffleChanged(shuffle) => accepted := shuffle == expected.shuffle;
        case _ =>
      }
      if !accepted { state := state.(cancelled := true); }
    }

    method ObserveQueueState(observed: PlayState)
      modifies this
      ensures state == old(AfterRead(state, observed))
    {
      if observed == Play {
        var pending: seq<PlayState> := [];
        var wanted := state.wanted;
        for i := 0 to |wanted|
          invariant state == old(state) && wanted == state.wanted
          invariant pending + WithoutStop(wanted[i..]) == WithoutStop(wanted)
        {
          assert wanted[i..][1..] == wanted[i + 1..];
          if wanted[i] != Stop { pending := pending + [wanted[i]]; }
        }
        state := state.(phase := PlayObserved, wanted := pending);
      }
    }

    method QueueStartObservation(p: Plan, r: Readback) returns (a: Action)
      modifies this
      ensures state == old(Reconciled(state, r))
      ensures a == StartVerdict(p, old(state), r)
    {
      state := state.(observedRevision := r.revision);
      ObserveQueueState(r.observed.state);
      if r.covers { state := state.(observedRevision := state.eventRevision); }
      a := DecideQueueStart(FactsOf(p, state, r));
      if a == Confirm && p.ordered.Some? {
        var exact := OrderedQueue(r.observed.queue, p.ordered.value);
        if !exact {
          var problem := AppendQueueProblem(EMPTY_QUEUE, r.observed.queue, p.ordered.value);
          a := if problem then Abort(Order) else Wait;
        }
      }
    }
  }

  lemma {:induction false} FirstWantedIs(wanted: seq<PlayState>, s: PlayState, i: nat)
    requires i < |wanted| && wanted[i] == s && forall j :: 0 <= j < i ==> wanted[j] != s
    ensures FirstWanted(wanted, s) == i
    decreases i
  {
    if i > 0 { FirstWantedIs(wanted[1..], s, i - 1); }
  }

  // ---- Runs ----

  /** `Revoke` stands for anything that ends the operation: a gap, an incomplete or foreign
      notification, a cancellation. */
  datatype Input = Notice(body: EventBody) | Read(readback: Readback) | Revoke

  function Apply(a: Attribution, p: Plan, i: Input): Attribution {
    match i
    case Notice(b) => AfterEvent(a, p.before, b)
    case Read(r) => Reconciled(a, r)
    case Revoke => a.(cancelled := true)
  }

  function After(a: Attribution, p: Plan, inputs: seq<Input>): Attribution
    decreases inputs
  {
    if inputs == [] then a else After(Apply(a, p, inputs[0]), p, inputs[1..])
  }

  predicate ShowsPlay(i: Input) {
    match i
    case Notice(b) => b == StateChanged(Play)
    case Read(r) => r.observed.state == Play
    case Revoke => false
  }

  /** The boundary: past it no stopping state is wanted any more, or the run is revoked. */
  ghost predicate Crossed(a: Attribution) {
    a.cancelled || (a.phase == PlayObserved && forall s :: s in a.wanted ==> s == Play)
  }

  ghost predicate Loading(a: Attribution) {
    !a.phase.NotStarting? && (forall s :: s in a.wanted ==> s == Stop || s == Play)
  }

  lemma StateWantsLess(a: Attribution, s: PlayState)
    requires s in a.wanted
    ensures forall t :: t in AfterState(a, s).wanted ==> t in a.wanted
  {
    var i := FirstWanted(a.wanted, s);
    assert forall t :: t in a.wanted[..i] + a.wanted[i + 1..] ==> t in a.wanted;
  }

  lemma ApplyKeeps(a: Attribution, p: Plan, i: Input)
    requires Loading(a)
    ensures Loading(Apply(a, p, i))
    ensures Crossed(a) || ShowsPlay(i) ==> Crossed(Apply(a, p, i))
    ensures a.cancelled ==> Apply(a, p, i).cancelled
  {
    if i.Notice? && i.body.StateChanged? && i.body.state in a.wanted {
      StateWantsLess(a, i.body.state);
    }
  }

  lemma {:induction false} RunCrosses(a: Attribution, p: Plan, inputs: seq<Input>)
    requires Loading(a)
    ensures Loading(After(a, p, inputs))
    ensures Crossed(a) || (exists k :: 0 <= k < |inputs| && ShowsPlay(inputs[k])) ==> Crossed(After(a, p, inputs))
    decreases inputs
  {
    if inputs != [] {
      ApplyKeeps(a, p, inputs[0]);
      RunCrosses(Apply(a, p, inputs[0]), p, inputs[1..]);
      if exists k :: 0 <= k < |inputs| && ShowsPlay(inputs[k]) {
        var k :| 0 <= k < |inputs| && ShowsPlay(inputs[k]);
        if k > 0 { assert inputs[1..][k - 1] == inputs[k]; }
      }
    }
  }

  /** One-way start: after any run of notifications and reads from the moment the command
      was registered, once one of them showed Play, a Stop or Pause notification no longer
      leaves the run alive and a Stop or Pause observation neither waits nor confirms. */
  lemma OneWayStart(
      state: PlayState, eventRevision: nat, observedRevision: nat, p: Plan, inputs: seq<Input>, k: nat, s: PlayState,
      r: Readback)
    requires k < |inputs| && ShowsPlay(inputs[k]) && (s == Stop || s == Pause) && r.observed.state == s
    ensures var a := After(Expect(state, eventRevision, observedRevision), p, inputs);
            AfterEvent(a, p.before, StateChanged(s)).cancelled && StartVerdict(p, a, r).Abort?
  {
    RunCrosses(Expect(state, eventRevision, observedRevision), p, inputs);
  }

  /** Before that, a repeated loading Stop changes nothing at all, however often it comes. */
  lemma LoadingStopIsIdle(a: Attribution, p: Plan)
    requires a.phase == AwaitingPlay && Stop in a.wanted
    ensures AfterEvent(a, p.before, StateChanged(Stop)) == a
  {
  }

  /** What a confirmation establishes, over any run: playing, uncancelled, in time, with
      every read-back event covered and controls unchanged; for a bounded run the queue is
      the complete selected one with its own queue IDs and contains the playing pair; and
      for an ordered plan it is exactly the first part. */
  lemma ConfirmationEstablishes(p: Plan, a: Attribution, r: Readback)
    requires StartVerdict(p, a, r) == Confirm
    ensures r.observed.state == Play && r.now < p.deadline && !a.cancelled && r.safe
    ensures LoadingControls(p.before, r.observed)
    ensures r.observed.media.Some? && r.observed.media.value.id in p.members
    ensures p.bounded ==>
      SelectedQueue(r.observed.queue, p.members) && QueuedMedia(r.observed.queue, r.observed.media) &&
                          0 <= QueueIndex(r.observed) < |r.observed.queue.items|
    ensures p.ordered.Some? ==> Ids(r.observed.queue.items) == p.ordered.value
    ensures r.covers || r.revision == a.eventRevision
  {
  }
}
