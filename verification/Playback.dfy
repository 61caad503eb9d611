/** The playback worker: one guarded write with at most one delivery, and the maintenance
    of a finite manifest in a bounded native queue by appends, removals and navigation.
    Reads, clocks, the journal and the wire are inputs; everything else is this state. */
module Playback {
  import opened Heos
  import opened Queue
  import opened Buffered
  import Delivery
  import Paging
  import Scalar

  // ---- Ownership ----

  predicate MediaMayMove(queueOwned: bool, a: Snapshot, b: Snapshot) {
    queueOwned && a.state == b.state &&
    ((b.state == Play && QueuedMedia(a.queue, b.media)) ||
     (b.state == Stop && (EmptyMedia(b.media) || QueuedMedia(a.queue, b.media))))
  }

  /** No owned change: within an owned queue the current track may move, nothing else. */
  predicate OwnedSame(queueOwned: bool, a: Snapshot, b: Snapshot) {
    a.token.generation == b.token.generation &&
    SameState(if MediaMayMove(queueOwned, a, b) then a.(media := b.media) else a, b)
  }

  /** The same queue on the same connection, no less complete. */
  ghost predicate QueueKept(a: Snapshot, b: Snapshot) {
    a.queue.items == b.queue.items && a.queue.total == b.queue.total && (a.queue.next.None? ==> b.queue.next.None?) &&
    a.token.generation == b.token.generation
  }

  lemma OwnedKeepsQueue(queueOwned: bool, a: Snapshot, b: Snapshot)
    requires OwnedSame(queueOwned, a, b) && b.queue.next.None?
    ensures QueueKept(a, b) && a.state == b.state
  {
  }

  lemma KeptOrdered(a: Snapshot, b: Snapshot, ids: seq<ID>)
    requires QueueKept(a, b) && Ordered(a.queue, ids)
    ensures Ordered(b.queue, ids)
  {
  }

  // ---- Navigation ----

  predicate CompletePage(q: QueuePage) { q.total == Some(|q.items|) && q.items != [] && q.next.None? }

  /** Repeat is off and this direction has nowhere to go. */
  predicate AtBoundary(direction: string, s: Snapshot) {
    s.repeat == RepeatOff && (direction == "next" || direction == "previous") &&
    (|s.queue.items| == 1 ||
     (!s.shuffle && QueueIndex(s) >= 0 &&
      ((direction == "next" && QueueIndex(s) == |s.queue.items| - 1) ||
       (direction == "previous" && QueueIndex(s) == 0))))
  }

  predicate Skippable(direction: string, s: Snapshot) {
    s.state.Active() && CompletePage(s.queue) && QueuedMedia(s.queue, s.media) && !AtBoundary(direction, s)
  }

  predicate QueueExtension(prefix: QueuePage, full: QueuePage) {
    CompletePage(full) && 0 < |prefix.items| <= |full.items| && (prefix.total.Some? ==> prefix.total == full.total) &&
    prefix.items == full.items[..|prefix.items|]
  }

  predicate SkipConfirmed(before: Snapshot, after: Snapshot) {
    after.state.Active() && before.media.Some? && after.media.Some? && after.media.value.queueId != "" &&
    after.media.value.queueId != before.media.value.queueId && QueuedMedia(before.queue, after.media) &&
    SameState(before.(state := after.state, media := after.media), after)
  }

  predicate SkipPending(before: Snapshot, after: Snapshot) {
    before.token.generation == after.token.generation &&
    var moving := EmptyMedia(after.media) || QueuedMedia(before.queue, after.media) ||
        TransitionalMedia(before.queue, after.media);
    SameState(before.(state := if after.state.Known() then after.state else before.state,
                      media := if moving then after.media else before.media), after)
  }

  function StoppedReadback(before: Snapshot, after: Snapshot): Snapshot {
    if after.state != Unknown && after.state != Stop then before
    else before.(state := after.state,
                 media := if EmptyMedia(after.media) || QueuedMedia(before.queue, after.media) then after.media
                          else before.media)
  }

  function TransportReadback(before: Snapshot, after: Snapshot, target: PlayState, pending: bool): Snapshot {
    match target
    case Stop => StoppedReadback(before, after)
    case Play =>
      if QueuedMedia(before.queue, after.media) ||
         (pending && after.state != Play && (EmptyMedia(after.media) || QueuedIdentity(before.queue, after.media)))
      then before.(media := after.media) else before
    case _ => before
  }

  lemma TransportKeepsQueue(before: Snapshot, after: Snapshot, target: PlayState, pending: bool)
    ensures var s := TransportReadback(before, after, target, pending);
            s.queue == before.queue && s.token == before.token
  {
  }

  predicate TransportPending(before: Snapshot, after: Snapshot, target: PlayState) {
    before.token.generation == after.token.generation &&
    var waiting := before.(state := if after.state == Unknown then Unknown else before.state);
    SameState(TransportReadback(waiting, after, target, true), after)
  }

  // ---- What one write learns from outside ----

  /** A failed read is never the stale-guard failure: reads carry no guard. */
  datatype Error =
    | NoError | Cancelled | Unreadable | NotSafe | Ownership | TimelineChanged | NotSkippable | StaleReference
    | JournalDown | Unconfirmed | SessionExpired | NoRoom | CommandFailed(outcome: Delivery.Outcome)

  /** An observation after the transition gate, with whether the gate had to wait. */
  datatype Observation = NotRead(cancelled: bool) | Settled(s: Snapshot, waited: bool)

  datatype Readback = Readback(s: Snapshot, safe: bool, current: bool, verdict: Verdict)

  datatype Attempt = Attempt(
    cancelled: bool, read: Observation, checkedAt: Time, observable: bool, safe: bool, underCeiling: bool,
    sameCatalog: bool,
    journalOk: bool, guardAt: Time, wire: Delivery.Outcome, bytes: nat, response: Token,
    readbacks: seq<Readback>, afterVolume: Observation, safeAfter: bool, cancelledAfter: bool)

  /** Where an attempt's inputs come from: the wire's answer and byte count from some race over
      the guarded request, and every queue from a completed read. */
  ghost predicate Sourced(a: Attempt) {
    Delivery.WriteAnswer(a.wire, a.bytes) && (a.read.Settled? ==> Paging.Completed(a.read.s.queue)) &&
    (a.afterVolume.Settled? ==> Paging.Completed(a.afterVolume.s.queue)) &&
    forall i :: 0 <= i < |a.readbacks| ==> Paging.Completed(a.readbacks[i].s.queue)
  }

  /** What a single attempt relies on. */
  predicate Faithful(a: Attempt) {
    (a.wire.Failed? && a.wire.delivery == Delivery.NotSent ==> a.bytes == 0) && (a.wire.Accepted? ==> a.bytes > 0) &&
    (a.wire.Failed? && a.wire.stale ==> a.wire.delivery == Delivery.NotSent) &&
    (a.read.Settled? ==> a.read.s.queue.next.None?) && (a.afterVolume.Settled? ==> a.afterVolume.s.queue.next.None?) &&
    (forall i :: 0 <= i < |a.readbacks| ==> a.readbacks[i].s.queue.next.None?)
  }

  /** It follows from where the inputs come from, in every race and for every queue. */
  lemma SourcedIsFaithful(a: Attempt)
    requires Sourced(a)
    ensures Faithful(a)
  {
    Delivery.WriteAnswerTruthful(a.wire, a.bytes);
    if a.read.Settled? { Paging.CompletedExactly(a.read.s.queue); }
    if a.afterVolume.Settled? { Paging.CompletedExactly(a.afterVolume.s.queue); }
    forall i | 0 <= i < |a.readbacks| ensures a.readbacks[i].s.queue.next.None? {
      Paging.CompletedExactly(a.readbacks[i].s.queue);
    }
  }

  /** The inputs of one call: it makes at most three attempts. */
  ghost predicate Tries(attempts: seq<Attempt>) { |attempts| == 3 && forall i :: 0 <= i < 3 ==> Sourced(attempts[i]) }

  predicate Retried(e: Error) { e == CommandFailed(Delivery.Failed(Delivery.NotSent, true)) }

  /** The errors after which the worker goes on. */
  predicate Continues(e: Error) { e == NoError || e == TimelineChanged || e == NotSkippable }

  predicate Unsent(e: Error) { e == TimelineChanged || e == NotSkippable || Retried(e) }

  predicate Loads(m: Mutation) { m.QueueItem? || m.RemoveItems? }
  predicate Maintains(m: Mutation) { m.RemoveItems? || (m.QueueItem? && m.append) }

  /** What one complete readback says about a pending command. Replacement is judged by its
      own policy; whatever it says, the result is compared again afterwards. */
  ghost function Judge(m: Mutation, before: Snapshot, r: Readback, ordered: seq<ID>): Verdict {
    match m
    case QueueItem(_, append) => if append then AppendVerdict(before, r.s, ordered, r.safe, r.current) else r.verdict
    case RemoveItems(ids) => RemoveVerdict(before, r.s, |ids|, ordered, r.safe, r.current)
    case SkipTrack(_) =>
      if !r.safe || !SkipPending(before, r.s) then Rejected
      else if r.current && SkipConfirmed(before, r.s) then Confirmed else Pending
    case SetTransport(state) =>
      if !r.safe then Rejected else if r.s.state == state then Confirmed
      else if TransportPending(before, r.s, state) then Pending else Rejected
    case _ => r.verdict
  }

  /** The state a confirmed command should have produced. */
  function Predicted(m: Mutation, latest: Snapshot, after: Snapshot): Snapshot {
    match m
    case SetTransport(state) => TransportReadback(latest.(state := state), after, state, false)
    case SkipTrack(_) => latest.(state := after.state, media := after.media)
    case QueueItem(_, _) => latest.(state := Play, media := after.media, queue := after.queue)
    case RemoveItems(_) => latest.(state := Play, media := after.media, queue := after.queue)
    case _ => Scalar.Predicted(m, latest, after)
  }

  lemma PredictedKeepsQueue(m: Mutation, latest: Snapshot, after: Snapshot)
    requires !Loads(m)
    ensures Predicted(m, latest, after).queue == latest.queue && Predicted(m, latest, after).token == latest.token
  {
    match m
    case SetTransport(state) => TransportKeepsQueue(latest.(state := state), after, state, false);
    case _ =>
  }

  /** What the closing comparison leaves of the queue. */
  lemma SettledQueue(m: Mutation, latest: Snapshot, found: Snapshot, after: Snapshot, queueOwned: bool)
    requires OwnedSame(queueOwned, Predicted(m, latest, found), after) && after.queue.next.None?
    ensures !Loads(m) ==> QueueKept(latest, after)
    ensures Loads(m) ==> after.state == Play
  {
    OwnedKeepsQueue(queueOwned, Predicted(m, latest, found), after);
    if !Loads(m) { PredictedKeepsQueue(m, latest, found); }
  }

  /** The exact ordered queue, playing one of its own entries. */
  ghost predicate ResultMatches(s: Snapshot, ordered: seq<ID>) {
    Ordered(s.queue, ordered) && SelectedQueue(s.queue, Members(ordered)) && QueuedMedia(s.queue, s.media)
  }

  /** What a confirmed queue command established, from the state it was guarded by. */
  ghost predicate Loaded(m: Mutation, latest: Snapshot, now: Snapshot, ordered: seq<ID>, retain: int)
    requires Loads(m)
  {
    now.state == Play && Ordered(now.queue, ordered) && QueuedMedia(now.queue, now.media) &&
    (Maintains(m) && m.QueueItem? ==> Growing(latest.queue, now.queue, ordered)) &&
    (m.RemoveItems? ==>
       RemovablePrefix(latest, m.queueIds, retain) && QueueIndex(now) == QueueIndex(latest) - |m.queueIds| &&
       ordered == Ids(latest.queue.items)[|m.queueIds|..])
  }

  lemma LoadedBy(m: Mutation, latest: Snapshot, after: Snapshot, now: Snapshot, ordered: seq<ID>, retain: int)
    requires Loads(m) && now.queue == after.queue && now.media == after.media && now.state == Play
    requires exists r: Readback :: r.s == after && Judge(m, latest, r, ordered) == Confirmed
    requires ResultMatches(after, ordered) && (m.RemoveItems? ==> RemovablePrefix(latest, m.queueIds, retain))
    ensures Loaded(m, latest, now, ordered, retain)
  {
    var r: Readback :| r.s == after && Judge(m, latest, r, ordered) == Confirmed;
    if m.RemoveItems? { RemovalKeepsOccurrence(latest, after, |m.queueIds|, ordered, r.safe, r.current); }
  }

  function Members(ids: seq<ID>): set<ID> { set i | 0 <= i < |ids| :: ids[i] }

  datatype LoadingProgress = LoadingProgress(buffered: int, remaining: int, current: int, pruned: int)

  /** What a playback command starts with. */
  datatype StartCommand = StartCommand(level: int, repeat: Repeat, shuffle: bool, item: ID)

  /** What one turn of the loading loop learns from outside. */
  datatype Turn = Turn(
    cancelled: bool, now: Time, journalOk: bool, skip: Option<string>, skipReady: bool, observe: Option<Observation>,
    safe: bool, revoked: bool, pending: bool, persisted: bool, stepAt: Time, prepared: bool, item: ID,
    attempts: seq<Attempt>, waitOk: bool)

  ghost predicate SourcedTurn(t: Turn) { Tries(t.attempts) && (t.observe.Some? ==> SourcedRead(t.observe.value)) }

  ghost predicate SourcedRead(read: Observation) { read.Settled? ==> Paging.Completed(read.s.queue) }

  /** One turn of the automation loop. `level` is the volume it asks for, if it changes, and
      `stopping` says the envelope has ended. */
  datatype EnvelopeTurn = EnvelopeTurn(
    rest: Turn, quiet: Option<Observation>, phaseOk: bool, level: Option<int>, levelTries: seq<Attempt>, levelOk: bool,
    stopping: bool, stopTries: seq<Attempt>)

  ghost predicate SourcedEnvelope(t: EnvelopeTurn) {
    SourcedTurn(t.rest) && (t.quiet.Some? ==> SourcedRead(t.quiet.value)) && Tries(t.levelTries) && Tries(t.stopTries)
  }

  // ---- The worker ----

  class Run {
    const policy: Policy
    /** Media of each part, as preparing it reads them. */
    const parts: seq<seq<ID>>
    var expected: Snapshot
    var ordered: seq<ID>
    var queueOwned: bool
    var confirmedParts: nat
    var confirmedTracks: nat
    var pruned: nat
    var progress: Option<LoadingProgress>
    var uncertain: bool
    var unconfirmed: bool
    var confirmed: nat
    var expires: Option<Time>
    var appendUntil: Option<Time>
    var playbackDeadline: Option<Time>
    var automating: bool
    /** Commands of which some byte reached the wire. */
    ghost var sent: seq<Mutation>
    /** The state against which the last write was checked and guarded. */
    ghost var checked: Snapshot

    constructor (p: Policy, manifest: seq<seq<ID>>, s: Snapshot)
      requires manifest != []
      ensures policy == p && parts == manifest && expected == s && ordered == parts[0] && Fresh()
    {
      policy, parts, expected, ordered := p, manifest, s, manifest[0];
      queueOwned, confirmedParts, confirmedTracks, pruned, progress := false, 0, 0, 0, None;
      uncertain, unconfirmed, confirmed, automating := false, false, 0, false;
      expires, appendUntil, playbackDeadline := None, None, None;
      sent, checked := [], s;
    }

    ghost predicate Fresh()
      reads this
    {
      !queueOwned && confirmedParts == 0 && confirmedTracks == 0 && pruned == 0 && progress.None? && sent == []
    }

    /** The plan as admitted: every part has its declared number of tracks. */
    ghost predicate Admitted(cmd: Buffered.Command) {
      Accepted(policy, cmd) && |parts| == |policy.partTracks| &&
      forall i :: 0 <= i < |parts| ==> |parts[i]| == policy.partTracks[i]
    }

    /** Window conservation: the confirmed native queue is exactly the loaded manifest
        without its pruned prefix, and the durable counts say so. */
    ghost predicate Valid()
      reads this
    {
      0 < confirmedParts <= |parts| && queueOwned && Ordered(expected.queue, ordered) &&
      Window(parts, confirmedParts, pruned, ordered) && confirmedTracks == |Flatten(parts[..confirmedParts])| &&
      0 < |ordered| <= policy.maxQueueTracks
    }

    // ---- One write ----

    predicate TimelinePast(m: Mutation, now: Time)
      reads this
    {
      (Maintains(m) && appendUntil.Some? && now >= appendUntil.value) ||
      (((automating && m.SetVolume? && m.level > 0) || m.SkipTrack?) &&
       playbackDeadline.Some? && now >= playbackDeadline.value)
    }

    /** Everything that must hold before a command may reach the wire: uncancelled, safe, in
        time both when checked and when guarded, recorded in the journal, and for queue
        commands, removals and skips what each of them needs of the observed queue. */
    ghost predicate Cleared(m: Mutation, a: Attempt)
      reads this
    {
      !a.cancelled && a.read.Settled? && a.safe && a.journalOk && !TimelinePast(m, a.checkedAt) &&
      !TimelinePast(m, a.guardAt) &&
      (m.SetVolume? ==> !a.read.waited) && (Loads(m) ==> a.sameCatalog) &&
      (m.SkipTrack? ==> Skippable(m.direction, a.read.s)) &&
      (m.RemoveItems? ==> RemovablePrefix(a.read.s, m.queueIds, policy.retainPrevious))
    }

    /** A skip needs an exact current entry with somewhere to go. At a boundary nothing is
        sent, but the reconciled position is kept for the next decision. */
    method PrepareSkip(direction: string, latest: Snapshot, a: Attempt) returns (e: Error)
      requires latest.queue.next.None?
      modifies this`expected
      ensures e == NoError || e == NotSkippable || e == NotSafe || e == Ownership
      ensures QueueKept(old(expected), expected)
      ensures e == NoError ==> expected == old(expected) && Skippable(direction, latest)
    {
      if !a.underCeiling { return NotSafe; }
      if Skippable(direction, latest) { return NoError; }
      if !OwnedSame(queueOwned, expected, latest) { return Ownership; }
      OwnedKeepsQueue(queueOwned, expected, latest);
      expected := latest;
      e := NotSkippable;
    }

    /** The checks on one observation that depend on the clock and the device alone. */
    method Timely(m: Mutation, a: Attempt) returns (e: Error)
      requires a.read.Settled?
      ensures e == NoError || e == TimelineChanged || e == NotSkippable || e == NotSafe
      ensures e == NoError ==> a.safe && !TimelinePast(m, a.checkedAt) && (m.SetVolume? ==> !a.read.waited)
    {
      e := if a.read.waited && m.SetVolume? then TimelineChanged
           else if TimelinePast(m, a.checkedAt) then TimelineChanged
           else if m.SkipTrack? && a.read.s.state == Unknown then (if a.observable then NotSkippable else NotSafe)
           else if !a.safe then NotSafe else NoError;
    }

    /** Every check before the send; on success the guarded state is `expected`. */
    method Prepare(m: Mutation, a: Attempt) returns (e: Error)
      requires Faithful(a) && (m.SkipTrack? ==> CompletePage(expected.queue))
      modifies this`expected, this`checked, this`uncertain
      ensures !e.CommandFailed? && e != NoRoom && (uncertain == old(uncertain) || e == JournalDown)
      ensures QueueKept(old(expected), expected)
      ensures e == NoError ==> Cleared(m, a) && checked == expected == a.read.s
    {
      if a.cancelled { return Cancelled; }
      if a.read.NotRead? { return if a.read.cancelled then Cancelled else Unreadable; }
      e := Timely(m, a);
      if e != NoError { return; }
      var latest, before := a.read.s, expected;
      if m.SkipTrack? {
        e := PrepareSkip(m.direction, latest, a);
        if e != NoError { return; }
        if QueueExtension(before.queue, latest.queue) { before := before.(queue := latest.queue); }
        assert before.queue.items == expected.queue.items;
      }
      if Loads(m) && !a.sameCatalog { return StaleReference; }
      if !OwnedSame(queueOwned, before, latest) { return Ownership; }
      OwnedKeepsQueue(queueOwned, before, latest);
      expected, checked := latest, latest;
      if m.RemoveItems? {
        var allowed := RemovalAllowed(latest, m.queueIds, policy.retainPrevious);
        if !allowed { return TimelineChanged; }
      }
      if !a.journalOk {
        uncertain := true;
        return JournalDown;
      }
      e := if TimelinePast(m, a.guardAt) then TimelineChanged else NoError;
    }

    /** Bounded confirmation: reads only, until one of them confirms or condemns. */
    method ConfirmReadback(m: Mutation, before: Snapshot, readbacks: seq<Readback>) returns (e: Error, after: Snapshot)
      requires forall i :: 0 <= i < |readbacks| ==> readbacks[i].s.queue.next.None?
      ensures e == NoError || e == Ownership || e == Unconfirmed
      ensures e == NoError ==>
        after.queue.next.None? && exists r: Readback :: r.s == after && Judge(m, before, r, ordered) == Confirmed
    {
      after := before;
      for i := 0 to |readbacks| {
        var r := readbacks[i];
        var v := r.verdict;
        match m {
          case QueueItem(_, append) => if append { v := AppendObservation(before, r.s, ordered, r.safe, r.current); }
          case RemoveItems(ids) => v := RemoveObservation(before, r.s, |ids|, ordered, r.safe, r.current);
          case SkipTrack(_) =>
            v := if !r.safe || !SkipPending(before, r.s) then Rejected else if r.current &&
            SkipConfirmed(before, r.s) then Confirmed else Pending;
          case SetTransport(state) =>
            v := if !r.safe then Rejected else if r.s.state == state then Confirmed
                 else if TransportPending(before, r.s, state) then Pending else Rejected;
          case _ =>
        }
        if v == Confirmed { return NoError, r.s; }
        if v == Rejected { return Ownership, r.s; }
      }
      e := Unconfirmed;
    }

    method ResultAcceptable(m: Mutation, latest: Snapshot, found: Snapshot) returns (ok: bool)
      ensures ok <==> (m.SkipTrack? ==> SkipConfirmed(latest, found)) && (Loads(m) ==> ResultMatches(found, ordered))
    {
      if m.SkipTrack? { return SkipConfirmed(latest, found); }
      if !Loads(m) { return true; }
      var exact := OrderedQueue(found.queue, ordered);
      var complete := CompleteOwnedQueue(found.queue, Members(ordered));
      return exact && complete && QueuedMedia(found.queue, found.media);
    }

    /** The closing ownership comparison, and what it leaves of the queue. */
    method AsPredicted(m: Mutation, latest: Snapshot, found: Snapshot, after: Snapshot) returns (same: bool)
      requires after.queue.next.None?
      ensures same && !Loads(m) ==> QueueKept(latest, after)
      ensures same && Loads(m) ==> after.state == Play
    {
      same := OwnedSame(queueOwned, Predicted(m, latest, found), after);
      if same { SettledQueue(m, latest, found, after, queueOwned); }
    }

    /** Every check between a confirming readback and the new expected state. */
    method Close(m: Mutation, latest: Snapshot, found: Snapshot, a: Attempt) returns (e: Error, after: Snapshot)
      requires Faithful(a) && found.queue.next.None?
      ensures e == NoError || e == Ownership || e == Unreadable || e == NotSafe || e == Cancelled
      ensures e == NoError && !Loads(m) ==> QueueKept(latest, after)
      ensures e == NoError && Loads(m) ==> after == found && after.state == Play && ResultMatches(found, ordered)
    {
      e, after := NoError, found;
      var acceptable := ResultAcceptable(m, latest, found);
      if !acceptable {
        e := Ownership;
      } else if m.SetVolume? {
        if a.afterVolume.Settled? {
          after := a.afterVolume.s;
        } else {
          e := if a.afterVolume.cancelled then Cancelled else Unreadable;
        }
      }
      if e == NoError {
        var same := AsPredicted(m, latest, found, after);
        e := if !a.safeAfter then NotSafe else if !same then Ownership else NoError;
      }
    }

    /** A newer event token is not replaced by the readback's own. */
    method Adopt(after: Snapshot)
      modifies this`expected
      ensures expected.queue == after.queue && expected.media == after.media && expected.state == after.state
      ensures expected.token.generation == after.token.generation
    {
      var newer := expected.token.generation == after.token.generation && expected.token.player >= after.token.player;
      expected := after.(token := if newer then expected.token else after.token);
    }

    /** A confirmed command becomes the expected state, under the newer of the two tokens.
        The operation may have been revoked meanwhile; then the worker ends here. */
    method Settle(m: Mutation, latest: Snapshot, found: Snapshot, a: Attempt) returns (e: Error)
      requires Faithful(a) && found.queue.next.None?
      modifies this`expected, this`queueOwned, this`unconfirmed, this`confirmed
      ensures old(queueOwned) ==> queueOwned
      ensures e == NoError || e == Ownership || e == Unreadable || e == NotSafe || e == Cancelled
      ensures e == NoError ==> !unconfirmed && confirmed == old(confirmed) + 1 && (m.QueueItem? ==> queueOwned)
      ensures confirmed == old(confirmed) + 1 || unconfirmed == old(unconfirmed)
      ensures e == NoError && !Loads(m) ==> QueueKept(latest, expected)
      ensures e == NoError && Loads(m) ==>
        expected.queue == found.queue && expected.media == found.media && expected.state == Play &&
        ResultMatches(found, ordered)
    {
      var after;
      e, after := Close(m, latest, found, a);
      if e == NoError {
        Adopt(after);
        queueOwned := queueOwned || m.QueueItem?;
        unconfirmed, confirmed := false, confirmed + 1;
        if a.cancelledAfter { e := Cancelled; }
      }
    }

    /** What the wire said. A reply never replaces newer event history with an older token. */
    method Send(m: Mutation, a: Attempt) returns (e: Error)
      requires Faithful(a)
      modifies this`expected, this`uncertain, this`unconfirmed, this`sent
      ensures e == if a.wire.Accepted? then NoError else CommandFailed(a.wire)
      ensures sent == old(sent) || sent == old(sent) + [m]
      ensures e == NoError ==> sent == old(sent) + [m] && unconfirmed
      ensures Unsent(e) ==>
        sent == old(sent) && expected == old(expected) && uncertain == old(uncertain) && unconfirmed == old(unconfirmed)
      ensures sent != old(sent) ==> unconfirmed || uncertain || (a.wire.Failed? && a.wire.delivery == Delivery.Rejected)
    {
      if a.bytes > 0 { sent := sent + [m]; }
      if a.wire.Failed? {
        if a.wire.delivery == Delivery.Uncertain { uncertain := true; }
        return CommandFailed(a.wire);
      }
      unconfirmed := true;
      if a.response.generation == expected.token.generation && a.response.player == expected.token.player {
        expected := expected.(token := a.response);
      }
      e := NoError;
    }

    /** From an accepted command to a confirmed one, or to an uncertain operation. */
    method Conclude(m: Mutation, latest: Snapshot, a: Attempt) returns (e: Error)
      requires Faithful(a) && (m.RemoveItems? ==> RemovablePrefix(latest, m.queueIds, policy.retainPrevious))
      modifies this`expected, this`uncertain, this`unconfirmed, this`confirmed, this`queueOwned
      ensures old(unconfirmed) ==> confirmed == old(confirmed) + 1 || unconfirmed || uncertain
      ensures !Unsent(e) && e != NoRoom && (old(queueOwned) ==> queueOwned)
      ensures e == NoError ==> !unconfirmed && (m.QueueItem? ==> queueOwned)
      ensures e == NoError && !Loads(m) ==> QueueKept(latest, expected)
      ensures e == NoError && Loads(m) ==> Loaded(m, latest, expected, ordered, policy.retainPrevious)
    {
      var after;
      e, after := ConfirmReadback(m, latest, a.readbacks);
      if e == NoError {
        e := Settle(m, latest, after, a);
        if e == NoError && Loads(m) { LoadedBy(m, latest, after, expected, ordered, policy.retainPrevious); }
      } else {
        uncertain := true;
      }
    }

    /** A delivered command is never forgotten: it was confirmed, or rejected, or the
        operation stays marked so that it ends as uncertain. */
    ghost predicate Accounted(e: Error, before: nat)
      reads this
    {
      confirmed == before + 1 || unconfirmed || uncertain ||
      (e.CommandFailed? && e.outcome.Failed? && e.outcome.delivery == Delivery.Rejected)
    }

    /** One attempt: at most one delivery, none at all when it reports a boundary, a moved
        timeline or an unsent stale guard, and exactly one when it succeeds. */
    method WriteOnce(m: Mutation, a: Attempt) returns (e: Error)
      requires Faithful(a) && (m.SkipTrack? ==> CompletePage(expected.queue))
      modifies this`expected, this`checked, this`uncertain, this`unconfirmed, this`confirmed, this`queueOwned, this`sent
      ensures e != NoRoom && (old(queueOwned) ==> queueOwned)
      ensures sent == old(sent) || sent == old(sent) + [m]
      ensures Unsent(e) ==>
        sent == old(sent) && uncertain == old(uncertain) && unconfirmed == old(unconfirmed) &&
        confirmed == old(confirmed)
      ensures sent != old(sent) ==> Cleared(m, a) && Accounted(e, old(confirmed))
      ensures Unsent(e) || (e == NoError && !Loads(m)) ==> QueueKept(old(expected), expected)
      ensures e == NoError ==> sent == old(sent) + [m] && !unconfirmed && QueueKept(old(expected), checked)
      ensures e == NoError && Loads(m) ==>
        Loaded(m, checked, expected, ordered, policy.retainPrevious) && (m.QueueItem? ==> queueOwned)
    {
      e := Prepare(m, a);
      if e == NoError {
        var latest := expected;
        e := Send(m, a);
        if e == NoError { e := Conclude(m, latest, a); }
      }
    }

    /** Up to three attempts. Another one follows only an unsent stale guard, so the whole
        call delivers the command at most once. */
    method Write(m: Mutation, attempts: seq<Attempt>) returns (e: Error)
      requires Tries(attempts)
      requires m.SkipTrack? ==> CompletePage(expected.queue)
      modifies this`expected, this`checked, this`uncertain, this`unconfirmed, this`confirmed, this`queueOwned, this`sent
      ensures e != NoRoom && (old(queueOwned) ==> queueOwned)
      ensures sent == old(sent) || sent == old(sent) + [m]
      ensures Unsent(e) ==>
        sent == old(sent) && uncertain == old(uncertain) && unconfirmed == old(unconfirmed) &&
        confirmed == old(confirmed)
      ensures sent != old(sent) ==> (exists i :: 0 <= i < 3 && Cleared(m, attempts[i])) && Accounted(e, old(confirmed))
      ensures Unsent(e) || (e == NoError && !Loads(m)) ==> QueueKept(old(expected), expected)
      ensures e == NoError ==> sent == old(sent) + [m] && !unconfirmed && QueueKept(old(expected), checked)
      ensures e == NoError && Loads(m) ==>
        Loaded(m, checked, expected, ordered, policy.retainPrevious) && (m.QueueItem? ==> queueOwned)
    {
      SourcedIsFaithful(attempts[0]);
      e := WriteOnce(m, attempts[0]);
      var i := 1;
      while i < 3 && Retried(e) && !attempts[i - 1].cancelledAfter
        invariant 1 <= i <= 3
        invariant e != NoRoom && (old(queueOwned) ==> queueOwned)
        invariant sent == old(sent) || sent == old(sent) + [m]
        invariant Unsent(e) ==>
          sent == old(sent) && uncertain == old(uncertain) && unconfirmed == old(unconfirmed) &&
          confirmed == old(confirmed)
        invariant sent != old(sent) ==>
          (exists i :: 0 <= i < 3 && Cleared(m, attempts[i])) && Accounted(e, old(confirmed))
        invariant Unsent(e) || (e == NoError && !Loads(m)) ==> QueueKept(old(expected), expected)
        invariant e == NoError ==> sent == old(sent) + [m] && !unconfirmed && QueueKept(old(expected), checked)
        invariant e == NoError && Loads(m) ==>
          Loaded(m, checked, expected, ordered, policy.retainPrevious) && (m.QueueItem? ==> queueOwned)
      {
        SourcedIsFaithful(attempts[i]);
        e := WriteOnce(m, attempts[i]);
        i := i + 1;
      }
    }

    // ---- The window ----

    /** The published position is an absolute index into the manifest: it names the media
        that is playing, and pruned plus resident tracks are the confirmed ones. */
    method UpdateBufferedProgress() returns (e: Error)
      requires Valid()
      modifies this`progress
      ensures e == NoError || e == Ownership
      ensures e == NoError <==> Position(expected, ordered).Some?
      ensures e == Ownership ==> progress == old(progress)
      ensures e == NoError ==>
        progress.Some? && 0 <= progress.value.current < |Flatten(parts)| && expected.media.Some? &&
        Flatten(parts)[progress.value.current] == expected.media.value.id &&
        progress.value.pruned + progress.value.buffered == confirmedTracks &&
        progress.value.current + progress.value.remaining + 1 == confirmedTracks &&
        progress.value.current == pruned + QueueIndex(expected)
    {
      var position := BufferedPosition(expected, ordered);
      if position.None? { return Ownership; }
      var resident := |expected.queue.items|;
      WindowIndex(parts, confirmedParts, pruned, ordered, position.value);
      assert |Ids(expected.queue.items)| == resident;
      progress := Some(LoadingProgress(resident, resident - position.value - 1, pruned + position.value, pruned));
      e := NoError;
    }

    /** Accounts for the part that the queue was just confirmed to hold. */
    method ConfirmPart(started: Time, journalOk: bool) returns (e: Error)
      requires confirmedParts < |parts| && queueOwned && Ordered(expected.queue, ordered)
      requires 0 < |ordered| <= policy.maxQueueTracks
      requires Window(parts, confirmedParts + 1, pruned, ordered)
      requires confirmedTracks == |Flatten(parts[..confirmedParts])|
      modifies this`confirmedParts, this`confirmedTracks, this`progress
      modifies this`expires, this`appendUntil, this`playbackDeadline
      ensures Valid() && confirmedParts == old(confirmedParts) + 1
      ensures e == NoError || e == Ownership || e == JournalDown
    {
      FlattenNext(parts, confirmedParts);
      confirmedTracks := confirmedTracks + |parts[confirmedParts]|;
      confirmedParts := confirmedParts + 1;
      if expires.None? {
        expires := Some(started + policy.maxSessionSeconds * SECOND);
        playbackDeadline, appendUntil := expires, expires;
      }
      e := UpdateBufferedProgress();
      if e == NoError && !journalOk { e := JournalDown; }
    }

    /** The commands of a start: stop what plays, then level, mode, unmute and replacement. */
    function StartCommands(cmd: StartCommand): seq<Mutation>
      reads this
    {
      (if expected.state == Play then [SetTransport(Stop)] else []) +
      [SetVolume(cmd.level), SetMode(cmd.repeat, cmd.shuffle), SetMute(false), QueueItem(cmd.item, false)]
    }

    /** Each command is confirmed before the next one is sent. A confirmed start has sent
        exactly these, and is a window holding exactly the first part. */
    method Start(cmd: StartCommand, tries: seq<seq<Attempt>>, started: Time, journalOk: bool) returns (e: Error)
      requires Fresh() && parts != [] && ordered == parts[0] && 0 < |parts[0]| <= policy.maxQueueTracks
      requires |tries| == 5 && forall i :: 0 <= i < 5 ==> Tries(tries[i])
      modifies this
      ensures sent <= old(StartCommands(cmd))
      ensures e == NoError ==> Valid() && confirmedParts == 1 && sent == old(StartCommands(cmd))
    {
      e := SendInOrder(StartCommands(cmd), tries);
      if e == NoError {
        FlattenNext(parts, 0);
        e := ConfirmPart(started, journalOk);
      }
    }

    /** Sends the commands one by one, each only after the one before it was confirmed. */
    method SendInOrder(steps: seq<Mutation>, tries: seq<seq<Attempt>>) returns (e: Error)
      requires 0 < |steps| <= |tries| && sent == []
      requires forall i :: 0 <= i < |steps| ==> Tries(tries[i]) && !steps[i].SkipTrack?
      modifies this`expected, this`checked, this`uncertain, this`unconfirmed, this`confirmed, this`queueOwned, this`sent
      ensures sent <= steps && (e == NoError ==> sent == steps)
      ensures e == NoError && steps[|steps| - 1].QueueItem? ==> queueOwned && Ordered(expected.queue, ordered)
    {
      e := NoError;
      for i := 0 to |steps|
        invariant sent == steps[..i]
        invariant e == NoError && (i > 0 && steps[i - 1].QueueItem? ==> queueOwned && Ordered(expected.queue, ordered))
      {
        e := StartStep(steps[i], tries[i]);
        assert steps[..i + 1] == steps[..i] + [steps[i]];
        if e != NoError { return; }
      }
    }

    method StartStep(m: Mutation, attempts: seq<Attempt>) returns (e: Error)
      requires Tries(attempts) && !m.SkipTrack?
      modifies this`expected, this`checked, this`uncertain, this`unconfirmed, this`confirmed, this`queueOwned, this`sent
      ensures sent == old(sent) || sent == old(sent) + [m]
      ensures e == NoError ==> sent == old(sent) + [m]
      ensures e == NoError && m.QueueItem? ==> queueOwned && Ordered(expected.queue, ordered)
    {
      e := Write(m, attempts);
    }

    method AppendPart(item: ID, attempts: seq<Attempt>) returns (e: Error)
      requires Tries(attempts)
      modifies this`expected, this`checked, this`uncertain, this`unconfirmed, this`confirmed, this`queueOwned, this`sent
      ensures e != NoRoom && (sent == old(sent) || sent == old(sent) + [QueueItem(item, true)])
      ensures Unsent(e) ==> sent == old(sent) && QueueKept(old(expected), expected) && (old(queueOwned) ==> queueOwned)
      ensures e == NoError ==>
        sent == old(sent) + [QueueItem(item, true)] && Ordered(expected.queue, ordered) && queueOwned
    {
      e := Write(QueueItem(item, true), attempts);
    }

    /** Removes the first `n` entries, named by the queue IDs of the expected queue. */
    method RemovePrefix(n: nat, attempts: seq<Attempt>) returns (e: Error)
      requires n <= |expected.queue.items| && DistinctQueueIds(expected.queue.items)
      requires Tries(attempts)
      modifies this`expected, this`checked, this`uncertain, this`unconfirmed, this`confirmed, this`queueOwned, this`sent
      ensures e != NoRoom && |old(sent)| <= |sent| <= |old(sent)| + 1 && (old(queueOwned) ==> queueOwned)
      ensures Unsent(e) ==> sent == old(sent) && QueueKept(old(expected), expected)
      ensures e == NoError ==>
        |sent| == |old(sent)| + 1 && Ordered(expected.queue, ordered) && QueueKept(old(expected), checked)
      ensures e == NoError ==> policy.retainPrevious <= QueueIndex(expected) == QueueIndex(checked) - n
    {
      var items := expected.queue.items;
      var ids := seq(n, i requires 0 <= i < n => items[i].queueId);
      e := Write(RemoveItems(ids), attempts);
      if e == NoError { RemovableLeavesHistory(checked, ids, policy.retainPrevious); }
    }

    /** A confirmed append extends the window by exactly the next part; an unsent one leaves
        window and counts as they were. */
    method AppendNext(item: ID, attempts: seq<Attempt>, started: Time, journalOk: bool) returns (e: Error)
      requires Valid() && confirmedParts < |parts| && |ordered| + |parts[confirmedParts]| <= policy.maxQueueTracks
      requires Tries(attempts)
      modifies this
      ensures sent == old(sent) || sent == old(sent) + [QueueItem(item, true)]
      ensures Continues(e) ==> Valid() && pruned == old(pruned)
      ensures e == NoError ==>
        confirmedParts == old(confirmedParts) + 1 && ordered == old(ordered) + parts[old(confirmedParts)] &&
        |sent| == |old(sent)| + 1
      ensures e == TimelineChanged ==>
        sent == old(sent) && ordered == old(ordered) && confirmedParts == old(confirmedParts)
      ensures e != NoRoom
    {
      var previous := ordered;
      ordered := previous + parts[confirmedParts];
      e := AppendPart(item, attempts);
      if e == NoError {
        WindowGrows(parts, confirmedParts, pruned, previous);
        e := ConfirmPart(started, journalOk);
      } else {
        ordered := previous;
        if Unsent(e) { KeptOrdered(old(expected), expected, ordered); }
      }
    }

    method ShrinkWindow(n: nat, previous: seq<ID>, journalOk: bool) returns (e: Error)
      requires 0 < confirmedParts <= |parts| && queueOwned && Ordered(expected.queue, ordered)
      requires n < |previous| <= policy.maxQueueTracks
      requires Window(parts, confirmedParts, pruned, previous)
      requires confirmedTracks == |Flatten(parts[..confirmedParts])| && ordered == previous[n..]
      modifies this`pruned, this`progress
      ensures Valid() && pruned == old(pruned) + n
      ensures e == NoError || e == Ownership || e == JournalDown
    {
      WindowShrinks(parts, confirmedParts, pruned, previous, n);
      pruned := pruned + n;
      e := UpdateBufferedProgress();
      if e == NoError && !journalOk { e := JournalDown; }
    }

    /** A confirmed removal drops exactly that prefix from the window and keeps the absolute
        position of the occurrence that was playing when the removal was guarded. */
    method PruneBuffered(n: nat, attempts: seq<Attempt>, journalOk: bool) returns (e: Error)
      requires Valid() && 0 < n < |ordered| && Tries(attempts)
      modifies this
      ensures |sent| <= |old(sent)| + 1 && e != NoRoom
      ensures Continues(e) ==> Valid() && confirmedParts == old(confirmedParts)
      ensures e == NoError ==> pruned == old(pruned) + n && ordered == old(ordered)[n..] && |sent| == |old(sent)| + 1
      ensures e == NoError ==>
        QueueKept(old(expected), checked) && pruned + QueueIndex(expected) == old(pruned) + QueueIndex(checked)
      ensures e == NoError ==> QueueIndex(expected) >= policy.retainPrevious
      ensures e == TimelineChanged ==> sent == old(sent) && ordered == old(ordered) && pruned == old(pruned)
    {
      assert |Ids(expected.queue.items)| == |ordered|;
      var previous := ordered;
      ordered := previous[n..];
      e := RemovePrefix(n, attempts);
      if e == NoError {
        e := ShrinkWindow(n, previous, journalOk);
      } else {
        ordered := previous;
        if Unsent(e) { KeptOrdered(old(expected), expected, ordered); }
      }
    }

    /** One maintenance step: at most one command, never for want of room, and the window is
        conserved whenever the worker goes on. */
    method BufferedStep(
        cmd: Buffered.Command, now: Time, prepared: bool, item: ID, attempts: seq<Attempt>, started: Time,
        journalOk: bool)
      returns (acted: bool, e: Error)
      requires Valid() && Admitted(cmd) && Tries(attempts)
      modifies this
      ensures |sent| <= |old(sent)| + 1 && (!acted ==> sent == old(sent))
      ensures e != NoRoom
      ensures Continues(e) ==> Valid()
      ensures e == TimelineChanged ==>
        sent == old(sent) && ordered == old(ordered) && pruned == old(pruned) && confirmedParts == old(confirmedParts)
    {
      if confirmedParts >= |parts| { return false, NoError; }
      if expires.Some? && now >= expires.value { return false, SessionExpired; }
      if appendUntil.Some? && now >= appendUntil.value { return false, NoError; }
      var position := BufferedPosition(expected, ordered);
      if position.None? { return false, Ownership; }
      assert |Ids(expected.queue.items)| == |ordered|;
      var resident := |expected.queue.items|;
      if resident - position.value - 1 > policy.refillThreshold { return false, NoError; }
      if !prepared { return false, Unreadable; }
      var count := |parts[confirmedParts]|;
      CapacityNeverBlocks(policy, cmd, resident, position.value, confirmedParts);
      if resident + count > policy.maxQueueTracks {
        var remove := position.value - policy.retainPrevious;
        if remove <= 0 || resident - remove + count > policy.maxQueueTracks { assert false; return false, NoRoom; }
        e := PruneBuffered(remove, attempts, journalOk);
        return true, e;
      }
      e := AppendNext(item, attempts, started, journalOk);
      acted := true;
    }

    /** A read-only check: navigation inside the owned queue moves the position only. */
    method CheckOwnership(read: Observation, safe: bool, cancelled: bool) returns (e: Error)
      requires Valid() && SourcedRead(read)
      modifies this`expected
      ensures Valid() && QueueKept(old(expected), expected)
      ensures !Unsent(e) && e != NoRoom
    {
      if read.NotRead? { return if read.cancelled then Cancelled else Unreadable; }
      if !safe { return NotSafe; }
      if !OwnedSame(queueOwned, expected, read.s) { return Ownership; }
      Paging.CompletedExactly(read.s.queue);
      OwnedKeepsQueue(queueOwned, expected, read.s);
      KeptOrdered(expected, read.s, ordered);
      expected := read.s;
      e := if cancelled then Cancelled else NoError;
    }

    /** Navigation on behalf of a child request; the window is not touched by it. */
    method ServiceSkip(direction: string, ready: bool, attempts: seq<Attempt>) returns (e: Error)
      requires Valid() && Tries(attempts)
      modifies this
      ensures |sent| <= |old(sent)| + 1 && e != NoRoom
      ensures Continues(e) ==>
        Valid() && ordered == old(ordered) && pruned == old(pruned) && confirmedParts == old(confirmedParts)
      ensures e == TimelineChanged || e == NotSkippable ==> sent == old(sent)
    {
      if !ready { return JournalDown; }
      assert |Ids(expected.queue.items)| == |ordered|;
      e := Write(SkipTrack(direction), attempts);
      if Continues(e) { KeptOrdered(old(expected), expected, ordered); }
    }

    /** With no unread event pending: publish the position, then one maintenance step. */
    method Maintain(cmd: Buffered.Command, t: Turn, started: Time) returns (acted: bool, e: Error)
      requires Valid() && Admitted(cmd) && SourcedTurn(t)
      modifies this
      ensures |sent| <= |old(sent)| + 1 && e != NoRoom
      ensures e == NoError ==> Valid()
    {
      acted := false;
      e := UpdateBufferedProgress();
      if e != NoError { return; }
      if !t.persisted { return false, JournalDown; }
      acted, e := BufferedStep(cmd, t.stepAt, t.prepared, t.item, t.attempts, started, t.persisted);
      if Continues(e) { e := NoError; }
    }

    /** One turn of the loading loop, ending early where the loop would `continue`. */
    method LoadTurn(cmd: Buffered.Command, t: Turn, started: Time) returns (e: Error)
      requires Valid() && Admitted(cmd) && SourcedTurn(t)
      modifies this
      ensures |sent| <= |old(sent)| + 1 && e != NoRoom
      ensures e == NoError ==> Valid()
    {
      if t.cancelled { return Cancelled; }
      if expires.Some? && t.now >= expires.value { return SessionExpired; }
      if !t.journalOk { return JournalDown; }
      e := Serve(cmd, t, started);
    }

    /** A child's skip comes first; otherwise a due check and one maintenance step. */
    method Serve(cmd: Buffered.Command, t: Turn, started: Time) returns (e: Error)
      requires Valid() && Admitted(cmd) && SourcedTurn(t)
      modifies this
      ensures |sent| <= |old(sent)| + 1 && e != NoRoom
      ensures e == NoError ==> Valid()
    {
      if t.skip.Some? {
        e := ServiceSkip(t.skip.value, t.skipReady, t.attempts);
        if Continues(e) { e := NoError; }
        return;
      }
      e := NoError;
      if t.observe.Some? { e := CheckOwnership(t.observe.value, t.safe, t.revoked); }
      var acted := false;
      if e == NoError && !t.pending { acted, e := Maintain(cmd, t, started); }
      if e == NoError && !acted && !t.waitOk { e := Cancelled; }
    }

    /** The whole loading loop. However reads, navigation, failures and clocks interleave,
        the window is conserved at every turn the worker takes; it never fails for want of
        room; and it succeeds only when the whole manifest has passed through the queue. */
    method LoadBuffered(cmd: Buffered.Command, turns: seq<Turn>, started: Time) returns (e: Error)
      requires Valid() && Admitted(cmd) && forall i :: 0 <= i < |turns| ==> SourcedTurn(turns[i])
      modifies this
      ensures e != NoRoom && |sent| <= |old(sent)| + |turns|
      ensures e == NoError ==>
        Valid() && confirmedParts == |parts| && pruned <= |Flatten(parts)| &&
        Ids(expected.queue.items) == Flatten(parts)[pruned..]
    {
      for i := 0 to |turns|
        invariant Valid() && |sent| <= |old(sent)| + i
      {
        if confirmedParts >= |parts| { break; }
        e := LoadTurn(cmd, turns[i], started);
        if e != NoError { return; }
      }
      assert parts[..|parts|] == parts;
      e := if confirmedParts < |parts| then Cancelled else NoError;
    }

    // ---- Automation over the same window ----

    /** One turn of the automation loop: the level first, then the end of the envelope, a
        child's skip, or one maintenance step. */
    method AutomateTurn(cmd: Buffered.Command, t: EnvelopeTurn, started: Time) returns (finished: bool, e: Error)
      requires Valid() && Admitted(cmd) && SourcedEnvelope(t)
      modifies this
      ensures |sent| <= |old(sent)| + 2 && e != NoRoom
      ensures e == NoError ==> Valid()
    {
      finished := false;
      if t.rest.cancelled { return false, Cancelled; }
      if !t.rest.journalOk { return false, JournalDown; }
      if t.quiet.Some? {
        e := CheckOwnership(t.quiet.value, t.rest.safe, t.rest.revoked);
        return;
      }
      if !t.phaseOk { return false, JournalDown; }
      if t.level.Some? {
        e := KeepWindow(SetVolume(t.level.value), t.levelTries);
        if e == TimelineChanged { return false, NoError; }
        if e != NoError { return; }
        if !t.levelOk { return false, JournalDown; }
      }
      if t.stopping {
        e := KeepWindow(SetTransport(Stop), t.stopTries);
        finished := e == NoError;
        return;
      }
      e := Serve(cmd, t.rest, started);
    }

    /** A command that is not about the queue leaves the window alone. */
    method KeepWindow(m: Mutation, attempts: seq<Attempt>) returns (e: Error)
      requires Valid() && Tries(attempts) && !Loads(m)
      modifies this`expected, this`checked, this`uncertain, this`unconfirmed, this`confirmed, this`queueOwned, this`sent
      ensures |sent| <= |old(sent)| + 1 && e != NoRoom
      ensures Continues(e) ==> Valid()
      ensures Unsent(e) ==> sent == old(sent)
    {
      assert |Ids(expected.queue.items)| == |ordered|;
      e := Write(m, attempts);
      if Continues(e) { KeptOrdered(old(expected), expected, ordered); }
    }

    /** The whole automation of a buffered run: the window is conserved at every turn, and
        want of room is never the reason to end. */
    method AutomateBuffered(cmd: Buffered.Command, turns: seq<EnvelopeTurn>, started: Time)
      returns (finished: bool, e: Error)
      requires Valid() && Admitted(cmd) && forall i :: 0 <= i < |turns| ==> SourcedEnvelope(turns[i])
      modifies this
      ensures e != NoRoom && |sent| <= |old(sent)| + 2 * |turns|
      ensures e == NoError ==> Valid()
    {
      finished, e := false, NoError;
      var i := 0;
      while i < |turns| && !finished
        invariant 0 <= i <= |turns| && Valid() && e == NoError && |sent| <= |old(sent)| + 2 * i
      {
        finished, e := AutomateTurn(cmd, turns[i], started);
        i := i + 1;
        if e != NoError { return; }
      }
    }
  }
}
