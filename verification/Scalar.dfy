/** Confirmation of volume, mute and play-mode setters by notifications: which ones are
    attributed to the pending setter, when it has been seen, and what it then reports. */
module Scalar {
  import opened Heos

  /** The settings that notifications carry. */
  datatype Settings = Settings(volume: Option<int>, muted: Option<bool>, repeat: Repeat, shuffle: bool)

  function SettingsOf(s: Snapshot): Settings { Settings(s.volume, s.muted, s.repeat, s.shuffle) }

  datatype Pending = Pending(command: Mutation, observed: Settings, volumeSeen: bool, repeatSeen: bool,
                             shuffleSeen: bool)

  function NewPending(m: Mutation, before: Settings): Pending
    requires ScalarMutation(m)
  {
    match m
    case SetVolume(level) =>
      Pending(m, before, before.volume == Some(level) && before.muted == Some(false), false, false)
    case SetMute(muted) => Pending(m, before, before.muted == Some(muted), false, false)
    case SetMode(repeat, shuffle) => Pending(m, before, false, before.repeat == repeat, before.shuffle == shuffle)
  }

  predicate Ready(p: Pending) {
    if p.command.SetMode? then p.repeatSeen && p.shuffleSeen else p.volumeSeen
  }

  function Result(p: Pending, s: Snapshot): Snapshot {
    if p.command.SetMode? then s.(repeat := p.observed.repeat, shuffle := p.observed.shuffle, eventUpdated := true)
    else s.(volume := p.observed.volume, muted := p.observed.muted, eventUpdated := true)
  }

  predicate ConfirmedVolume(b: EventBody, s: Settings)
    requires b.VolumeChanged?
  {
    s.volume == Some(b.level) && s.muted == Some(b.muted)
  }

  /** The settings a volume notification is matched against, the second only when the old
      state was muted: setting a volume may clear the mute. */
  function Wanted(m: Mutation, expected: Settings, b: EventBody): Settings
    requires b.VolumeChanged? && (m.SetVolume? || m.SetMute?)
  {
    if m.SetMute? then expected.(muted := Some(m.muted))
    else
      var want := expected.(volume := Some(m.level));
      if !ConfirmedVolume(b, want) && expected.muted == Some(true) then want.(muted := Some(false)) else want
  }

  /** Attribution of one valid notification over the expected settings. */
  function Attribute(p: Option<Pending>, expected: Settings, b: EventBody): (bool, Option<Pending>) {
    match b
    case VolumeChanged(_, _) =>
      if p.None? || !(p.value.command.SetVolume? || p.value.command.SetMute?) then (ConfirmedVolume(b, expected), p)
      else
        var want := Wanted(p.value.command, expected, b);
        if !ConfirmedVolume(b, want) then (!p.value.volumeSeen && ConfirmedVolume(b, expected), p)
        else if p.value.volumeSeen && !ConfirmedVolume(b, p.value.observed) then (false, p)
        else
          var observed := p.value.observed.(volume := want.volume, muted := want.muted);
          (true, Some(p.value.(observed := observed, volumeSeen := true)))
    case RepeatChanged(repeat) =>
      if p.None? || !p.value.command.SetMode? then (repeat == expected.repeat, p)
      else if repeat != p.value.command.repeat then (!p.value.repeatSeen && repeat == expected.repeat, p)
      else (true, Some(p.value.(observed := p.value.observed.(repeat := repeat), repeatSeen := true)))
    case ShuffleChanged(shuffle) =>
      if p.None? || !p.value.command.SetMode? then (shuffle == expected.shuffle, p)
      else if shuffle != p.value.command.shuffle then (!p.value.shuffleSeen && shuffle == expected.shuffle, p)
      else (true, Some(p.value.(observed := p.value.observed.(shuffle := shuffle), shuffleSeen := true)))
    case _ => (false, p)
  }

  // ---- What the pending setter means ----

  /** Seen fields carry their targets, unseen ones the old values, the rest is untouched. */
  ghost predicate Tracks(p: Pending, expected: Settings) {
    ScalarMutation(p.command) &&
    (match p.command
     case SetVolume(level) =>
       (p.volumeSeen ==>
          p.observed.volume == Some(level) && p.observed.muted.Some? &&
          (p.observed.muted == expected.muted || (expected.muted == Some(true) && p.observed.muted == Some(false)))) &&
       (!p.volumeSeen ==> p.observed.volume == expected.volume && p.observed.muted == expected.muted)
     case SetMute(muted) =>
       p.observed.volume == expected.volume && p.observed.muted == if p.volumeSeen then Some(muted) else expected.muted
     case SetMode(repeat, shuffle) =>
       p.observed.repeat == (if p.repeatSeen then repeat else expected.repeat) &&
       p.observed.shuffle == (if p.shuffleSeen then shuffle else expected.shuffle)
     case _ => false) &&
    (p.command.SetMode? ==> p.observed.volume == expected.volume && p.observed.muted == expected.muted) &&
    (!p.command.SetMode? ==> p.observed.repeat == expected.repeat && p.observed.shuffle == expected.shuffle)
  }

  /** No notification un-sees a field or changes one already seen. */
  ghost predicate Forward(p: Pending, q: Pending) {
    p.command == q.command &&
    (p.volumeSeen ==> q.volumeSeen && q.observed.volume == p.observed.volume && q.observed.muted == p.observed.muted) &&
    (p.repeatSeen ==> q.repeatSeen && q.observed.repeat == p.observed.repeat) &&
    (p.shuffleSeen ==> q.shuffleSeen && q.observed.shuffle == p.observed.shuffle)
  }

  lemma NewTracks(m: Mutation, before: Settings)
    requires ScalarMutation(m)
    ensures Tracks(NewPending(m, before), before)
  {
  }

  lemma AttributeTracks(p: Pending, expected: Settings, b: EventBody)
    requires Tracks(p, expected)
    ensures var (ok, q) := Attribute(Some(p), expected, b); q.Some? && Tracks(q.value, expected) && Forward(p, q.value)
  {
  }

  /** What an accepted notification may carry: the old value of a field not yet seen, or
      the value the pending setter holds after it. */
  ghost predicate Carries(b: EventBody, s: Settings) {
    match b
    case VolumeChanged(_, _) => ConfirmedVolume(b, s)
    case RepeatChanged(repeat) => repeat == s.repeat
    case ShuffleChanged(shuffle) => shuffle == s.shuffle
    case _ => false
  }

  ghost predicate SeenFor(p: Pending, b: EventBody) {
    match b
    case VolumeChanged(_, _) => p.volumeSeen
    case RepeatChanged(_) => p.repeatSeen
    case ShuffleChanged(_) => p.shuffleSeen
    case _ => false
  }

  /** A field that reached its target accepts exactly the value it holds, nothing else; a
      field that did not accepts the old value or moves to its target. */
  lemma NoReversal(p: Pending, expected: Settings, b: EventBody)
    requires Tracks(p, expected)
    ensures var (ok, q) := Attribute(Some(p), expected, b);
            (SeenFor(p, b) ==> (ok <==> Carries(b, p.observed))) &&
            (ok ==> Carries(b, q.value.observed) || (!SeenFor(p, b) && Carries(b, expected)))
  {
  }

  // ---- Runs of notifications ----

  /** Attribution of a whole run; a notification that is not accepted ends it. */
  function Attributed(p: Pending, expected: Settings, events: seq<EventBody>): (bool, Pending)
    decreases events
  {
    if events == [] then (true, p)
    else
      var (ok, q) := Attribute(Some(p), expected, events[0]);
      if !ok || q.None? then (false, p) else Attributed(q.value, expected, events[1..])
  }

  lemma {:induction false} RunTracks(p: Pending, expected: Settings, events: seq<EventBody>)
    requires Tracks(p, expected)
    ensures var (ok, q) := Attributed(p, expected, events); Tracks(q, expected) && Forward(p, q)
    decreases events
  {
    if events != [] {
      AttributeTracks(p, expected, events[0]);
      var (ok, q) := Attribute(Some(p), expected, events[0]);
      if ok { RunTracks(q.value, expected, events[1..]); }
    }
  }

  /** The state the command asked for: only the requested fields differ from the state
      before it, except that a volume may also have cleared a mute. */
  ghost predicate Requested(m: Mutation, before: Snapshot, after: Snapshot)
    requires ScalarMutation(m)
  {
    RequestedSettings(m, SettingsOf(before), SettingsOf(after)) && OnlySettings(before, after)
  }

  ghost predicate RequestedSettings(m: Mutation, before: Settings, after: Settings)
    requires ScalarMutation(m)
  {
    match m
    case SetVolume(level) =>
      after == before.(volume := Some(level), muted := after.muted) &&
      (after.muted == before.muted || (before.muted == Some(true) && after.muted == Some(false)))
    case SetMute(muted) => after == before.(muted := Some(muted))
    case SetMode(repeat, shuffle) => after == before.(repeat := repeat, shuffle := shuffle)
  }

  ghost predicate OnlySettings(before: Snapshot, after: Snapshot) {
    var moved := before.(volume := after.volume, muted := after.muted,
                         repeat := after.repeat, shuffle := after.shuffle);
    SameState(moved, after)
  }

  /** The comparison the writer makes afterwards. */
  function Predicted(m: Mutation, latest: Snapshot, after: Snapshot): Snapshot {
    match m
    case SetMode(repeat, shuffle) => latest.(repeat := repeat, shuffle := shuffle)
    case SetVolume(level) =>
      latest.(volume := Some(level), muted := if latest.muted == Some(true) then after.muted else latest.muted)
    case SetMute(muted) => latest.(muted := Some(muted))
    case _ => latest
  }

  lemma RequestedPredicted(m: Mutation, before: Snapshot, after: Snapshot)
    requires ScalarMutation(m) && Requested(m, before, after)
    ensures SameState(Predicted(m, before, after), after)
  {
  }

  lemma ReadyResult(p: Pending, before: Snapshot)
    requires Tracks(p, SettingsOf(before)) && Ready(p)
    ensures Requested(p.command, before, Result(p, before)) && Result(p, before).token == before.token
    ensures SameState(Predicted(p.command, before, Result(p, before)), Result(p, before))
  {
  }

  /** After any accepted run of notifications, a ready setter reports the expected state
      with only its requested fields changed, and the writer's comparison of that report
      passes: nothing the setter itself did can look like an intervention. */
  lemma ReadyMeansRequested(m: Mutation, before: Snapshot, events: seq<EventBody>)
    requires ScalarMutation(m)
    ensures var (ok, p) := Attributed(NewPending(m, SettingsOf(before)), SettingsOf(before), events);
            var r := Result(p, before);
            Ready(p) ==> Requested(m, before, r) && SameState(Predicted(m, before, r), r)
  {
    NewTracks(m, SettingsOf(before));
    RunTracks(NewPending(m, SettingsOf(before)), SettingsOf(before), events);
    var (ok, p) := Attributed(NewPending(m, SettingsOf(before)), SettingsOf(before), events);
    if Ready(p) { ReadyResult(p, before); }
  }

  // ---- The confirming loop ----

  const TIMEOUT: Time := 12 * SECOND

  /** One turn of the wait: notifications that arrive before it looks, then its clock. */
  datatype Turn = Turn(events: seq<EventBody>, now: Time, cancelled: bool, published: bool, alive: bool)

  /** The targeted read of the last second. */
  datatype Fallback = NoReader | ReadFailed | Values(now: Time, s: Snapshot, cancelled: bool)

  datatype Confirmation = Done(s: Snapshot) | Error

  function Limit(m: Mutation, start: Time, playbackUntil: Option<Time>): (Time, Time) {
    var finishing := m == SetVolume(0) && playbackUntil.Some? && start >= playbackUntil.value;
    if !finishing && playbackUntil.Some? &&
       playbackUntil.value < start + TIMEOUT then (playbackUntil.value, playbackUntil.value)
    else (start + TIMEOUT, start + TIMEOUT - SECOND)
  }

  predicate ValuesMatch(m: Mutation, expected: Snapshot, s: Snapshot)
    requires ScalarMutation(m)
  {
    match m
    case SetMode(repeat, shuffle) => s.repeat == repeat && s.shuffle == shuffle
    case SetVolume(level) =>
      s.volume == Some(level) && s.muted.Some? && (expected.muted == Some(true) || s.muted == expected.muted)
    case SetMute(muted) => s.volume.Some? && s.volume == expected.volume && s.muted == Some(muted)
  }

  /** Matching values of the targeted read report the requested state as well. */
  lemma ValuesRequested(p: Pending, expected: Snapshot, s: Snapshot)
    requires ScalarMutation(p.command) && ValuesMatch(p.command, expected, s) && expected.muted.Some?
    ensures var r := Result(p.(observed := SettingsOf(s)), expected).(token := s.token);
            Requested(p.command, expected, r)
  {
    match p.command
    case SetVolume(level) => assert s.muted == if s.muted.value then Some(true) else Some(false);
    case _ =>
  }

  /** The pending setter under the operation's mutex. */
  class Setter {
    const expected: Snapshot
    var pending: Pending

    constructor (m: Mutation, before: Snapshot)
      requires ScalarMutation(m)
      ensures expected == before && pending == NewPending(m, SettingsOf(before))
    {
      expected := before;
      pending := NewPending(m, SettingsOf(before));
    }

    /** A notification is accepted only if it carries what the field already holds, its old
        value before it was seen, or its target; what was seen is never taken back. */
    method AcceptScalarEvent(b: EventBody) returns (accepted: bool)
      requires Tracks(pending, SettingsOf(expected))
      modifies this
      ensures (accepted, Some(pending)) == Attribute(Some(old(pending)), SettingsOf(expected), b)
      ensures Tracks(pending, SettingsOf(expected)) && Forward(old(pending), pending)
      ensures SeenFor(old(pending), b) ==> (accepted <==> Carries(b, old(pending).observed))
      ensures accepted ==>
        Carries(b, pending.observed) || (!SeenFor(old(pending), b) && Carries(b, SettingsOf(expected)))
    {
      AttributeTracks(pending, SettingsOf(expected), b);
      NoReversal(pending, SettingsOf(expected), b);
      accepted := true;
      match b {
        case VolumeChanged(level, muted) =>
          if pending.command.SetMode? { return expected.volume == Some(level) && expected.muted == Some(muted); }
          var volume, mute := expected.volume, expected.muted;
          if pending.command.SetVolume? {
            volume := Some(pending.command.level);
          } else {
            mute := Some(pending.command.muted);
          }
          var matches := volume == Some(level) && mute == Some(muted);
          if !matches && pending.command.SetVolume? && expected.muted == Some(true) {
            mute := Some(false);
            matches := volume == Some(level) && mute == Some(muted);
          }
          if !matches { return !pending.volumeSeen && expected.volume == Some(level) && expected.muted == Some(muted); }
          if pending.volumeSeen && !(pending.observed.volume == Some(level) && pending.observed.muted == Some(muted)) {
            return false;
          }
          pending := pending.(observed := pending.observed.(volume := volume, muted := mute), volumeSeen := true);
        case RepeatChanged(repeat) =>
          if !pending.command.SetMode? { return repeat == expected.repeat; }
          if repeat != pending.command.repeat { return !pending.repeatSeen && repeat == expected.repeat; }
          pending := pending.(observed := pending.observed.(repeat := repeat), repeatSeen := true);
        case ShuffleChanged(shuffle) =>
          if !pending.command.SetMode? { return shuffle == expected.shuffle; }
          if shuffle != pending.command.shuffle { return !pending.shuffleSeen && shuffle == expected.shuffle; }
          pending := pending.(observed := pending.observed.(shuffle := shuffle), shuffleSeen := true);
        case _ => accepted := false;
      }
    }

    /** Success is only ever the requested state, found in time and uncancelled. */
    method ConfirmScalar(start: Time, playbackUntil: Option<Time>, turns: seq<Turn>, fallback: Fallback)
      returns (r: Confirmation)
      requires Tracks(pending, SettingsOf(expected)) && expected.muted.Some?
      modifies this
      ensures pending.command == old(pending).command && ScalarMutation(pending.command)
      ensures r.Done? ==> Requested(pending.command, expected, r.s)
      ensures r.Done? ==>
        SameState(Predicted(pending.command, expected, r.s), r.s) && r.s.token.generation == expected.token.generation
      ensures r.Done? ==>
        var limit := Limit(pending.command, start, playbackUntil).0;
        (exists k :: 0 <= k < |turns| && turns[k].now < limit && !turns[k].cancelled) ||
        (fallback.Values? && fallback.now < limit && !fallback.cancelled)
    {
      var (deadline, fallbackAt) := Limit(pending.command, start, playbackUntil);
      var cancelled := false;
      var i := 0;
      while true
        invariant 0 <= i <= |turns|
        invariant Tracks(pending, SettingsOf(expected)) && pending.command == old(pending).command
        decreases |turns| - i
      {
        if i == |turns| { return Error; }
        var turn := turns[i];
        i := i + 1;
        for j := 0 to |turn.events|
          invariant Tracks(pending, SettingsOf(expected)) && pending.command == old(pending).command
        {
          var accepted := AcceptScalarEvent(turn.events[j]);
          if !accepted { cancelled := true; }
        }
        if cancelled || turn.cancelled { return Error; }
        if turn.now >= deadline { return Error; }
        if Ready(pending) {
          if !turn.published { return Error; }
          ReadyResult(pending, expected);
          return Done(Result(pending, expected));
        }
        if !turn.alive { return Error; }
        if turn.now >= fallbackAt { break; }
      }
      if !fallback.Values? || fallback.cancelled || fallback.now >= deadline { return Error; }
      var s := fallback.s;
      if s.stale || !s.connected || s.token.generation != expected.token.generation { return Error; }
      if !ValuesMatch(pending.command, expected, s) { return Error; }
      ValuesRequested(pending, expected, s);
      pending := pending.(observed := SettingsOf(s));
      r := Done(Result(pending, expected).(token := s.token));
      RequestedPredicted(pending.command, expected, r.s);
    }
  }
}
