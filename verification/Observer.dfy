/** The event-maintained observer: its mutex-protected sections as functions of its
    state, the client view they read, and the clock. */
module Observer {
  import opened Heos
  import C = Client

  /** Fields a setter changed and no evidence has confirmed yet. Volume includes mute. */
  datatype Fields = Fields(volume: bool, repeat: bool, shuffle: bool, other: bool) {
    function Minus(f: Fields): Fields {
      Fields(volume && !f.volume, repeat && !f.repeat, shuffle && !f.shuffle, other && !f.other)
    }
    function Plus(f: Fields): Fields {
      Fields(volume || f.volume, repeat || f.repeat, shuffle || f.shuffle, other || f.other)
    }
  }

  const NO_FIELDS := Fields(false, false, false, false)
  const VOLUME_FIELDS := Fields(true, false, false, false)
  const MODE_FIELDS := Fields(false, true, true, false)

  datatype State = State(last: Snapshot, invalid: bool, mediaPending: bool, writePending: Fields)

  /** Immutable settings of one observer. */
  datatype Config = Config(serial: string, ttl: Time)

  predicate CoveredEvent(event: Token, snapshot: Token) {
    if event.generation != snapshot.generation then event.generation < snapshot.generation
    else if event.revision != snapshot.revision then event.revision < snapshot.revision
    else event.catalog == snapshot.catalog && event.player <= snapshot.player && event.write <= snapshot.write
  }

  function ChangedWriteFields(repeat: Repeat, shuffle: bool, m: Mutation): Fields {
    match m
    case SetVolume(_) => VOLUME_FIELDS
    case SetMute(_) => VOLUME_FIELDS
    case SetMode(r, s) => Fields(false, repeat != r, shuffle != s, false)
    case _ => Fields(false, false, false, true)
  }

  function ScalarFields(m: Mutation): Fields {
    match m
    case SetVolume(_) => VOLUME_FIELDS
    case SetMute(_) => VOLUME_FIELDS
    case SetMode(_, _) => MODE_FIELDS
    case _ => NO_FIELDS
  }

  function EventFields(b: EventBody): Fields {
    match b
    case VolumeChanged(_, _) => VOLUME_FIELDS
    case RepeatChanged(_) => Fields(false, true, false, false)
    case ShuffleChanged(_) => Fields(false, false, true, false)
    case _ => NO_FIELDS
  }

  /** Complete events of these kinds maintain the projection; any other needs a full read. */
  predicate Applicable(e: Event) {
    e.valid && (e.body.StateChanged? || e.body.VolumeChanged? || e.body.RepeatChanged? || e.body.ShuffleChanged? ||
                e.body.NowPlayingChanged?)
  }

  /** An applicable event replaces exactly the fields it carries. */
  function ApplyObservedEvent(s: Snapshot, body: EventBody): Snapshot {
    match body
    case StateChanged(state) => s.(state := state)
    case VolumeChanged(level, muted) => s.(volume := Some(level), muted := Some(muted))
    case RepeatChanged(repeat) => s.(repeat := repeat)
    case ShuffleChanged(shuffle) => s.(shuffle := shuffle)
    case _ => s
  }

  predicate InTime(s: Snapshot, now: Time, cfg: Config) {
    0 <= now - s.observedAt < cfg.ttl
  }

  predicate ProjectionBaselineValid(o: State, now: Time, cfg: Config) {
    !o.invalid && InTime(o.last, now, cfg) && o.last.player.id != "" && o.last.player.serial == cfg.serial
  }

  predicate ScalarBaselineValid(o: State, now: Time, cfg: Config) {
    !o.mediaPending && ProjectionBaselineValid(o, now, cfg)
  }

  /** The event directly after the snapshot in an unbroken history. */
  predicate Continuous(o: State, e: Event, view: View, write: C.PlayerWrite, now: Time, cfg: Config) {
    var s := o.last;
    !e.gap && !o.invalid && view.connected && SameGlobal(view.token, s.token) && SameGlobal(e.token, s.token) &&
    e.token.player == s.token.player + 1 && e.player == s.player.id && e.valid && InTime(s, now, cfg) &&
    (e.token.write != s.token.write ==> e.token.write == s.token.write + 1 && write.revision == e.token.write)
  }

  predicate Irrelevant(o: State, e: Event) {
    !e.gap && ((e.body.Progress? && e.valid) || CoveredEvent(e.token, o.last.token) ||
               (SameGlobal(e.token, o.last.token) && e.player != "" && e.player != o.last.player.id))
  }

  function Notified(o: State, e: Event, view: View, write: C.PlayerWrite, now: Time, cfg: Config): State {
    if Irrelevant(o, e) then o
    else
      var continuous := Continuous(o, e, view, write, now, cfg);
      var pending := if continuous && e.token.write != o.last.token.write
                     then ChangedWriteFields(o.last.repeat, o.last.shuffle, write.mutation)
                     else o.writePending;
      if continuous && Applicable(e) then
        State(ApplyObservedEvent(o.last, e.body).(token := e.token, eventUpdated := true), false,
              o.mediaPending || e.body.NowPlayingChanged?, pending.Minus(EventFields(e.body)))
      else o.(invalid := true, writePending := pending)
  }

  /** What a caller sees. */
  function Seen(o: State, view: View, now: Time, cfg: Config): Snapshot {
    var stale := o.invalid || o.mediaPending || o.writePending != NO_FIELDS || !view.connected ||
                 view.token != o.last.token || !InTime(o.last, now, cfg);
    o.last.(connected := view.connected, stale := stale,
            verified := !stale && o.last.player.serial == cfg.serial)
  }

  /** A complete read replaces the snapshot, provided nothing moved while it ran. */
  function FullCommitted(o: State, s: Snapshot, view: View): State {
    if s.queue.token != s.token || view.token != s.token || !view.connected then o
    else State(s, false, false, NO_FIELDS)
  }

  predicate ScalarReadAllowed(o: State, fields: Fields, view: View, write: C.PlayerWrite, now: Time, cfg: Config) {
    var s := o.last;
    fields != NO_FIELDS && ScalarBaselineValid(o, now, cfg) && view.connected && SameGlobal(view.token, s.token) &&
    view.token.player == s.token.player && s.token.write <= view.token.write <= s.token.write + 1 &&
    o.writePending.Minus(fields) == NO_FIELDS &&
    (view.token.write != s.token.write ==> write.revision == view.token.write && ScalarFields(write.mutation) == fields)
  }

  /** `s` was captured before the read with token `before`, then given the view's token
      and the values read. */
  function ScalarsCommitted(
      o: State, fields: Fields, before: Token, s: Snapshot, view: View, now: Time, cfg: Config): State {
    if !ScalarBaselineValid(o, now, cfg) || o.last.token != before || !view.connected || view.token != s.token then o
    else o.(last := s.(eventUpdated := true), writePending := o.writePending.Minus(fields))
  }

  predicate PlaybackReadAllowed(o: State, view: View, now: Time, cfg: Config) {
    ProjectionBaselineValid(o, now, cfg) && o.writePending == NO_FIELDS && view.connected && view.token == o.last.token
  }

  function PlaybackCommitted(o: State, s: Snapshot, view: View, now: Time, cfg: Config): State {
    if !ProjectionBaselineValid(o, now, cfg) || o.writePending != NO_FIELDS || o.last.token != s.token ||
       !view.connected || view.token != s.token then o
    else o.(last := s.(eventUpdated := true), mediaPending := false)
  }

  function MediaCommitted(o: State, s: Snapshot, view: View): State {
    if o.invalid || o.last.token != s.token || view.token != s.token || !view.connected then o.(invalid := true)
    else o.(last := s.(eventUpdated := true), mediaPending := false)
  }

  predicate ConfirmAllowed(o: State, s: Snapshot, view: View, write: C.PlayerWrite, now: Time, cfg: Config) {
    ScalarBaselineValid(o, now, cfg) && view.connected && view.token == s.token &&
    SameGlobal(o.last.token, s.token) && s.player.id == o.last.player.id && s.player.serial == o.last.player.serial &&
    o.last.observedAt <= s.observedAt && !o.writePending.other &&
    (o.last.token.write != s.token.write ==>
       write.revision == s.token.write && ScalarFields(write.mutation) != NO_FIELDS) &&
    s.volume.Some? && 0 <= s.volume.value <= 100 && s.muted.Some? && s.repeat.Known()
  }

  function Confirmed(o: State, s: Snapshot, view: View, write: C.PlayerWrite, now: Time, cfg: Config): State {
    if !ConfirmAllowed(o, s, view, write, now, cfg) then o
    else o.(last := o.last.(volume := s.volume, muted := s.muted, repeat := s.repeat, shuffle := s.shuffle,
                            token := s.token, eventUpdated := true),
            writePending := NO_FIELDS)
  }

  // ---- What two of these rules do not promise ----

  function Example(token: Token): Snapshot {
    Snapshot(RepeatOff, false, Player("p", "", "", "serial", "", ""), false, Play, Some(10), Some(false), None,
             QueuePage([], None, None, token), 0, token, false, true, true, false)
  }

  const AT0 := Token(1, 1, 1, 0, 0)

  /** A confirmation published over an unconsumed Stop presents Play as current, and the
      Stop is then skipped as covered: the play state is not among the fields transferred. */
  lemma ConfirmCanHideStop()
    ensures var cfg, o := Config("serial", 10), State(Example(AT0), false, false, NO_FIELDS);
            var t, stop := AT0.(player := 1), Event(StateChanged(Stop), "p", true, false, AT0.(player := 1));
            var view, write := View(t, true), C.PlayerWrite(0, SetVolume(0));
            ConfirmAllowed(o, Example(t), view, write, 0, cfg) &&
            var o' := Confirmed(o, Example(t), view, write, 0, cfg);
            !Seen(o', view, 0, cfg).stale && Seen(o', view, 0, cfg).state == Play &&
            Notified(o', stop, view, write, 0, cfg) == o'
  {
  }

  /** A new setter's fields replace an older setter's debts instead of joining them. Nothing
      is forgotten exactly when whatever was owed is owed again or settled by this event. */
  lemma SetterDebtsKeptExactly(o: State, e: Event, view: View, write: C.PlayerWrite, now: Time, cfg: Config)
    requires !Irrelevant(o, e) && Continuous(o, e, view, write, now, cfg) && Applicable(e)
    requires e.token.write != o.last.token.write
    ensures var added := ChangedWriteFields(o.last.repeat, o.last.shuffle, write.mutation);
            var owed := o.writePending.Plus(added).Minus(EventFields(e.body));
            Notified(o, e, view, write, now, cfg).writePending == owed <==>
            o.writePending.Minus(added).Minus(EventFields(e.body)) == NO_FIELDS
  {
  }

  /** So a second setter's confirmation presents a repeat mode that is still owed one. */
  lemma SecondSetterForgetsFirst(o: State, e: Event, view: View, write: C.PlayerWrite, now: Time, cfg: Config)
    requires !Irrelevant(o, e) && Continuous(o, e, view, write, now, cfg) && Applicable(e) && !o.mediaPending
    requires e.token.write != o.last.token.write && e.body.VolumeChanged? && write.mutation.SetVolume?
    requires view.token == e.token
    requires o.writePending == Fields(false, true, false, false)
    ensures var o' := Notified(o, e, view, write, now, cfg);
            !Seen(o', view, now, cfg).stale && o'.last.repeat == o.last.repeat
  {
  }

  /** The observer's fields, changed in place under its mutex. */
  class Cell {
    const cfg: Config
    var last: Snapshot
    var invalid: bool
    var mediaPending: bool
    var writePending: Fields

    ghost function Now(): State reads this { State(last, invalid, mediaPending, writePending) }

    constructor (cfg: Config, empty: Snapshot)
      ensures this.cfg == cfg && Now() == State(empty, true, false, NO_FIELDS)
    {
      this.cfg := cfg;
      last, invalid, mediaPending, writePending := empty, true, false, NO_FIELDS;
    }

    method Notify(e: Event, view: View, write: C.PlayerWrite, now: Time)
      modifies this
      ensures Now() == Notified(old(Now()), e, view, write, now, cfg)
    {
      if !e.gap && e.body.Progress? && e.valid { return; }
      if !e.gap && CoveredEvent(e.token, last.token) { return; }
      if !e.gap && SameGlobal(e.token, last.token) && e.player != "" && e.player != last.player.id { return; }
      var age := now - last.observedAt;
      var continuous := !e.gap && !invalid && view.connected && SameGlobal(view.token, last.token) &&
        SameGlobal(e.token, last.token) && e.token.player == last.token.player + 1 &&
        e.player == last.player.id && e.valid && 0 <= age < cfg.ttl;
      if continuous && e.token.write != last.token.write {
        continuous := e.token.write == last.token.write + 1 && write.revision == e.token.write;
        if continuous {
          writePending := ChangedWriteFields(last.repeat, last.shuffle, write.mutation);
        }
      }
      if continuous && Applicable(e) {
        last := ApplyObservedEvent(last, e.body).(token := e.token, eventUpdated := true);
        writePending := writePending.Minus(EventFields(e.body));
        if e.body.NowPlayingChanged? {
          mediaPending := true;
        }
        return;
      }
      invalid := true;
    }

    method Read(view: View, now: Time) returns (s: Snapshot)
      ensures s == Seen(Now(), view, now, cfg)
    {
      var age := now - last.observedAt;
      s := last;
      s := s.(connected := view.connected);
      s := s.(stale := invalid || mediaPending || writePending != NO_FIELDS || !view.connected ||
                       view.token != s.token || age < 0 || age >= cfg.ttl);
      s := s.(verified := !s.stale && s.player.serial == cfg.serial);
    }

    method BeginFull()
      modifies this
      ensures Now() == old(Now()).(invalid := true)
    {
      invalid := true;
    }

    method CommitFull(s: Snapshot, view: View) returns (ok: bool)
      modifies this
      ensures Now() == FullCommitted(old(Now()), s, view)
      ensures ok <==> s.queue.token == s.token == view.token && view.connected
    {
      ok := s.queue.token == s.token && view.token == s.token && view.connected;
      if ok {
        last, invalid, mediaPending, writePending := s, false, false, NO_FIELDS;
      }
    }

    /** Which targeted read may start, and over which captured snapshot. */
    method BeginScalars(fields: Fields, view: View, write: C.PlayerWrite, now: Time)
      returns (captured: Option<Snapshot>)
      ensures captured == if ScalarReadAllowed(Now(), fields, view, write, now, cfg) then Some(last) else None
    {
      if fields == NO_FIELDS { return None; }
      var valid := ScalarBaselineValid(State(last, invalid, mediaPending, writePending), now, cfg) && view.connected;
      valid := valid && SameGlobal(view.token, last.token) && view.token.player == last.token.player &&
        last.token.write <= view.token.write <= last.token.write + 1 && writePending.Minus(fields) == NO_FIELDS;
      if valid && view.token.write != last.token.write {
        valid := write.revision == view.token.write && ScalarFields(write.mutation) == fields;
      }
      captured := if valid then Some(last) else None;
    }

    method BeginPlayback(view: View, now: Time) returns (captured: Option<Snapshot>)
      ensures captured == if PlaybackReadAllowed(Now(), view, now, cfg) then Some(last) else None
    {
      var valid := ProjectionBaselineValid(State(last, invalid, mediaPending, writePending), now, cfg);
      valid := valid && writePending == NO_FIELDS && view.connected && view.token == last.token;
      captured := if valid then Some(last) else None;
    }

    /** Every reply of a read must carry the token it was begun at. */
    method AllAtToken(replies: seq<Token>, t: Token) returns (ok: bool)
      ensures ok <==> forall i :: 0 <= i < |replies| ==> replies[i] == t
    {
      for i := 0 to |replies|
        invariant forall j :: 0 <= j < i ==> replies[j] == t
      {
        if replies[i] != t { return false; }
      }
      return true;
    }

    /** Installed only if every reply and the client are still at the token of the values and
        the cache is still at the captured one; otherwise nothing changes. */
    method CommitScalars(fields: Fields, before: Token, s: Snapshot, replies: seq<Token>, view: View, now: Time)
      returns (ok: bool)
      modifies this
      ensures ok ==>
        (forall i :: 0 <= i < |replies| ==> replies[i] == s.token) && old(last).token == before && view.token == s.token
      ensures if forall i :: 0 <= i < |replies| ==> replies[i] == s.token
              then Now() == ScalarsCommitted(old(Now()), fields, before, s, view, now, cfg) else unchanged(this)
      ensures !ok ==> unchanged(this)
    {
      ok := AllAtToken(replies, s.token);
      ok := ok && ScalarBaselineValid(State(last, invalid, mediaPending, writePending), now, cfg) &&
            last.token == before && view.connected && view.token == s.token;
      if ok {
        last := s.(eventUpdated := true);
        writePending := writePending.Minus(fields);
      }
    }

    method CommitPlayback(s: Snapshot, replies: seq<Token>, view: View, now: Time) returns (ok: bool)
      modifies this
      ensures ok ==>
        (forall i :: 0 <= i < |replies| ==> replies[i] == s.token) && old(last).token == s.token == view.token
      ensures if forall i :: 0 <= i < |replies| ==> replies[i] == s.token
              then Now() == PlaybackCommitted(old(Now()), s, view, now, cfg) else unchanged(this)
      ensures !ok ==> unchanged(this)
    {
      ok := AllAtToken(replies, s.token);
      ok := ok && ProjectionBaselineValid(State(last, invalid, mediaPending, writePending), now, cfg) &&
            writePending == NO_FIELDS && last.token == s.token && view.connected && view.token == s.token;
      if ok {
        last := s.(eventUpdated := true);
        mediaPending := false;
      }
    }

    method CommitMedia(s: Snapshot, reply: Token, view: View) returns (ok: bool)
      modifies this
      ensures Now() == if reply == s.token then MediaCommitted(old(Now()), s, view) else old(Now()).(invalid := true)
      ensures !ok ==> invalid
    {
      ok := !invalid && last.token == s.token && reply == s.token && view.token == s.token && view.connected;
      if ok {
        last := s.(eventUpdated := true);
        mediaPending := false;
      } else {
        invalid := true;
      }
    }

    method ConfirmScalars(s: Snapshot, view: View, write: C.PlayerWrite, now: Time) returns (ok: bool)
      modifies this
      ensures Now() == Confirmed(old(Now()), s, view, write, now, cfg)
      ensures ok <==> ConfirmAllowed(old(Now()), s, view, write, now, cfg)
    {
      ok := ConfirmAllowed(State(last, invalid, mediaPending, writePending), s, view, write, now, cfg);
      if ok {
        last := last.(volume := s.volume, muted := s.muted);
        last := last.(repeat := s.repeat, shuffle := s.shuffle);
        last := last.(token := s.token, eventUpdated := true);
        writePending := NO_FIELDS;
      }
    }
  }
}
