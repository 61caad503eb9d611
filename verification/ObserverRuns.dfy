/** Every interleaving of the client, the asynchronous event consumer and the readers:
    a snapshot that is not stale equals a plain replay of the evidence since the last
    complete read. */
module ObserverRuns {
  import opened Heos
  import C = Client
  import O = Observer

  // ---- The reference: what the evidence says, with no tokens and no cache ----

  datatype Evidence =
    | Ev(event: Event)
    | Wr(revision: nat, mutation: Mutation)
    | VolumeRead(level: int, muted: bool)
    | ModeRead(repeat: Repeat, shuffle: bool)
    | PlaybackRead(state: PlayState)
    | MediaRead
    | Acknowledged   // a published confirmation: the reply settles what is still owed

  /** `mediaDue`: the current media is announced but unread. `broken`: a queue edit or an
      incomplete event was seen. `due`: fields a setter changed that nothing confirmed. */
  datatype Projection = Projection(state: PlayState, volume: Option<int>, muted: Option<bool>, repeat: Repeat,
                                   shuffle: bool, mediaDue: bool, broken: bool, due: O.Fields)

  function AbsorbEvent(p: Projection, body: EventBody, valid: bool): Projection {
    if !valid then p.(broken := true)
    else match body
      case StateChanged(s) => p.(state := s)
      case VolumeChanged(l, m) => p.(volume := Some(l), muted := Some(m))
      case RepeatChanged(r) => p.(repeat := r)
      case ShuffleChanged(b) => p.(shuffle := b)
      case NowPlayingChanged => p.(mediaDue := true)
      case _ => p.(broken := true)
  }

  function Absorb(p: Projection, v: Evidence): Projection {
    match v
    case Ev(e) => AbsorbEvent(p, e.body, e.valid).(due := p.due.Minus(O.EventFields(e.body)))
    case Wr(_, m) => p.(due := p.due.Plus(O.ChangedWriteFields(p.repeat, p.shuffle, m)))
    case VolumeRead(l, m) => p.(volume := Some(l), muted := Some(m), due := p.due.Minus(O.VOLUME_FIELDS))
    case ModeRead(r, s) => p.(repeat := r, shuffle := s, due := p.due.Minus(O.MODE_FIELDS))
    case PlaybackRead(s) => p.(state := s, mediaDue := false)
    case MediaRead => p.(mediaDue := false)
    case Acknowledged => p.(due := O.NO_FIELDS)
  }

  function Replay(p: Projection, log: seq<Evidence>): Projection
    decreases log
  {
    if log == [] then p else Replay(Absorb(p, log[0]), log[1..])
  }

  lemma {:induction false} ReplayConcat(p: Projection, a: seq<Evidence>, b: seq<Evidence>)
    ensures Replay(p, a + b) == Replay(Replay(p, a), b)
    decreases a
  {
    if a == [] {
      assert a + b == b;
    } else {
      assert (a + b)[1..] == a[1..] + b;
      ReplayConcat(Absorb(p, a[0]), a[1..], b);
    }
  }

  lemma {:induction false} ReplayOne(p: Projection, a: seq<Evidence>, v: Evidence)
    ensures Replay(p, a + [v]) == Absorb(Replay(p, a), v)
  {
    ReplayConcat(p, a, [v]);
    assert [v][1..] == [];
  }

  // ---- The system ----

  /** Reads hold the observation gate, so at most one is in flight. */
  datatype Reading =
    | FullReading(pid: ID, token: Token)
    | ScalarReading(fields: O.Fields, captured: Snapshot, token: Token, write: C.PlayerWrite)
    | PlaybackReading(captured: Snapshot)
    | MediaReading(captured: Snapshot)

  /** `base` is the last complete read. `done + pending` is all evidence about that player
      since, in the order the client stamped it; `pending` is what the observer has not
      taken in yet. `baseToken` is the token of that read. `disciplined`: no setter was sent
      while an earlier one was unconfirmed. */
  datatype World = World(client: C.State, obs: O.State, reading: Option<Reading>, minted: set<Event>, base: Projection,
                         baseToken: Token, done: seq<Evidence>, pending: seq<Evidence>, disciplined: bool) {
    function Log(): seq<Evidence> { done + pending }
    function Pid(): ID { obs.last.player.id }
    function View(): View { C.PlayerView(client, Pid()) }
    function Write(): C.PlayerWrite {
      if Pid() in client.writes then client.writes[Pid()] else C.PlayerWrite(0, SetVolume(0))
    }
  }

  datatype Step =
    | ClientMoves(step: C.Step)
    | Delivers(event: Event)
    | BeginsFull(pid: ID)
    | CommitsFull(s: Snapshot)
    | BeginsScalars(volume: bool)
    | CommitsVolume(level: int, muted: bool)
    | CommitsMode(repeat: Repeat, shuffle: bool)
    | BeginsPlayback
    | CommitsPlayback(state: PlayState, media: Option<Media>)
    | BeginsMedia
    | CommitsMedia(media: Option<Media>)
    | AbandonsRead(invalidate: bool)
    | Confirms(s: Snapshot)

  function Moved(w: World, step: C.Step): World {
    var client := C.Apply(w.client, step);
    match step
    case Arrive(body, pid, valid) =>
      var e := Event(body, pid, valid, false, C.Stamp(w.client, body, pid, valid));
      var v := w.(client := client, minted := w.minted + {e});
      if PlayerKind(body) && pid != "" && pid == w.Pid() then v.(pending := w.pending + [Ev(e)]) else v
    case StampWrite(pid, m) =>
      if pid == w.Pid() then
        w.(client := client, pending := w.pending + [Wr(C.WriteCount(w.client, pid) + 1, m)],
           disciplined := w.disciplined && Replay(w.base, w.Log()).due == O.NO_FIELDS)
      else w.(client := client)
    case _ => w.(client := client)
  }

  function WritesAhead(pending: seq<Evidence>): nat {
    if pending != [] && pending[0].Wr? then 1 + WritesAhead(pending[1..]) else 0
  }

  function Absorbed(w: World, n: nat): World
    requires n <= |w.pending|
  {
    w.(done := w.done + w.pending[..n], pending := w.pending[n..])
  }

  function Delivered(w: World, e: Event, now: Time, cfg: O.Config): World {
    var obs := O.Notified(w.obs, e, w.View(), w.Write(), now, cfg);
    var taken := WritesAhead(w.pending) + 1;
    if !obs.invalid && obs != w.obs && taken <= |w.pending| then Absorbed(w, taken).(obs := obs) else w.(obs := obs)
  }

  function Values(s: Snapshot): Projection {
    Projection(s.state, s.volume, s.muted, s.repeat, s.shuffle, false, false, O.NO_FIELDS)
  }

  function FullDone(w: World, s: Snapshot): World {
    var view := C.PlayerView(w.client, s.player.id);
    var obs := O.FullCommitted(w.obs, s, view);
    if obs.invalid then w.(reading := None)
    else w.(reading := None, obs := obs, base := Values(s), baseToken := s.token, done := [], pending := [])
  }

  predicate ScalarCommits(w: World, values: Snapshot, now: Time, cfg: O.Config)
    requires w.reading.Some? && w.reading.value.ScalarReading?
  {
    O.ScalarBaselineValid(w.obs, now, cfg) && w.obs.last.token == w.reading.value.captured.token &&
    w.View().connected && w.View().token == values.token
  }

  function ScalarDone(w: World, values: Snapshot, v: Evidence, now: Time, cfg: O.Config): World
    requires w.reading.Some? && w.reading.value.ScalarReading?
  {
    var r := w.reading.value;
    var obs := O.ScalarsCommitted(w.obs, r.fields, r.captured.token, values, w.View(), now, cfg);
    if ScalarCommits(w, values, now, cfg)
    then w.(pending := [], obs := obs, reading := None, done := w.done + w.pending + [v])
    else w.(obs := obs, reading := None)
  }

  predicate PlaybackCommits(w: World, s: Snapshot, now: Time, cfg: O.Config) {
    O.ProjectionBaselineValid(w.obs, now, cfg) && w.obs.writePending == O.NO_FIELDS && w.obs.last.token == s.token &&
    w.View().connected && w.View().token == s.token
  }

  function Next(w: World, step: Step, now: Time, cfg: O.Config): World {
    match step
    case ClientMoves(s) => Moved(w, s)
    case Delivers(e) => Delivered(w, e, now, cfg)
    case BeginsFull(pid) =>
      if w.reading.Some? || pid == "" then w   // a resolved identity is never empty
      else
        var client := C.Observed(w.client, pid);
        w.(client := client, obs := w.obs.(invalid := true),
           reading := Some(FullReading(pid, C.PlayerView(client, pid).token)))
    case CommitsFull(s) =>
      if w.reading.Some? && w.reading.value.FullReading? && s.player.id == w.reading.value.pid &&
         s.token == w.reading.value.token
      then FullDone(w, s) else w
    case BeginsScalars(volume) =>
      var fields := if volume then O.VOLUME_FIELDS else O.MODE_FIELDS;
      if w.reading.None? && O.ScalarReadAllowed(w.obs, fields, w.View(), w.Write(), now, cfg)
      then w.(reading := Some(ScalarReading(fields, w.obs.last, w.View().token, w.Write()))) else w
    case CommitsVolume(level, muted) =>
      if w.reading.Some? && w.reading.value.ScalarReading? && w.reading.value.fields == O.VOLUME_FIELDS
      then
        var r := w.reading.value;
        ScalarDone(w, r.captured.(token := r.token, volume := Some(level), muted := Some(muted)),
                   VolumeRead(level, muted), now, cfg)
      else w
    case CommitsMode(repeat, shuffle) =>
      if w.reading.Some? && w.reading.value.ScalarReading? && w.reading.value.fields == O.MODE_FIELDS
      then
        var r := w.reading.value;
        ScalarDone(w, r.captured.(token := r.token, repeat := repeat, shuffle := shuffle),
                   ModeRead(repeat, shuffle), now, cfg)
      else w
    case BeginsPlayback =>
      if w.reading.None? && O.PlaybackReadAllowed(w.obs, w.View(), now, cfg)
      then w.(reading := Some(PlaybackReading(w.obs.last))) else w
    case CommitsPlayback(state, media) =>
      if w.reading.Some? && w.reading.value.PlaybackReading? then
        var s := w.reading.value.captured.(state := state, media := media);
        var obs := O.PlaybackCommitted(w.obs, s, w.View(), now, cfg);
        if PlaybackCommits(w, s, now, cfg)
        then w.(obs := obs, reading := None, done := w.done + w.pending + [PlaybackRead(state)], pending := [])
        else w.(obs := obs, reading := None)
      else w
    case BeginsMedia =>
      if w.reading.None? && !w.obs.invalid && w.obs.mediaPending && w.View() == View(w.obs.last.token, true)
      then w.(reading := Some(MediaReading(w.obs.last))) else w
    case CommitsMedia(media) =>
      if w.reading.Some? && w.reading.value.MediaReading? then
        var s := w.reading.value.captured.(media := media);
        var obs := O.MediaCommitted(w.obs, s, w.View());
        if obs.invalid then w.(obs := obs, reading := None)
        else w.(obs := obs, reading := None, done := w.done + w.pending + [MediaRead], pending := [])
      else w
    case AbandonsRead(invalidate) => w.(reading := None, obs := w.obs.(invalid := w.obs.invalid || invalidate))
    case Confirms(s) =>
      var obs := O.Confirmed(w.obs, s, w.View(), w.Write(), now, cfg);
      if O.ConfirmAllowed(w.obs, s, w.View(), w.Write(), now, cfg)
      then w.(obs := obs, done := w.done + w.pending + [Acknowledged], pending := []) else w
  }

  /** The state the pending notifications lead to from `s`. */
  function PendingState(s: PlayState, pending: seq<Evidence>): PlayState
    decreases pending
  {
    if pending == [] then s
    else
      var v := pending[0];
      PendingState(if v.Ev? && v.event.valid && v.event.body.StateChanged? then v.event.body.state else s, pending[1..])
  }

  /** The setter asked for what the evidence already shows, so its reply alone confirms it.
      (A volume may also clear a mute, so it is unchanged only where nothing is muted.) */
  predicate UnchangedTarget(m: Mutation, p: Projection) {
    match m
    case SetVolume(level) => p.volume == Some(level) && p.muted == Some(false)
    case SetMute(muted) => p.muted == Some(muted)
    case SetMode(repeat, shuffle) => p.repeat == repeat && p.shuffle == shuffle
    case _ => false
  }

  /** The obligation written on ConfirmScalars: the caller accounted for every event its
      token includes, its command has its required events or an unchanged target, and no
      media or queue event is unresolved. */
  predicate StatedObligation(w: World, s: Snapshot) {
    var p := Replay(w.base, w.Log());
    s.volume == p.volume && s.muted == p.muted && s.repeat == p.repeat && s.shuffle == p.shuffle &&
    !p.mediaDue && !p.broken &&
    (p.due == O.NO_FIELDS ||
     (UnchangedTarget(w.Write().mutation, p) && p.due.Minus(O.ScalarFields(w.Write().mutation)) == O.NO_FIELDS))
  }

  /** The stated obligation leaves out the play state, which is not transferred: it is settled
      when the last unconsumed state notification, if any, carries the cached state. */
  predicate StateSettled(w: World) { PendingState(w.obs.last.state, w.pending) == w.obs.last.state }

  /** Deliveries may be delayed, repeated, reordered or lost, but not invented. */
  predicate Honest(w: World, step: Step, now: Time, cfg: O.Config) {
    match step
    case Delivers(e) => e.gap || e in w.minted
    case Confirms(s) =>
      O.ConfirmAllowed(w.obs, s, w.View(), w.Write(), now, cfg) ==> StatedObligation(w, s)
    case _ => true
  }

  datatype Timed = At(step: Step, now: Time)

  function Run(w: World, steps: seq<Timed>, cfg: O.Config): World
    decreases steps
  {
    if steps == [] then w else Run(Next(w, steps[0].step, steps[0].now, cfg), steps[1..], cfg)
  }

  predicate HonestRun(w: World, steps: seq<Timed>, cfg: O.Config)
    decreases steps
  {
    steps == [] || (Honest(w, steps[0].step, steps[0].now, cfg) &&
                    HonestRun(Next(w, steps[0].step, steps[0].now, cfg), steps[1..], cfg))
  }

  /** A new observer: invalid until its first complete read. */
  predicate Initial(w: World) {
    w.obs.invalid && w.reading.None? && w.minted == {} && w.done == [] && w.pending == [] && w.disciplined &&
    w.obs.last.token == Token(0, 0, 0, 0, 0) && w.client.global == Token(0, 0, 0, 0, 0) &&
    w.client.players == map[] && w.client.writes == map[]
  }

  // ---- Invariant ----

  /** `pending` is exactly what separates token `t` from token `v`. */
  ghost predicate Chain(t: Token, pending: seq<Evidence>, v: Token)
    decreases pending
  {
    if pending == [] then t == v
    else match pending[0]
      case Ev(e) => e.token == t.(player := t.player + 1) && PlayerKind(e.body) && Chain(e.token, pending[1..], v)
      case Wr(r, _) => r == t.write + 1 && Chain(t.(write := r), pending[1..], v)
      case _ => false
  }

  ghost predicate MintedInOrder(c: C.State, minted: set<Event>) {
    forall e :: e in minted ==>
      e.token.revision <= c.global.revision &&
      (e.token.revision == c.global.revision ==>
         SameGlobal(e.token, c.global) && e.token.player <= C.PlayerCount(c, e.player))
  }

  /** The observer's history and the client's are the same unbroken one. */
  ghost predicate Joined(w: World) { !w.obs.invalid && w.client.global.revision == w.obs.last.token.revision }

  /** The cached play state is the replayed one. */
  ghost predicate StateAgrees(w: World) { Joined(w) ==> w.obs.last.state == Replay(w.base, w.done).state }

  /** All but the play state, which a publication may leave behind. */
  ghost predicate Agrees(s: Snapshot, mediaPending: bool, p: Projection) {
    s.volume == p.volume && s.muted == p.muted && s.repeat == p.repeat && s.shuffle == p.shuffle &&
    mediaPending == p.mediaDue && !p.broken
  }

  ghost predicate PendingComplete(w: World) {
    forall e :: (e in w.minted && e.player == w.Pid() && PlayerKind(e.body) && SameGlobal(e.token, w.obs.last.token) &&
                 e.token.player > w.obs.last.token.player) ==> Ev(e) in w.pending
  }

  ghost predicate WritesLinked(w: World) {
    forall i :: 0 <= i < |w.pending| && w.pending[i].Wr? && w.pending[i].revision == w.Write().revision ==>
                  w.pending[i].mutation == w.Write().mutation
  }

  /** Every setter still pending was sent when nothing was unconfirmed. */
  ghost predicate QuietAtWrites(p: Projection, pending: seq<Evidence>) {
    forall i :: 0 <= i < |pending| && pending[i].Wr? ==> Replay(p, pending[..i]).due == O.NO_FIELDS
  }

  ghost predicate Disciplined(w: World) {
    w.disciplined ==>
      w.obs.writePending == Replay(w.base, w.done).due && QuietAtWrites(Replay(w.base, w.done), w.pending)
  }

  ghost predicate JoinedInv(w: World) {
    w.Pid() != "" && w.Pid() in w.client.players &&
    Chain(w.obs.last.token, w.pending, w.View().token) &&
    Agrees(w.obs.last, w.obs.mediaPending, Replay(w.base, w.done)) &&
    PendingComplete(w) && WritesLinked(w) && Disciplined(w)
  }

  /** A captured snapshot still describes the cache for as long as the cached token is its own. */
  ghost predicate CapturedInv(w: World, captured: Snapshot) {
    Joined(w) ==>
      captured.token.revision == w.obs.last.token.revision && captured.player == w.obs.last.player &&
      captured.token.player <= w.obs.last.token.player && captured.token.write <= w.obs.last.token.write &&
      (captured.token == w.obs.last.token ==>
         captured.state == w.obs.last.state && captured.volume == w.obs.last.volume &&
         captured.muted == w.obs.last.muted &&
         captured.repeat == w.obs.last.repeat && captured.shuffle == w.obs.last.shuffle)
  }

  /** The read began behind the one setter it is about to confirm. */
  predicate OneSetterLater(captured: Token, token: Token, write: C.PlayerWrite, fields: O.Fields) {
    token == captured.(write := token.write) && token.write == captured.write + 1 && write.revision == token.write &&
    O.ScalarFields(write.mutation) == fields
  }

  ghost predicate ReadingInv(w: World) {
    w.reading.Some? ==>
      match w.reading.value
      case FullReading(pid, t) =>
        pid != "" && w.obs.invalid && t.revision <= w.client.global.revision &&
        (t.revision == w.client.global.revision ==> SameGlobal(t, w.client.global) && pid in w.client.players)
      case ScalarReading(fields, captured, token, write) =>
        CapturedInv(w, captured) && (fields == O.VOLUME_FIELDS || fields == O.MODE_FIELDS) &&
        (Joined(w) && captured.token == w.obs.last.token ==> w.obs.writePending.Minus(fields) == O.NO_FIELDS) &&
        (token == captured.token || OneSetterLater(captured.token, token, write, fields)) &&
        (Joined(w) ==> C.NotAfter(token, w.View().token)) &&
        (Joined(w) && w.View().token == token && token != captured.token ==> w.Write() == write)
      case PlaybackReading(captured) => CapturedInv(w, captured)
      case MediaReading(captured) => CapturedInv(w, captured)
  }

  ghost predicate Inv(w: World) {
    MintedInOrder(w.client, w.minted) && ReadingInv(w) &&
    (!w.obs.invalid ==>
       w.obs.last.token.revision <= w.client.global.revision &&
       (w.client.global.revision == w.obs.last.token.revision ==> SameGlobal(w.obs.last.token, w.client.global))) &&
    (Joined(w) ==> JoinedInv(w))
  }

  // ---- Chains ----

  lemma {:induction false} ChainSnoc(t: Token, pending: seq<Evidence>, v: Token, next: Evidence, v': Token)
    requires Chain(t, pending, v) && Chain(v, [next], v')
    ensures Chain(t, pending + [next], v')
    decreases pending
  {
    if pending == [] {
      assert pending + [next] == [next];
    } else {
      assert (pending + [next])[1..] == pending[1..] + [next];
      match pending[0]
      case Ev(e) => ChainSnoc(e.token, pending[1..], v, next, v');
      case Wr(r, _) => ChainSnoc(t.(write := r), pending[1..], v, next, v');
    }
  }

  lemma {:induction false} ChainGrows(t: Token, pending: seq<Evidence>, v: Token)
    requires Chain(t, pending, v)
    ensures SameGlobal(t, v) && t.player <= v.player && t.write <= v.write
    ensures t == v <==> pending == []
    ensures forall e :: Ev(e) in pending ==> t.player < e.token.player
    ensures forall i :: 0 <= i < |pending| && pending[i].Wr? ==> t.write < pending[i].revision <= v.write
    decreases pending
  {
    if pending != [] {
      match pending[0]
      case Ev(e) => ChainGrows(e.token, pending[1..], v);
      case Wr(r, _) => ChainGrows(t.(write := r), pending[1..], v);
      assert pending == [pending[0]] + pending[1..];
    }
  }

  /** The notification stamped directly after `t` is reached after `write - t.write` setters. */
  lemma {:induction false} ChainFirstEvent(t: Token, pending: seq<Evidence>, v: Token, e: Event)
    requires Chain(t, pending, v) && Ev(e) in pending && e.token.player == t.player + 1
    ensures var k := WritesAhead(pending);
            k < |pending| && pending[k] == Ev(e) && e.token.write == t.write + k && SameGlobal(t, e.token) &&
            Chain(e.token, pending[k + 1..], v)
    decreases pending
  {
    assert pending == [pending[0]] + pending[1..];
    match pending[0]
    case Ev(f) =>
      ChainGrows(f.token, pending[1..], v);
    case Wr(r, _) =>
      ChainFirstEvent(t.(write := r), pending[1..], v, e);
      assert pending[1..][WritesAhead(pending[1..]) + 1..] == pending[WritesAhead(pending) + 1..];
  }

  // ---- Preservation ----

  lemma {:induction false} MintedMoves(c: C.State, minted: set<Event>, step: C.Step)
    requires MintedInOrder(c, minted)
    ensures MintedInOrder(C.Apply(c, step), minted)
  {
    forall e | e in minted
      ensures C.NotAfter(C.PlayerView(c, e.player).token, C.PlayerView(C.Apply(c, step), e.player).token)
    {
      C.StepOrder(c, step, e.player);
    }
  }

  /** A client step outside the observed player's history leaves its view alone. */
  lemma {:induction false} QuietStep(w: World, step: C.Step)
    requires Inv(w) && Joined(w.(client := C.Apply(w.client, step)))
    requires !C.Consumes(w.client, step, w.Pid())
    ensures Joined(w) && C.PlayerView(C.Apply(w.client, step), w.Pid()).token == w.View().token
    ensures w.Pid() in C.Apply(w.client, step).players
    ensures w.(client := C.Apply(w.client, step)).Write() == w.Write()
  {
    C.StepOrder(w.client, step, w.Pid());
  }

  /** The common part of both kinds of growth: one more entry at the end of the chain. */
  lemma {:induction false} GrownChain(w: World, w': World, v: Evidence)
    requires JoinedInv(w) && w'.obs == w.obs && w'.base == w.base && w'.done == w.done && w'.pending == w.pending + [v]
    requires Chain(w.View().token, [v], w'.View().token)
    requires w'.disciplined ==> w.disciplined && (v.Wr? ==> Replay(w.base, w.Log()).due == O.NO_FIELDS)
    ensures Chain(w.obs.last.token, w'.pending, w'.View().token) && Disciplined(w')
  {
    ChainSnoc(w.obs.last.token, w.pending, w.View().token, v, w'.View().token);
    forall i | 0 <= i < |w'.pending| && w'.pending[i].Wr? && w'.disciplined
      ensures Replay(Replay(w.base, w.done), w'.pending[..i]).due == O.NO_FIELDS
    {
      assert w'.pending[..i] == w.pending[..i];
      if i == |w.pending| {
        ReplayConcat(w.base, w.done, w.pending);
        assert w.pending[..i] == w.pending;
      }
    }
  }

  lemma {:induction false} EventGrows(w: World, body: EventBody, valid: bool)
    requires Joined(w) && JoinedInv(w) && PlayerKind(body)
    ensures JoinedInv(Moved(w, C.Arrive(body, w.Pid(), valid)))
  {
    var w' := Moved(w, C.Arrive(body, w.Pid(), valid));
    var e := Event(body, w.Pid(), valid, false, C.Stamp(w.client, body, w.Pid(), valid));
    assert Chain(w.View().token, [Ev(e)], w'.View().token);
    GrownChain(w, w', Ev(e));
  }

  lemma {:induction false} WriteGrows(w: World, m: Mutation)
    requires Joined(w) && JoinedInv(w)
    ensures JoinedInv(Moved(w, C.StampWrite(w.Pid(), m)))
  {
    var w' := Moved(w, C.StampWrite(w.Pid(), m));
    var v := Wr(C.WriteCount(w.client, w.Pid()) + 1, m);
    assert Chain(w.View().token, [v], w'.View().token);
    GrownChain(w, w', v);
    ChainGrows(w.obs.last.token, w.pending, w.View().token);
  }

  /** Everything else keeps the observed player's view, so the invariant carries over. */
  lemma {:induction false} QuietJoined(w: World, step: C.Step)
    requires Inv(w) && Joined(w) && Joined(Moved(w, step)) && Moved(w, step).pending == w.pending
    ensures JoinedInv(Moved(w, step))
  {
    var w' := Moved(w, step);
    assert !C.Consumes(w.client, step, w.Pid());
    QuietStep(w, step);
    assert w'.View().token == w.View().token && w'.Write() == w.Write();
    assert PendingComplete(w');
  }

  lemma {:induction false} MovedJoined(w: World, step: C.Step)
    requires Inv(w) && Joined(Moved(w, step))
    ensures Joined(w) && JoinedInv(Moved(w, step))
  {
    C.StepOrder(w.client, step, w.Pid());
    assert Joined(w);
    if step.Arrive? && PlayerKind(step.body) && step.pid == w.Pid() {
      EventGrows(w, step.body, step.valid);
    } else if step.StampWrite? && step.pid == w.Pid() {
      WriteGrows(w, step.mutation);
    } else {
      QuietJoined(w, step);
    }
  }

  /** What any client step leaves of the observed player's view. */
  ghost predicate ClientCarries(w: World, w': World) {
    w'.obs == w.obs && w'.reading == w.reading && w.client.global.revision <= w'.client.global.revision &&
    (w.client.global.revision == w'.client.global.revision ==> SameGlobal(w.client.global, w'.client.global)) &&
    C.NotAfter(w.View().token, w'.View().token) && (w.View().token == w'.View().token ==> w.Write() == w'.Write())
  }

  predicate PlayerKept(c: C.State, d: C.State, pid: ID) {
    c.global.revision == d.global.revision && pid in c.players ==> pid in d.players
  }

  lemma {:induction false} MovedCarries(w: World, step: C.Step)
    ensures ClientCarries(w, Moved(w, step)) && Moved(w, step).client == C.Apply(w.client, step)
  {
    C.StepOrder(w.client, step, w.Pid());
    C.StepKeeps(w.client, step, w.Pid());
  }

  lemma {:induction false} ReadingCarries(w: World, w': World)
    requires Inv(w) && ClientCarries(w, w') && w.reading.Some?
    requires w.reading.value.FullReading? ==> PlayerKept(w.client, w'.client, w.reading.value.pid)
    ensures ReadingInv(w')
  {
    if w.reading.value.ScalarReading? && Joined(w') {
      var token := w.reading.value.token;
      C.NotAfterThrough(token, w.View().token, w'.View().token);
      if w'.View().token == token { C.NotAfterBoth(token, w.View().token); }
    }
  }

  lemma {:induction false} MovedInv(w: World, step: C.Step)
    requires Inv(w)
    ensures Inv(Moved(w, step))
  {
    var w' := Moved(w, step);
    MovedCarries(w, step);
    MintedInv(w, step);
    if w.reading.Some? {
      if w.reading.value.FullReading? { C.StepKeeps(w.client, step, w.reading.value.pid); }
      ReadingCarries(w, w');
    }
    if Joined(w') {
      MovedJoined(w, step);
    }
  }

  lemma {:induction false} MintedInv(w: World, step: C.Step)
    requires MintedInOrder(w.client, w.minted)
    ensures MintedInOrder(Moved(w, step).client, Moved(w, step).minted)
  {
    MintedMoves(w.client, w.minted, step);
  }

  /** An applied notification is the first one pending, behind at most one setter. */
  lemma {:induction false} AppliedEvent(w: World, e: Event, now: Time, cfg: O.Config) returns (k: nat)
    requires Inv(w) && e in w.minted && O.Continuous(w.obs, e, w.View(), w.Write(), now, cfg)
    requires O.Applicable(e)
    ensures Joined(w) && k == WritesAhead(w.pending) < |w.pending| && k <= 1
    ensures w.pending[k] == Ev(e) && Chain(e.token, w.pending[k + 1..], w.View().token)
    ensures k == 0 <==> e.token.write == w.obs.last.token.write
    ensures k == 1 ==> w.pending[0] == Wr(w.Write().revision, w.Write().mutation)
    ensures w.pending[..k + 1] == if k == 0 then [Ev(e)] else [w.pending[0], Ev(e)]
  {
    k := WritesAhead(w.pending);
    ChainFirstEvent(w.obs.last.token, w.pending, w.View().token, e);
  }

  /** The cached values after one applied notification. */
  ghost predicate CarriesEvent(s: Snapshot, body: EventBody, s': Snapshot) {
    s'.state == (if body.StateChanged? then body.state else s.state) &&
    s'.volume == (if body.VolumeChanged? then Some(body.level) else s.volume) &&
    s'.muted == (if body.VolumeChanged? then Some(body.muted) else s.muted) &&
    s'.repeat == (if body.RepeatChanged? then body.repeat else s.repeat) &&
    s'.shuffle == (if body.ShuffleChanged? then body.shuffle else s.shuffle)
  }

  /** The observer took the event in, together with the setter before it, if there was one. */
  ghost predicate Took(o: O.State, e: Event, write: C.PlayerWrite, o': O.State) {
    !o'.invalid && o'.last.token == e.token && o'.last.player == o.last.player &&
    o'.mediaPending == (o.mediaPending || e.body.NowPlayingChanged?) &&
    o'.writePending == Owed(o, e, write).Minus(O.EventFields(e.body)) && CarriesEvent(o.last, e.body, o'.last)
  }

  function Owed(o: O.State, e: Event, write: C.PlayerWrite): O.Fields {
    if e.token.write != o.last.token.write then O.ChangedWriteFields(o.last.repeat, o.last.shuffle, write.mutation)
    else o.writePending
  }

  predicate Takes(o: O.State, e: Event, view: View, write: C.PlayerWrite, now: Time, cfg: O.Config) {
    !O.Irrelevant(o, e) && O.Continuous(o, e, view, write, now, cfg) && O.Applicable(e)
  }

  lemma AppliedCarries(s: Snapshot, body: EventBody)
    requires O.Applicable(Event(body, "", true, false, s.token))
    ensures var s' := O.ApplyObservedEvent(s, body); CarriesEvent(s, body, s') && s'.player == s.player
  {
  }

  /** Every notification is taken in, ignored, or invalidates the cache. */
  lemma NotifiedCases(o: O.State, e: Event, view: View, write: C.PlayerWrite, now: Time, cfg: O.Config)
    ensures var o' := O.Notified(o, e, view, write, now, cfg);
            if Takes(o, e, view, write, now, cfg) then Took(o, e, write, o')
            else o' == o || (o'.invalid && o'.last == o.last)
  {
    if Takes(o, e, view, write, now, cfg) { AppliedCarries(o.last, e.body); }
  }

  /** One applied notification changes the cached values exactly as the replay changes. */
  lemma {:induction false} AppliedValues(s: Snapshot, s': Snapshot, mediaPending: bool, p: Projection, body: EventBody)
    requires O.Applicable(Event(body, "", true, false, s.token)) && Agrees(s, mediaPending, p)
    requires CarriesEvent(s, body, s')
    ensures Agrees(s', mediaPending || body.NowPlayingChanged?, AbsorbEvent(p, body, true))
  {
  }

  lemma {:induction false} AbsorbedDebts(p: Projection, e: Event, r: nat, m: Mutation)
    ensures Absorb(p, Ev(e)).due == p.due.Minus(O.EventFields(e.body))
    ensures Absorb(p, Wr(r, m)) == p.(due := p.due.Plus(O.ChangedWriteFields(p.repeat, p.shuffle, m)))
  {
  }

  /** The world after an applied notification: it took in the first pending entries. */
  ghost predicate Applied(w: World, e: Event, k: nat, w': World) {
    k < |w.pending| && Took(w.obs, e, w.Write(), w'.obs) && w' == Absorbed(w, k + 1).(obs := w'.obs)
  }

  lemma {:induction false} TookAlone(o: O.State, o': O.State, e: Event, write: C.PlayerWrite, p: Projection)
    requires Took(o, e, write, o') && O.Applicable(e) && Agrees(o.last, o.mediaPending, p)
    requires e.token.write == o.last.token.write
    ensures var q := Absorb(p, Ev(e));
            Agrees(o'.last, o'.mediaPending, q) && (o.writePending == p.due ==> o'.writePending == q.due)
  {
    AppliedValues(o.last, o'.last, o.mediaPending, p, e.body);
    AbsorbedDebts(p, e, 0, write.mutation);
  }

  lemma {:induction false} TookAfterWrite(o: O.State, o': O.State, e: Event, write: C.PlayerWrite, p: Projection)
    requires Took(o, e, write, o') && O.Applicable(e) && Agrees(o.last, o.mediaPending, p)
    requires e.token.write != o.last.token.write
    ensures var q := Absorb(Absorb(p, Wr(write.revision, write.mutation)), Ev(e));
            Agrees(o'.last, o'.mediaPending, q) && (p.due == O.NO_FIELDS ==> o'.writePending == q.due)
  {
    var p1 := Absorb(p, Wr(write.revision, write.mutation));
    AbsorbedDebts(p, e, write.revision, write.mutation);
    AppliedValues(o.last, o'.last, o.mediaPending, p1, e.body);
    AbsorbedDebts(p1, e, 0, write.mutation);
  }

  /** The replay after the entries an applied notification takes in, and the cache after it. */
  lemma {:induction false} AppliedCache(w: World, e: Event, k: nat, o': O.State, now: Time, cfg: O.Config)
    requires Inv(w) && e in w.minted && O.Continuous(w.obs, e, w.View(), w.Write(), now, cfg) && O.Applicable(e)
    requires k == WritesAhead(w.pending) < |w.pending| && Took(w.obs, e, w.Write(), o')
    ensures var q := Replay(Replay(w.base, w.done), w.pending[..k + 1]);
            Agrees(o'.last, o'.mediaPending, q) && (w.disciplined ==> o'.writePending == q.due)
  {
    var _ := AppliedEvent(w, e, now, cfg);
    var p := Replay(w.base, w.done);
    ReplayPrefix(p, w.pending[..k + 1]);
    if k == 0 {
      TookAlone(w.obs, o', e, w.Write(), p);
    } else {
      TookAfterWrite(w.obs, o', e, w.Write(), p);
      assert w.pending[..0] == [];
    }
  }

  lemma {:induction false} ReplayPrefix(p: Projection, log: seq<Evidence>)
    ensures Replay(p, []) == p
    ensures |log| == 1 ==> Replay(p, log) == Absorb(p, log[0])
    ensures |log| == 2 ==> Replay(p, log) == Absorb(Absorb(p, log[0]), log[1])
  {
    if |log| == 2 {
      assert log[1..] == [log[1]];
      assert Replay(Absorb(p, log[0]), [log[1]]) == Absorb(Absorb(p, log[0]), log[1]) by { assert [log[1]][1..] == []; }
    }
  }

  lemma {:induction false} QuietDrops(p: Projection, pending: seq<Evidence>, n: nat)
    requires n <= |pending| && QuietAtWrites(p, pending)
    ensures QuietAtWrites(Replay(p, pending[..n]), pending[n..])
  {
    forall i | 0 <= i < |pending| - n && pending[n..][i].Wr?
      ensures Replay(Replay(p, pending[..n]), pending[n..][..i]).due == O.NO_FIELDS
    {
      assert pending[..n + i] == pending[..n] + pending[n..][..i];
      ReplayConcat(p, pending[..n], pending[n..][..i]);
    }
  }

  /** Taking in the first `n` pending entries keeps the log, and replays exactly those. */
  lemma {:induction false} AbsorbedLog(w: World, n: nat)
    requires n <= |w.pending|
    ensures Absorbed(w, n).Log() == w.Log()
    ensures Replay(w.base, Absorbed(w, n).done) == Replay(Replay(w.base, w.done), w.pending[..n])
  {
    assert w.pending == w.pending[..n] + w.pending[n..];
    ReplayConcat(w.base, w.done, w.pending[..n]);
  }

  lemma {:induction false} AppliedShape(w: World, e: Event, now: Time, cfg: O.Config) returns (k: nat)
    requires Inv(w) && e in w.minted && Takes(w.obs, e, w.View(), w.Write(), now, cfg)
    ensures k == WritesAhead(w.pending) && Applied(w, e, k, Delivered(w, e, now, cfg)) && Joined(w)
    ensures w.pending[k] == Ev(e) && Chain(e.token, w.pending[k + 1..], w.View().token)
    ensures forall i :: 0 <= i < k ==> w.pending[i].Wr?
  {
    k := AppliedEvent(w, e, now, cfg);
    NotifiedCases(w.obs, e, w.View(), w.Write(), now, cfg);
    DeliveredTakes(w, e, now, cfg);
  }

  lemma {:induction false} DeliveredTakes(w: World, e: Event, now: Time, cfg: O.Config)
    requires WritesAhead(w.pending) < |w.pending| && e.token.player != w.obs.last.token.player
    requires Took(w.obs, e, w.Write(), O.Notified(w.obs, e, w.View(), w.Write(), now, cfg))
    ensures var obs := O.Notified(w.obs, e, w.View(), w.Write(), now, cfg);
            Delivered(w, e, now, cfg) == Absorbed(w, WritesAhead(w.pending) + 1).(obs := obs)
  {
  }

  lemma {:induction false} AppliedReplay(w: World, e: Event, k: nat, w': World)
    requires Applied(w, e, k, w') && Disciplined(w)
    requires var q := Replay(Replay(w.base, w.done), w.pending[..k + 1]); w.disciplined ==> w'.obs.writePending == q.due
    ensures w'.Log() == w.Log() && Disciplined(w')
    ensures Replay(w'.base, w'.done) == Replay(Replay(w.base, w.done), w.pending[..k + 1])
  {
    AbsorbedLog(w, k + 1);
    if w.disciplined {
      QuietDrops(Replay(w.base, w.done), w.pending, k + 1);
    }
  }

  lemma {:induction false} AppliedPending(w: World, e: Event, k: nat, w': World)
    requires Joined(w) && JoinedInv(w) && k < |w.pending| && w.pending[k] == Ev(e) && w'.pending == w.pending[k + 1..]
    requires forall i :: 0 <= i < k ==> w.pending[i].Wr?
    requires w'.client == w.client && w'.minted == w.minted && w'.Pid() == w.Pid()
    requires w'.obs.last.token == e.token && SameGlobal(e.token, w.obs.last.token)
    requires e.token.player >= w.obs.last.token.player
    ensures PendingComplete(w') && WritesLinked(w')
  {
    assert w.pending == w.pending[..k] + [Ev(e)] + w'.pending;
    forall f | Ev(f) in w.pending && f.token.player > e.token.player
      ensures Ev(f) in w'.pending
    {
      assert Ev(f) !in w.pending[..k];
    }
  }

  /** A read in flight loses its claim to the cached values: the token has moved on. */
  lemma {:induction false} AppliedReading(w: World, e: Event, k: nat, w': World)
    requires Inv(w) && Joined(w) && Applied(w, e, k, w') && SameGlobal(e.token, w.obs.last.token)
    requires e.token.player > w.obs.last.token.player && e.token.write >= w.obs.last.token.write
    ensures ReadingInv(w')
  {
    assert w'.View() == w.View() && w'.Write() == w.Write();
  }

  lemma {:induction false} AppliedJoined(w: World, e: Event, now: Time, cfg: O.Config)
    requires Inv(w) && e in w.minted && Takes(w.obs, e, w.View(), w.Write(), now, cfg)
    ensures var w' := Delivered(w, e, now, cfg);
            JoinedInv(w') && ReadingInv(w') && w'.Log() == w.Log() && !w'.obs.invalid &&
            SameGlobal(w'.obs.last.token, w.obs.last.token) &&
            w'.client == w.client && w'.minted == w.minted
  {
    var k := AppliedShape(w, e, now, cfg);
    AppliedEffects(w, e, k, Delivered(w, e, now, cfg), now, cfg);
  }

  lemma {:induction false} AppliedEffects(w: World, e: Event, k: nat, w': World, now: Time, cfg: O.Config)
    requires Inv(w) && Joined(w) && e in w.minted && O.Continuous(w.obs, e, w.View(), w.Write(), now, cfg)
    requires O.Applicable(e)
    requires k == WritesAhead(w.pending) && Applied(w, e, k, w') && w.pending[k] == Ev(e)
    requires Chain(e.token, w.pending[k + 1..], w.View().token) && forall i :: 0 <= i < k ==> w.pending[i].Wr?
    ensures JoinedInv(w') && ReadingInv(w') && w'.Log() == w.Log()
  {
    AppliedCache(w, e, k, w'.obs, now, cfg);
    AppliedReplay(w, e, k, w');
    AppliedPending(w, e, k, w');
    AppliedReading(w, e, k, w');
    assert w'.View() == w.View() && w'.Write() == w.Write();
  }

  lemma {:induction false} DeliveredInv(w: World, e: Event, now: Time, cfg: O.Config)
    requires Inv(w) && (e.gap || e in w.minted)
    ensures Inv(Delivered(w, e, now, cfg)) && Delivered(w, e, now, cfg).Log() == w.Log()
  {
    if Takes(w.obs, e, w.View(), w.Write(), now, cfg) {
      AppliedJoined(w, e, now, cfg);
    } else {
      NotifiedCases(w.obs, e, w.View(), w.Write(), now, cfg);
    }
  }

  lemma {:induction false} FullDoneInv(w: World, s: Snapshot)
    requires Inv(w) && w.reading.Some? && w.reading.value.FullReading?
    requires s.player.id == w.reading.value.pid && s.token == w.reading.value.token
    ensures Inv(FullDone(w, s))
  {
    var w' := FullDone(w, s);
    if Joined(w') {
      assert w'.disciplined ==> w'.obs.writePending == Replay(w'.base, w'.done).due;
    }
  }

  /** The values read replace the fields the read covers, and settle their debts. */
  lemma {:induction false} ScalarReplay(w: World, v: Evidence)
    requires Inv(w) && Joined(w) && w.reading.Some? && w.reading.value.ScalarReading?
    requires w.obs.last.token == w.reading.value.captured.token && w.View().token == w.reading.value.token
    requires v.VolumeRead? || v.ModeRead?
    requires w.reading.value.fields == if v.VolumeRead? then O.VOLUME_FIELDS else O.MODE_FIELDS
    ensures var p, q := Replay(w.base, w.done), Replay(w.base, w.done + w.pending + [v]);
            q == Absorb(p.(due := q.due), v) && (w.disciplined ==> q.due == O.NO_FIELDS)
  {
    var p := Replay(w.base, w.done);
    ScalarPending(w, w.reading.value);
    ReplayConcat(w.base, w.done, w.pending);
    ReplayOne(w.base, w.done + w.pending, v);
    ReplayPrefix(p, w.pending);
  }

  ghost predicate ReadValues(r: Reading, values: Snapshot, v: Evidence)
    requires r.ScalarReading?
  {
    (v.VolumeRead? && r.fields == O.VOLUME_FIELDS &&
     values == r.captured.(token := r.token, volume := Some(v.level), muted := Some(v.muted))) ||
    (v.ModeRead? && r.fields == O.MODE_FIELDS &&
     values == r.captured.(token := r.token, repeat := v.repeat, shuffle := v.shuffle))
  }

  lemma {:induction false} ScalarJoined(w: World, values: Snapshot, v: Evidence, now: Time, cfg: O.Config)
    requires Inv(w) && Joined(w) && w.reading.Some? && w.reading.value.ScalarReading?
    requires ReadValues(w.reading.value, values, v) && ScalarCommits(w, values, now, cfg)
    ensures JoinedInv(ScalarDone(w, values, v, now, cfg))
  {
    var w' := ScalarDone(w, values, v, now, cfg);
    ScalarReplay(w, v);
    assert w'.View() == w.View() && w'.Pid() == w.Pid();
    assert Agrees(w'.obs.last, w'.obs.mediaPending, Replay(w'.base, w'.done));
  }

  lemma {:induction false} ScalarDoneInv(w: World, values: Snapshot, v: Evidence, now: Time, cfg: O.Config)
    requires Inv(w) && w.reading.Some? && w.reading.value.ScalarReading? && ReadValues(w.reading.value, values, v)
    ensures Inv(ScalarDone(w, values, v, now, cfg))
  {
    var w' := ScalarDone(w, values, v, now, cfg);
    if ScalarCommits(w, values, now, cfg) {
      assert SameGlobal(w.reading.value.captured.token, w.reading.value.token);
      assert Joined(w);
      ScalarJoined(w, values, v, now, cfg);
      assert w'.obs.last.token == w.View().token;
    } else {
      assert w' == w.(reading := None);
    }
  }

  /** A scalar read runs with no event pending and at most the one setter it confirms. */
  lemma {:induction false} ScalarPending(w: World, r: Reading)
    requires Inv(w) && Joined(w) && w.reading == Some(r) && r.ScalarReading?
    requires w.obs.last.token == r.captured.token && w.View().token == r.token
    ensures w.pending == [] ||
            (|w.pending| == 1 && w.pending[0].Wr? && O.ScalarFields(w.pending[0].mutation) == r.fields)
  {
    if w.pending != [] {
      var rest := w.pending[1..];
      match w.pending[0]
      case Ev(e) => ChainGrows(e.token, rest, w.View().token);
      case Wr(n, m) => ChainGrows(w.obs.last.token.(write := n), rest, w.View().token);
    }
  }

  /** A read that needs a fully caught-up cache: nothing is pending, so it only adds itself. */
  lemma {:induction false} CaughtUpRead(w: World, obs: O.State, v: Evidence)
    requires Inv(w) && Joined(w) && w.obs.last.token == w.View().token && (v.PlaybackRead? || v.MediaRead?)
    requires !obs.invalid && !obs.mediaPending && obs.writePending == w.obs.writePending
    requires obs.last.player == w.obs.last.player
    requires obs.last.token == w.obs.last.token && obs.last.volume == w.obs.last.volume
    requires obs.last.muted == w.obs.last.muted
    requires obs.last.repeat == w.obs.last.repeat && obs.last.shuffle == w.obs.last.shuffle
    requires obs.last.state == if v.PlaybackRead? then v.state else w.obs.last.state
    ensures Inv(w.(obs := obs, reading := None, done := w.done + w.pending + [v], pending := []))
  {
    ChainGrows(w.obs.last.token, w.pending, w.View().token);
    assert w.done + w.pending == w.done;
    ReplayOne(w.base, w.done, v);
    var w' := w.(obs := obs, reading := None, done := w.done + [v], pending := []);
    assert JoinedInv(w');
  }

  lemma {:induction false} PlaybackDoneInv(w: World, state: PlayState, media: Option<Media>, now: Time, cfg: O.Config)
    requires Inv(w) && w.reading.Some? && w.reading.value.PlaybackReading?
    ensures Inv(Next(w, CommitsPlayback(state, media), now, cfg))
  {
    var s := w.reading.value.captured.(state := state, media := media);
    if PlaybackCommits(w, s, now, cfg) {
      assert Joined(w);
      CaughtUpRead(w, O.PlaybackCommitted(w.obs, s, w.View(), now, cfg), PlaybackRead(state));
    }
  }

  lemma {:induction false} MediaDoneInv(w: World, media: Option<Media>, now: Time, cfg: O.Config)
    requires Inv(w) && w.reading.Some? && w.reading.value.MediaReading?
    ensures Inv(Next(w, CommitsMedia(media), now, cfg))
  {
    var s := w.reading.value.captured.(media := media);
    var obs := O.MediaCommitted(w.obs, s, w.View());
    if !obs.invalid {
      assert Joined(w);
      CaughtUpRead(w, obs, MediaRead);
    }
  }

  /** Along a chain of notifications and setters, the replayed state follows the
      notifications only. */
  lemma {:induction false} PendingStateReplay(t: Token, pending: seq<Evidence>, v: Token, p: Projection)
    requires Chain(t, pending, v)
    ensures Replay(p, pending).state == PendingState(p.state, pending)
    decreases pending
  {
    if pending != [] {
      match pending[0]
      case Ev(e) => PendingStateReplay(e.token, pending[1..], v, Absorb(p, pending[0]));
      case Wr(r, _) => PendingStateReplay(t.(write := r), pending[1..], v, Absorb(p, pending[0]));
    }
  }

  /** An acknowledgement settles debts and changes no value. */
  lemma {:induction false} AcknowledgedValues(p: Projection, log: seq<Evidence>)
    ensures var q, r := Replay(p, log), Replay(p, log + [Acknowledged]); r == q.(due := O.NO_FIELDS)
  {
    ReplayOne(p, log, Acknowledged);
  }

  /** Exactly when the published confirmation agrees: the four transferred scalars always
      do under the stated obligation, and the state does if and only if the last
      unconsumed state notification carries the cached state. */
  lemma {:induction false} ConfirmAgreesExactly(w: World, s: Snapshot, now: Time, cfg: O.Config)
    requires Inv(w) && O.ConfirmAllowed(w.obs, s, w.View(), w.Write(), now, cfg) && StatedObligation(w, s)
    requires StateAgrees(w)
    ensures Joined(w)
    ensures var w', p := Next(w, Confirms(s), now, cfg), Replay(w.base, w.Log());
            w'.Log() == w.Log() + [Acknowledged] && Replay(w.base, w'.Log()) == p.(due := O.NO_FIELDS) &&
            w'.obs.last.volume == p.volume && w'.obs.last.muted == p.muted &&
            w'.obs.last.repeat == p.repeat && w'.obs.last.shuffle == p.shuffle &&
            (w'.obs.last.state == p.state <==> StateSettled(w))
  {
    assert Joined(w);
    AcknowledgedValues(w.base, w.Log());
    ReplayConcat(w.base, w.done, w.pending);
    PendingStateReplay(w.obs.last.token, w.pending, w.View().token, Replay(w.base, w.done));
  }

  predicate ScalarsKnown(s: Snapshot) {
    s.volume.Some? && 0 <= s.volume.value <= 100 && s.muted.Some? && s.repeat.Known()
  }

  /** At a reply's token, with nothing else moved, the cached values may be published. */
  lemma AllowedAtReply(o: O.State, token: Token, write: C.PlayerWrite, now: Time, cfg: O.Config)
    requires O.ScalarBaselineValid(o, now, cfg) && o.writePending == O.NO_FIELDS && ScalarsKnown(o.last)
    requires token == o.last.token.(write := token.write) && write.revision == token.write
    requires ScalarMutation(write.mutation)
    ensures var s, view := o.last.(token := token), View(token, true);
            O.ConfirmAllowed(o, s, view, write, now, cfg) &&
            !O.Seen(O.Confirmed(o, s, view, write, now, cfg), view, now, cfg).stale
  {
  }

  /** The world right after an unchanged setter was sent from a fresh cache. */
  lemma {:induction false} UnchangedSent(w: World, m: Mutation)
    requires Inv(w) && Joined(w) && w.disciplined && ScalarMutation(m) && UnchangedTarget(m, Replay(w.base, w.Log()))
    requires w.View().token == w.obs.last.token && w.obs.writePending == O.NO_FIELDS && !w.obs.mediaPending
    ensures var sent := Moved(w, C.StampWrite(w.Pid(), m));
            sent.obs == w.obs && sent.View().connected == w.View().connected &&
            sent.View().token == w.obs.last.token.(write := w.obs.last.token.write + 1) &&
            sent.Write() == C.PlayerWrite(w.obs.last.token.write + 1, m) &&
            sent.pending == [Wr(w.obs.last.token.write + 1, m)] && sent.base == w.base &&
            sent.Log() == w.Log() + [Wr(w.obs.last.token.write + 1, m)]
  {
    ChainGrows(w.obs.last.token, w.pending, w.View().token);
  }

  lemma {:induction false} UnchangedIsHonest(w: World, m: Mutation)
    requires Inv(w) && Joined(w) && w.disciplined && ScalarMutation(m) && UnchangedTarget(m, Replay(w.base, w.Log()))
    requires w.View().token == w.obs.last.token && w.obs.writePending == O.NO_FIELDS && !w.obs.mediaPending
    ensures var sent := Moved(w, C.StampWrite(w.Pid(), m));
            StatedObligation(sent, w.obs.last.(token := sent.View().token)) && StateSettled(sent)
  {
    var v := Wr(w.obs.last.token.write + 1, m);
    UnchangedSent(w, m);
    ChainGrows(w.obs.last.token, w.pending, w.View().token);
    assert w.Log() == w.done;
    ReplayOne(w.base, w.Log(), v);
    UnchangedOwes(Replay(w.base, w.Log()), m);
    assert [v][1..] == [];
  }

  /** A setter whose target is unchanged is published at its reply's token, with no event: the
      publication is allowed and honest, and leaves a snapshot that is not stale. */
  lemma {:induction false} UnchangedTargetPublishes(w: World, m: Mutation, now: Time, cfg: O.Config)
    requires Inv(w) && Joined(w) && w.disciplined && ScalarMutation(m) && UnchangedTarget(m, Replay(w.base, w.Log()))
    requires w.View() == View(w.obs.last.token, true) && w.obs.writePending == O.NO_FIELDS
    requires O.ScalarBaselineValid(w.obs, now, cfg) && ScalarsKnown(w.obs.last)
    ensures var sent := Moved(w, C.StampWrite(w.Pid(), m)); var s := w.obs.last.(token := sent.View().token);
            O.ConfirmAllowed(sent.obs, s, sent.View(), sent.Write(), now, cfg) && Honest(sent, Confirms(s), now, cfg) &&
            !O.Seen(O.Confirmed(sent.obs, s, sent.View(), sent.Write(), now, cfg), sent.View(), now, cfg).stale
  {
    UnchangedSent(w, m);
    UnchangedIsHonest(w, m);
    var sent := Moved(w, C.StampWrite(w.Pid(), m));
    AllowedAtReply(w.obs, sent.View().token, sent.Write(), now, cfg);
  }

  lemma UnchangedOwes(p: Projection, m: Mutation)
    requires ScalarMutation(m) && p.due == O.NO_FIELDS
    ensures p.due.Plus(O.ChangedWriteFields(p.repeat, p.shuffle, m)).Minus(O.ScalarFields(m)) == O.NO_FIELDS
  {
  }

  /** The published scalars agree whether or not the state is settled. */
  lemma {:induction false} ConfirmValues(w: World, s: Snapshot, now: Time, cfg: O.Config)
    requires Inv(w) && O.ConfirmAllowed(w.obs, s, w.View(), w.Write(), now, cfg) && StatedObligation(w, s)
    ensures var w', p := Next(w, Confirms(s), now, cfg), Replay(w.base, w.Log());
            Joined(w) && w'.done == w.Log() + [Acknowledged] && w'.pending == [] && w'.base == w.base &&
            Replay(w.base, w'.done) == p.(due := O.NO_FIELDS) && Agrees(w'.obs.last, w'.obs.mediaPending, p)
  {
    assert Joined(w);
    AcknowledgedValues(w.base, w.Log());
  }

  lemma {:induction false} ConfirmJoined(w: World, s: Snapshot, now: Time, cfg: O.Config)
    requires Inv(w) && O.ConfirmAllowed(w.obs, s, w.View(), w.Write(), now, cfg) && StatedObligation(w, s)
    ensures JoinedInv(Next(w, Confirms(s), now, cfg))
  {
    var w' := Next(w, Confirms(s), now, cfg);
    ConfirmValues(w, s, now, cfg);
    assert w'.View() == w.View() && w'.Pid() == w.Pid();
  }

  lemma {:induction false} ConfirmReading(w: World, s: Snapshot, now: Time, cfg: O.Config)
    requires Inv(w) && O.ConfirmAllowed(w.obs, s, w.View(), w.Write(), now, cfg) && StatedObligation(w, s)
    ensures ReadingInv(Next(w, Confirms(s), now, cfg))
  {
    var w' := Next(w, Confirms(s), now, cfg);
    ConfirmValues(w, s, now, cfg);
    ChainGrows(w.obs.last.token, w.pending, w.View().token);
    if w'.obs.last.token == w.obs.last.token {
      assert w.Log() == w.done;
      assert w'.obs.last.volume == w.obs.last.volume && w'.obs.last.muted == w.obs.last.muted &&
             w'.obs.last.repeat == w.obs.last.repeat && w'.obs.last.shuffle == w.obs.last.shuffle;
    }
    assert w'.View() == w.View() && w'.Write() == w.Write();
  }

  lemma {:induction false} BeginsInv(w: World, step: Step, now: Time, cfg: O.Config)
    requires Inv(w) && (step.BeginsScalars? || step.BeginsPlayback? || step.BeginsMedia?)
    ensures Inv(Next(w, step, now, cfg))
  {
    var w' := Next(w, step, now, cfg);
    if w' != w && step.BeginsScalars? {
      assert Joined(w);
      assert w'.View() == w.View() && w'.Write() == w.Write();
    }
  }

  lemma {:induction false} BeginsFullInv(w: World, pid: ID, now: Time, cfg: O.Config)
    requires Inv(w)
    ensures Inv(Next(w, BeginsFull(pid), now, cfg))
  {
    MintedMoves(w.client, w.minted, C.Observe(pid));
  }

  // ---- What is covered is included ----

  /** The event belongs to the observed player and to the connection history of `t`. */
  predicate Follows(w: World, e: Event, t: Token) {
    e.player == w.Pid() && PlayerKind(e.body) && SameGlobal(e.token, t) && e.token.player > t.player
  }

  /** Everything stamped for the observed player after the complete read is in the log. */
  ghost predicate Logged(w: World) {
    Joined(w) ==>
      SameGlobal(w.baseToken, w.obs.last.token) &&
      forall e :: e in w.minted && Follows(w, e, w.baseToken) ==> Ev(e) in w.Log()
  }

  /** An event is part of what the replay stands for: it was replayed, or the complete read
      was taken at a token that already counted it. */
  predicate Included(w: World, e: Event) {
    Ev(e) in w.done || e.token.revision < w.baseToken.revision ||
    (SameGlobal(e.token, w.baseToken) && e.token.player <= w.baseToken.player)
  }

  /** A step that keeps the player and the base, mints only what it logs, and drops nothing. */
  lemma {:induction false} LogGrows(w: World, w': World)
    requires Logged(w) && (Joined(w') ==> Joined(w)) && w'.Pid() == w.Pid() && w'.baseToken == w.baseToken
    requires SameGlobal(w'.obs.last.token, w.obs.last.token) || !Joined(w')
    requires forall e :: e in w'.minted && e !in w.minted && Follows(w', e, w.baseToken) ==> Ev(e) in w'.Log()
    requires forall v :: v in w.Log() ==> v in w'.Log()
    ensures Logged(w')
  {
  }

  lemma {:induction false} MovedLogged(w: World, step: C.Step)
    requires Inv(w) && Logged(w)
    ensures Logged(Moved(w, step))
  {
    var w' := Moved(w, step);
    MovedCarries(w, step);
    if Joined(w') { LogGrows(w, w'); }
  }

  lemma {:induction false} DeliveredLogged(w: World, e: Event, now: Time, cfg: O.Config)
    requires Inv(w) && Logged(w) && (e.gap || e in w.minted)
    ensures Logged(Delivered(w, e, now, cfg))
  {
    var w' := Delivered(w, e, now, cfg);
    DeliveredInv(w, e, now, cfg);
    NotifiedCases(w.obs, e, w.View(), w.Write(), now, cfg);
    LogGrows(w, w');
  }

  lemma {:induction false} FullDoneLogged(w: World, s: Snapshot)
    requires Inv(w) && Logged(w) && w.reading.Some? && w.reading.value.FullReading?
    requires s.player.id == w.reading.value.pid && s.token == w.reading.value.token
    ensures Logged(FullDone(w, s))
  {
  }

  /** The other readers commit only over the cache's own history. */
  lemma {:induction false} ReadLogged(w: World, w': World)
    requires Logged(w) && (Joined(w') ==> Joined(w)) && w'.Pid() == w.Pid() && w'.baseToken == w.baseToken
    requires w'.minted == w.minted
    requires SameGlobal(w'.obs.last.token, w.obs.last.token)
    requires w'.Log() == w.Log() || exists v :: w'.Log() == w.Log() + [v]
    ensures Logged(w')
  {
    LogGrows(w, w');
  }

  lemma {:induction false} ScalarDoneLogged(w: World, values: Snapshot, v: Evidence, now: Time, cfg: O.Config)
    requires Inv(w) && Logged(w) && w.reading.Some? && w.reading.value.ScalarReading?
    requires values.player == w.reading.value.captured.player && values.token == w.reading.value.token
    ensures Logged(ScalarDone(w, values, v, now, cfg))
  {
    var w' := ScalarDone(w, values, v, now, cfg);
    if ScalarCommits(w, values, now, cfg) {
      assert SameGlobal(w.reading.value.captured.token, w.reading.value.token);
      assert Joined(w);
      assert w'.Log() == w.Log() + [v];
    }
    ReadLogged(w, w');
  }

  lemma {:induction false} PlaybackLogged(w: World, state: PlayState, media: Option<Media>, now: Time, cfg: O.Config)
    requires Inv(w) && Logged(w) && w.reading.Some? && w.reading.value.PlaybackReading?
    ensures Logged(Next(w, CommitsPlayback(state, media), now, cfg))
  {
    var s := w.reading.value.captured.(state := state, media := media);
    if PlaybackCommits(w, s, now, cfg) {
      var obs := O.PlaybackCommitted(w.obs, s, w.View(), now, cfg);
      var w' := w.(obs := obs, reading := None, done := w.done + w.pending + [PlaybackRead(state)], pending := []);
      assert w'.Log() == w.Log() + [PlaybackRead(state)];
      ReadLogged(w, w');
    }
  }

  lemma {:induction false} MediaLogged(w: World, media: Option<Media>, now: Time, cfg: O.Config)
    requires Inv(w) && Logged(w) && w.reading.Some? && w.reading.value.MediaReading?
    ensures Logged(Next(w, CommitsMedia(media), now, cfg))
  {
    var obs := O.MediaCommitted(w.obs, w.reading.value.captured.(media := media), w.View());
    if !obs.invalid {
      var w' := w.(obs := obs, reading := None, done := w.done + w.pending + [MediaRead], pending := []);
      assert w'.Log() == w.Log() + [MediaRead];
      ReadLogged(w, w');
    }
  }

  lemma {:induction false} ConfirmLogged(w: World, s: Snapshot, now: Time, cfg: O.Config)
    requires Inv(w) && Logged(w) && O.ConfirmAllowed(w.obs, s, w.View(), w.Write(), now, cfg)
    ensures Logged(Next(w, Confirms(s), now, cfg))
  {
    var obs := O.Confirmed(w.obs, s, w.View(), w.Write(), now, cfg);
    var w' := w.(obs := obs, done := w.done + w.pending + [Acknowledged], pending := []);
    assert w'.Log() == w.Log() + [Acknowledged];
    ReadLogged(w, w');
  }

  // ---- Runs ----

  predicate Commits(step: Step) {
    step.CommitsFull? || step.CommitsVolume? || step.CommitsMode? || step.CommitsPlayback? || step.CommitsMedia?
  }

  lemma {:induction false} CommitsInv(w: World, step: Step, now: Time, cfg: O.Config)
    requires Inv(w) && Commits(step)
    ensures Inv(Next(w, step, now, cfg))
  {
    if w.reading.Some? {
      var r := w.reading.value;
      match step
      case CommitsFull(s) => if r.FullReading? && s.player.id == r.pid && s.token == r.token { FullDoneInv(w, s); }
      case CommitsVolume(level, muted) =>
        if r.ScalarReading? && r.fields == O.VOLUME_FIELDS {
          ScalarDoneInv(w, r.captured.(token := r.token, volume := Some(level), muted := Some(muted)),
                        VolumeRead(level, muted), now, cfg);
        }
      case CommitsMode(repeat, shuffle) =>
        if r.ScalarReading? && r.fields == O.MODE_FIELDS {
          ScalarDoneInv(w, r.captured.(token := r.token, repeat := repeat, shuffle := shuffle),
                        ModeRead(repeat, shuffle), now, cfg);
        }
      case CommitsPlayback(state, media) => if r.PlaybackReading? { PlaybackDoneInv(w, state, media, now, cfg); }
      case CommitsMedia(media) => if r.MediaReading? { MediaDoneInv(w, media, now, cfg); }
    }
  }

  lemma {:induction false} NextInv(w: World, step: Step, now: Time, cfg: O.Config)
    requires Inv(w) && Honest(w, step, now, cfg)
    ensures Inv(Next(w, step, now, cfg))
  {
    match step
    case ClientMoves(s) => MovedInv(w, s);
    case Delivers(e) => DeliveredInv(w, e, now, cfg);
    case BeginsFull(pid) => BeginsFullInv(w, pid, now, cfg);
    case BeginsScalars(volume) => BeginsInv(w, step, now, cfg);
    case BeginsPlayback => BeginsInv(w, step, now, cfg);
    case BeginsMedia => BeginsInv(w, step, now, cfg);
    case AbandonsRead(invalidate) =>
    case Confirms(s) =>
      if O.ConfirmAllowed(w.obs, s, w.View(), w.Write(), now, cfg) {
        ConfirmJoined(w, s, now, cfg);
        ConfirmReading(w, s, now, cfg);
      }
    case _ => CommitsInv(w, step, now, cfg);
  }

  lemma {:induction false} CommitsLogged(w: World, step: Step, now: Time, cfg: O.Config)
    requires Inv(w) && Logged(w) && Commits(step)
    ensures Logged(Next(w, step, now, cfg))
  {
    if w.reading.Some? {
      var r := w.reading.value;
      match step
      case CommitsFull(s) => if r.FullReading? && s.player.id == r.pid && s.token == r.token { FullDoneLogged(w, s); }
      case CommitsVolume(level, muted) =>
        if r.ScalarReading? && r.fields == O.VOLUME_FIELDS {
          ScalarDoneLogged(w, r.captured.(token := r.token, volume := Some(level), muted := Some(muted)),
                           VolumeRead(level, muted), now, cfg);
        }
      case CommitsMode(repeat, shuffle) =>
        if r.ScalarReading? && r.fields == O.MODE_FIELDS {
          ScalarDoneLogged(w, r.captured.(token := r.token, repeat := repeat, shuffle := shuffle),
                           ModeRead(repeat, shuffle), now, cfg);
        }
      case CommitsPlayback(state, media) => if r.PlaybackReading? { PlaybackLogged(w, state, media, now, cfg); }
      case CommitsMedia(media) => if r.MediaReading? { MediaLogged(w, media, now, cfg); }
    }
  }

  lemma {:induction false} NextLogged(w: World, step: Step, now: Time, cfg: O.Config)
    requires Inv(w) && Logged(w) && Honest(w, step, now, cfg)
    ensures Logged(Next(w, step, now, cfg))
  {
    match step
    case ClientMoves(s) => MovedLogged(w, s);
    case Delivers(e) => DeliveredLogged(w, e, now, cfg);
    case Confirms(s) =>
      if O.ConfirmAllowed(w.obs, s, w.View(), w.Write(), now, cfg) { ConfirmLogged(w, s, now, cfg); }
    case BeginsFull(_) =>
    case BeginsScalars(_) =>
    case BeginsPlayback =>
    case BeginsMedia =>
    case AbandonsRead(_) =>
    case _ => CommitsLogged(w, step, now, cfg);
  }

  lemma {:induction false} RunInv(w: World, steps: seq<Timed>, cfg: O.Config)
    requires Inv(w) && Logged(w) && HonestRun(w, steps, cfg)
    ensures Inv(Run(w, steps, cfg)) && Logged(Run(w, steps, cfg))
    decreases steps
  {
    if steps != [] {
      NextInv(w, steps[0].step, steps[0].now, cfg);
      NextLogged(w, steps[0].step, steps[0].now, cfg);
      RunInv(Next(w, steps[0].step, steps[0].now, cfg), steps[1..], cfg);
    }
  }

  // ---- The play state ----

  /** The one step that loses the play state: a publication over an unsettled one. */
  predicate Hides(w: World, step: Step, now: Time, cfg: O.Config) {
    step.Confirms? && O.ConfirmAllowed(w.obs, step.s, w.View(), w.Write(), now, cfg) && !StateSettled(w)
  }

  lemma {:induction false} DeliveredState(w: World, e: Event, now: Time, cfg: O.Config)
    requires Inv(w) && StateAgrees(w) && (e.gap || e in w.minted)
    ensures StateAgrees(Delivered(w, e, now, cfg))
  {
    if Takes(w.obs, e, w.View(), w.Write(), now, cfg) {
      var k := AppliedShape(w, e, now, cfg);
      var _ := AppliedEvent(w, e, now, cfg);
      AbsorbedLog(w, k + 1);
      TakenState(Replay(w.base, w.done), w.pending[..k + 1], e);
    } else {
      NotifiedCases(w.obs, e, w.View(), w.Write(), now, cfg);
    }
  }

  lemma {:induction false} TakenState(p: Projection, taken: seq<Evidence>, e: Event)
    requires e.valid && (taken == [Ev(e)] || (|taken| == 2 && taken[0].Wr? && taken[1] == Ev(e)))
    ensures Replay(p, taken).state == if e.body.StateChanged? then e.body.state else p.state
  {
    ReplayPrefix(p, taken);
  }

  lemma {:induction false} ScalarDoneState(w: World, values: Snapshot, v: Evidence, now: Time, cfg: O.Config)
    requires Inv(w) && StateAgrees(w) && w.reading.Some? && w.reading.value.ScalarReading?
    requires ReadValues(w.reading.value, values, v)
    ensures StateAgrees(ScalarDone(w, values, v, now, cfg))
  {
    if ScalarCommits(w, values, now, cfg) {
      assert SameGlobal(w.reading.value.captured.token, w.reading.value.token);
      assert Joined(w);
      ScalarReplay(w, v);
    }
  }

  /** A complete read and a playback read bring the state back, whatever was hidden before. */
  lemma {:induction false} ReadRestoresState(w: World, step: Step, now: Time, cfg: O.Config)
    requires Inv(w) && w.reading.Some?
    requires (step.CommitsPlayback? && w.reading.value.PlaybackReading?) ||
             (step.CommitsFull? && w.reading.value.FullReading?)
    ensures var w' := Next(w, step, now, cfg); w'.obs.last != w.obs.last ==> StateAgrees(w')
  {
    if step.CommitsPlayback? {
      var s := w.reading.value.captured.(state := step.state, media := step.media);
      if PlaybackCommits(w, s, now, cfg) { ReplayOne(w.base, w.done + w.pending, PlaybackRead(step.state)); }
    }
  }

  lemma {:induction false} CommitsState(w: World, step: Step, now: Time, cfg: O.Config)
    requires Inv(w) && StateAgrees(w) && Commits(step)
    ensures StateAgrees(Next(w, step, now, cfg))
  {
    if w.reading.Some? {
      var r := w.reading.value;
      match step
      case CommitsVolume(level, muted) =>
        if r.ScalarReading? && r.fields == O.VOLUME_FIELDS {
          ScalarDoneState(w, r.captured.(token := r.token, volume := Some(level), muted := Some(muted)),
                          VolumeRead(level, muted), now, cfg);
        }
      case CommitsMode(repeat, shuffle) =>
        if r.ScalarReading? && r.fields == O.MODE_FIELDS {
          ScalarDoneState(w, r.captured.(token := r.token, repeat := repeat, shuffle := shuffle),
                          ModeRead(repeat, shuffle), now, cfg);
        }
      case CommitsPlayback(state, media) => if r.PlaybackReading? { PlaybackState(w, state, media, now, cfg); }
      case CommitsMedia(media) => if r.MediaReading? { MediaState(w, media, now, cfg); }
      case CommitsFull(_) =>
    }
  }

  lemma {:induction false} PlaybackState(w: World, state: PlayState, media: Option<Media>, now: Time, cfg: O.Config)
    requires Inv(w) && StateAgrees(w) && w.reading.Some? && w.reading.value.PlaybackReading?
    ensures StateAgrees(Next(w, CommitsPlayback(state, media), now, cfg))
  {
    var s := w.reading.value.captured.(state := state, media := media);
    if PlaybackCommits(w, s, now, cfg) { ReplayOne(w.base, w.done + w.pending, PlaybackRead(state)); }
  }

  lemma {:induction false} MediaState(w: World, media: Option<Media>, now: Time, cfg: O.Config)
    requires Inv(w) && StateAgrees(w) && w.reading.Some? && w.reading.value.MediaReading?
    ensures StateAgrees(Next(w, CommitsMedia(media), now, cfg))
  {
    var obs := O.MediaCommitted(w.obs, w.reading.value.captured.(media := media), w.View());
    if !obs.invalid {
      assert Joined(w);
      ChainGrows(w.obs.last.token, w.pending, w.View().token);
      assert w.done + w.pending == w.done;
      ReplayOne(w.base, w.done, MediaRead);
    }
  }

  /** Every step keeps the play state in agreement, except exactly the one that hides it. */
  lemma {:induction false} NextState(w: World, step: Step, now: Time, cfg: O.Config)
    requires Inv(w) && StateAgrees(w) && Honest(w, step, now, cfg)
    ensures StateAgrees(Next(w, step, now, cfg)) <==> !Hides(w, step, now, cfg)
  {
    match step
    case ClientMoves(s) => MovedCarries(w, s);
    case Delivers(e) => DeliveredState(w, e, now, cfg);
    case Confirms(s) =>
      if O.ConfirmAllowed(w.obs, s, w.View(), w.Write(), now, cfg) { ConfirmAgreesExactly(w, s, now, cfg); }
    case BeginsFull(_) =>
    case BeginsScalars(_) =>
    case BeginsPlayback =>
    case BeginsMedia =>
    case AbandonsRead(_) =>
    case _ => CommitsState(w, step, now, cfg);
  }

  predicate NeverHides(w: World, steps: seq<Timed>, cfg: O.Config)
    decreases steps
  {
    steps == [] || (!Hides(w, steps[0].step, steps[0].now, cfg) &&
                    NeverHides(Next(w, steps[0].step, steps[0].now, cfg), steps[1..], cfg))
  }

  lemma {:induction false} RunState(w: World, steps: seq<Timed>, cfg: O.Config)
    requires Inv(w) && StateAgrees(w) && HonestRun(w, steps, cfg) && NeverHides(w, steps, cfg)
    ensures StateAgrees(Run(w, steps, cfg))
    decreases steps
  {
    if steps != [] {
      NextInv(w, steps[0].step, steps[0].now, cfg);
      NextState(w, steps[0].step, steps[0].now, cfg);
      RunState(Next(w, steps[0].step, steps[0].now, cfg), steps[1..], cfg);
    }
  }

  /** After any run, an event that a valid cache would skip as covered is included in what
      the cache stands for: it was replayed, or the last complete read was taken at a token
      that had already counted it, in this revision or a later one. And an event of the
      observed player that is not yet replayed is exactly one ahead of the cached token. */
  lemma {:induction false} CoveredIsIncluded(w: World, steps: seq<Timed>, cfg: O.Config, e: Event)
    requires Initial(w) && HonestRun(w, steps, cfg)
    requires Joined(Run(w, steps, cfg)) && e in Run(w, steps, cfg).minted
    ensures var v := Run(w, steps, cfg);
            O.CoveredEvent(e.token, v.obs.last.token) ==>
              if e.player == v.Pid() && PlayerKind(e.body) then Included(v, e)
              else e.token.revision <= v.baseToken.revision
    ensures var v := Run(w, steps, cfg);
            e.player == v.Pid() && PlayerKind(e.body) && SameGlobal(e.token, v.obs.last.token) ==>
              (e.token.player > v.obs.last.token.player <==> Ev(e) in v.pending)
  {
    RunInv(w, steps, cfg);
    var v := Run(w, steps, cfg);
    ChainGrows(v.obs.last.token, v.pending, v.View().token);
  }

  /** The cache agrees with the replay it speeds up. After any run from a new observer, a
      snapshot that is not stale has exactly the volume, mute, repeat and shuffle that
      replaying all evidence since the last complete read gives, and also the play state
      unless a publication hid it; every announced media change has been read, no queue edit
      is hidden, and, when setters were sent one confirmed at a time, every changed field has
      been confirmed. */
  lemma {:induction false} CacheAgreement(w: World, steps: seq<Timed>, now: Time, cfg: O.Config)
    requires Initial(w) && HonestRun(w, steps, cfg)
    ensures var v := Run(w, steps, cfg);
            var s, p := O.Seen(v.obs, v.View(), now, cfg), Replay(v.base, v.Log());
            !s.stale ==>
              s.volume == p.volume && s.muted == p.muted && s.repeat == p.repeat && s.shuffle == p.shuffle &&
              (NeverHides(w, steps, cfg) ==> s.state == p.state) &&
              !p.mediaDue && !p.broken && (v.disciplined ==> p.due == O.NO_FIELDS)
  {
    RunInv(w, steps, cfg);
    var v := Run(w, steps, cfg);
    if NeverHides(w, steps, cfg) { RunState(w, steps, cfg); }
    if !O.Seen(v.obs, v.View(), now, cfg).stale {
      assert Joined(v);
      ChainGrows(v.obs.last.token, v.pending, v.View().token);
      assert v.Log() == v.done;
    }
  }
}
