/** Values shared by the observation and control layers: what the device reports,
    the five-part token that orders those reports, and the comparisons on them. */
module Heos {

  datatype Option<+T> = None | Some(value: T)

  /** A wire identifier. The empty string is the absent identifier. */
  type ID = string

  datatype PlayState = Absent | Play | Pause | Stop | Unknown {
    predicate Active() { Play? || Pause? }
    predicate Known() { !Absent? }
  }

  datatype Repeat = NoRepeat | RepeatOff | RepeatOnAll | RepeatOnOne {
    predicate Known() { !NoRepeat? }
  }

  datatype Metadata = Metadata(song: string, album: string, artist: string)

  datatype Media = Media(source: ID, id: ID, queueId: ID, metadata: Metadata)

  datatype QueuePage = QueuePage(items: seq<Media>, total: Option<int>, next: Option<int>, token: Token)

  datatype Player = Player(id: ID, name: string, model: string, serial: string, ip: string, groupId: ID)

  /** Connection generation, global revision, catalog revision, and the per-player
      event and write counters. All five only ever grow. */
  datatype Token = Token(generation: nat, revision: nat, catalog: nat, player: nat, write: nat)

  datatype View = View(token: Token, connected: bool)

  predicate SameGlobal(a: Token, b: Token) {
    a.generation == b.generation && a.revision == b.revision && a.catalog == b.catalog
  }

  /** Times are nanoseconds on one clock. */
  type Time = int

  const SECOND: Time := 1_000_000_000

  datatype Snapshot = Snapshot(
    repeat: Repeat, shuffle: bool, player: Player, grouped: bool, state: PlayState,
    volume: Option<int>, muted: Option<bool>, media: Option<Media>, queue: QueuePage,
    observedAt: Time, token: Token, stale: bool, connected: bool, verified: bool, eventUpdated: bool)

  /** One explicit device command. */
  datatype Mutation =
    | SetVolume(level: int)
    | SetMute(muted: bool)
    | SetTransport(state: PlayState)
    | SkipTrack(direction: string)
    | SetMode(repeat: Repeat, shuffle: bool)
    | QueueItem(item: ID, append: bool)
    | RemoveItems(queueIds: seq<ID>)

  predicate ScalarMutation(m: Mutation) { m.SetVolume? || m.SetMute? || m.SetMode? }

  /** A decoded notification; `valid` says every field its kind requires was present. */
  datatype EventBody =
    | StateChanged(state: PlayState)
    | NowPlayingChanged
    | PlaybackError
    | QueueChanged
    | VolumeChanged(level: int, muted: bool)
    | RepeatChanged(repeat: Repeat)
    | ShuffleChanged(shuffle: bool)
    | Progress
    | CatalogChanged   // sources, players or user changed
    | OtherChanged     // groups, group volume, unknown notifications

  /** The kinds that advance one player's counter rather than the global revision. */
  predicate PlayerKind(b: EventBody) {
    b.StateChanged? || b.NowPlayingChanged? || b.PlaybackError? || b.QueueChanged? ||
    b.VolumeChanged? || b.RepeatChanged? || b.ShuffleChanged?
  }

  datatype Event = Event(body: EventBody, player: ID, valid: bool, gap: bool, token: Token)

  /** No control, queue or media field differs (an empty list of state changes). */
  predicate SameState(a: Snapshot, b: Snapshot) {
    a.repeat == b.repeat && a.shuffle == b.shuffle && a.player == b.player && a.grouped == b.grouped &&
    a.state == b.state && a.volume == b.volume && a.muted == b.muted &&
    a.queue.items == b.queue.items && a.queue.total == b.queue.total && a.media == b.media
  }

  predicate EmptyMedia(m: Option<Media>) {
    m.None? || (m.value.source == "" && m.value.id == "" && m.value.queueId == "")
  }

  /** The local queue is source 1024. */
  const LOCAL_QUEUE: ID := "1024"

  /** The exact MID/QID pair of some queue entry. */
  predicate QueuedMedia(q: QueuePage, m: Option<Media>) {
    m.Some? && m.value.source == LOCAL_QUEUE && m.value.id != "" && m.value.queueId != "" &&
    exists i :: 0 <= i < |q.items| && q.items[i].queueId == m.value.queueId && q.items[i].id == m.value.id
  }

  /** The MID of some queue entry; its QID may not have settled. */
  predicate QueuedIdentity(q: QueuePage, m: Option<Media>) {
    m.Some? && m.value.source == LOCAL_QUEUE && m.value.id != "" &&
    exists i :: 0 <= i < |q.items| && q.items[i].id == m.value.id
  }

  predicate DistinctQueueIds(items: seq<Media>) {
    forall i, j :: 0 <= i < j < |items| ==> items[i].queueId != items[j].queueId
  }

  lemma SubsetSize<T>(a: set<T>, b: set<T>)
    requires a <= b
    ensures |a| <= |b| && (|a| == |b| ==> a == b)
  {
    assert b == a + (b - a);
  }
}
