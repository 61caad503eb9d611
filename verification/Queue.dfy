/** Native queue evidence: exact ordered identity, growing suffixes, removed prefixes,
    and the position of one occurrence among repeated media. */
module Queue {
  import opened Heos

  function Ids(items: seq<Media>): seq<ID> {
    seq(|items|, i requires 0 <= i < |items| => items[i].id)
  }

  ghost predicate Complete(q: QueuePage) {
    q.total == Some(|q.items|) && q.next.None?
  }

  /** Every entry has its own nonempty queue ID; media IDs may repeat. */
  ghost predicate Numbered(items: seq<Media>) {
    (forall i :: 0 <= i < |items| ==> items[i].queueId != "") && DistinctQueueIds(items)
  }

  /** The same of the first `k` entries. */
  ghost predicate NumberedTo(items: seq<Media>, k: nat)
    requires k <= |items|
  {
    (forall i :: 0 <= i < k ==> items[i].queueId != "") &&
    (forall i, j :: 0 <= i < j < k ==> items[i].queueId != items[j].queueId)
  }

  /** The complete queue is exactly `ids`, in order and with multiplicity. */
  ghost predicate Ordered(q: QueuePage, ids: seq<ID>) {
    Complete(q) && Ids(q.items) == ids && Numbered(q.items)
  }

  /** The old queue, unchanged, followed by some of what was asked for. */
  ghost predicate Growing(before: QueuePage, after: QueuePage, ids: seq<ID>) {
    Complete(after) && |before.items| <= |after.items| <= |ids| && Ids(after.items) == ids[..|after.items|] &&
    Numbered(after.items) &&
    forall i :: 0 <= i < |before.items| ==>
      after.items[i].queueId == before.items[i].queueId && after.items[i].id == before.items[i].id
  }

  /** The old queue without its first `n` entries. Entries may be renumbered, but not
      before anything was removed. */
  ghost predicate Shrunk(before: QueuePage, after: QueuePage, n: int) {
    Complete(after) && 0 <= n == |before.items| - |after.items| && Ids(after.items) == Ids(before.items)[n..] &&
    Numbered(after.items) &&
    (n == 0 ==> forall i :: 0 <= i < |after.items| ==> after.items[i].queueId == before.items[i].queueId)
  }

  ghost predicate SelectedQueue(q: QueuePage, members: set<ID>) {
    Complete(q) && q.items != [] && Numbered(q.items) && forall i :: 0 <= i < |q.items| ==> q.items[i].id in members
  }

  method OrderedQueue(q: QueuePage, ids: seq<ID>) returns (ok: bool)
    ensures ok <==> Ordered(q, ids)
  {
    if |q.items| != |ids| || q.total != Some(|ids|) || q.next.Some? { return false; }
    var seen: set<ID> := {};
    for i := 0 to |q.items|
      invariant forall j :: 0 <= j < i ==> q.items[j].id == ids[j]
      invariant NumberedTo(q.items, i)
      invariant seen == set j | 0 <= j < i :: q.items[j].queueId
    {
      var m := q.items[i];
      if m.id != ids[i] {
        assert Ids(q.items)[i] != ids[i];
        return false;
      }
      if m.queueId == "" || m.queueId in seen { return false; }
      seen := seen + {m.queueId};
    }
    assert Ids(q.items) == ids;
    return true;
  }

  method AppendQueueProblem(before: QueuePage, after: QueuePage, ids: seq<ID>) returns (problem: bool)
    ensures problem <==> !Growing(before, after, ids)
  {
    if after.total != Some(|after.items|) || after.next.Some? || |after.items| < |before.items| ||
       |after.items| > |ids| {
      return true;
    }
    var seen: set<ID> := {};
    for i := 0 to |after.items|
      invariant forall j :: 0 <= j < i ==> after.items[j].id == ids[j]
      invariant forall j :: 0 <= j < i && j < |before.items| ==>
                  after.items[j].queueId == before.items[j].queueId && after.items[j].id == before.items[j].id
      invariant NumberedTo(after.items, i)
      invariant seen == set j | 0 <= j < i :: after.items[j].queueId
    {
      var m := after.items[i];
      if m.id != ids[i] {
        assert Ids(after.items)[i] != ids[..|after.items|][i];
        return true;
      }
      if m.queueId == "" || m.queueId in seen { return true; }
      if i < |before.items| && (m.queueId != before.items[i].queueId || m.id != before.items[i].id) { return true; }
      seen := seen + {m.queueId};
    }
    assert Ids(after.items) == ids[..|after.items|];
    return false;
  }

  /** Entry by entry, what is left of `before` without its first `n` entries. */
  ghost predicate Suffix(before: seq<Media>, after: seq<Media>, n: nat)
    requires n + |after| == |before|
  {
    (forall j :: 0 <= j < |after| ==> after[j].id == before[j + n].id) &&
    (n == 0 ==> forall j :: 0 <= j < |after| ==> after[j].queueId == before[j].queueId)
  }

  lemma SuffixIds(before: seq<Media>, after: seq<Media>, n: nat)
    requires n + |after| == |before|
    ensures Ids(after) == Ids(before)[n..] <==> forall j :: 0 <= j < |after| ==> after[j].id == before[j + n].id
  {
    assert forall j :: 0 <= j < |after| ==> Ids(after)[j] == after[j].id && Ids(before)[n..][j] == before[j + n].id;
    if Ids(after) == Ids(before)[n..] {
      forall j | 0 <= j < |after| ensures after[j].id == before[j + n].id {
        assert Ids(after)[j] == Ids(before)[n..][j];
      }
    }
  }

  method SuffixRemains(before: seq<Media>, after: seq<Media>, n: nat) returns (ok: bool)
    requires n + |after| == |before|
    ensures ok <==> Suffix(before, after, n) && Numbered(after)
  {
    var seen: set<ID> := {};
    for i := 0 to |after|
      invariant forall j :: 0 <= j < i ==> after[j].id == before[j + n].id
      invariant n == 0 ==> forall j :: 0 <= j < i ==> after[j].queueId == before[j].queueId
      invariant NumberedTo(after, i)
      invariant seen == set j | 0 <= j < i :: after[j].queueId
    {
      var item, original := after[i], before[i + n];
      if item.id != original.id || item.queueId == "" || item.queueId in seen { return false; }
      if n == 0 && item.queueId != original.queueId { return false; }
      seen := seen + {item.queueId};
    }
    return true;
  }

  method RemovedQueuePrefix(before: QueuePage, after: QueuePage, maximum: int) returns (removed: int, valid: bool)
    ensures valid <==>
      Shrunk(before, after, |before.items| - |after.items|) && |before.items| - |after.items| <= maximum
    ensures removed == if valid then |before.items| - |after.items| else 0
  {
    removed := |before.items| - |after.items|;
    if removed < 0 || removed > maximum || after.total != Some(|after.items|) || after.next.Some? { return 0, false; }
    valid := SuffixRemains(before.items, after.items, removed);
    SuffixIds(before.items, after.items, removed);
    if !valid { removed := 0; }
  }

  method CompleteOwnedQueue(q: QueuePage, members: set<ID>) returns (ok: bool)
    ensures ok <==> SelectedQueue(q, members)
  {
    if q.total != Some(|q.items|) || |q.items| == 0 || q.next.Some? { return false; }
    var seen: set<ID> := {};
    for i := 0 to |q.items|
      invariant forall j :: 0 <= j < i ==> q.items[j].id in members
      invariant NumberedTo(q.items, i)
      invariant seen == set j | 0 <= j < i :: q.items[j].queueId
    {
      var m := q.items[i];
      if m.queueId == "" || m.queueId in seen || m.id !in members { return false; }
      seen := seen + {m.queueId};
    }
    return true;
  }

  predicate Occurrence(item: Media, m: Media) { item.queueId == m.queueId && item.id == m.id }

  /** The first entry carrying this exact MID/QID pair, or -1. */
  function IndexOf(items: seq<Media>, m: Media): (k: int)
    ensures -1 <= k < |items|
    ensures k >= 0 ==> Occurrence(items[k], m) && forall j :: 0 <= j < k ==> !Occurrence(items[j], m)
    ensures k < 0 <==> forall j :: 0 <= j < |items| ==> !Occurrence(items[j], m)
  {
    if items == [] then -1
    else if Occurrence(items[0], m) then 0
    else
      var k := IndexOf(items[1..], m);
      assert forall j :: 1 <= j < |items| ==> items[j] == items[1..][j - 1];
      if k < 0 then -1 else k + 1
  }

  function QueueIndex(s: Snapshot): int {
    if s.media.None? then -1 else IndexOf(s.queue.items, s.media.value)
  }

  /** With distinct queue IDs an occurrence has one position, so any match is the first. */
  lemma OccurrenceUnique(items: seq<Media>, m: Media, k: nat)
    requires DistinctQueueIds(items) && k < |items| && Occurrence(items[k], m)
    ensures IndexOf(items, m) == k
  {
  }

  /** The worker's position: only confirmed Play of an exact member of the expected queue. */
  ghost function Position(s: Snapshot, ids: seq<ID>): Option<int> {
    if s.state == Play && Ordered(s.queue, ids) && QueuedMedia(s.queue, s.media) then Some(QueueIndex(s)) else None
  }

  method BufferedPosition(s: Snapshot, ids: seq<ID>) returns (position: Option<int>)
    ensures position == Position(s, ids)
    ensures position.Some? ==> 0 <= position.value < |ids| && ids[position.value] == s.media.value.id
  {
    var ordered := OrderedQueue(s.queue, ids);
    if s.state != Play || !ordered || !QueuedMedia(s.queue, s.media) { return None; }
    for i := 0 to |s.queue.items|
      invariant forall j :: 0 <= j < i ==> !Occurrence(s.queue.items[j], s.media.value)
    {
      if s.queue.items[i].queueId == s.media.value.queueId && s.queue.items[i].id == s.media.value.id {
        assert Ids(s.queue.items)[i] == ids[i];
        return Some(i);
      }
    }
    assert false;
    return None;
  }

  /** A removal may be sent only if it is a proper prefix of the observed queue that leaves
      the playing entry (its last occurrence) and `retain` entries before it. */
  ghost predicate RemovablePrefix(s: Snapshot, ids: seq<ID>, retain: int) {
    s.state == Play && QueuedMedia(s.queue, s.media) && 0 < |ids| < |s.queue.items| &&
    (forall i :: 0 <= i < |ids| ==> s.queue.items[i].queueId == ids[i]) &&
    exists k :: LastOccurrence(s.queue.items, s.media.value, k) && k - |ids| >= retain
  }

  ghost predicate LastOccurrence(items: seq<Media>, m: Media, k: int) {
    0 <= k < |items| && Occurrence(items[k], m) && forall j :: k < j < |items| ==> !Occurrence(items[j], m)
  }

  method RemovalAllowed(s: Snapshot, ids: seq<ID>, retain: int) returns (ok: bool)
    ensures ok <==> RemovablePrefix(s, ids, retain)
  {
    if s.state != Play || !QueuedMedia(s.queue, s.media) { return false; }
    var n := |ids|;
    if n == 0 || n >= |s.queue.items| { return false; }
    var current := -1;
    for i := 0 to |s.queue.items|
      invariant forall j :: 0 <= j < i && j < n ==> s.queue.items[j].queueId == ids[j]
      invariant -1 <= current < i
      invariant current >= 0 ==> Occurrence(s.queue.items[current], s.media.value)
      invariant forall j :: current < j < i ==> !Occurrence(s.queue.items[j], s.media.value)
    {
      if i < n && s.queue.items[i].queueId != ids[i] { return false; }
      if s.queue.items[i].queueId == s.media.value.queueId && s.queue.items[i].id == s.media.value.id { current := i; }
    }
    assert LastOccurrence(s.queue.items, s.media.value, current);
    ok := current - n >= retain;
  }

  /** In a well-numbered queue that is a statement about the position itself. */
  lemma RemovableLeavesHistory(s: Snapshot, ids: seq<ID>, retain: int)
    requires RemovablePrefix(s, ids, retain) && DistinctQueueIds(s.queue.items)
    ensures QueueIndex(s) - |ids| >= retain
  {
    var k :| LastOccurrence(s.queue.items, s.media.value, k) && k - |ids| >= retain;
    OccurrenceUnique(s.queue.items, s.media.value, k);
  }

  // ---- Confirmation of a pending append or removal ----

  datatype Verdict = Confirmed | Pending | Rejected

  /** Generation and every control outside state, media and queue are unchanged. */
  predicate LoadingControls(before: Snapshot, after: Snapshot) {
    before.token.generation == after.token.generation &&
    SameState(before.(state := after.state, media := after.media, queue := after.queue), after)
  }

  /** MID and QID both belong to the queue, but to different entries. */
  predicate TransitionalMedia(q: QueuePage, m: Option<Media>) {
    QueuedIdentity(q, m) && m.value.queueId != "" && FirstQueueIdDiffers(q.items, m.value)
  }

  predicate FirstQueueIdDiffers(items: seq<Media>, m: Media) {
    items != [] &&
    if items[0].queueId == m.queueId then items[0].id != m.id else FirstQueueIdDiffers(items[1..], m)
  }

  /** What one readback says about a pending append to `ordered`. `safe` stands for the
      cancellation, deadline and device checks, `current` for no uncovered newer event. */
  ghost function AppendVerdict(
      before: Snapshot, after: Snapshot, ordered: seq<ID>, safe: bool, current: bool): Verdict {
    var validMedia := QueuedMedia(after.queue, after.media);
    var pendingMedia := EmptyMedia(after.media) || TransitionalMedia(after.queue, after.media) ||
                        (after.state != Play && QueuedIdentity(after.queue, after.media));
    if !safe || !LoadingControls(before, after) || !Growing(before.queue, after.queue, ordered) then Rejected
    else if after.state != Play && after.state != Stop && after.state != Unknown then Rejected
    else if !validMedia && !pendingMedia then Rejected
    else if after.state == Play && validMedia && Ordered(after.queue, ordered) && current then Confirmed
    else Pending
  }

  /** What one readback says about a pending removal of the first `n` entries. */
  ghost function RemoveVerdict(
      before: Snapshot, after: Snapshot, n: int, ordered: seq<ID>, safe: bool, current: bool): Verdict {
    var removed := |before.queue.items| - |after.queue.items|;
    var position := QueueIndex(before);
    if !safe || !LoadingControls(before, after) then Rejected
    else if !Shrunk(before.queue, after.queue, removed) || removed > n then Rejected
    else if !QueuedMedia(before.queue, before.media) || position < removed ||
            position - removed >= |after.queue.items| then Rejected
    else if after.state != Play && after.state != Stop && after.state != Unknown then Rejected
    else
      var entry := after.queue.items[position - removed];
      var same := after.media.Some? && Occurrence(entry, after.media.value);
      var validMedia := QueuedMedia(after.queue, after.media);
      var pendingMedia := EmptyMedia(after.media) || TransitionalMedia(after.queue, after.media) ||
          QueuedMedia(before.queue, after.media);
      if !validMedia && !pendingMedia then Rejected
      else if removed == n && after.state == Play && validMedia && same && Ordered(after.queue, ordered) &&
      current then Confirmed
      else Pending
  }

  method AppendObservation(before: Snapshot, after: Snapshot, ordered: seq<ID>, safe: bool, current: bool)
    returns (v: Verdict)
    ensures v == AppendVerdict(before, after, ordered, safe, current)
  {
    if !safe || !LoadingControls(before, after) { return Rejected; }
    var problem := AppendQueueProblem(before.queue, after.queue, ordered);
    if problem { return Rejected; }
    if after.state != Play && after.state != Stop && after.state != Unknown { return Rejected; }
    var validMedia := QueuedMedia(after.queue, after.media);
    var pendingMedia := EmptyMedia(after.media) || TransitionalMedia(after.queue, after.media) ||
                        (after.state != Play && QueuedIdentity(after.queue, after.media));
    if !validMedia && !pendingMedia { return Rejected; }
    var complete := OrderedQueue(after.queue, ordered);
    v := if after.state == Play && validMedia && complete && current then Confirmed else Pending;
  }

  method RemoveObservation(before: Snapshot, after: Snapshot, n: int, ordered: seq<ID>, safe: bool, current: bool)
    returns (v: Verdict)
    ensures v == RemoveVerdict(before, after, n, ordered, safe, current)
  {
    if !safe || !LoadingControls(before, after) { return Rejected; }
    var removed, valid := RemovedQueuePrefix(before.queue, after.queue, n);
    if !valid { return Rejected; }
    var position := QueueIndex(before);
    if !QueuedMedia(before.queue, before.media) || position < removed || position - removed >= |after.queue.items| {
      return Rejected;
    }
    if after.state != Play && after.state != Stop && after.state != Unknown { return Rejected; }
    var entry := after.queue.items[position - removed];
    var same := after.media.Some? && Occurrence(entry, after.media.value);
    var validMedia := QueuedMedia(after.queue, after.media);
    var pendingMedia := EmptyMedia(after.media) || TransitionalMedia(after.queue, after.media) ||
        QueuedMedia(before.queue, after.media);
    if !validMedia && !pendingMedia { return Rejected; }
    var complete := OrderedQueue(after.queue, ordered);
    v := if removed == n && after.state == Play && validMedia && same && complete &&
    current then Confirmed else Pending;
  }

  /** A confirmed removal keeps the playing occurrence: its position moves by exactly the
      number removed, although queue IDs were reassigned and media IDs may repeat. */
  lemma RemovalKeepsOccurrence(before: Snapshot, after: Snapshot, n: int, ordered: seq<ID>, safe: bool, current: bool)
    requires RemoveVerdict(before, after, n, ordered, safe, current) == Confirmed
    ensures QueueIndex(after) == QueueIndex(before) - n
    ensures 0 <= QueueIndex(after) < |ordered|
    ensures ordered[QueueIndex(after)] == before.media.value.id == after.media.value.id
    ensures ordered == Ids(before.queue.items)[n..] && after.state == Play
  {
    var k := QueueIndex(before) - n;
    OccurrenceUnique(after.queue.items, after.media.value, k);
    assert Ids(after.queue.items)[k] == Ids(before.queue.items)[n..][k];
  }

  /** Comparing by membership would not do: the unchanged now-playing pair can be a member of
      the renumbered queue and yet name another occurrence of the same media. */
  lemma MembershipIsNotPosition(m: ID, d: Metadata)
    requires m != ""
    ensures var a, b, c := Media(LOCAL_QUEUE, m, "1", d), Media(LOCAL_QUEUE, m, "2", d), Media(LOCAL_QUEUE, m, "3", d);
            var t := Token(0, 0, 0, 0, 0);
            var before, after := QueuePage([a, b, c], Some(3), None, t), QueuePage([a, b], Some(2), None, t);
            Shrunk(before, after, 1) && QueuedMedia(after, Some(b)) &&
            IndexOf(before.items, b) - 1 == 0 && IndexOf(after.items, b) == 1
  {
    var a, b, c := Media(LOCAL_QUEUE, m, "1", d), Media(LOCAL_QUEUE, m, "2", d), Media(LOCAL_QUEUE, m, "3", d);
    OccurrenceUnique([a, b, c], b, 1);
    OccurrenceUnique([a, b], b, 1);
    assert [a, b][1].queueId == b.queueId;
    assert Ids([a, b]) == Ids([a, b, c])[1..];
  }
}
