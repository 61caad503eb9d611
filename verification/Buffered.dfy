/** A finite manifest streamed through a bounded native queue: the admission arithmetic,
    the maintenance decision it supports, and the window of the manifest that is resident. */
module Buffered {
  import opened Heos

  datatype Policy = Policy(partTracks: seq<int>, refillThreshold: int, maxQueueTracks: int, retainPrevious: int,
                           maxSessionSeconds: int)

  /** The parts of a playback command that admission of a buffered policy looks at. */
  datatype Command = Command(playback: bool, itemRefs: Option<nat>, repeat: Repeat, shuffle: bool,
                             automationSeconds: Option<int>)

  const MAX_BROWSE_ITEMS := 10000

  function Sum(counts: seq<int>): int {
    if counts == [] then 0 else Sum(counts[..|counts| - 1]) + counts[|counts| - 1]
  }

  /** The largest part that still fits beside the reserve, the kept history and the current entry. */
  function LargestPart(b: Policy): int { b.maxQueueTracks - b.refillThreshold - b.retainPrevious - 1 }

  ghost predicate Accepted(b: Policy, cmd: Command) {
    cmd.playback && cmd.itemRefs == Some(|b.partTracks|) && cmd.repeat == RepeatOff && !cmd.shuffle &&
    1 <= b.refillThreshold <= 100 && 2 <= b.maxQueueTracks <= 1000 && 0 <= b.retainPrevious <= 100 &&
    1 <= b.maxSessionSeconds <= 86400 &&
    (cmd.automationSeconds.Some? ==> cmd.automationSeconds.value <= b.maxSessionSeconds) &&
    (forall i :: 0 <= i < |b.partTracks| ==> 1 <= b.partTracks[i] <= LargestPart(b)) &&
    Sum(b.partTracks) <= MAX_BROWSE_ITEMS
  }

  lemma {:induction false} SumGrows(counts: seq<int>, k: nat)
    requires k <= |counts| && forall i :: 0 <= i < |counts| ==> 1 <= counts[i]
    ensures Sum(counts[..k]) <= Sum(counts)
    decreases |counts| - k
  {
    if k == |counts| {
      assert counts[..k] == counts;
    } else {
      assert counts[..k + 1][..k] == counts[..k];
      SumGrows(counts, k + 1);
    }
  }

  /** The running total is rejected as soon as it passes the limit, which is the same as
      rejecting the whole total because every part has at least one track. */
  method Validate(b: Policy, cmd: Command) returns (ok: bool)
    ensures ok <==> Accepted(b, cmd)
  {
    if !cmd.playback || cmd.itemRefs.None? || cmd.repeat != RepeatOff || cmd.shuffle ||
       |b.partTracks| != cmd.itemRefs.value || b.refillThreshold < 1 || b.refillThreshold > 100 ||
       b.maxQueueTracks < 2 || b.maxQueueTracks > 1000 || b.retainPrevious < 0 || b.retainPrevious > 100 ||
       b.maxSessionSeconds < 1 || b.maxSessionSeconds > 86400 {
      return false;
    }
    if cmd.automationSeconds.Some? && cmd.automationSeconds.value > b.maxSessionSeconds { return false; }
    var total := 0;
    for i := 0 to |b.partTracks|
      invariant forall j :: 0 <= j < i ==> 1 <= b.partTracks[j] <= LargestPart(b)
      invariant total == Sum(b.partTracks[..i]) <= MAX_BROWSE_ITEMS
    {
      var n := b.partTracks[i];
      if n < 1 || n > b.maxQueueTracks - b.refillThreshold - b.retainPrevious - 1 { return false; }
      assert b.partTracks[..i + 1][..i] == b.partTracks[..i];
      total := total + n;
      if total > MAX_BROWSE_ITEMS {
        if forall j :: 0 <= j < |b.partTracks| ==> 1 <= b.partTracks[j] {
          SumGrows(b.partTracks, i + 1);
        }
        return false;
      }
    }
    assert b.partTracks[..|b.partTracks|] == b.partTracks;
    return true;
  }

  // ---- One maintenance decision ----

  datatype Plan = Rest | Append | Prune(count: int) | NoCapacity

  /** `resident` entries, the current one at `position`, and a next part of `count` tracks. */
  function Decide(b: Policy, resident: int, position: int, count: int): Plan {
    if resident - position - 1 > b.refillThreshold then Rest
    else if resident + count > b.maxQueueTracks then
      var remove := position - b.retainPrevious;
      if remove <= 0 || resident - remove + count > b.maxQueueTracks then NoCapacity else Prune(remove)
    else Append
  }

  /** Admission leaves enough room that capacity is never the reason to fail: at every
      position, the plan is to rest, to append within the bound, or to remove a proper
      played prefix after which exactly this part is appended within the bound. */
  lemma CapacityNeverBlocks(b: Policy, cmd: Command, resident: int, position: int, part: nat)
    requires Accepted(b, cmd) && 0 <= position < resident && part < |b.partTracks|
    ensures var count := b.partTracks[part]; var plan := Decide(b, resident, position, count);
            !plan.NoCapacity? &&
            (plan.Append? ==> resident + count <= b.maxQueueTracks) &&
            (plan.Prune? ==> 0 < plan.count <= position && position - plan.count == b.retainPrevious &&
                             Decide(b, resident - plan.count, position - plan.count, count) == Append)
  {
  }

  /** The admission bound is exact: one more track in the largest part, and some queue
      within the bound has no capacity for it. */
  lemma LargestPartIsTight(b: Policy)
    requires 1 <= b.refillThreshold && 0 <= b.retainPrevious
    requires b.refillThreshold + b.retainPrevious + 1 <= b.maxQueueTracks
    ensures var resident := b.refillThreshold + b.retainPrevious + 1;
            resident <= b.maxQueueTracks && Decide(b, resident, b.retainPrevious, LargestPart(b) + 1) == NoCapacity
  {
  }

  // ---- The resident window ----

  function Flatten(parts: seq<seq<ID>>): seq<ID> {
    if parts == [] then [] else Flatten(parts[..|parts| - 1]) + parts[|parts| - 1]
  }

  lemma FlattenNext(parts: seq<seq<ID>>, k: nat)
    requires k < |parts|
    ensures Flatten(parts[..k + 1]) == Flatten(parts[..k]) + parts[k]
  {
    assert parts[..k + 1][..k] == parts[..k];
  }

  /** Loaded parts are a prefix of the whole manifest. */
  lemma {:induction false} FlattenPrefix(parts: seq<seq<ID>>, k: nat)
    requires k <= |parts|
    ensures Flatten(parts[..k]) <= Flatten(parts)
    decreases |parts| - k
  {
    if k == |parts| {
      assert parts[..k] == parts;
    } else {
      FlattenNext(parts, k);
      FlattenPrefix(parts, k + 1);
    }
  }

  /** The resident media are exactly the loaded manifest without its pruned prefix. */
  ghost predicate Window(parts: seq<seq<ID>>, loaded: nat, pruned: nat, resident: seq<ID>) {
    loaded <= |parts| && pruned <= |Flatten(parts[..loaded])| && resident == Flatten(parts[..loaded])[pruned..]
  }

  lemma WindowGrows(parts: seq<seq<ID>>, loaded: nat, pruned: nat, resident: seq<ID>)
    requires Window(parts, loaded, pruned, resident) && loaded < |parts|
    ensures Window(parts, loaded + 1, pruned, resident + parts[loaded])
  {
    FlattenNext(parts, loaded);
  }

  lemma WindowShrinks(parts: seq<seq<ID>>, loaded: nat, pruned: nat, resident: seq<ID>, n: nat)
    requires Window(parts, loaded, pruned, resident) && n <= |resident|
    ensures Window(parts, loaded, pruned + n, resident[n..])
  {
  }

  /** A position in the window is an absolute index into the manifest. */
  lemma WindowIndex(parts: seq<seq<ID>>, loaded: nat, pruned: nat, resident: seq<ID>, position: nat)
    requires Window(parts, loaded, pruned, resident) && position < |resident|
    ensures pruned + position < |Flatten(parts)| && Flatten(parts)[pruned + position] == resident[position]
    ensures pruned + |resident| == |Flatten(parts[..loaded])|
  {
    FlattenPrefix(parts, loaded);
  }
}
