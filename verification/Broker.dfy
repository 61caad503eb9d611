/** The event broker: a bounded replay history, bounded subscriber channels that close on
    overflow, and resumption after a last seen event. */
module Broker {
  import opened Heos

  /** What an event says; the broker only passes it on. */
  type Payload = nat

  /** An event, whose wire ID is the broker's epoch with this number, or the notice that a
      resumption is not possible. */
  datatype Notice = Notice(id: nat, payload: Payload) | SnapshotRequired(id: nat)

  /** A parsed Last-Event-ID. */
  datatype Last = Malformed | Seen(epoch: ID, id: nat)

  /** An open subscription: its channel, and who may see what. */
  datatype Subscription = Subscription(allow: Notice -> bool, channel: seq<Notice>)

  /** The allowed events, in order. */
  function Allowed(allow: Notice -> bool, events: seq<Notice>): seq<Notice> {
    if events == [] then []
    else Allowed(allow, events[..|events| - 1]) + (if allow(events[|events| - 1]) then [events[|events| - 1]] else [])
  }

  lemma AllowedNext(allow: Notice -> bool, events: seq<Notice>, e: Notice)
    ensures Allowed(allow, events + [e]) == Allowed(allow, events) + (if allow(e) then [e] else [])
  {
    assert (events + [e])[..|events|] == events;
  }

  lemma {:induction false} AllowedConcat(allow: Notice -> bool, a: seq<Notice>, b: seq<Notice>)
    ensures Allowed(allow, a + b) == Allowed(allow, a) + Allowed(allow, b)
  {
    if b == [] {
      assert a + b == a;
    } else {
      var c, e := b[..|b| - 1], b[|b| - 1];
      assert a + b == (a + c) + [e] && b == c + [e];
      AllowedNext(allow, a + c, e);
      AllowedNext(allow, c, e);
      AllowedConcat(allow, a, c);
    }
  }

  /** Nothing is invented, reordered or repeated: the replayed IDs strictly increase. */
  lemma {:induction false} AllowedIncreasing(allow: Notice -> bool, events: seq<Notice>)
    requires forall i, j :: 0 <= i < j < |events| ==> events[i].id < events[j].id
    ensures forall e :: e in Allowed(allow, events) <==> e in events && allow(e)
    ensures var seen := Allowed(allow, events); forall i, j :: 0 <= i < j < |seen| ==> seen[i].id < seen[j].id
  {
    if events != [] {
      var init, e := events[..|events| - 1], events[|events| - 1];
      AllowedIncreasing(allow, init);
      assert events == init + [e];
      assert forall i :: 0 <= i < |Allowed(allow, init)| ==> Allowed(allow, init)[i] in init;
    }
  }

  /** The history is the tail of everything published, as long as capacity allows. */
  ghost predicate HistoryHeld(published: seq<Notice>, history: seq<Notice>, capacity: nat) {
    (forall i :: 0 <= i < |published| ==> published[i].id == i + 1) &&
    |history| == (if |published| < capacity then |published| else capacity) &&
    history == published[|published| - |history|..]
  }

  lemma HistoryNext(published: seq<Notice>, history: seq<Notice>, capacity: nat, e: Notice)
    requires HistoryHeld(published, history, capacity) && 1 <= capacity && e.id == |published| + 1
    ensures HistoryHeld(published + [e], (if |history| == capacity then history[1..] else history) + [e], capacity)
  {
  }

  /** What a subscriber was replayed and has taken from its channel, and the event it resumed
      after, if it was told of no gap. */
  datatype Log = Log(replayed: seq<Notice>, received: seq<Notice>, resumed: Option<nat>)

  /** Exact resumption: with no gap, what was replayed, what was received and what waits in
      the channel are together exactly the allowed events after the one it named. */
  ghost predicate Exact(sub: Subscription, log: Log, published: seq<Notice>) {
    log.resumed.Some? ==>
      log.resumed.value <= |published| &&
      log.replayed + log.received + sub.channel == Allowed(sub.allow, published[log.resumed.value..])
  }

  ghost predicate AllExact(subs: map<nat, Subscription>, logs: map<nat, Log>, published: seq<Notice>) {
    forall s :: s in subs ==> s in logs && Exact(subs[s], logs[s], published)
  }

  ghost predicate Bounded(subs: map<nat, Subscription>, buffer: nat) {
    forall s :: s in subs ==> |subs[s].channel| <= buffer
  }

  predicate Passes(sub: Subscription, buffer: nat, e: Notice) { !sub.allow(e) || |sub.channel| < buffer }

  function Sent(sub: Subscription, e: Notice): Subscription {
    if sub.allow(e) then sub.(channel := sub.channel + [e]) else sub
  }

  lemma ExactNext(sub: Subscription, log: Log, published: seq<Notice>, e: Notice)
    requires Exact(sub, log, published)
    ensures Exact(Sent(sub, e), log, published + [e])
  {
    if log.resumed.Some? {
      var n := log.resumed.value;
      assert (published + [e])[n..] == published[n..] + [e];
      AllowedNext(sub.allow, published[n..], e);
      var before := log.replayed + log.received;
      assert before + (sub.channel + [e]) == (before + sub.channel) + [e];
    }
  }

  /** One delivery: exactly those whose channel had room, or who may not see it, stay open. */
  ghost predicate Delivered(subs: map<nat, Subscription>, open: map<nat, Subscription>, buffer: nat, e: Notice) {
    (forall s :: s in open ==> s in subs && Passes(subs[s], buffer, e) && open[s] == Sent(subs[s], e)) &&
    (forall s :: s in subs && Passes(subs[s], buffer, e) ==> s in open)
  }

  lemma DeliveredExact(
      subs: map<nat, Subscription>, logs: map<nat, Log>, open: map<nat, Subscription>, buffer: nat,
      published: seq<Notice>, e: Notice)
    requires AllExact(subs, logs, published) && Bounded(subs, buffer) && Delivered(subs, open, buffer, e)
    ensures AllExact(open, logs, published + [e]) && Bounded(open, buffer) && |open.Keys| <= |subs.Keys|
  {
    forall s | s in open ensures s in logs && Exact(open[s], logs[s], published + [e]) {
      ExactNext(subs[s], logs[s], published, e);
    }
    SubsetSize(open.Keys, subs.Keys);
  }

  /** The named event is not this broker's, or something after it has been evicted. */
  ghost predicate Gap(last: Last, epoch: ID, published: seq<Notice>, history: seq<Notice>) {
    last.Malformed? || last.epoch != epoch || last.id > |published| ||
    exists i :: last.id <= i < |published| && published[i] !in history
  }

  lemma EvictionIsGap(last: Last, epoch: ID, published: seq<Notice>, history: seq<Notice>, capacity: nat)
    requires HistoryHeld(published, history, capacity) && 1 <= capacity
    ensures Gap(last, epoch, published, history) <==>
              last.Malformed? || last.epoch != epoch || last.id > |published| ||
              (|history| > 0 && last.id < |published| - |history|)
  {
    if last.Seen? && last.id < |published| - |history| { assert published[last.id] !in history; }
  }

  /** The allowed events numbered above `last`, in a history whose numbers are consecutive. */
  method Replay(history: seq<Notice>, ghost skipped: nat, last: nat, allow: Notice -> bool)
    returns (replay: seq<Notice>)
    requires skipped <= last <= skipped + |history|
    requires forall i :: 0 <= i < |history| ==> history[i].id == skipped + i + 1
    ensures replay == Allowed(allow, history[last - skipped..])
  {
    replay := [];
    ghost var from := last - skipped;
    for i := 0 to |history|
      invariant replay == if i <= from then [] else Allowed(allow, history[from..i])
    {
      var e := history[i];
      if e.id > last {
        assert history[from..i + 1] == history[from..i] + [e];
        AllowedNext(allow, history[from..i], e);
        if allow(e) { replay := replay + [e]; }
      }
    }
    assert history[from..|history|] == history[from..];
  }

  /** What is held after `last` is what was published after it. */
  lemma HeldAfter(published: seq<Notice>, history: seq<Notice>, capacity: nat, last: nat)
    requires HistoryHeld(published, history, capacity) && |published| - |history| <= last <= |published|
    ensures history[last - (|published| - |history|)..] == published[last..]
    ensures forall i :: 0 <= i < |history| ==> history[i].id == |published| - |history| + i + 1
  {
  }

  class Events {
    const epoch: ID
    const capacity: nat
    const buffer: nat
    const max: nat
    var sequence: nat
    var history: seq<Notice>
    var subs: map<nat, Subscription>
    var closed: bool
    /** Everything published so far. */
    ghost var published: seq<Notice>
    ghost var logs: map<nat, Log>

    constructor (name: ID, capacity: nat, buffer: nat, max: nat)
      requires 1 <= capacity <= 1024 && 1 <= buffer <= 256 && 1 <= max <= 128
      ensures Valid() && published == [] && subs == map[] && !closed
      ensures epoch == name && this.capacity == capacity && this.buffer == buffer && this.max == max
    {
      epoch, this.capacity, this.buffer, this.max := name, capacity, buffer, max;
      sequence, history, subs, closed := 0, [], map[], false;
      published, logs := [], map[];
    }

    ghost predicate Valid()
      reads this
    {
      1 <= capacity && sequence == |published| && HistoryHeld(published, history, capacity) &&
      (closed ==> subs == map[]) &&
      |subs.Keys| <= max && Bounded(subs, buffer) && AllExact(subs, logs, published)
    }

    /** Every open subscriber allowed to see the event is sent it, or is closed because its
        channel is full. */
    method Publish(payload: Payload)
      requires Valid()
      modifies this
      ensures Valid() && closed == old(closed)
      ensures logs == old(logs)
      ensures closed ==> published == old(published) && subs == old(subs)
      ensures !closed ==> published == old(published) + [Notice(sequence, payload)]
      ensures !closed ==> Delivered(old(subs), subs, buffer, Notice(sequence, payload))
    {
      if closed { return; }
      sequence := sequence + 1;
      var e := Notice(sequence, payload);
      HistoryNext(published, history, capacity, e);
      if |history| == capacity { history := history[1..]; }
      history := history + [e];
      published := published + [e];
      var open := DeliverAll(subs, buffer, e);
      DeliveredExact(subs, logs, open, buffer, old(published), e);
      subs := open;
    }

    method Resume(last: Last, allow: Notice -> bool) returns (gap: bool, replay: seq<Notice>)
      requires Valid()
      ensures gap <==> Gap(last, epoch, published, history)
      ensures replay == if gap then [SnapshotRequired(|published|)] else Allowed(allow, published[last.id..])
    {
      gap := last.Malformed? || last.epoch != epoch || last.id > sequence;
      if last.Seen? && |history| > 0 && last.id < sequence - |history| { gap := true; }
      EvictionIsGap(last, epoch, published, history, capacity);
      if gap {
        replay := [SnapshotRequired(sequence)];
      } else {
        HeldAfter(published, history, capacity, last.id);
        replay := Replay(history, |published| - |history|, last.id, allow);
      }
    }

    /** A resumption is refused a replay exactly when its ID is not one of this broker's or
        some event after it is no longer held; otherwise the replay is every allowed one. */
    method Subscribe(last: Last, allow: Notice -> bool) returns (ok: bool, id: nat, replay: seq<Notice>)
      requires Valid()
      modifies this`subs, this`logs
      ensures Valid()
      ensures ok <==> !closed && |old(subs)| < max
      ensures !ok ==> subs == old(subs) && logs == old(logs)
      ensures ok ==> id !in old(subs) && subs == old(subs)[id := Subscription(allow, [])]
      ensures ok && Gap(last, epoch, published, history) ==>
        replay == [SnapshotRequired(|published|)] && logs == old(logs)[id := Log(replay, [], None)]
      ensures ok && !Gap(last, epoch, published, history) ==>
        replay == Allowed(allow, published[last.id..]) && logs == old(logs)[id := Log(replay, [], Some(last.id))]
    {
      ok, id, replay := false, 0, [];
      if closed || |subs| >= max { return; }
      var gap;
      gap, replay := Resume(last, allow);
      id := Unused(subs);
      Register(id, allow, Log(replay, [], if gap then None else Some(last.id)));
      ok := true;
    }

    method Register(id: nat, allow: Notice -> bool, ghost log: Log)
      requires Valid() && !closed && |subs| < max && id !in subs && Exact(Subscription(allow, []), log, published)
      modifies this`subs, this`logs
      ensures Valid() && subs == old(subs)[id := Subscription(allow, [])] && logs == old(logs)[id := log]
    {
      subs, logs := subs[id := Subscription(allow, [])], logs[id := log];
      assert subs.Keys == old(subs).Keys + {id};
    }

    /** The reader takes the next event from its channel; nothing else moves. */
    method Receive(s: nat) returns (e: Notice)
      requires Valid() && s in subs && subs[s].channel != []
      modifies this`subs, this`logs
      ensures Valid() && s in subs && s in logs && s in old(logs) && old(subs)[s].channel == [e] + subs[s].channel
      ensures logs == old(logs)[s := old(logs)[s].(received := old(logs)[s].received + [e])]
      ensures subs.Keys == old(subs).Keys && subs[s].allow == old(subs)[s].allow
      ensures forall r :: r in subs && r != s ==> subs[r] == old(subs)[r]
    {
      e := subs[s].channel[0];
      ghost var log := logs[s];
      var sub := subs[s];
      assert log.replayed + (log.received + [e]) + sub.channel[1..] == log.replayed + log.received + sub.channel;
      subs := subs[s := sub.(channel := sub.channel[1..])];
      logs := logs[s := log.(received := log.received + [e])];
      assert subs.Keys == old(subs).Keys;
    }

    method Remove(s: nat)
      requires Valid()
      modifies this`subs
      ensures Valid() && subs == old(subs) - {s}
    {
      subs := subs - {s};
      SubsetSize(subs.Keys, old(subs).Keys);
    }

    method Close()
      requires Valid()
      modifies this`subs, this`closed
      ensures Valid() && closed && subs == map[]
    {
      closed, subs := true, map[];
    }
  }

  /** The broker's loop over open subscriptions, in any order. */
  method DeliverAll(subs: map<nat, Subscription>, buffer: nat, e: Notice) returns (open: map<nat, Subscription>)
    ensures Delivered(subs, open, buffer, e)
  {
    open := subs;
    var rest := subs.Keys;
    while rest != {}
      invariant rest <= open.Keys <= subs.Keys
      invariant forall s :: s in rest ==> open[s] == subs[s]
      invariant forall s :: s in subs && s !in rest ==> (s in open <==> Passes(subs[s], buffer, e))
      invariant forall s :: s in open && s !in rest ==> open[s] == Sent(subs[s], e)
      decreases |rest|
    {
      var s :| s in rest;
      rest := rest - {s};
      if open[s].allow(e) {
        if |open[s].channel| < buffer {
          open := open[s := open[s].(channel := open[s].channel + [e])];
        } else {
          open := open - {s};
        }
      }
    }
  }

  /** A name no open subscription has. */
  method Unused(subs: map<nat, Subscription>) returns (id: nat)
    ensures id !in subs
  {
    id := 0;
    ghost var below: set<nat> := {};
    while id in subs
      invariant below <= subs.Keys && |below| == id && forall k :: k in below <==> 0 <= k < id
      decreases |subs.Keys| - id
    {
      below := below + {id};
      SubsetSize(below, subs.Keys);
      id := id + 1;
    }
  }
}
