/** Delivery of one request: a caller that may give up, an owner that may dequeue, refuse,
    send or shut down, and the compare-and-swap and result slot between them. */
module Delivery {
  import opened Heos

  datatype Delivery = NotSent | Rejected | Uncertain

  /** What the caller is told. `stale` says the failure is the stale-guard error. */
  datatype Outcome = Accepted | Failed(delivery: Delivery, stale: bool)

  // ---- One exchange on the socket ----

  datatype Frame =
    | ReadFailed
    | Notification
    | OtherCommand
    | WrongEcho
    | InProgress
    | Refused
    | Succeeded(complete: bool)  // `complete`: a removal reply names its pid and qid

  /** Everything the exchange learns from outside: `written` is the count the socket
      reports, `cancelled` the context after the write, `cancelledLate` at return. */
  datatype Wire = Wire(encodes: bool, cancelledEarly: bool, deadlineSet: bool, length: nat,
                       written: nat, writeOk: bool, frames: seq<Frame>, cancelledLate: bool)

  predicate Plausible(w: Wire) {
    w.written <= w.length && (w.writeOk ==> w.written == w.length) && 0 < w.length
  }

  ghost predicate Sends(w: Wire) { w.encodes && !w.cancelledEarly && w.deadlineSet }

  /** Bytes of this command that reached the socket. */
  ghost function Bytes(w: Wire): nat { if Sends(w) then w.written else 0 }

  /** Position of the frame that settles the exchange; `|frames|` when only cancellation does. */
  function Settling(frames: seq<Frame>): nat {
    if frames == [] then 0
    else if frames[0].Notification? || frames[0].InProgress? then 1 + Settling(frames[1..])
    else 0
  }

  /** A reply is believed only when the whole command was written, the settling frame
      answers it, and the context outlived the exchange; before the first byte every
      failure is NotSent; after it, every other ending is Uncertain. */
  ghost predicate Exchanged(w: Wire, o: Outcome) {
    var k := Settling(w.frames);
    var answered := Sends(w) && w.writeOk && !w.cancelledLate && k < |w.frames|;
    (o == Accepted <==> answered && w.frames[k] == Succeeded(true)) &&
    (o == Failed(Rejected, false) <==> answered && w.frames[k] == Refused) &&
    (o == Failed(NotSent, false) <==> Bytes(w) == 0) &&
    (o.Failed? ==> !o.stale)
  }

  lemma {:induction false} SettlingFrom(frames: seq<Frame>, i: nat)
    requires i < |frames| && forall j :: 0 <= j < i ==> frames[j].Notification? || frames[j].InProgress?
    ensures Settling(frames) == i + Settling(frames[i..])
    decreases i
  {
    if i > 0 {
      assert frames[1..][i - 1..] == frames[i..];
      SettlingFrom(frames[1..], i - 1);
    } else {
      assert frames[0..] == frames;
    }
  }

  lemma {:induction false} NeverSettles(frames: seq<Frame>)
    requires forall j :: 0 <= j < |frames| ==> frames[j].Notification? || frames[j].InProgress?
    ensures Settling(frames) == |frames|
  {
    if frames != [] { NeverSettles(frames[1..]); }
  }

  /** Running out of frames stands for the context ending while the owner waits. */
  method Exchange(w: Wire) returns (o: Outcome)
    requires Plausible(w)
    ensures Exchanged(w, o)
  {
    if !w.encodes { return Failed(NotSent, false); }
    if w.cancelledEarly { return Failed(NotSent, false); }
    if !w.deadlineSet { return Failed(NotSent, false); }
    var sent := w.written;
    o := Failed(if sent > 0 then Uncertain else NotSent, false);
    if w.writeOk {
      o := Failed(Uncertain, false);
      var i := 0;
      while i < |w.frames| && (w.frames[i].Notification? || w.frames[i].InProgress?)
        invariant i <= |w.frames|
        invariant forall j :: 0 <= j < i ==> w.frames[j].Notification? || w.frames[j].InProgress?
      {
        i := i + 1;
      }
      if i < |w.frames| {
        SettlingFrom(w.frames, i);
        match w.frames[i]
        case Refused => o := Failed(Rejected, false);
        case Succeeded(complete) => if complete { o := Accepted; }
        case _ =>
      } else {
        NeverSettles(w.frames);
      }
    }
    // The deferred classification sees the final state of the context.
    if w.cancelledLate { o := Failed(if sent > 0 then Uncertain else NotSent, false); }
  }

  // ---- The race between caller and owner ----

  datatype Claim = Queued | Owned | Cancelled
  datatype Caller = Waiting | GaveUp | SawDone | Returned(outcome: Outcome)
  datatype Owner = Idle | Checking | Sent(wire: Wire) | Answered

  /** One submitted request. `bytes` counts its command bytes on the socket. */
  datatype State = State(guarded: bool, claim: Claim, caller: Caller, owner: Owner,
                         slot: Option<Outcome>, contextDone: bool, done: bool, bytes: nat, exchanges: nat)

  datatype Step =
    | EndContext
    | TakeResult
    | ClaimCancel
    | GiveUpDone
    | ObserveDone
    | ResolveDone
    | Dequeue
    | RefuseGuard            // stale guard, event flood or lost connection before the guard
    | Refuse                 // fence, priority, back-off, dial or subscription failure
    | StartExchange(wire: Wire)
    | FinishExchange(outcome: Outcome)
    | CloseOwner

  ghost predicate Enabled(s: State, t: Step) {
    match t
    case EndContext => true
    case TakeResult => (s.caller.Waiting? || s.caller.GaveUp?) && s.slot.Some?
    case ClaimCancel => s.caller.Waiting? && s.contextDone
    case GiveUpDone => s.caller.GaveUp? && s.done
    case ObserveDone => s.caller.Waiting? && s.done
    case ResolveDone => s.caller.SawDone?
    case Dequeue => s.owner.Idle? && !s.done
    case RefuseGuard => s.owner.Checking? && s.guarded
    case Refuse => s.owner.Checking?
    case StartExchange(w) => s.owner.Checking? && Plausible(w)
    case FinishExchange(o) => s.owner.Sent? && Exchanged(s.owner.wire, o)
    case CloseOwner => (s.owner.Idle? || s.owner.Answered?) && !s.done
  }

  ghost function Next(s: State, t: Step): State
    requires Enabled(s, t)
  {
    match t
    case EndContext => s.(contextDone := true)
    case TakeResult => s.(caller := Returned(s.slot.value), slot := None)
    case ClaimCancel =>
      if s.claim == Queued then s.(claim := Cancelled, caller := Returned(Failed(NotSent, false)))
      else s.(caller := GaveUp)
    case GiveUpDone => s.(caller := Returned(Failed(Uncertain, false)))
    case ObserveDone =>
      if s.slot.Some? then s.(caller := Returned(s.slot.value), slot := None) else s.(caller := SawDone)
    case ResolveDone => s.(caller := Returned(Failed(if s.claim == Owned then Uncertain else NotSent, false)))
    case Dequeue =>
      if s.claim == Queued then s.(claim := Owned, owner := Checking)
      else s.(owner := Answered, slot := Some(Failed(NotSent, false)))
    case RefuseGuard => s.(owner := Answered, slot := Some(Failed(NotSent, true)))
    case Refuse => s.(owner := Answered, slot := Some(Failed(NotSent, false)))
    case StartExchange(w) => s.(owner := Sent(w), bytes := s.bytes + Bytes(w), exchanges := s.exchanges + 1)
    case FinishExchange(o) => s.(owner := Answered, slot := Some(o))
    case CloseOwner => s.(done := true)
  }

  ghost predicate Runs(s: State, steps: seq<Step>)
    decreases steps
  {
    steps == [] || (Enabled(s, steps[0]) && Runs(Next(s, steps[0]), steps[1..]))
  }

  ghost function Run(s: State, steps: seq<Step>): State
    requires Runs(s, steps)
    decreases steps
  {
    if steps == [] then s else Run(Next(s, steps[0]), steps[1..])
  }

  ghost function Submitted(guarded: bool): State {
    State(guarded, Queued, Waiting, Idle, None, false, false, 0, 0)
  }

  /** What one answer may say about the bytes written so far. */
  ghost predicate Truthful(s: State, o: Outcome) {
    (o.Failed? && o.delivery == NotSent ==> s.bytes == 0) &&
    (o.Failed? && o.stale ==> s.guarded && o.delivery == NotSent) &&
    (o.Accepted? || (o.Failed? && o.delivery == Rejected) ==> s.bytes > 0)
  }

  /** Nobody will write this command's bytes any more. */
  ghost predicate Settled(s: State) {
    s.owner.Answered? || s.claim == Cancelled || (s.owner.Idle? && s.done)
  }

  ghost predicate Inv(s: State) {
    (s.owner.Idle? ==> s.claim != Owned && s.slot.None? && s.bytes == 0 && s.exchanges == 0) &&
    (s.owner.Checking? ==> s.claim == Owned && s.slot.None? && s.bytes == 0 && s.exchanges == 0 && !s.done) &&
    (s.owner.Sent? ==>
       s.claim == Owned && s.slot.None? && s.bytes == Bytes(s.owner.wire) && s.exchanges == 1 && !s.done &&
       Plausible(s.owner.wire)) &&
    (s.owner.Answered? ==> s.claim != Queued && s.exchanges <= 1) &&
    (s.claim == Cancelled ==> s.bytes == 0 && s.exchanges == 0 && s.caller == Returned(Failed(NotSent, false))) &&
    (s.claim != Queued && s.caller.Waiting? && s.owner.Answered? ==> s.slot.Some?) &&
    (s.caller.GaveUp? ==> s.claim == Owned && (s.owner.Answered? ==> s.slot.Some?)) &&
    (s.caller.SawDone? ==> s.done && s.claim == Queued) &&
    (s.slot.Some? ==> Truthful(s, s.slot.value)) &&
    (s.caller.Returned? ==> Truthful(s, s.caller.outcome)) &&
    (s.caller.Returned? && s.caller.outcome != Failed(Uncertain, false) ==> Settled(s))
  }

  lemma NextInv(s: State, t: Step)
    requires Inv(s) && Enabled(s, t)
    ensures Inv(Next(s, t))
  {
  }

  lemma {:induction false} RunInv(s: State, steps: seq<Step>)
    requires Inv(s) && Runs(s, steps)
    ensures Inv(Run(s, steps)) && Run(s, steps).guarded == s.guarded
    decreases steps
  {
    if steps != [] {
      NextInv(s, steps[0]);
      RunInv(Next(s, steps[0]), steps[1..]);
    }
  }

  /** A caller that has been answered anything but Uncertain is answered for good: the
      byte count never changes again. */
  lemma {:induction false} SettledForGood(s: State, steps: seq<Step>)
    requires Inv(s) && Settled(s) && Runs(s, steps)
    ensures Run(s, steps).bytes == s.bytes && Run(s, steps).exchanges == s.exchanges
    decreases steps
  {
    if steps != [] {
      NextInv(s, steps[0]);
      SettledForGood(Next(s, steps[0]), steps[1..]);
    }
  }

  /** In every race, a NotSent answer is true when given and stays true: no byte of the
      command was or will ever be written. The stale-guard error is only ever given to a
      guarded request, with NotSent; Accepted and Rejected mean bytes were written; and
      the command is exchanged at most once. */
  lemma NotSentIsTruthful(guarded: bool, before: seq<Step>, after: seq<Step>)
    requires Runs(Submitted(guarded), before) && Runs(Run(Submitted(guarded), before), after)
    requires Run(Submitted(guarded), before).caller.Returned?
    ensures var s := Run(Submitted(guarded), before); var later := Run(s, after); var o := s.caller.outcome;
            (o.Failed? && o.delivery == NotSent ==> later.bytes == 0) &&
            (o.Failed? && o.stale ==> guarded && o.delivery == NotSent && later.bytes == 0) &&
            (o != Failed(Uncertain, false) ==> later.bytes == s.bytes) &&
            (o.Accepted? || (o.Failed? && o.delivery == Rejected) ==> s.bytes > 0) &&
            later.exchanges <= 1
  {
    var s := Run(Submitted(guarded), before);
    RunInv(Submitted(guarded), before);
    RunInv(s, after);
    if s.caller.outcome != Failed(Uncertain, false) {
      SettledForGood(s, after);
    }
  }

  /** A guarded write was answered `o` in some race, at whose end `bytes` of it were written. */
  ghost predicate AnsweredWith(before: seq<Step>, after: seq<Step>, o: Outcome, bytes: nat) {
    Runs(Submitted(true), before) && Runs(Run(Submitted(true), before), after) &&
    Run(Submitted(true), before).caller == Returned(o) && Run(Run(Submitted(true), before), after).bytes == bytes
  }

  ghost predicate WriteAnswer(o: Outcome, bytes: nat) {
    exists before: seq<Step>, after: seq<Step> :: AnsweredWith(before, after, o, bytes)
  }

  /** What a writer may conclude from the answer alone. */
  lemma WriteAnswerTruthful(o: Outcome, bytes: nat)
    requires WriteAnswer(o, bytes)
    ensures o.Failed? && o.delivery == NotSent ==> bytes == 0
    ensures o.Failed? && o.stale ==> o.delivery == NotSent
    ensures o.Accepted? || (o.Failed? && o.delivery == Rejected) ==> bytes > 0
  {
    var before: seq<Step>, after: seq<Step> :| AnsweredWith(before, after, o, bytes);
    NotSentIsTruthful(true, before, after);
  }

  /** A read carries no guard, so it is never answered with the stale-guard error. */
  lemma ReadNeverStale(steps: seq<Step>)
    requires Runs(Submitted(false), steps) && Run(Submitted(false), steps).caller.Returned?
    ensures var o := Run(Submitted(false), steps).caller.outcome; o.Failed? ==> !o.stale
  {
    RunInv(Submitted(false), steps);
  }

  /** The two Uncertain answers given at shutdown are not both needed: once the owner is
      gone, a request it had taken has already been answered, so the caller that finds no
      answer there always says NotSent. */
  lemma DoneMeansAnswered(guarded: bool, steps: seq<Step>)
    requires Runs(Submitted(guarded), steps)
    ensures var s := Run(Submitted(guarded), steps); s.caller.SawDone? ==> s.claim == Queued && s.bytes == 0
  {
    RunInv(Submitted(guarded), steps);
  }
}
