/** One player's lane within one journal epoch: submitters that pass a gate, read the
    reservation, supersede and join its worker and hand the reservation over; workers that
    write, finalize and exit; and journal-only finishers for work nobody else will finish. */
module Lane {
  import opened Heos

  type Op = nat

  datatype Phase = Writing | Finalizing | Cleared | Done

  /** The first cancellation of a worker decides its cause; later ones change nothing. */
  datatype Cause = NoCause | Superseded | OtherCause

  /** `target` is the operation that a cancellation worker still has to finish. */
  datatype Worker = Worker(op: Op, phase: Phase, cause: Cause, target: Option<Op>) {
    predicate Alive() { phase == Writing || phase == Finalizing }
    function Cancelled(c: Cause): Worker { if cause == NoCause then this.(cause := c) else this }
  }

  /** The gate admits one submitter. `cancels` is the target of a cancellation, `owner` the
      reserved operation it read, `previous` the worker it found in the lane. A submitter that
      has `Joined` still has to read the owner again before it is `Holding` it. */
  datatype Submitter =
    | Idle
    | Entered(cancels: Option<Op>)
    | Looking(cancels: Option<Op>, owner: Option<Op>)
    | Joining(cancels: Option<Op>, owner: Option<Op>, previous: Option<nat>)
    | Joined(cancels: Option<Op>, owner: Option<Op>, previous: Option<nat>)
    | Holding(cancels: Option<Op>, owner: Option<Op>, previous: Option<nat>)

  /** `ops` maps each admitted operation to whether it is finished. */
  datatype State = State(ops: map<Op, bool>, reserved: Option<Op>, workers: seq<Worker>, run: Option<nat>,
                         submitter: Submitter, finishers: set<Op>)

  datatype Step =
    | Enter(cancels: Option<Op>)
    | Leave                    // any rejection before a worker is revoked
    | ReadActive
    | TakeRun
    | Join
    | AbandonJoin              // the request ends while it waits for the revoked worker
    | Refresh
    | RefreshFailed            // the journal does not answer, or the request ends meanwhile
    | Fail                     // any rejection after that
    | Admit(id: Op)
    | AdmitUnresolved(id: Op)  // committed, but neither the reply nor the lookup arrived
    | Issue(worker: nat)
    | Cancel(worker: nat)      // ownership lost, a deadline, shutdown
    | EndWork(worker: nat)
    | PersistTarget(worker: nat)
    | Persist(worker: nat)
    | ExitSuperseded(worker: nat)
    | ExitUnfinished(worker: nat)   // shutdown, or a newer epoch
    | Clear(worker: nat)
    | RunFinisher(id: Op)
    | DropFinisher(id: Op)     // shutdown

  ghost predicate WorkerIn(s: State, i: nat, p: Phase) { i < |s.workers| && s.workers[i].phase == p }

  ghost predicate Enabled(s: State, t: Step) {
    match t
    case Enter(_) => s.submitter.Idle?
    case Leave => s.submitter.Entered? || s.submitter.Looking?
    case ReadActive => s.submitter.Entered?
    case TakeRun => s.submitter.Looking? && (s.submitter.cancels.Some? ==> s.submitter.owner == s.submitter.cancels)
    case Join => s.submitter.Joining? && s.submitter.previous.Some? && WorkerIn(s, s.submitter.previous.value, Done)
    case AbandonJoin => s.submitter.Joining?
    case Refresh => s.submitter.Joined?
    case RefreshFailed => s.submitter.Joined? && s.submitter.owner.Some?
    case Fail => s.submitter.Holding?
    case Admit(id) =>
      s.submitter.Holding? && id !in s.ops && s.reserved == s.submitter.owner &&
      (s.submitter.cancels.Some? ==> s.submitter.previous.Some?)
    case AdmitUnresolved(id) => s.submitter.Holding? && id !in s.ops && s.reserved == s.submitter.owner
    case Issue(i) => WorkerIn(s, i, Writing)
    case Cancel(i) => i < |s.workers| && s.workers[i].Alive()
    case EndWork(i) => WorkerIn(s, i, Writing)
    case PersistTarget(i) => WorkerIn(s, i, Finalizing) && s.workers[i].target.Some?
    case Persist(i) =>
      WorkerIn(s, i, Finalizing) && s.workers[i].target.None? && s.workers[i].op in s.ops && !s.ops[s.workers[i].op]
    case ExitSuperseded(i) => WorkerIn(s, i, Finalizing) && s.workers[i].cause == Superseded
    case ExitUnfinished(i) => WorkerIn(s, i, Finalizing)
    case Clear(i) => WorkerIn(s, i, Cleared)
    case RunFinisher(id) => id in s.finishers
    case DropFinisher(id) => id in s.finishers
  }

  function WithWorker(s: State, i: nat, w: Worker): State
    requires i < |s.workers|
  {
    s.(workers := s.workers[i := w])
  }

  /** The operation ends and lets go of the reservation if it holds it. */
  function Finished(s: State, id: Op): State {
    s.(ops := s.ops[id := true], reserved := if s.reserved == Some(id) then None else s.reserved)
  }

  /** The deferred duty of a submitter that joined a worker and did not replace it. */
  function Orphaned(s: State): State
    requires s.submitter.Holding?
  {
    if s.submitter.owner.Some? &&
       s.submitter.previous.Some? then s.(finishers := s.finishers + {s.submitter.owner.value})
    else s
  }

  /** One transaction: the old operation ends, or for a cancellation only lets go, and the
      new one is reserved. */
  function HandedOver(s: State, id: Op): State
    requires s.submitter.Holding?
  {
    var released := if s.submitter.owner.Some? &&
        s.submitter.cancels.None? then Finished(s, s.submitter.owner.value) else s;
    released.(ops := released.ops[id := false], reserved := Some(id))
  }

  ghost function Next(s: State, t: Step): State
    requires Enabled(s, t)
  {
    match t
    case Enter(cancels) => s.(submitter := Entered(cancels))
    case Leave => s.(submitter := Idle)
    case ReadActive => s.(submitter := Looking(s.submitter.cancels, s.reserved))
    case TakeRun =>
      var sub := s.submitter;
      if s.run.Some? && s.run.value < |s.workers| && sub.owner == Some(s.workers[s.run.value].op) then
        var revoked := s.workers[s.run.value].Cancelled(Superseded);
        WithWorker(s, s.run.value, revoked).(submitter := Joining(sub.cancels, sub.owner, s.run))
      else s.(submitter := Joined(sub.cancels, sub.owner, s.run))
    case Join => s.(submitter := Joined(s.submitter.cancels, s.submitter.owner, s.submitter.previous))
    case AbandonJoin => s.(submitter := Idle)
    case Refresh =>
      var sub := s.submitter;
      var ended := sub.owner.Some? && sub.owner.value in s.ops && s.ops[sub.owner.value];
      s.(submitter := Holding(sub.cancels, if ended then None else sub.owner, sub.previous))
    case RefreshFailed => s.(submitter := Idle)   // the failed read blanked the owner: no duty is left
    case Fail => Orphaned(s).(submitter := Idle)
    case Admit(id) =>
      var worker := Worker(id, Writing, NoCause, s.submitter.cancels);
      HandedOver(s, id).(workers := s.workers + [worker], run := Some(|s.workers|), submitter := Idle)
    case AdmitUnresolved(id) => HandedOver(Orphaned(s), id).(submitter := Idle)
    case Issue(_) => s
    case Cancel(i) => WithWorker(s, i, s.workers[i].Cancelled(OtherCause))
    case EndWork(i) => WithWorker(s, i, s.workers[i].(phase := Finalizing))
    case PersistTarget(i) => Finished(WithWorker(s, i, s.workers[i].(target := None)), s.workers[i].target.value)
    case Persist(i) => Finished(WithWorker(s, i, s.workers[i].(phase := Cleared)), s.workers[i].op)
    case ExitSuperseded(i) =>
      var w := s.workers[i];
      WithWorker(s, i, w.(phase := Cleared, target := None))
        .(finishers := if w.target.Some? then s.finishers + {w.target.value} else s.finishers)
    case ExitUnfinished(i) => WithWorker(s, i, s.workers[i].(phase := Cleared))
    case Clear(i) => WithWorker(s, i, s.workers[i].(phase := Done)).(run := if s.run == Some(i) then None else s.run)
    case RunFinisher(id) => Finished(s, id).(finishers := s.finishers - {id})
    case DropFinisher(id) => s.(finishers := s.finishers - {id})
  }

  ghost predicate Runs(s: State, steps: seq<Step>)
    decreases steps
  {
    steps == [] || (Enabled(s, steps[0]) && Runs(Next(s, steps[0]), steps[1..]))
  }

  ghost function Run(s: State, steps: seq<Step>): State
    requires Runs(s, steps)
    decreases steps
  {
    if steps == [] then s else Run(Next(s, steps[0]), steps[1..])
  }

  const Empty: State := State(map[], None, [], None, Idle, {})

  // ---- Single writer ----

  /** A writing worker is the lane's, and its operation is unfinished and reserved. */
  ghost predicate Owns(s: State, i: nat)
    requires i < |s.workers|
  {
    var id := s.workers[i].op; s.run == Some(i) && id in s.ops && !s.ops[id] && s.reserved == Some(id)
  }

  /** The submitter has passed the worker it found. */
  predicate Past(sub: Submitter) { sub.Joined? || sub.Holding? }

  /** Nobody is about to end or hand over this writing operation. */
  ghost predicate Undisturbed(s: State, id: Op) {
    id !in s.finishers && (Past(s.submitter) ==> s.submitter.owner != Some(id)) &&
    forall j :: 0 <= j < |s.workers| ==> s.workers[j].target != Some(id)
  }

  ghost predicate Known(s: State) {
    (forall i :: 0 <= i < |s.workers| ==>
       s.workers[i].op in s.ops && (s.workers[i].target.Some? ==> s.workers[i].target.value in s.ops)) &&
    (forall i, j :: 0 <= i < j < |s.workers| ==> s.workers[i].op != s.workers[j].op) &&
    (forall id :: id in s.finishers ==> id in s.ops) && (s.reserved.Some? ==> s.reserved.value in s.ops) &&
    (s.run.Some? ==> s.run.value < |s.workers|)
  }

  ghost predicate NotWriting(s: State, id: Op) {
    forall i :: 0 <= i < |s.workers| && s.workers[i].phase == Writing ==> s.workers[i].op != id
  }

  ghost predicate PastKnown(s: State, c: Option<Op>, o: Option<Op>) {
    (o.Some? ==> o.value in s.ops) && (c.Some? ==> c.value in s.ops && NotWriting(s, c.value)) &&
    (c.Some? && o.Some? ==> c == o)
  }

  ghost predicate SubmitterKnown(s: State) {
    match s.submitter
    case Idle => true
    case Entered(_) => true
    case Looking(_, o) => o.Some? ==> o.value in s.ops
    case Joining(c, o, p) =>
      p.Some? && p.value < |s.workers| && o == Some(s.workers[p.value].op) && s.workers[p.value].cause != NoCause &&
      (c.Some? ==> c == o)
    case Joined(c, o, _) => PastKnown(s, c, o)
    case Holding(c, o, _) => PastKnown(s, c, o)
  }

  ghost predicate Safe(s: State) {
    forall i :: 0 <= i < |s.workers| && s.workers[i].phase == Writing ==> Owns(s, i) && Undisturbed(s, s.workers[i].op)
  }

  ghost predicate Inv(s: State) { Known(s) && SubmitterKnown(s) && Safe(s) }

  lemma SubmitterSteps(s: State, t: Step)
    requires Inv(s) && Enabled(s, t)
    requires (t.Enter? || t.Leave? || t.ReadActive? || t.AbandonJoin? || t.Refresh? || t.RefreshFailed? || t.Fail?)
    ensures Inv(Next(s, t))
  {
  }

  lemma JoinSteps(s: State, t: Step)
    requires Inv(s) && Enabled(s, t) && (t.TakeRun? || t.Join?)
    ensures Inv(Next(s, t))
  {
  }

  lemma AdmitSteps(s: State, t: Step)
    requires Inv(s) && Enabled(s, t) && (t.Admit? || t.AdmitUnresolved?)
    ensures Inv(Next(s, t))
  {
  }

  lemma WorkerSteps(s: State, t: Step)
    requires Inv(s) && Enabled(s, t) && (t.EndWork? || t.ExitUnfinished?)
    ensures Inv(Next(s, t))
  {
  }

  lemma CancelSteps(s: State, i: nat)
    requires Inv(s) && Enabled(s, Cancel(i))
    ensures Inv(Next(s, Cancel(i)))
  {
  }

  lemma ExitSteps(s: State, i: nat)
    requires Inv(s) && Enabled(s, ExitSuperseded(i))
    ensures Inv(Next(s, ExitSuperseded(i)))
  {
  }

  lemma ClearSteps(s: State, i: nat)
    requires Inv(s) && Enabled(s, Clear(i))
    ensures Inv(Next(s, Clear(i)))
  {
  }

  lemma PersistSteps(s: State, i: nat)
    requires Inv(s) && Enabled(s, Persist(i))
    ensures Inv(Next(s, Persist(i)))
  {
  }

  lemma TargetSteps(s: State, i: nat)
    requires Inv(s) && Enabled(s, PersistTarget(i))
    ensures Inv(Next(s, PersistTarget(i)))
  {
  }

  lemma NextInv(s: State, t: Step)
    requires Inv(s) && Enabled(s, t)
    ensures Inv(Next(s, t))
  {
    match t
    case Enter(_) => SubmitterSteps(s, t);
    case Leave => SubmitterSteps(s, t);
    case ReadActive => SubmitterSteps(s, t);
    case TakeRun => JoinSteps(s, t);
    case Join => JoinSteps(s, t);
    case AbandonJoin => SubmitterSteps(s, t);
    case Refresh => SubmitterSteps(s, t);
    case RefreshFailed => SubmitterSteps(s, t);
    case Fail => SubmitterSteps(s, t);
    case Admit(_) => AdmitSteps(s, t);
    case AdmitUnresolved(_) => AdmitSteps(s, t);
    case PersistTarget(i) => TargetSteps(s, i);
    case Persist(i) => PersistSteps(s, i);
    case ExitSuperseded(i) => ExitSteps(s, i);
    case Clear(i) => ClearSteps(s, i);
    case Cancel(i) => CancelSteps(s, i);
    case RunFinisher(_) =>
    case DropFinisher(_) =>
    case Issue(_) =>
    case _ => WorkerSteps(s, t);
  }

  lemma {:induction false} RunInv(s: State, steps: seq<Step>)
    requires Inv(s) && Runs(s, steps)
    ensures Inv(Run(s, steps))
    decreases steps
  {
    if steps != [] {
      NextInv(s, steps[0]);
      RunInv(Next(s, steps[0]), steps[1..]);
    }
  }

  /** Single writer: in every run, whenever a worker issues a device command its operation is
      unfinished and holds the reservation, and no other worker can issue one. */
  lemma SingleWriter(steps: seq<Step>, i: nat)
    requires Runs(Empty, steps) && Enabled(Run(Empty, steps), Issue(i))
    ensures Owns(Run(Empty, steps), i)
    ensures forall j :: Enabled(Run(Empty, steps), Issue(j)) ==> j == i
  {
    RunInv(Empty, steps);
  }

  // ---- Every unfinished operation has somebody who will finish it ----

  /** A superseded worker leaves its operation to whoever superseded it. */
  predicate FinishesItself(w: Worker) { w.Alive() && w.cause != Superseded }

  ghost predicate OwnWorker(s: State, id: Op) {
    exists i :: 0 <= i < |s.workers| && s.workers[i].op == id && FinishesItself(s.workers[i])
  }

  ghost predicate Cancelling(s: State, id: Op) {
    exists i :: 0 <= i < |s.workers| && s.workers[i].target == Some(id) && s.workers[i].Alive()
  }

  /** The submitter found the owner's own worker, so its cleanup is about this operation. */
  predicate Found(s: State, id: Op) {
    (s.submitter.Joining? || Past(s.submitter)) && s.submitter.owner == Some(id) && s.submitter.previous.Some? &&
    s.submitter.previous.value < |s.workers| && s.workers[s.submitter.previous.value].op == id
  }

  ghost predicate Covered(s: State, id: Op) {
    OwnWorker(s, id) || Cancelling(s, id) || id in s.finishers || Found(s, id)
  }

  ghost predicate AllCovered(s: State) { forall id :: id in s.ops && !s.ops[id] ==> Covered(s, id) }

  /** Steps at which somebody walks away: shutdown, an unresolved commit, a request that ends
      while it joins, a failed re-read after it joined. */
  predicate Lossy(t: Step) {
    t.AbandonJoin? || t.RefreshFailed? || t.AdmitUnresolved? || t.ExitUnfinished? || t.DropFinisher?
  }

  /** A worker other than the one that moved still stands for its operation. */
  lemma OthersStand(s: State, after: State, i: nat, id: Op)
    requires i < |s.workers| && |after.workers| == |s.workers|
    requires forall j :: 0 <= j < |s.workers| && j != i ==> after.workers[j] == s.workers[j]
    requires OwnWorker(s, id) || Cancelling(s, id)
    ensures OwnWorker(after, id) || Cancelling(after, id) ||
            (s.workers[i].Alive() && (s.workers[i].op == id || s.workers[i].target == Some(id)))
  {
  }

  lemma MovedWorkerCovered(s: State, t: Step, i: nat)
    requires Inv(s) && AllCovered(s) && Enabled(s, t) && i < |s.workers|
    requires t == EndWork(i) || t == PersistTarget(i) || t == Persist(i) || t == ExitSuperseded(i) || t == Clear(i) ||
             t == Cancel(i)
    ensures AllCovered(Next(s, t))
  {
    var after := Next(s, t);
    forall id | id in after.ops && !after.ops[id] ensures Covered(after, id) {
      assert id in s.ops && !s.ops[id] && Covered(s, id);
      if OwnWorker(s, id) || Cancelling(s, id) {
        OthersStand(s, after, i, id);
        if s.workers[i].op == id && OwnWorker(s, id) && (t.EndWork? || t.PersistTarget? || t.Cancel?) {
          assert after.workers[i].op == id && after.workers[i].Alive();
        }
        if s.workers[i].target == Some(id) && s.workers[i].Alive() && (t.EndWork? || t.Cancel?) {
          assert after.workers[i].target == Some(id) && after.workers[i].Alive();
        }
      }
    }
  }

  lemma AdmitCovered(s: State, id: Op)
    requires Inv(s) && AllCovered(s) && Enabled(s, Admit(id))
    ensures AllCovered(Next(s, Admit(id)))
  {
    var after := Next(s, Admit(id));
    var n := |s.workers|;
    assert after.workers[n].op == id && after.workers[n].Alive() && after.workers[n].target == s.submitter.cancels;
    forall x | x in after.ops && !after.ops[x] ensures Covered(after, x) {
      if x != id {
        assert Covered(s, x);
        WorkersAppended(s, after, x);
      }
    }
  }

  lemma WorkersAppended(s: State, after: State, id: Op)
    requires |s.workers| <= |after.workers| && forall j :: 0 <= j < |s.workers| ==> after.workers[j] == s.workers[j]
    ensures (OwnWorker(s, id) ==> OwnWorker(after, id)) && (Cancelling(s, id) ==> Cancelling(after, id))
  {
  }

  lemma SubmitterCovered(s: State, t: Step)
    requires Inv(s) && AllCovered(s) && Enabled(s, t)
    requires t.Enter? || t.Leave? || t.ReadActive? || t.Join? || t.Refresh? || t.Fail? || t.RunFinisher? || t.Issue?
    ensures AllCovered(Next(s, t))
  {
    var after := Next(s, t);
    forall id | id in after.ops && !after.ops[id] ensures Covered(after, id) {
      assert Covered(s, id);
      WorkersAppended(s, after, id);
    }
  }

  lemma TakeRunCovered(s: State)
    requires Inv(s) && AllCovered(s) && Enabled(s, TakeRun)
    ensures AllCovered(Next(s, TakeRun))
  {
    var after := Next(s, TakeRun);
    forall id | id in after.ops && !after.ops[id] ensures Covered(after, id) {
      assert Covered(s, id);
      if after.submitter.Joined? {
        WorkersAppended(s, after, id);
      } else if OwnWorker(s, id) || Cancelling(s, id) {
        var i := s.run.value;
        OthersStand(s, after, i, id);
        if s.workers[i].target == Some(id) && s.workers[i].Alive() {
          assert after.workers[i].target == Some(id) && after.workers[i].Alive();
        }
      }
    }
  }

  /** Nothing but the lossy steps leaves an unfinished operation, and with it possibly
      the reservation, without anybody to finish it. */
  lemma NextCovered(s: State, t: Step)
    requires Inv(s) && AllCovered(s) && Enabled(s, t) && !Lossy(t)
    ensures AllCovered(Next(s, t))
  {
    match t
    case TakeRun => TakeRunCovered(s);
    case Admit(id) => AdmitCovered(s, id);
    case EndWork(i) => MovedWorkerCovered(s, t, i);
    case Cancel(i) => MovedWorkerCovered(s, t, i);
    case PersistTarget(i) => MovedWorkerCovered(s, t, i);
    case Persist(i) => MovedWorkerCovered(s, t, i);
    case ExitSuperseded(i) => MovedWorkerCovered(s, t, i);
    case Clear(i) => MovedWorkerCovered(s, t, i);
    case _ => SubmitterCovered(s, t);
  }

  lemma {:induction false} RunCovered(s: State, steps: seq<Step>)
    requires Inv(s) && AllCovered(s) && Runs(s, steps) && forall i :: 0 <= i < |steps| ==> !Lossy(steps[i])
    ensures AllCovered(Run(s, steps))
    decreases steps
  {
    if steps != [] {
      NextInv(s, steps[0]);
      NextCovered(s, steps[0]);
      RunCovered(Next(s, steps[0]), steps[1..]);
    }
  }

  // ---- A request that ends while it joins, or cannot read the owner again ----

  /** Nobody has been asked to finish this operation. */
  ghost predicate Unassigned(s: State, id: Op) {
    id !in s.finishers && forall j :: 0 <= j < |s.workers| ==> s.workers[j].target != Some(id)
  }

  /** The lane's own operation, and the one whose worker the submitter found, are left to that
      worker; past the join it is done. */
  ghost predicate Held(s: State) {
    (s.run.Some? && s.run.value < |s.workers| ==>
       s.workers[s.run.value].phase != Done && Unassigned(s, s.workers[s.run.value].op) &&
       (Past(s.submitter) ==>
          s.submitter.owner != Some(s.workers[s.run.value].op) &&
          s.submitter.cancels != Some(s.workers[s.run.value].op))) &&
    ((s.submitter.Joining? || Past(s.submitter)) && s.submitter.owner.Some? && Found(s, s.submitter.owner.value) ==>
       Unassigned(s, s.submitter.owner.value) &&
       (Past(s.submitter) ==> s.workers[s.submitter.previous.value].phase == Done))
  }

  lemma SubmitterHeld(s: State, t: Step)
    requires Inv(s) && Held(s) && Enabled(s, t)
    requires t.Enter? || t.Leave? || t.ReadActive? || t.TakeRun? || t.Join? || t.AbandonJoin? || t.Refresh? ||
             t.RefreshFailed? || t.Fail?
    ensures Held(Next(s, t))
  {
  }

  lemma AdmitHeld(s: State, t: Step)
    requires Inv(s) && Held(s) && Enabled(s, t) && (t.Admit? || t.AdmitUnresolved?)
    ensures Held(Next(s, t))
  {
  }

  lemma WorkerHeld(s: State, t: Step)
    requires Inv(s) && Held(s) && Enabled(s, t)
    requires t.EndWork? || t.ExitUnfinished? || t.Cancel?
    ensures Held(Next(s, t))
  {
  }

  lemma ExitHeld(s: State, t: Step)
    requires Inv(s) && Held(s) && Enabled(s, t) && (t.Persist? || t.Clear?)
    ensures Held(Next(s, t))
  {
  }

  lemma TargetHeld(s: State, t: Step)
    requires Inv(s) && Held(s) && Enabled(s, t) && (t.PersistTarget? || t.ExitSuperseded?)
    ensures Held(Next(s, t))
  {
  }

  lemma NextHeld(s: State, t: Step)
    requires Inv(s) && Held(s) && Enabled(s, t)
    ensures Held(Next(s, t))
  {
    match t
    case Admit(_) => AdmitHeld(s, t);
    case AdmitUnresolved(_) => AdmitHeld(s, t);
    case Issue(_) =>
    case RunFinisher(_) =>
    case DropFinisher(_) =>
    case EndWork(_) => WorkerHeld(s, t);
    case Cancel(_) => WorkerHeld(s, t);
    case PersistTarget(_) => TargetHeld(s, t);
    case Persist(_) => ExitHeld(s, t);
    case ExitSuperseded(_) => TargetHeld(s, t);
    case ExitUnfinished(_) => WorkerHeld(s, t);
    case Clear(_) => ExitHeld(s, t);
    case _ => SubmitterHeld(s, t);
  }

  lemma {:induction false} RunHeld(s: State, steps: seq<Step>)
    requires Inv(s) && Held(s) && Runs(s, steps)
    ensures Inv(Run(s, steps)) && Held(Run(s, steps))
    decreases steps
  {
    if steps != [] {
      NextInv(s, steps[0]);
      NextHeld(s, steps[0]);
      RunHeld(Next(s, steps[0]), steps[1..]);
    }
  }

  /** In every run, a request that ends while it waits for the worker it revoked keeps every
      unfinished operation covered exactly when that operation is already finished, or its
      worker had been cancelled for another reason before and will finish it itself. */
  lemma AbandonedJoin(steps: seq<Step>)
    requires Runs(Empty, steps) && AllCovered(Run(Empty, steps)) && Enabled(Run(Empty, steps), AbandonJoin)
    ensures var s := Run(Empty, steps); var sub := s.submitter;
            sub.owner.Some? && sub.owner.value in s.ops && sub.previous.Some? && sub.previous.value < |s.workers| &&
            (AllCovered(Next(s, AbandonJoin)) <==>
               s.ops[sub.owner.value] || FinishesItself(s.workers[sub.previous.value]))
  {
    RunHeld(Empty, steps);
    LeavingLoses(Run(Empty, steps), AbandonJoin);
  }

  /** In every run, a failed re-read keeps that exactly when the operation is finished, or the
      worker found in the lane was not its own, so that somebody else has it. */
  lemma FailedReread(steps: seq<Step>)
    requires Runs(Empty, steps) && AllCovered(Run(Empty, steps)) && Enabled(Run(Empty, steps), RefreshFailed)
    ensures var s := Run(Empty, steps); var id := s.submitter.owner.value;
            id in s.ops && (AllCovered(Next(s, RefreshFailed)) <==> s.ops[id] || !Found(s, id))
  {
    RunHeld(Empty, steps);
    LeavingLoses(Run(Empty, steps), RefreshFailed);
  }

  /** A commit that nobody could confirm always leaves its new operation to nobody. */
  lemma UnresolvedLoses(s: State, id: Op)
    requires Inv(s) && Enabled(s, AdmitUnresolved(id))
    ensures !Covered(Next(s, AdmitUnresolved(id)), id) && !AllCovered(Next(s, AdmitUnresolved(id)))
  {
  }

  /** Walking away drops the cleanup of the operation whose worker was found, and nothing else. */
  lemma LeavingLoses(s: State, t: Step)
    requires Inv(s) && Held(s) && AllCovered(s) && Enabled(s, t) && (t.AbandonJoin? || t.RefreshFailed?)
    requires s.submitter.owner.Some?
    ensures var id := s.submitter.owner.value;
            AllCovered(Next(s, t)) <==>
              s.ops[id] || !Found(s, id) || FinishesItself(s.workers[s.submitter.previous.value])
  {
    var after := Next(s, t);
    var id := s.submitter.owner.value;
    forall x | x in after.ops && !after.ops[x] && (x != id || !Found(s, id)) ensures Covered(after, x) {
      assert Covered(s, x);
      WorkersAppended(s, after, x);
    }
    if Found(s, id) {
      assert OwnWorker(after, id) <==> FinishesItself(s.workers[s.submitter.previous.value]);
      assert !Cancelling(after, id) && !Found(after, id);
    }
  }

  /** The states of a takeover that is abandoned, up to the abandonment. */
  function Reserved0(submitter: Submitter, cause: Cause): State {
    State(map[0 := false], Some(0), [Worker(0, Writing, cause, None)], Some(0), submitter, {})
  }

  const Start: seq<Step> := [Enter(None)] + ([ReadActive] + ([TakeRun] + ([Refresh] + ([Admit(0)] + Revoke))))
  const Revoke: seq<Step> := [Enter(None)] + ([ReadActive] + ([TakeRun] + []))

  const JoiningPlayback: State := Reserved0(Joining(None, Some(0), Some(0)), Superseded)

  lemma RevokeReaches()
    ensures Runs(Reserved0(Idle, NoCause), Revoke) && Run(Reserved0(Idle, NoCause), Revoke) == JoiningPlayback
  {
    var looking := Reserved0(Looking(None, Some(0)), NoCause);
    assert Next(looking, TakeRun) == JoiningPlayback;
    RunStep(looking, TakeRun, []);
    RunStep(Reserved0(Entered(None), NoCause), ReadActive, [TakeRun] + []);
    RunStep(Reserved0(Idle, NoCause), Enter(None), [ReadActive] + ([TakeRun] + []));
  }

  /** Such an input: one playback is admitted, and a takeover revokes it while it writes. */
  lemma TakeoverReachesJoin()
    ensures Runs(Empty, Start) && Run(Empty, Start) == JoiningPlayback
  {
    RevokeReaches();
    var holding := Empty.(submitter := Holding(None, None, None));
    assert Next(holding, Admit(0)) == Reserved0(Idle, NoCause);
    RunStep(holding, Admit(0), Revoke);
    RunStep(Empty.(submitter := Joined(None, None, None)), Refresh, [Admit(0)] + Revoke);
    RunStep(Empty.(submitter := Looking(None, None)), TakeRun, [Refresh] + ([Admit(0)] + Revoke));
    RunStep(Empty.(submitter := Entered(None)), ReadActive, [TakeRun] + ([Refresh] + ([Admit(0)] + Revoke)));
    RunStep(Empty, Enter(None), [ReadActive] + ([TakeRun] + ([Refresh] + ([Admit(0)] + Revoke))));
  }

  /** The revoked worker goes away without finishing. */
  const Exit: seq<Step> := [EndWork(0)] + ([ExitSuperseded(0)] + ([Clear(0)] + []))

  function Revoked0(submitter: Submitter, phase: Phase): State {
    Reserved0(submitter, Superseded).(workers := [Worker(0, phase, Superseded, None)])
  }

  /** The worker gone, the reservation held. */
  function Gone0(submitter: Submitter): State {
    State(map[0 := false], Some(0), [Worker(0, Done, Superseded, None)], None, submitter, {})
  }

  lemma ExitReaches(sub: Submitter)
    ensures Runs(Revoked0(sub, Writing), Exit) && Run(Revoked0(sub, Writing), Exit) == Gone0(sub)
  {
    assert Next(Revoked0(sub, Cleared), Clear(0)) == Gone0(sub);
    RunStep(Revoked0(sub, Cleared), Clear(0), []);
    assert Next(Revoked0(sub, Finalizing), ExitSuperseded(0)) == Revoked0(sub, Cleared);
    RunStep(Revoked0(sub, Finalizing), ExitSuperseded(0), [Clear(0)] + []);
    assert Next(Revoked0(sub, Writing), EndWork(0)) == Revoked0(sub, Finalizing);
    RunStep(Revoked0(sub, Writing), EndWork(0), [ExitSuperseded(0)] + ([Clear(0)] + []));
  }

  lemma NobodyLeft()
    ensures Gone0(Idle).reserved == Some(0) && !Gone0(Idle).ops[0] && !Covered(Gone0(Idle), 0)
  {
  }

  /** What happens when the request ends while it joins there: the unfinished operation keeps
      the reservation with nobody left. */
  lemma ReservationLeftBehind()
    ensures Runs(Empty, Start) && Runs(Run(Empty, Start), [AbandonJoin] + Exit)
    ensures var left := Run(Run(Empty, Start), [AbandonJoin] + Exit); left == Gone0(Idle) && !Covered(left, 0)
  {
    TakeoverReachesJoin();
    ExitReaches(Idle);
    RunStep(JoiningPlayback, AbandonJoin, Exit);
    NobodyLeft();
  }

  /** And when it waits the worker out, but then cannot read the operation again. */
  lemma RereadLeavesBehind()
    ensures Runs(Empty, Start) && Runs(Run(Empty, Start), Exit)
    ensures var done := Run(Run(Empty, Start), Exit); var last := [Join] + ([RefreshFailed] + []);
            Runs(done, last) && Run(done, last) == Gone0(Idle) && !Covered(Run(done, last), 0)
  {
    TakeoverReachesJoin();
    ExitReaches(Joining(None, Some(0), Some(0)));
    RunStep(Gone0(Joined(None, Some(0), Some(0))), RefreshFailed, []);
    RunStep(Gone0(Joining(None, Some(0), Some(0))), Join, [RefreshFailed] + []);
    NobodyLeft();
  }

  lemma RunStep(s: State, t: Step, rest: seq<Step>)
    requires Enabled(s, t) && Runs(Next(s, t), rest)
    ensures Runs(s, [t] + rest) && Run(s, [t] + rest) == Run(Next(s, t), rest)
  {
    assert ([t] + rest)[1..] == rest;
  }
}
