/** Runs of any number of stores over one journal, each recovering, admitting, updating and
    pruning in any order, with commits whose replies may be lost. */
module JournalRuns {
  import opened Heos
  import opened Journal

  /** A transaction may commit, commit without the caller learning it, or not commit. */
  datatype Commit = Committed | LostReply | Aborted

  /** An admission whose commit failed, waiting to be resolved by a fresh lookup. */
  datatype Ticket = Ticket(store: nat, request: Request, row: Id)

  /** `history` lists the epochs the control row has held, `used` the generated operation
      IDs, `created` the IDs for which some caller was told it created the operation. */
  datatype World = World(db: Db, stores: seq<Store>, history: seq<Id>, used: set<Id>, created: seq<Id>,
                         tickets: set<Ticket>)

  datatype Action =
    | Open(epoch: Id)
    | AdmitCall(store: nat, request: Request, proposal: Proposal, now: Time, id: Id, active: Option<Id>, commit: Commit)
    | ResolveCall(ticket: Ticket, answered: bool)
    | TransitionCall(store: nat, id: Id, revision: nat, state: State, phase: Phase, now: Time)
    | AlbumCall(store: nat, id: Id, revision: nat, album: Id)
    | RecoverCall(store: nat, ids: set<Id>, now: Time, commit: Commit)
    | PruneCall(store: nat, ids: set<Id>, now: Time)

  ghost predicate Enabled(w: World, a: Action) {
    match a
    case Open(epoch) => epoch !in w.history && forall i :: 0 <= i < |w.stores| ==> w.stores[i].epoch != epoch
    case AdmitCall(store, request, _, _, id, active, _) =>
      store < |w.stores| && id !in w.used && ActiveAnswer(w.db, request.player, active)
    case ResolveCall(ticket, _) => ticket in w.tickets && ticket.store < |w.stores|
    case TransitionCall(store, _, _, _, _, _) => store < |w.stores|
    case AlbumCall(store, _, _, _) => store < |w.stores|
    case RecoverCall(store, ids, _, _) =>
      store < |w.stores| && !w.stores[store].initialized && Batch(w.db, w.stores[store], ids)
    case PruneCall(store, ids, now) =>
      store < |w.stores| && |ids| <= MAX_BATCH && forall id :: id in ids ==> Prunable(w.db, id, now)
  }

  ghost function AfterAdmit(
      w: World, s: Store, store: nat, r: Request, p: Proposal, now: Time, id: Id, active: Option<Id>, commit: Commit,
      capacity: nat): World {
    match Admit(w.db, s, r, p, now, id, active, capacity)
    case Insert(db) => AfterInsert(w, store, r, id, db, commit)
    case _ => w
  }

  function AfterInsert(w: World, store: nat, r: Request, id: Id, db: Db, commit: Commit): World {
    match commit
    case Committed => w.(db := db, used := w.used + {id}, created := w.created + [id])
    case LostReply => w.(db := db, used := w.used + {id}, tickets := w.tickets + {Ticket(store, r, id)})
    case Aborted => w.(used := w.used + {id}, tickets := w.tickets + {Ticket(store, r, id)})
  }

  /** The resolved lookup proves this very admission, still untouched, in the live epoch. */
  ghost predicate Proves(db: Db, s: Store, t: Ticket) {
    t.request.key in db.requests && db.requests[t.request.key].hash == t.request.hash &&
    db.requests[t.request.key].op == t.row &&
    t.row in db.ops && db.epoch == s.epoch && db.ready && db.ops[t.row].epoch == s.epoch &&
    db.ops[t.row].state == Accepted
  }

  ghost function AfterResolve(w: World, s: Store, t: Ticket, answered: bool): World {
    var closed := w.(tickets := w.tickets - {t});
    if answered && Proves(w.db, s, t) then closed.(created := w.created + [t.row]) else closed
  }

  function AfterRecover(w: World, store: nat, ids: set<Id>, now: Time, commit: Commit): World
    requires store < |w.stores|
  {
    var s := Remembering(w.stores[store], w.db);
    var tried := w.(stores := w.stores[store := s]);
    if commit == Aborted || !MayTakeOver(w.stores[store], w.db) then tried
    else
      var history := if w.db.epoch == s.epoch then w.history else w.history + [s.epoch];
      var taken := tried.(db := Recovered(w.db, s, ids, now), history := history);
      if commit == Committed && |ids| < MAX_BATCH then taken.(stores := w.stores[store := s.(initialized := true)])
      else taken
  }

  ghost function Next(w: World, a: Action, capacity: nat): World
    requires Enabled(w, a)
  {
    match a
    case Open(epoch) => w.(stores := w.stores + [Store(epoch, false, None)])
    case AdmitCall(store, r, p, now, id, active, commit) =>
      AfterAdmit(w, w.stores[store], store, r, p, now, id, active, commit, capacity)
    case ResolveCall(t, answered) => AfterResolve(w, w.stores[t.store], t, answered)
    case TransitionCall(store, id, revision, state, phase, now) =>
      (match Transition(w.db, w.stores[store], id, revision, state, phase, now)
       case Some(db) => w.(db := db)
       case None => w)
    case AlbumCall(store, id, revision, album) =>
      (match SelectAlbum(w.db, w.stores[store], id, revision, album) case Some(db) => w.(db := db) case None => w)
    case RecoverCall(store, ids, now, commit) => AfterRecover(w, store, ids, now, commit)
    case PruneCall(store, ids, now) => if Live(w.stores[store], w.db) then w.(db := Pruned(w.db, ids)) else w
  }

  ghost predicate Runs(w: World, actions: seq<Action>, capacity: nat)
    decreases actions
  {
    actions == [] || (Enabled(w, actions[0]) && Runs(Next(w, actions[0], capacity), actions[1..], capacity))
  }

  ghost function Run(w: World, actions: seq<Action>, capacity: nat): World
    requires Runs(w, actions, capacity)
    decreases actions
  {
    if actions == [] then w else Run(Next(w, actions[0], capacity), actions[1..], capacity)
  }

  /** A migrated, empty journal. */
  ghost function Migrated(epoch: Id): World {
    World(Db(epoch, false, map[], map[], map[]), [], [epoch], {}, [], {})
  }

  // ---- Invariants ----

  predicate NoRepeats(s: seq<Id>) { forall i, j :: 0 <= i < j < |s| ==> s[i] != s[j] }

  ghost predicate DistinctEpochs(stores: seq<Store>) {
    forall i, j :: 0 <= i < j < |stores| ==> stores[i].epoch != stores[j].epoch
  }

  /** A store whose epoch the control row has held took over from exactly the one before. */
  ghost predicate Fenced(stores: seq<Store>, history: seq<Id>, epoch: Id) {
    history != [] && history[|history| - 1] == epoch && NoRepeats(history) && DistinctEpochs(stores) &&
    (forall k, i :: 0 <= k < |stores| && 0 <= i < |history| ==> TookOver(stores[k], history, i))
  }

  ghost predicate TookOver(s: Store, history: seq<Id>, i: nat)
    requires i < |history|
  {
    s.epoch == history[i] ==> 0 < i && s.previous == Some(history[i - 1])
  }

  /** Created IDs are distinct, and an unresolved admission's ID is nobody else's. */
  ghost predicate IdsInv(used: set<Id>, created: seq<Id>, tickets: set<Ticket>) {
    (forall i :: 0 <= i < |created| ==> created[i] in used) && NoRepeats(created) &&
    (forall t :: t in tickets ==> t.row in used && t.row !in created) &&
    (forall t, u :: t in tickets && u in tickets && t.row == u.row ==> t == u)
  }

  ghost predicate Inv(w: World, capacity: nat) {
    TablesInv(w.db, capacity) && Fenced(w.stores, w.history, w.db.epoch) &&
    w.db.ops.Keys <= w.used && IdsInv(w.used, w.created, w.tickets)
  }

  /** Replacing a store by one with the same epoch and a compatible memory. */
  lemma UpdateFenced(stores: seq<Store>, history: seq<Id>, epoch: Id, store: nat, s: Store)
    requires Fenced(stores, history, epoch) && store < |stores| && s.epoch == stores[store].epoch
    requires stores[store].previous.Some? ==> s.previous == stores[store].previous
    ensures Fenced(stores[store := s], history, epoch)
  {
    var after := stores[store := s];
    forall k, i | 0 <= k < |after| && 0 <= i < |history| ensures TookOver(after[k], history, i) {
      assert TookOver(stores[k], history, i);
    }
  }

  /** A takeover is only ever from the epoch the store remembers, so its own epoch cannot
      have been held and superseded before. */
  lemma TakeOverFenced(stores: seq<Store>, history: seq<Id>, epoch: Id, store: nat)
    requires Fenced(stores, history, epoch) && store < |stores| && stores[store].previous == Some(epoch)
    requires stores[store].epoch != epoch
    ensures stores[store].epoch !in history && Fenced(stores, history + [stores[store].epoch], stores[store].epoch)
  {
    forall i | 0 <= i < |history| ensures history[i] != stores[store].epoch {
      assert TookOver(stores[store], history, i);
    }
    var after := history + [stores[store].epoch];
    forall k, i | 0 <= k < |stores| && 0 <= i < |after| ensures TookOver(stores[k], after, i) {
      if i < |history| { assert TookOver(stores[k], history, i); }
    }
  }

  lemma CreateIds(used: set<Id>, created: seq<Id>, tickets: set<Ticket>, id: Id)
    requires IdsInv(used, created, tickets) && id !in created && forall t :: t in tickets ==> t.row != id
    ensures IdsInv(used + {id}, created + [id], tickets)
  {
  }

  lemma TicketIds(used: set<Id>, created: seq<Id>, tickets: set<Ticket>, t: Ticket)
    requires IdsInv(used, created, tickets) && t.row !in used
    ensures IdsInv(used + {t.row}, created, tickets + {t})
  {
  }

  lemma ResolveIds(used: set<Id>, created: seq<Id>, tickets: set<Ticket>, t: Ticket)
    requires IdsInv(used, created, tickets) && t in tickets
    ensures IdsInv(used, created, tickets - {t}) && IdsInv(used, created + [t.row], tickets - {t})
  {
    CreateIds(used, created, tickets - {t}, t.row);
    assert used + {t.row} == used;
  }

  /** What one action does to the tables: rows advance and stay, except that pruning removes
      some, and rows are added only to a ready journal. */
  ghost predicate DbAdvances(db: Db, after: Db, pruning: bool) {
    (!pruning ==> OpsAdvance(db.ops, after.ops) && RecordsStay(db.requests, after.requests)) &&
    (!db.ready ==> after.ops.Keys <= db.ops.Keys)
  }

  lemma InsertNext(w: World, store: nat, r: Request, id: Id, db: Db, commit: Commit, capacity: nat)
    requires Inv(w, capacity) && id !in w.used && TablesInv(db, capacity) && db.epoch == w.db.epoch
    requires db.ops.Keys == w.db.ops.Keys + {id} && store < |w.stores|
    ensures Inv(AfterInsert(w, store, r, id, db, commit), capacity)
    ensures AfterInsert(w, store, r, id, db, commit).history == w.history
  {
    CreateIds(w.used, w.created, w.tickets, id);
    TicketIds(w.used, w.created, w.tickets, Ticket(store, r, id));
  }

  lemma AdmitNext(w: World, a: Action, capacity: nat)
    requires Inv(w, capacity) && Enabled(w, a) && a.AdmitCall?
    ensures Inv(Next(w, a, capacity), capacity) && Next(w, a, capacity).history == w.history
  {
    var s := w.stores[a.store];
    if Admit(w.db, s, a.request, a.proposal, a.now, a.id, a.active, capacity).Insert? {
      AdmitInv(w.db, s, a.request, a.proposal, a.now, a.id, a.active, capacity);
      var db := Admit(w.db, s, a.request, a.proposal, a.now, a.id, a.active, capacity).db;
      InsertNext(w, a.store, a.request, a.id, db, a.commit, capacity);
    }
  }

  lemma RecoverNext(w: World, a: Action, capacity: nat)
    requires Inv(w, capacity) && Enabled(w, a) && a.RecoverCall?
    ensures Inv(Next(w, a, capacity), capacity) && w.history <= Next(w, a, capacity).history
  {
    var s := Remembering(w.stores[a.store], w.db);
    UpdateFenced(w.stores, w.history, w.db.epoch, a.store, s);
    if a.commit != Aborted && MayTakeOver(w.stores[a.store], w.db) {
      assert Batch(w.db, s, a.ids);
      RecoveredInv(w.db, s, a.ids, a.now, capacity);
      var stores := w.stores[a.store := s];
      var history := if w.db.epoch == s.epoch then w.history else w.history + [s.epoch];
      if w.db.epoch != s.epoch { TakeOverFenced(stores, w.history, w.db.epoch, a.store); }
      UpdateFenced(stores, history, s.epoch, a.store, s.(initialized := true));
      assert stores[a.store := s.(initialized := true)] == w.stores[a.store := s.(initialized := true)];
    }
  }

  lemma OtherNext(w: World, a: Action, capacity: nat)
    requires Inv(w, capacity) && Enabled(w, a) && !a.AdmitCall? && !a.RecoverCall?
    ensures Inv(Next(w, a, capacity), capacity) && Next(w, a, capacity).history == w.history
  {
    match a
    case Open(epoch) =>
    case TransitionCall(store, id, revision, state, phase, now) =>
      if Transition(w.db, w.stores[store], id, revision, state, phase, now).Some? {
        TransitionInv(w.db, w.stores[store], id, revision, state, phase, now, capacity);
      }
    case AlbumCall(store, id, revision, album) =>
      if SelectAlbum(w.db, w.stores[store], id, revision, album).Some? {
        AlbumInv(w.db, w.stores[store], id, revision, album, capacity);
      }
    case PruneCall(store, ids, now) =>
      PrunedInv(w.db, ids, now, capacity);
      PrunedOps(w.db, ids);
    case ResolveCall(t, answered) => ResolveIds(w.used, w.created, w.tickets, t);
  }

  lemma NextInv(w: World, a: Action, capacity: nat)
    requires Inv(w, capacity) && Enabled(w, a)
    ensures Inv(Next(w, a, capacity), capacity) && w.history <= Next(w, a, capacity).history
  {
    if a.AdmitCall? {
      AdmitNext(w, a, capacity);
    } else if a.RecoverCall? {
      RecoverNext(w, a, capacity);
    } else {
      OtherNext(w, a, capacity);
    }
  }

  /** The one table change an action can make. */
  ghost predicate DbStep(w: World, a: Action, after: Db, capacity: nat)
    requires Enabled(w, a)
  {
    match a
    case AdmitCall(store, r, p, now, id, active, _) =>
      Admit(w.db, w.stores[store], r, p, now, id, active, capacity) == Insert(after)
    case RecoverCall(store, ids, now, _) => after == Recovered(w.db, Remembering(w.stores[store], w.db), ids, now)
    case TransitionCall(store, id, revision, state, phase, now) =>
      Transition(w.db, w.stores[store], id, revision, state, phase, now) == Some(after)
    case AlbumCall(store, id, revision, album) => SelectAlbum(w.db, w.stores[store], id, revision, album) == Some(after)
    case PruneCall(_, ids, _) => after == Pruned(w.db, ids)
    case _ => false
  }

  lemma NextDb(w: World, a: Action, capacity: nat)
    requires Enabled(w, a)
    ensures Next(w, a, capacity).db == w.db || DbStep(w, a, Next(w, a, capacity).db, capacity)
  {
  }

  lemma StepAdvances(db: Db, after: Db, capacity: nat)
    requires Step(db, after, capacity) && (!db.ready ==> after.ops.Keys <= db.ops.Keys)
    ensures DbAdvances(db, after, false)
  {
  }

  lemma DbStepAdvances(w: World, a: Action, after: Db, capacity: nat)
    requires TablesInv(w.db, capacity) && w.db.ops.Keys <= w.used && Enabled(w, a) && DbStep(w, a, after, capacity)
    ensures a.PruneCall? || (Step(w.db, after, capacity) && (!w.db.ready ==> after.ops.Keys <= w.db.ops.Keys))
  {
    match a
    case AdmitCall(store, r, p, now, id, active, _) => AdmitInv(w.db, w.stores[store], r, p, now, id, active, capacity);
    case RecoverCall(store, ids, now, _) =>
      var s := Remembering(w.stores[store], w.db);
      assert Batch(w.db, s, ids);
      RecoveredInv(w.db, s, ids, now, capacity);
    case TransitionCall(store, id, revision, state, phase, now) =>
      TransitionInv(w.db, w.stores[store], id, revision, state, phase, now, capacity);
    case AlbumCall(store, id, revision, album) => AlbumInv(w.db, w.stores[store], id, revision, album, capacity);
    case _ =>
  }

  /** Every action: rows advance, records stay, and only a ready journal gains rows. */
  lemma NextAdvances(w: World, a: Action, capacity: nat)
    requires TablesInv(w.db, capacity) && w.db.ops.Keys <= w.used && Enabled(w, a)
    ensures DbAdvances(w.db, Next(w, a, capacity).db, a.PruneCall?)
  {
    NextDb(w, a, capacity);
    var after := Next(w, a, capacity).db;
    if after != w.db {
      DbStepAdvances(w, a, after, capacity);
      if !a.PruneCall? { StepAdvances(w.db, after, capacity); }
    }
  }

  /** The journal invariant over all runs: reservations are held by unfinished operations of
      their device and epoch, states agree with finish times, records and operations are one
      to one and retained, no foreign work is left when ready, capacity is respected, epochs
      never repeat, and no operation is ever reported created twice. */
  lemma {:induction false} RunInv(w: World, actions: seq<Action>, capacity: nat)
    requires Inv(w, capacity) && Runs(w, actions, capacity)
    ensures Inv(Run(w, actions, capacity), capacity) && w.history <= Run(w, actions, capacity).history
    decreases actions
  {
    if actions != [] {
      NextInv(w, actions[0], capacity);
      RunInv(Next(w, actions[0], capacity), actions[1..], capacity);
    }
  }

  lemma EveryRun(epoch: Id, actions: seq<Action>, capacity: nat)
    requires Runs(Migrated(epoch), actions, capacity)
    ensures var w := Run(Migrated(epoch), actions, capacity); Inv(w, capacity) && NoRepeats(w.created)
  {
    RunInv(Migrated(epoch), actions, capacity);
  }

  /** Epoch fencing: once superseded, an epoch is never the journal's again, so a store of
      that epoch can never admit, update or prune again. */
  lemma SupersededForever(w: World, actions: seq<Action>, capacity: nat, i: nat, s: Store)
    requires Inv(w, capacity) && Runs(w, actions, capacity) && i < |w.history| - 1 && s.epoch == w.history[i]
    ensures Run(w, actions, capacity).db.epoch != w.history[i] && !Live(s, Run(w, actions, capacity).db)
  {
    RunInv(w, actions, capacity);
    var later := Run(w, actions, capacity);
    assert later.history[i] == w.history[i];
  }

  /** When ready, every unfinished operation and every reservation is of the live epoch. */
  lemma ReadyIsClean(w: World, capacity: nat, id: Id, device: Id)
    requires Inv(w, capacity) && w.db.ready
    ensures Unfinished(w.db, id) ==> w.db.ops[id].epoch == w.db.epoch
    ensures device in w.db.reservations ==> w.db.reservations[device].epoch == w.db.epoch
  {
    if device in w.db.reservations { assert Holds(w.db.ops, device, w.db.reservations[device]); }
  }

  // ---- Recovery makes progress ----

  lemma NoNewForeign(db: Db, after: Db, epoch: Id)
    requires OpsAdvance(db.ops, after.ops) && after.ops.Keys <= db.ops.Keys
    ensures Foreign(after, epoch) <= Foreign(db, epoch)
  {
    forall id | id in Foreign(after, epoch) ensures id in Foreign(db, epoch) {
      assert RowAdvances(db.ops[id], after.ops[id]);
    }
  }

  /** A full batch leaves 100 fewer; a short one leaves none. */
  lemma BatchSizes(foreign: set<Id>, ids: set<Id>)
    requires ids <= foreign && |ids| == if |foreign| < MAX_BATCH then |foreign| else MAX_BATCH
    ensures if |ids| < MAX_BATCH then foreign - ids == {} else |foreign - ids| == |foreign| - MAX_BATCH
  {
    assert foreign == (foreign - ids) + ids;
    if |ids| < MAX_BATCH { SubsetSize(ids, foreign); }
  }

  lemma BatchProgress(db: Db, s: Store, ids: set<Id>, now: Time)
    requires Batch(db, s, ids)
    ensures var after := Recovered(db, s, ids, now);
            after.epoch == s.epoch && Foreign(after, s.epoch) == Foreign(db, s.epoch) - ids &&
            (after.ready ==> Foreign(after, s.epoch) == {}) &&
            (!after.ready ==> |Foreign(after, s.epoch)| == |Foreign(db, s.epoch)| - MAX_BATCH)
  {
    ForeignLeft(db, s.epoch, ids, now);
    assert Foreign(Recovered(db, s, ids, now), s.epoch) == Foreign(InterruptAll(db, ids, now), s.epoch);
    BatchSizes(Foreign(db, s.epoch), ids);
  }

  lemma BatchOutcome(db: Db, s: Store, ids: set<Id>, now: Time, capacity: nat)
    requires TablesInv(db, capacity) && Batch(db, s, ids)
    ensures var after := Recovered(db, s, ids, now);
            TablesInv(after, capacity) &&
            (!after.ready ==> |Foreign(after, s.epoch)| == |Foreign(db, s.epoch)| - MAX_BATCH)
  {
    RecoveredInv(db, s, ids, now, capacity);
    BatchProgress(db, s, ids, now);
  }

  /** A recovery batch of one epoch that took effect. */
  predicate CommittedBatch(w: World, a: Action, epoch: Id) {
    a.RecoverCall? && a.store < |w.stores| && w.stores[a.store].epoch == epoch && a.commit != Aborted &&
    MayTakeOver(w.stores[a.store], w.db)
  }

  /** While one epoch recovers, nobody adds foreign work, and each of its committed batches
      either finishes the recovery or ends a full batch of it: the loop terminates. */
  lemma RecoveryProgress(w: World, a: Action, capacity: nat, epoch: Id)
    requires Inv(w, capacity) && Enabled(w, a) && !w.db.ready
    ensures var after := Next(w, a, capacity);
            |Foreign(after.db, epoch)| <= |Foreign(w.db, epoch)| &&
            (CommittedBatch(w, a, epoch) ==>
               after.db.epoch == epoch && (after.db.ready ==> Foreign(after.db, epoch) == {}) &&
               (!after.db.ready ==> |Foreign(after.db, epoch)| == |Foreign(w.db, epoch)| - MAX_BATCH))
  {
    NoForeignAdded(w, a, capacity, epoch);
    if CommittedBatch(w, a, epoch) {
      BatchProgress(w.db, Remembering(w.stores[a.store], w.db), a.ids, a.now);
    }
  }

  lemma NoForeignAdded(w: World, a: Action, capacity: nat, epoch: Id)
    requires Inv(w, capacity) && Enabled(w, a) && !w.db.ready
    ensures |Foreign(Next(w, a, capacity).db, epoch)| <= |Foreign(w.db, epoch)|
  {
    var after := Next(w, a, capacity);
    NextAdvances(w, a, capacity);
    if !a.PruneCall? { NoNewForeign(w.db, after.db, epoch); }
    SubsetSize(Foreign(after.db, epoch), Foreign(w.db, epoch));
  }

  /** The committed batches of one epoch in a run that does not become ready. */
  ghost function Batches(w: World, actions: seq<Action>, capacity: nat, epoch: Id): nat
    requires Runs(w, actions, capacity)
    decreases actions
  {
    if actions == [] then 0
    else
      var a := actions[0];
      (if CommittedBatch(w, a, epoch) then 1 else 0) + Batches(Next(w, a, capacity), actions[1..], capacity, epoch)
  }

  ghost predicate NeverReady(w: World, actions: seq<Action>, capacity: nat)
    requires Runs(w, actions, capacity)
    decreases actions
  {
    !w.db.ready && (actions != [] ==> NeverReady(Next(w, actions[0], capacity), actions[1..], capacity))
  }

  /** Recovery terminates however other stores interleave: as long as the journal is not
      ready, an epoch can commit no more full batches than the foreign work it started with. */
  lemma {:induction false} RecoveryTerminates(w: World, actions: seq<Action>, capacity: nat, epoch: Id)
    requires Inv(w, capacity) && Runs(w, actions, capacity) && NeverReady(w, actions, capacity)
    ensures Batches(w, actions, capacity, epoch) * MAX_BATCH + |Foreign(Run(w, actions, capacity).db, epoch)|
            <= |Foreign(w.db, epoch)|
    decreases actions
  {
    if actions != [] {
      NextInv(w, actions[0], capacity);
      RecoveryProgress(w, actions[0], capacity, epoch);
      RecoveryTerminates(Next(w, actions[0], capacity), actions[1..], capacity, epoch);
    }
  }

  // ---- Retention ----

  /** The finished operation and the record that replays it. */
  ghost predicate Replayable(db: Db, id: Id, o: Op, key: Key, hash: Id) {
    id in db.ops && db.ops[id] == o && key in db.requests && db.requests[key].op == id && db.requests[key].hash == hash
  }

  ghost predicate PrunesBefore(actions: seq<Action>, t: Time) {
    forall i :: 0 <= i < |actions| && actions[i].PruneCall? ==> actions[i].now < t
  }

  lemma NextReplayable(w: World, a: Action, capacity: nat, id: Id, o: Op, key: Key, hash: Id)
    requires Inv(w, capacity) && Enabled(w, a) && Replayable(w.db, id, o, key, hash) && o.finishedAt.Some?
    requires a.PruneCall? ==> a.now < o.finishedAt.value + RETENTION
    ensures Replayable(Next(w, a, capacity).db, id, o, key, hash)
  {
    NextAdvances(w, a, capacity);
    if !a.PruneCall? {
      assert RowAdvances(w.db.ops[id], Next(w, a, capacity).db.ops[id]);
    }
  }

  /** A finished operation is immutable and replayed to its request by every later lookup,
      in every run, until some pruning clock passes its finish by the whole retention. */
  lemma {:induction false} RetentionKept(
      w: World, actions: seq<Action>, capacity: nat, id: Id, o: Op, key: Key, hash: Id)
    requires Inv(w, capacity) && Runs(w, actions, capacity) && Replayable(w.db, id, o, key, hash) && o.finishedAt.Some?
    requires PrunesBefore(actions, o.finishedAt.value + RETENTION)
    ensures Replayable(Run(w, actions, capacity).db, id, o, key, hash)
    decreases actions
  {
    if actions != [] {
      NextInv(w, actions[0], capacity);
      NextReplayable(w, actions[0], capacity, id, o, key, hash);
      assert PrunesBefore(actions[1..], o.finishedAt.value + RETENTION);
      RetentionKept(Next(w, actions[0], capacity), actions[1..], capacity, id, o, key, hash);
    }
  }

  /** To its own request such an operation is the answer, before anything else is looked at:
      whoever asks, in whatever epoch or window, and however full the journal is. */
  lemma ReplayIsTheAnswer(
      db: Db, id: Id, o: Op, r: Request, s: Store, p: Proposal, now: Time, next: Id, active: Option<Id>, capacity: nat)
    requires Replayable(db, id, o, r.key, r.hash)
    ensures Admit(db, s, r, p, now, next, active, capacity) == Found(id)
    ensures forall hash: Id :: hash != r.hash ==>
              Admit(db, s, r.(hash := hash), p, now, next, active, capacity) == Refused
  {
  }

  /** Every operation in the tables has such a record, so the statement is never empty. */
  lemma EveryOperationIsRecorded(w: World, capacity: nat, id: Id)
    requires Inv(w, capacity) && id in w.db.ops
    ensures exists key :: key in w.db.requests && Replayable(w.db, id, w.db.ops[id], key, w.db.requests[key].hash)
  {
    assert id in RecordedOps(w.db.requests);
    var key :| key in w.db.requests && w.db.requests[key].op == id;
    assert Replayable(w.db, id, w.db.ops[id], key, w.db.requests[key].hash);
  }

  // ---- One store's own methods ----

  /** The journal as one process holds it: the database behind its lock, and the process
      fields that decide whether it may use it. */
  class Journaling {
    const capacity: nat
    var db: Db
    var store: Store

    constructor (max: nat, tables: Db, epoch: Id)
      ensures capacity == max && db == tables && store == Store(epoch, false, None)
    {
      capacity, db, store := max, tables, Store(epoch, false, None);
    }

    /** Statement by statement; any refusal rolls the whole transaction back, so a handoff is
        never seen without the operation that replaces it. */
    method AdmitRequest(r: Request, p: Proposal, now: Time, id: Id, active: Option<Id>, commit: Commit)
      returns (created: bool, found: Option<Id>)
      modifies this`db
      ensures var result := Admit(old(db), store, r, p, now, id, active, capacity);
              db == (if result.Insert? && commit != Aborted then result.db else old(db)) &&
              (created <==> result.Insert? && commit == Committed) &&
              found == (if result.Found? then Some(result.op) else None)
    {
      created, found := false, None;
      if r.key in db.requests {
        if db.requests[r.key].hash == r.hash { found := Some(db.requests[r.key].op); }
        return;
      }
      if !Live(store, db) || !p.valid || p.notAfter <= p.notBefore || now < p.notBefore || now >= p.notAfter { return; }
      if |db.ops.Keys| >= capacity { return; }
      if p.owner.Some? {
        if p.kind != Skip || p.replace.Some? || p.replaceRevision != 0 || p.replaceUncertain { return; }
        if active != p.owner || !Unfinished(db, p.owner.value) { return; }
        var o := db.ops[p.owner.value];
        if o.device != p.device || o.epoch != store.epoch || o.kind != Playback || o.principal != r.key.principal {
          return;
        }
      }
      var tx := db;
      if p.replace.Some? {
        var replaced := p.replace.value;
        if active != p.replace || replaced !in tx.ops || tx.ops[replaced].device != p.device ||
           tx.ops[replaced].revision != p.replaceRevision {
          return;
        }
        if !p.handoffValid || !Updatable(tx, replaced, p.replaceRevision, store.epoch) { return; }
        var (state, phase) := HandoffState(p);
        tx := WithOp(tx, replaced, Moved(tx.ops[replaced], state, phase, now));
        tx := Finish(tx, {replaced}, now);
      }
      if p.owner.None? && p.device in tx.reservations { return; }
      tx := Inserted(tx, store, r, p, now, id);
      if commit == Aborted { return; }
      db := tx;
      created := commit == Committed;
    }

    /** After a failed commit the tables decide: this very admission, still untouched, in the
        live epoch, was created by this caller; anything else was not. */
    method ResolveRequest(r: Request, row: Id) returns (created: bool, found: Option<Id>)
      ensures created <==> Proves(db, store, Ticket(0, r, row))
      ensures found.Some? <==> r.key in db.requests && db.requests[r.key].hash == r.hash
      ensures found.Some? ==> found.value == db.requests[r.key].op
    {
      if r.key !in db.requests || db.requests[r.key].hash != r.hash { return false, None; }
      var id := db.requests[r.key].op;
      found := Some(id);
      created := db.epoch == store.epoch && db.ready && id == row && id in db.ops &&
                 db.ops[id].epoch == store.epoch && db.ops[id].state == Accepted;
    }

    /** The remembered predecessor survives an aborted transaction; the tables do not change
        unless this store may take over and the transaction commits. */
    method RecoverBatch(ids: set<Id>, now: Time, commit: Commit) returns (done: bool, ok: bool)
      modifies this
      ensures store == Remembering(old(store), old(db))
      ensures db == if commit != Aborted && MayTakeOver(old(store), old(db)) then Recovered(old(db), store, ids, now)
                    else old(db)
      ensures ok <==> commit == Committed && MayTakeOver(old(store), old(db))
      ensures ok ==> done == (|ids| < MAX_BATCH)
    {
      if store.previous.None? { store := store.(previous := Some(db.epoch)); }
      if db.epoch != store.previous.value && db.epoch != store.epoch { return false, false; }
      var tx := db.(epoch := store.epoch, ready := false);
      tx := InterruptAll(tx, ids, now);
      tx := Finish(tx, ids, now);
      done := |ids| < MAX_BATCH;
      if done { tx := tx.(ready := true); }
      if commit == Aborted { return false, false; }
      db := tx;
      ok := commit == Committed;
    }

    method Round(now: Time, commit: Commit) returns (done: bool, ok: bool)
      requires TablesInv(db, capacity) && !store.initialized
      modifies this
      ensures TablesInv(db, capacity) && !store.initialized && store.epoch == old(store).epoch
      ensures ok ==> done == db.ready && db.epoch == store.epoch
      ensures ok && !done ==> |Foreign(db, store.epoch)| == |Foreign(old(db), store.epoch)| - MAX_BATCH
    {
      var ids := PickBatch(Foreign(db, store.epoch));
      BatchOutcome(db, Remembering(store, db), ids, now, capacity);
      done, ok := RecoverBatch(ids, now, commit);
    }

    /** Repeats batches until one is short. A recovery that succeeds leaves the journal ready for
        this epoch (and so, by the table invariant, with no foreign unfinished work); however many
        commits fail, each call ends, because every further round ends a full batch of foreign
        work. An initialized store, superseded or not, answers at once and touches nothing. */
    method Recover(commits: seq<Commit>, now: Time) returns (ok: bool)
      requires TablesInv(db, capacity)
      modifies this
      ensures TablesInv(db, capacity) && store.epoch == old(store).epoch
      ensures old(store).initialized ==> ok && db == old(db) && store == old(store)
      ensures ok && !old(store).initialized ==> db.ready && db.epoch == store.epoch
      ensures store.initialized <==> ok
    {
      if store.initialized { return true; }
      var round := 0;
      while true
        invariant TablesInv(db, capacity) && store.epoch == old(store).epoch && !store.initialized
        decreases |Foreign(db, store.epoch)|
      {
        var done, committed := Round(now, if round < |commits| then commits[round] else Committed);
        if !committed { return false; }
        if done {
          store := store.(initialized := true);
          return true;
        }
        round := round + 1;
      }
    }
  }

  /** Some full batch, or everything that is left. */
  method PickBatch(foreign: set<Id>) returns (ids: set<Id>)
    ensures ids <= foreign && |ids| == if |foreign| < MAX_BATCH then |foreign| else MAX_BATCH
  {
    ids := {};
    var rest := foreign;
    while |ids| < MAX_BATCH && rest != {}
      invariant ids <= foreign && rest == foreign - ids && |ids| <= MAX_BATCH
      decreases |rest|
    {
      var id :| id in rest;
      ids, rest := ids + {id}, rest - {id};
    }
    assert foreign == ids + rest;
  }
}
