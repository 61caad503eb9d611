/** The operation journal: admission with idempotency and device reservation, transitions,
    epoch takeover with batched recovery, and retention. Every transaction locks the one
    control row, so each is one atomic step on the tables. */
module Journal {
  import opened Heos

  const RETENTION: Time := 7 * 24 * 3600 * SECOND
  const MAX_BATCH: nat := 100

  datatype State = Accepted | Running | Succeeded | Failed | Cancelled | Released | Interrupted | Uncertain {
    predicate Terminal() { !Accepted? && !Running? }
  }

  /** Identifiers are only ever compared, so numbers stand for them. */
  type Id = nat

  datatype Phase = NoPhase | Cancelling | Superseded | Restart | Worker(name: Id)

  datatype Kind = Playback | Skip | Cancel | OtherKind

  datatype Op = Op(kind: Kind, player: Id, device: Id, principal: Id, epoch: Id, state: State, revision: nat,
                   phase: Phase, album: Option<Id>, finishedAt: Option<Time>)

  /** A principal with the method, endpoint and idempotency key of one request. */
  datatype Key = Key(principal: Id, call: Id)
  datatype Record = Record(op: Id, hash: Id, expires: Time)
  datatype Reservation = Reservation(op: Id, epoch: Id)

  type Ops = map<Id, Op>
  type Requests = map<Key, Record>
  type Reservations = map<Id, Reservation>

  /** The tables, and the control row's epoch and readiness. */
  datatype Db = Db(epoch: Id, ready: bool, ops: Ops, requests: Requests, reservations: Reservations)

  datatype Request = Request(key: Key, hash: Id, player: Id)

  /** `valid` stands for the textual, kind and JSON checks, `handoffValid` for those of a
      replaced operation's stored outcome. */
  datatype Proposal = Proposal(kind: Kind, device: Id, valid: bool, notBefore: Time, notAfter: Time, owner: Option<Id>,
                               replace: Option<Id>, replaceRevision: nat, replaceUncertain: bool, handoffValid: bool)

  datatype Store = Store(epoch: Id, initialized: bool, previous: Option<Id>)

  // ---- Statements ----

  predicate Unfinished(db: Db, id: Id) { id in db.ops && db.ops[id].finishedAt.None? }

  /** Rows of the reservation join for one player. */
  ghost predicate ActiveOf(db: Db, player: Id, id: Id) {
    id in db.ops && db.ops[id].player == player && exists d :: d in db.reservations && db.reservations[d].op == id
  }

  ghost predicate ActiveAnswer(db: Db, player: Id, answer: Option<Id>) {
    if answer.Some? then ActiveOf(db, player, answer.value) else forall id :: !ActiveOf(db, player, id)
  }

  predicate Updatable(db: Db, id: Id, revision: nat, epoch: Id) {
    Unfinished(db, id) && db.ops[id].revision == revision && db.ops[id].epoch == epoch
  }

  function Moved(o: Op, state: State, phase: Phase, now: Time): Op {
    o.(state := state, phase := phase, revision := o.revision + 1,
       finishedAt := if state.Terminal() then Some(now) else None)
  }

  function WithOp(db: Db, id: Id, o: Op): Db { db.(ops := db.ops[id := o]) }

  function Later(a: Time, b: Time): Time { if a < b then b else a }

  function ReleaseReservations(reservations: Reservations, ids: set<Id>): Reservations {
    map d | d in reservations && reservations[d].op !in ids :: reservations[d]
  }

  function Extended(r: Record, ids: set<Id>, now: Time): Record {
    if r.op in ids then r.(expires := Later(r.expires, now + RETENTION)) else r
  }

  function ExtendRetention(requests: Requests, ids: set<Id>, now: Time): Requests {
    map k | k in requests :: Extended(requests[k], ids, now)
  }

  /** Releases the reservations of `ids` and extends their records' retention. */
  function Finish(db: Db, ids: set<Id>, now: Time): Db {
    db.(reservations := ReleaseReservations(db.reservations, ids), requests := ExtendRetention(db.requests, ids, now))
  }

  function InterruptAll(db: Db, ids: set<Id>, now: Time): Db {
    db.(ops := map id | id in db.ops :: if id in ids then Moved(db.ops[id], Uncertain, Restart, now) else db.ops[id])
  }

  function Foreign(db: Db, epoch: Id): set<Id> {
    set id | id in db.ops && db.ops[id].finishedAt.None? && db.ops[id].epoch != epoch
  }

  predicate Live(s: Store, db: Db) { s.initialized && db.ready && db.epoch == s.epoch }

  // ---- Transactions ----

  datatype Admission = Found(op: Id) | Refused | Insert(db: Db)

  function HandoffState(p: Proposal): (State, Phase) {
    if p.kind == Cancel then (Running, Cancelling) else (if p.replaceUncertain then Uncertain else Released, Superseded)
  }

  ghost predicate Replaceable(db: Db, s: Store, p: Proposal, active: Option<Id>) {
    active == p.replace && p.replace.Some? && p.replace.value in db.ops &&
    db.ops[p.replace.value].device == p.device && p.handoffValid &&
    Updatable(db, p.replace.value, p.replaceRevision, s.epoch)
  }

  ghost predicate OwnedBy(db: Db, s: Store, r: Request, p: Proposal, active: Option<Id>) {
    p.kind == Skip && p.replace.None? && p.replaceRevision == 0 && !p.replaceUncertain && active == p.owner &&
    p.owner.Some? &&
    Unfinished(db, p.owner.value) &&
    var o := db.ops[p.owner.value];
    o.device == p.device && o.epoch == s.epoch && o.kind == Playback && o.principal == r.key.principal
  }

  function Replaced(db: Db, p: Proposal, now: Time): Db
    requires p.replace.Some? ==> p.replace.value in db.ops
  {
    if p.replace.None? then db
    else var (state, phase) := HandoffState(p);
      Finish(WithOp(db, p.replace.value, Moved(db.ops[p.replace.value], state, phase, now)), {p.replace.value}, now)
  }

  function Inserted(db: Db, s: Store, r: Request, p: Proposal, now: Time, id: Id): Db {
    db.(ops := db.ops[id := Op(p.kind, r.player, p.device, r.key.principal, s.epoch, Accepted, 1, NoPhase, None, None)],
        requests := db.requests[r.key := Record(id, r.hash, now + RETENTION)],
        reservations := if p.owner.None? then db.reservations[p.device := Reservation(id, s.epoch)]
                        else db.reservations)
  }

  /** One admission. A matching key answers first, whatever else is wrong by now. */
  ghost function Admit(
      db: Db, s: Store, r: Request, p: Proposal, now: Time, id: Id, active: Option<Id>, capacity: nat): Admission {
    if r.key in db.requests then (if db.requests[r.key].hash == r.hash then Found(db.requests[r.key].op) else Refused)
    else if !Live(s, db) || !p.valid || p.notAfter <= p.notBefore || now < p.notBefore || now >= p.notAfter then Refused
    else if |db.ops.Keys| >= capacity then Refused
    else if p.owner.Some? && !OwnedBy(db, s, r, p, active) then Refused
    else if p.replace.Some? && !Replaceable(db, s, p, active) then Refused
    else
      var free := Replaced(db, p, now);
      if p.owner.None? && p.device in free.reservations then Refused
      else Insert(Inserted(free, s, r, p, now, id))
  }

  function Transition(db: Db, s: Store, id: Id, revision: nat, state: State, phase: Phase, now: Time): Option<Db> {
    if state == Accepted || revision < 1 || !Live(s, db) || !Updatable(db, id, revision, s.epoch) then None
    else
      var moved := WithOp(db, id, Moved(db.ops[id], state, phase, now));
      Some(if state.Terminal() then Finish(moved, {id}, now) else moved)
  }

  function SelectAlbum(db: Db, s: Store, id: Id, revision: nat, album: Id): Option<Db> {
    if revision < 1 || !Live(s, db) || !Updatable(db, id, revision, s.epoch) || db.ops[id].album.Some? then None
    else Some(WithOp(db, id, db.ops[id].(album := Some(album), revision := db.ops[id].revision + 1)))
  }

  /** The batch is a full one, or all that is left. */
  predicate Batch(db: Db, s: Store, ids: set<Id>) {
    ids <= Foreign(db, s.epoch) &&
    |ids| == if |Foreign(db, s.epoch)| < MAX_BATCH then |Foreign(db, s.epoch)| else MAX_BATCH
  }

  function Remembering(s: Store, db: Db): Store { if s.previous.None? then s.(previous := Some(db.epoch)) else s }

  predicate MayTakeOver(s: Store, db: Db) {
    var m := Remembering(s, db); db.epoch == m.previous.value || db.epoch == s.epoch
  }

  function Recovered(db: Db, s: Store, ids: set<Id>, now: Time): Db {
    Finish(InterruptAll(db, ids, now), ids, now).(epoch := s.epoch, ready := |ids| < MAX_BATCH)
  }

  ghost predicate Prunable(db: Db, id: Id, now: Time) {
    id in db.ops && db.ops[id].finishedAt.Some? && db.ops[id].finishedAt.value <= now - RETENTION &&
    (forall k :: k in db.requests && db.requests[k].op == id ==> db.requests[k].expires <= now) &&
    (forall d :: d in db.reservations ==> db.reservations[d].op != id)
  }

  /** Deleting an operation cascades to its idempotency record. */
  function Pruned(db: Db, ids: set<Id>): Db {
    db.(ops := map id | id in db.ops && id !in ids :: db.ops[id],
        requests := map k | k in db.requests && db.requests[k].op !in ids :: db.requests[k])
  }

  // ---- Invariants of the tables ----

  /** One reservation per device, held by an unfinished operation of that device and epoch. */
  ghost predicate ReservationsHeld(ops: Ops, reservations: Reservations) {
    forall d :: d in reservations ==> Holds(ops, d, reservations[d])
  }

  ghost predicate Holds(ops: Ops, device: Id, r: Reservation) {
    r.op in ops && ops[r.op].finishedAt.None? && ops[r.op].device == device && ops[r.op].epoch == r.epoch
  }

  ghost predicate StatesAgree(ops: Ops) {
    forall id :: id in ops ==> (ops[id].state.Terminal() <==> ops[id].finishedAt.Some?) && ops[id].revision >= 1
  }

  function RecordedOps(requests: Requests): set<Id> { set k | k in requests :: requests[k].op }

  /** Records and operations correspond one to one, and outlive a finish by the retention. */
  ghost predicate RecordsHeld(ops: Ops, requests: Requests) {
    RecordedOps(requests) == ops.Keys && AllRetained(ops, requests) && OneToOne(requests)
  }

  ghost predicate AllRetained(ops: Ops, requests: Requests) { forall k :: k in requests ==> Retained(ops, requests[k]) }

  ghost predicate OneToOne(requests: Requests) {
    forall k, l :: k in requests && l in requests && requests[k].op == requests[l].op ==> k == l
  }

  ghost predicate Retained(ops: Ops, r: Record) {
    r.op in ops && (ops[r.op].finishedAt.Some? ==> ops[r.op].finishedAt.value + RETENTION <= r.expires)
  }

  ghost predicate NoForeign(ops: Ops, epoch: Id) {
    forall id :: id in ops && ops[id].finishedAt.None? ==> ops[id].epoch == epoch
  }

  ghost predicate TablesInv(db: Db, capacity: nat) {
    ReservationsHeld(db.ops, db.reservations) && StatesAgree(db.ops) && RecordsHeld(db.ops, db.requests) &&
    (db.ready ==> NoForeign(db.ops, db.epoch)) && |db.ops.Keys| <= capacity
  }

  /** Finished rows never change; others advance their revision by one with every change. */
  ghost predicate OpsAdvance(a: Ops, b: Ops) {
    forall id :: id in a ==> id in b && RowAdvances(a[id], b[id])
  }

  ghost predicate RowAdvances(a: Op, b: Op) {
    a == b || (a.finishedAt.None? && b.revision == a.revision + 1 && b.epoch == a.epoch && b.device == a.device)
  }

  ghost predicate RecordsStay(a: Requests, b: Requests) {
    forall k :: k in a ==> k in b && b[k].op == a[k].op && b[k].hash == a[k].hash
  }

  /** Releasing `ids` keeps every reservation held, whatever happened to those rows. */
  lemma ReleaseKeeps(ops: Ops, after: Ops, reservations: Reservations, ids: set<Id>)
    requires ReservationsHeld(ops, reservations)
    requires forall id :: id in ops && id !in ids ==> id in after && after[id] == ops[id]
    ensures ReservationsHeld(after, ReleaseReservations(reservations, ids))
  {
    var released := ReleaseReservations(reservations, ids);
    forall d | d in released ensures Holds(after, d, released[d]) {
      assert Holds(ops, d, reservations[d]);
    }
  }

  lemma ExtendRetains(ops: Ops, after: Ops, requests: Requests, ids: set<Id>, now: Time)
    requires AllRetained(ops, requests) && after.Keys == ops.Keys
    requires forall id :: id in ops && id !in ids ==> after[id] == ops[id]
    requires forall id :: id in ids && id in after && after[id].finishedAt.Some? ==> after[id].finishedAt.value <= now
    ensures AllRetained(after, ExtendRetention(requests, ids, now))
  {
    var extended := ExtendRetention(requests, ids, now);
    forall k | k in extended ensures Retained(after, extended[k]) {
      assert Retained(ops, requests[k]);
    }
  }

  /** Records that name the same operations name the same set of them, one to one. */
  lemma SameNames(a: Requests, b: Requests)
    requires a.Keys == b.Keys && RecordsStay(a, b)
    ensures RecordedOps(a) == RecordedOps(b) && (OneToOne(a) ==> OneToOne(b))
  {
    assert forall k :: k in a ==> k in b && a[k].op == b[k].op;
  }

  lemma ExtendStays(requests: Requests, ids: set<Id>, now: Time)
    ensures var extended := ExtendRetention(requests, ids, now);
            extended.Keys == requests.Keys && RecordsStay(requests, extended)
  {
  }

  lemma ExtendKeeps(ops: Ops, after: Ops, requests: Requests, ids: set<Id>, now: Time)
    requires RecordsHeld(ops, requests) && after.Keys == ops.Keys
    requires forall id :: id in ops && id !in ids ==> after[id] == ops[id]
    requires forall id :: id in ids && id in after && after[id].finishedAt.Some? ==> after[id].finishedAt.value <= now
    ensures RecordsHeld(after, ExtendRetention(requests, ids, now))
    ensures RecordsStay(requests, ExtendRetention(requests, ids, now))
  {
    var extended := ExtendRetention(requests, ids, now);
    ExtendRetains(ops, after, requests, ids, now);
    ExtendStays(requests, ids, now);
    SameNames(requests, extended);
  }

  /** Ending `ids` at `now`, or keeping them unfinished, and then finishing them. */
  lemma FinishInv(db: Db, ops: Ops, ids: set<Id>, now: Time, capacity: nat)
    requires TablesInv(db, capacity) && ops.Keys == db.ops.Keys && OpsAdvance(db.ops, ops) && StatesAgree(ops)
    requires forall id :: id in db.ops && id !in ids ==> ops[id] == db.ops[id]
    requires forall id :: id in ids && id in ops && ops[id].finishedAt.Some? ==> ops[id].finishedAt.value <= now
    ensures var after := Finish(db.(ops := ops), ids, now);
            ReservationsHeld(after.ops, after.reservations) && RecordsHeld(after.ops, after.requests) &&
            RecordsStay(db.requests, after.requests) && after.requests.Keys == db.requests.Keys
  {
    ReleaseKeeps(db.ops, ops, db.reservations, ids);
    ExtendKeeps(db.ops, ops, db.requests, ids, now);
    assert ExtendRetention(db.requests, ids, now).Keys == db.requests.Keys;
  }

  lemma MovedAdvances(ops: Ops, id: Id, o: Op)
    requires StatesAgree(ops) && id in ops && RowAdvances(ops[id], o)
    requires (o.state.Terminal() <==> o.finishedAt.Some?) && o.revision >= 1
    ensures ops[id := o].Keys == ops.Keys && OpsAdvance(ops, ops[id := o]) && StatesAgree(ops[id := o])
  {
  }

  /** An advancing update of one unfinished row of the current epoch brings no foreign work. */
  lemma AdvanceNoForeign(ops: Ops, after: Ops, epoch: Id)
    requires NoForeign(ops, epoch) && after.Keys == ops.Keys && OpsAdvance(ops, after)
    ensures NoForeign(after, epoch)
  {
    forall id | id in after && after[id].finishedAt.None? ensures after[id].epoch == epoch {
      assert RowAdvances(ops[id], after[id]);
    }
  }

  /** What every transaction but pruning does. */
  ghost predicate Step(db: Db, after: Db, capacity: nat) {
    TablesInv(after, capacity) && OpsAdvance(db.ops, after.ops) && RecordsStay(db.requests, after.requests)
  }

  /** Rows changed by advancing and then finished, as one transaction. */
  lemma FinishStep(db: Db, ops: Ops, ids: set<Id>, now: Time, epoch: Id, ready: bool, capacity: nat)
    requires TablesInv(db, capacity) && ops.Keys == db.ops.Keys && OpsAdvance(db.ops, ops) && StatesAgree(ops)
    requires forall id :: id in db.ops && id !in ids ==> ops[id] == db.ops[id]
    requires forall id :: id in ids && id in ops && ops[id].finishedAt.Some? ==> ops[id].finishedAt.value <= now
    requires ready ==> NoForeign(ops, epoch)
    ensures var after := Finish(db.(ops := ops), ids, now).(epoch := epoch, ready := ready);
            Step(db, after, capacity) && after.requests.Keys == db.requests.Keys
  {
    FinishInv(db, ops, ids, now, capacity);
  }

  /** A row that stays unfinished and keeps its device and epoch, as one transaction. */
  lemma UpdateStep(db: Db, id: Id, o: Op, capacity: nat)
    requires TablesInv(db, capacity) && Unfinished(db, id) && o.finishedAt.None? && !o.state.Terminal()
    requires RowAdvances(db.ops[id], o) && o.device == db.ops[id].device && o.epoch == db.ops[id].epoch
    requires o.revision >= 1
    ensures Step(db, WithOp(db, id, o), capacity) && WithOp(db, id, o).ops.Keys == db.ops.Keys
  {
    MovedAdvances(db.ops, id, o);
    if db.ready { AdvanceNoForeign(db.ops, db.ops[id := o], db.epoch); }
    UnfinishedInv(db, id, o);
  }

  /** One row moved and, when it ended or is handed off, finished. */
  lemma MoveInv(db: Db, id: Id, state: State, phase: Phase, now: Time, finish: bool, capacity: nat)
    requires TablesInv(db, capacity) && Unfinished(db, id) && state != Accepted && (state.Terminal() ==> finish)
    ensures var moved := WithOp(db, id, Moved(db.ops[id], state, phase, now));
            var after := if finish then Finish(moved, {id}, now) else moved;
            Step(db, after, capacity) && after.ops.Keys == db.ops.Keys && after.requests.Keys == db.requests.Keys
  {
    var o := Moved(db.ops[id], state, phase, now);
    if finish {
      MovedAdvances(db.ops, id, o);
      if db.ready { AdvanceNoForeign(db.ops, db.ops[id := o], db.epoch); }
      FinishStep(db, db.ops[id := o], {id}, now, db.epoch, db.ready, capacity);
    } else {
      UpdateStep(db, id, o, capacity);
    }
  }

  /** A row that stays unfinished keeps its reservation and its record as they are. */
  lemma UnfinishedInv(db: Db, id: Id, o: Op)
    requires id in db.ops && o.finishedAt.None? && db.ops[id].finishedAt.None? && o.device == db.ops[id].device
    requires o.epoch == db.ops[id].epoch
    requires ReservationsHeld(db.ops, db.reservations) && RecordsHeld(db.ops, db.requests)
    ensures ReservationsHeld(db.ops[id := o], db.reservations) && RecordsHeld(db.ops[id := o], db.requests)
  {
    var ops := db.ops[id := o];
    assert ops.Keys == db.ops.Keys;
    forall d | d in db.reservations ensures Holds(ops, d, db.reservations[d]) {
      assert Holds(db.ops, d, db.reservations[d]);
    }
    forall k | k in db.requests ensures Retained(ops, db.requests[k]) {
      assert Retained(db.ops, db.requests[k]);
    }
  }

  lemma TransitionInv(db: Db, s: Store, id: Id, revision: nat, state: State, phase: Phase, now: Time, capacity: nat)
    requires TablesInv(db, capacity) && Transition(db, s, id, revision, state, phase, now).Some?
    ensures var after := Transition(db, s, id, revision, state, phase, now).value;
            Step(db, after, capacity) && after.epoch == db.epoch && after.ready == db.ready &&
            after.ops.Keys == db.ops.Keys
  {
    MoveInv(db, id, state, phase, now, state.Terminal(), capacity);
  }

  lemma AlbumInv(db: Db, s: Store, id: Id, revision: nat, album: Id, capacity: nat)
    requires TablesInv(db, capacity) && SelectAlbum(db, s, id, revision, album).Some?
    ensures var after := SelectAlbum(db, s, id, revision, album).value;
            Step(db, after, capacity) && after.epoch == db.epoch && after.ready == db.ready &&
            after.ops.Keys == db.ops.Keys
  {
    assert StatesAgree(db.ops) && !db.ops[id].state.Terminal();
    UpdateStep(db, id, db.ops[id].(album := Some(album), revision := db.ops[id].revision + 1), capacity);
  }

  lemma ReplacedInv(db: Db, s: Store, p: Proposal, now: Time, active: Option<Id>, capacity: nat)
    requires TablesInv(db, capacity) && (p.replace.Some? ==> Replaceable(db, s, p, active))
    ensures var free := Replaced(db, p, now);
            Step(db, free, capacity) && free.ops.Keys == db.ops.Keys && free.requests.Keys == db.requests.Keys &&
            free.epoch == db.epoch && free.ready == db.ready
  {
    if p.replace.Some? {
      var (state, phase) := HandoffState(p);
      MoveInv(db, p.replace.value, state, phase, now, true, capacity);
    }
  }

  lemma InsertedReservations(ops: Ops, reservations: Reservations, id: Id, o: Op, device: Id)
    requires ReservationsHeld(ops, reservations) && id !in ops && o.finishedAt.None? && o.device == device
    ensures ReservationsHeld(ops[id := o], reservations)
    ensures ReservationsHeld(ops[id := o], reservations[device := Reservation(id, o.epoch)])
  {
    forall d | d in reservations ensures Holds(ops[id := o], d, reservations[d]) {
      assert Holds(ops, d, reservations[d]);
    }
  }

  lemma InsertedNames(requests: Requests, id: Id, key: Key, r: Record)
    requires OneToOne(requests) && id !in RecordedOps(requests) && key !in requests && r.op == id
    ensures RecordedOps(requests[key := r]) == RecordedOps(requests) + {id} && OneToOne(requests[key := r])
  {
    var records := requests[key := r];
    assert records[key].op == id;
    assert forall k :: k in requests ==> k in records && records[k].op == requests[k].op && requests[k].op != id;
  }

  lemma InsertedRecords(ops: Ops, requests: Requests, id: Id, o: Op, key: Key, r: Record)
    requires RecordsHeld(ops, requests) && id !in ops && o.finishedAt.None? && key !in requests && r.op == id
    ensures RecordsHeld(ops[id := o], requests[key := r]) && RecordsStay(requests, requests[key := r])
  {
    var after, records := ops[id := o], requests[key := r];
    forall k | k in records ensures Retained(after, records[k]) {
      if k != key {
        assert Retained(ops, requests[k]);
      }
    }
    InsertedNames(requests, id, key, r);
  }

  lemma InsertedOps(ops: Ops, id: Id, o: Op, epoch: Id)
    requires StatesAgree(ops) && id !in ops && o.finishedAt.None? && !o.state.Terminal() && o.revision >= 1
    requires o.epoch == epoch && NoForeign(ops, epoch)
    ensures StatesAgree(ops[id := o]) && NoForeign(ops[id := o], epoch) && OpsAdvance(ops, ops[id := o])
    ensures ops[id := o].Keys == ops.Keys + {id}
  {
  }

  lemma InsertedInv(db: Db, s: Store, r: Request, p: Proposal, now: Time, id: Id, capacity: nat)
    requires TablesInv(db, capacity) && Live(s, db) && |db.ops.Keys| < capacity && id !in db.ops
    requires r.key !in db.requests
    ensures var after := Inserted(db, s, r, p, now, id);
            Step(db, after, capacity) && after.ops.Keys == db.ops.Keys + {id}
  {
    var o := Op(p.kind, r.player, p.device, r.key.principal, s.epoch, Accepted, 1, NoPhase, None, None);
    InsertedOps(db.ops, id, o, s.epoch);
    InsertedReservations(db.ops, db.reservations, id, o, p.device);
    InsertedRecords(db.ops, db.requests, id, o, r.key, Record(id, r.hash, now + RETENTION));
  }

  lemma InsertAfterReplace(
      db: Db, s: Store, r: Request, p: Proposal, now: Time, id: Id, active: Option<Id>, capacity: nat)
    requires TablesInv(db, capacity) && Live(s, db) && |db.ops.Keys| < capacity && id !in db.ops
    requires r.key !in db.requests
    requires p.replace.Some? ==> Replaceable(db, s, p, active)
    ensures var after := Inserted(Replaced(db, p, now), s, r, p, now, id);
            Step(db, after, capacity) && after.ops.Keys == db.ops.Keys + {id} && after.epoch == db.epoch &&
            after.ready == db.ready
  {
    ReplacedInv(db, s, p, now, active, capacity);
    var free := Replaced(db, p, now);
    InsertedInv(free, s, r, p, now, id, capacity);
    StepThrough(db, free, Inserted(free, s, r, p, now, id), id, capacity);
  }

  lemma AdmitInv(db: Db, s: Store, r: Request, p: Proposal, now: Time, id: Id, active: Option<Id>, capacity: nat)
    requires TablesInv(db, capacity) && id !in db.ops && Admit(db, s, r, p, now, id, active, capacity).Insert?
    ensures var after := Admit(db, s, r, p, now, id, active, capacity).db;
            Step(db, after, capacity) && after.epoch == db.epoch && after.ready == db.ready && db.ready &&
            after.ops.Keys == db.ops.Keys + {id} && r.key in after.requests && after.requests[r.key].op == id
  {
    InsertAfterReplace(db, s, r, p, now, id, active, capacity);
  }

  /** The reservation is handed over in one transaction: it was free, or held by exactly the
      operation named, which ends with it unless it is being cancelled; the other devices
      keep theirs. */
  lemma AdmitHandsOver(
      db: Db, s: Store, r: Request, p: Proposal, now: Time, id: Id, active: Option<Id>, capacity: nat, other: Id)
    requires ReservationsHeld(db.ops, db.reservations) && id !in db.ops && ActiveAnswer(db, r.player, active)
    requires p.owner.None?
    requires Admit(db, s, r, p, now, id, active, capacity).Insert? && other != p.device
    ensures var after := Admit(db, s, r, p, now, id, active, capacity).db;
            p.device in after.reservations && after.reservations[p.device] == Reservation(id, s.epoch) &&
            id in after.ops && after.ops[id].state == Accepted &&
            (p.replace.None? ==> p.device !in db.reservations) &&
            (p.replace.Some? ==>
               p.device in db.reservations && db.reservations[p.device].op == p.replace.value &&
               p.replace.value in after.ops && (after.ops[p.replace.value].finishedAt.None? <==> p.kind == Cancel)) &&
            (other in after.reservations <==> other in db.reservations) &&
            (other in db.reservations ==> after.reservations[other] == db.reservations[other])
  {
    if p.replace.Some? {
      var d :| d in db.reservations && db.reservations[d].op == p.replace.value;
      assert Holds(db.ops, d, db.reservations[d]);
      if other in db.reservations { assert Holds(db.ops, other, db.reservations[other]); }
    }
  }

  /** The replaced row is not touched again by the insertion, so the two steps are one. */
  lemma StepThrough(db: Db, free: Db, after: Db, id: Id, capacity: nat)
    requires Step(db, free, capacity) && Step(free, after, capacity) && id !in free.ops
    requires forall i :: i in free.ops ==> i in after.ops && after.ops[i] == free.ops[i]
    ensures Step(db, after, capacity)
  {
    forall i | i in db.ops ensures i in after.ops && RowAdvances(db.ops[i], after.ops[i]) {
      assert RowAdvances(db.ops[i], free.ops[i]);
    }
  }

  lemma InterruptAdvances(db: Db, ids: set<Id>, now: Time)
    requires StatesAgree(db.ops) && forall id :: id in ids ==> Unfinished(db, id)
    ensures var ops := InterruptAll(db, ids, now).ops;
            ops.Keys == db.ops.Keys && OpsAdvance(db.ops, ops) && StatesAgree(ops) &&
            (forall id :: id in ops && id !in ids ==> ops[id] == db.ops[id]) &&
            (forall id :: id in ids && id in ops ==> ops[id].finishedAt == Some(now))
  {
  }

  lemma NoneForeign(db: Db, epoch: Id)
    requires Foreign(db, epoch) == {}
    ensures NoForeign(db.ops, epoch)
  {
    forall id | id in db.ops && db.ops[id].finishedAt.None? ensures db.ops[id].epoch == epoch {
      assert id !in Foreign(db, epoch);
    }
  }

  /** A short batch is the last one: it leaves no foreign work. */
  lemma LastBatch(db: Db, s: Store, ids: set<Id>, now: Time)
    requires Batch(db, s, ids) && |ids| < MAX_BATCH
    ensures NoForeign(InterruptAll(db, ids, now).ops, s.epoch)
  {
    SubsetSize(ids, Foreign(db, s.epoch));
    ForeignLeft(db, s.epoch, ids, now);
    NoneForeign(InterruptAll(db, ids, now), s.epoch);
  }

  /** A batch ends exactly its rows. */
  lemma RecoveredInv(db: Db, s: Store, ids: set<Id>, now: Time, capacity: nat)
    requires TablesInv(db, capacity) && Batch(db, s, ids)
    ensures var after := Recovered(db, s, ids, now); Step(db, after, capacity) && after.ops.Keys == db.ops.Keys
  {
    InterruptAdvances(db, ids, now);
    if |ids| < MAX_BATCH { LastBatch(db, s, ids, now); }
    FinishStep(db, InterruptAll(db, ids, now).ops, ids, now, s.epoch, |ids| < MAX_BATCH, capacity);
  }

  lemma ForeignLeft(db: Db, epoch: Id, ids: set<Id>, now: Time)
    requires ids <= Foreign(db, epoch)
    ensures Foreign(InterruptAll(db, ids, now), epoch) == Foreign(db, epoch) - ids
  {
  }

  lemma PrunedNames(db: Db, ids: set<Id>)
    requires OneToOne(db.requests)
    ensures var kept := Pruned(db, ids).requests; RecordedOps(kept) == RecordedOps(db.requests) - ids && OneToOne(kept)
  {
    var kept := Pruned(db, ids).requests;
    forall id | id in RecordedOps(db.requests) - ids ensures id in RecordedOps(kept) {
      var k :| k in db.requests && db.requests[k].op == id;
      assert kept[k].op == id;
    }
  }

  lemma PrunedRows(db: Db, ids: set<Id>, now: Time)
    requires ReservationsHeld(db.ops, db.reservations) && AllRetained(db.ops, db.requests)
    requires forall id :: id in ids ==> Prunable(db, id, now)
    ensures var after := Pruned(db, ids);
            ReservationsHeld(after.ops, after.reservations) && AllRetained(after.ops, after.requests)
  {
    var after := Pruned(db, ids);
    forall d | d in after.reservations ensures Holds(after.ops, d, after.reservations[d]) {
      assert Holds(db.ops, d, db.reservations[d]);
    }
    forall k | k in after.requests ensures Retained(after.ops, after.requests[k]) {
      assert Retained(db.ops, db.requests[k]);
    }
  }

  lemma PrunedOps(db: Db, ids: set<Id>)
    requires StatesAgree(db.ops)
    ensures var kept := Pruned(db, ids).ops;
            StatesAgree(kept) && (NoForeign(db.ops, db.epoch) ==> NoForeign(kept, db.epoch)) &&
            kept.Keys == db.ops.Keys - ids && |kept.Keys| <= |db.ops.Keys|
  {
    var kept := Pruned(db, ids).ops;
    assert kept.Keys == db.ops.Keys - ids;
    SubsetSize(kept.Keys, db.ops.Keys);
  }

  lemma PrunedInv(db: Db, ids: set<Id>, now: Time, capacity: nat)
    requires TablesInv(db, capacity) && forall id :: id in ids ==> Prunable(db, id, now)
    ensures TablesInv(Pruned(db, ids), capacity)
  {
    PrunedRows(db, ids, now);
    PrunedOps(db, ids);
    PrunedNames(db, ids);
  }
}
