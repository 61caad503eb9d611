/** Minting of the observation token: the counters one connection owner keeps under
    its mutex, and why a token that has been consumed can never be presented again. */
module Client {
  import opened Heos

  datatype PlayerWrite = PlayerWrite(revision: nat, mutation: Mutation)

  /** `global.player` and `global.write` are unused: each player has its own counters. */
  datatype State = State(global: Token, connected: bool, players: map<ID, nat>, writes: map<ID, PlayerWrite>)

  const MAX_PLAYERS := 64

  function PlayerCount(c: State, pid: ID): nat {
    if pid in c.players then c.players[pid] else 0
  }

  function WriteCount(c: State, pid: ID): nat {
    if pid in c.writes then c.writes[pid].revision else 0
  }

  function PlayerView(c: State, pid: ID): View {
    View(c.global.(player := PlayerCount(c, pid), write := WriteCount(c, pid)), c.connected)
  }

  function BumpRevision(c: State): State {
    c.(global := c.global.(revision := c.global.revision + 1))
  }

  function BumpCatalog(c: State): State {
    c.(global := c.global.(revision := c.global.revision + 1, catalog := c.global.catalog + 1))
  }

  predicate Evicts(c: State, pid: ID) { pid !in c.players && |c.players| == MAX_PLAYERS }

  function Observed(c: State, pid: ID): State {
    if pid in c.players then c
    else
      var room := if Evicts(c, pid) then BumpRevision(c).(players := map[], writes := map[]) else c;
      room.(players := room.players[pid := 0])
  }

  function Interrupted(c: State): State { BumpCatalog(c).(connected := false) }

  function Dialed(c: State): State {
    var d := BumpCatalog(c);
    d.(connected := true, global := d.global.(generation := d.global.generation + 1))
  }

  /** Only the current connection's loss moves the token. */
  function Dropped(c: State, current: bool): State {
    if current then BumpCatalog(c).(connected := false) else c
  }

  function Arrived(c: State, body: EventBody, pid: ID, valid: bool): State {
    if body.Progress? && valid then c
    else if PlayerKind(body) && pid != "" then
      if pid in c.players then c.(players := c.players[pid := c.players[pid] + 1]) else c
    else if body.CatalogChanged? then BumpCatalog(c)
    else BumpRevision(c)
  }

  /** The stamp a notification carries: the counters after it was counted. */
  function Stamp(c: State, body: EventBody, pid: ID, valid: bool): Token {
    PlayerView(Arrived(c, body, pid, valid), pid).token
  }

  predicate GuardMatches(c: State, pid: ID, guard: Token) {
    c.connected && PlayerView(c, pid).token == guard
  }

  /** Counts a write. Its guard was checked in an earlier section of the same mutex. */
  function Stamped(c: State, pid: ID, m: Mutation): State {
    c.(writes := c.writes[pid := PlayerWrite(WriteCount(c, pid) + 1, m)])
  }

  datatype Step =
    | Observe(pid: ID)
    | Arrive(body: EventBody, pid: ID, valid: bool)
    | Interrupt
    | Dial
    | Drop(current: bool)
    | Overflow
    | StampWrite(pid: ID, mutation: Mutation)

  function Apply(c: State, s: Step): State {
    match s
    case Observe(pid) => Observed(c, pid)
    case Arrive(body, pid, valid) => Arrived(c, body, pid, valid)
    case Interrupt => Interrupted(c)
    case Dial => Dialed(c)
    case Drop(current) => Dropped(c, current)
    case Overflow => BumpCatalog(c)
    case StampWrite(pid, m) => Stamped(c, pid, m)
  }

  function Run(c: State, steps: seq<Step>): State
    decreases steps
  {
    if steps == [] then c else Run(Apply(c, steps[0]), steps[1..])
  }

  /** The lexicographic order on (Revision, Player, Write). */
  predicate Before(a: Token, b: Token) {
    a.revision < b.revision ||
    (a.revision == b.revision && (a.player < b.player || (a.player == b.player && a.write < b.write)))
  }

  /** The order, together with the fact that an unmoved revision means no global counter moved. */
  predicate NotAfter(a: Token, b: Token) {
    (a.revision == b.revision && SameGlobal(a, b) && a.player == b.player && a.write == b.write) ||
    (Before(a, b) && (a.revision == b.revision ==> SameGlobal(a, b)))
  }

  /** Steps that must invalidate every guard for `pid` issued so far. */
  predicate Consumes(c: State, s: Step, pid: ID) {
    match s
    case Observe(p) => Evicts(c, p)
    case Arrive(body, p, valid) =>
      !(body.Progress? && valid) && (PlayerKind(body) && p != "" ==> p == pid && pid in c.players)
    case Interrupt => true
    case Dial => true
    case Drop(current) => current
    case Overflow => true
    case StampWrite(p, m) => p == pid
  }

  /** No step moves any player's token backwards, and a step moves it forwards exactly
      when it consumes that player's outstanding guards. */
  lemma {:induction false} StepOrder(c: State, s: Step, pid: ID)
    ensures NotAfter(PlayerView(c, pid).token, PlayerView(Apply(c, s), pid).token)
    ensures Consumes(c, s, pid) <==> Before(PlayerView(c, pid).token, PlayerView(Apply(c, s), pid).token)
  {
  }

  /** While the revision stands, observed players stay observed; while a player's token
      stands, so does its last write. */
  lemma {:induction false} StepKeeps(c: State, s: Step, pid: ID)
    ensures var d := Apply(c, s);
            c.global.revision <= d.global.revision &&
            (c.global.revision == d.global.revision ==>
               SameGlobal(c.global, d.global) && (pid in c.players ==> pid in d.players)) &&
            (PlayerView(c, pid).token == PlayerView(d, pid).token ==>
               (pid in c.writes <==> pid in d.writes) && (pid in c.writes ==> c.writes[pid] == d.writes[pid]))
  {
  }

  /** The order has no cycles. */
  lemma NotAfterBoth(a: Token, b: Token)
    requires NotAfter(a, b) && NotAfter(b, a)
    ensures a == b
  {
  }

  lemma NotAfterThrough(a: Token, b: Token, c: Token)
    requires NotAfter(a, b) && NotAfter(b, c)
    ensures NotAfter(a, c)
  {
  }

  predicate RunConsumes(c: State, steps: seq<Step>, pid: ID)
    decreases steps
  {
    steps != [] && (Consumes(c, steps[0], pid) || RunConsumes(Apply(c, steps[0]), steps[1..], pid))
  }

  /** The same over runs: a player's token has moved exactly if some step consumed its guards. */
  lemma {:induction false} RunOrder(c: State, steps: seq<Step>, pid: ID)
    ensures NotAfter(PlayerView(c, pid).token, PlayerView(Run(c, steps), pid).token)
    ensures RunConsumes(c, steps, pid) <==> Before(PlayerView(c, pid).token, PlayerView(Run(c, steps), pid).token)
    decreases steps
  {
    if steps != [] {
      StepOrder(c, steps[0], pid);
      RunOrder(Apply(c, steps[0]), steps[1..], pid);
    }
  }

  /** A guard issued at `c` and consumed anywhere later never passes a check again, however
      the run continues. */
  lemma {:induction false} GuardNeverRecurs(c: State, first: seq<Step>, consuming: Step, rest: seq<Step>, pid: ID)
    requires Consumes(Run(c, first), consuming, pid)
    ensures var guard := PlayerView(c, pid).token;
            var now := Run(Apply(Run(c, first), consuming), rest);
            Before(guard, PlayerView(now, pid).token) && !GuardMatches(now, pid, guard)
  {
    RunOrder(c, first, pid);
    StepOrder(Run(c, first), consuming, pid);
    RunOrder(Apply(Run(c, first), consuming), rest, pid);
  }

  /** Two accepted writes to one player never used the same guard, although each guard is
      checked in one section and its write counted in a later one. */
  lemma {:induction false} AcceptedGuardsDiffer(
      c: State, between: seq<Step>, rest: seq<Step>, pid: ID, m: Mutation, g1: Token, g2: Token)
    requires GuardMatches(c, pid, g1)
    requires GuardMatches(Run(Apply(Run(c, between), StampWrite(pid, m)), rest), pid, g2)
    ensures g1 != g2
  {
    GuardNeverRecurs(c, between, StampWrite(pid, m), rest, pid);
  }

  /** What can fall between the last guard check and the stamp: the owner is busy with this
      request, so only an interrupt or an observation from another goroutine. */
  predicate Concurrent(s: Step) { s.Interrupt? || s.Observe? }

  /** So a write is counted under a guard that is still current exactly when neither an
      interrupt nor an eviction fell in between. */
  lemma {:induction false} GuardAtStamp(c: State, between: seq<Step>, pid: ID, guard: Token)
    requires GuardMatches(c, pid, guard) && forall i :: 0 <= i < |between| ==> Concurrent(between[i])
    ensures PlayerView(Run(c, between), pid).token == guard <==> !Disturbed(c, between)
  {
    RunOrder(c, between, pid);
    DisturbedConsumes(c, between, pid);
  }

  predicate Disturbed(c: State, steps: seq<Step>)
    decreases steps
  {
    steps != [] &&
    (steps[0].Interrupt? || (steps[0].Observe? && Evicts(c, steps[0].pid)) || Disturbed(Apply(c, steps[0]), steps[1..]))
  }

  lemma {:induction false} DisturbedConsumes(c: State, steps: seq<Step>, pid: ID)
    requires forall i :: 0 <= i < |steps| ==> Concurrent(steps[i])
    ensures Disturbed(c, steps) <==> RunConsumes(c, steps, pid)
    decreases steps
  {
    if steps != [] { DisturbedConsumes(Apply(c, steps[0]), steps[1..], pid); }
  }

  /** The owner's mutex-protected fields, updated in place. */
  class Owner {
    var global: Token
    var connected: bool
    var players: map<ID, nat>
    var writes: map<ID, PlayerWrite>
    /** Requests carry the fence they were submitted under; `active` is the one in progress. */
    var fence: nat
    var active: Option<nat>
    var interrupted: set<nat>

    ghost function Now(): State reads this { State(global, connected, players, writes) }

    constructor ()
      ensures Now() == State(Token(0, 0, 0, 0, 0), false, map[], map[])
    {
      global, connected, players, writes := Token(0, 0, 0, 0, 0), false, map[], map[];
      fence, active, interrupted := 0, None, {};
    }

    method ViewOf(pid: ID) returns (view: View)
      ensures view == PlayerView(Now(), pid)
    {
      view := View(global, connected);
      if pid in players {
        view := view.(token := view.token.(player := players[pid]));
      } else {
        view := view.(token := view.token.(player := 0));
      }
      var revision := 0;
      if pid in writes {
        revision := writes[pid].revision;
      }
      view := view.(token := view.token.(write := revision));
    }

    method ObservePlayer(pid: ID) returns (view: View)
      modifies this`global, this`players, this`writes
      ensures Now() == Apply(old(Now()), Observe(pid))
      ensures view == PlayerView(Now(), pid) && pid in players
      ensures forall p :: NotAfter(PlayerView(old(Now()), p).token, PlayerView(Now(), p).token)
    {
      if pid !in players {
        if |players| == MAX_PLAYERS {
          players, writes := map[], map[];
          global := global.(revision := global.revision + 1);
        }
        players := players[pid := 0];
      }
      view := ViewOf(pid);
      forall p ensures NotAfter(PlayerView(old(Now()), p).token, PlayerView(Now(), p).token) {
        StepOrder(old(Now()), Observe(pid), p);
      }
    }

    method InterruptAll()
      modifies this`global, this`connected, this`fence, this`interrupted
      ensures Now() == Apply(old(Now()), Interrupt) && !connected
      ensures forall p :: Before(PlayerView(old(Now()), p).token, PlayerView(Now(), p).token)
      ensures fence == old(fence) + 1
      ensures interrupted == old(interrupted) + (if active.Some? then {active.value} else {})
    {
      fence := fence + 1;
      if active.Some? { interrupted := interrupted + {active.value}; }
      connected := false;
      global := global.(revision := global.revision + 1);
      global := global.(catalog := global.catalog + 1);
    }

    method DialConnection()
      modifies this`global, this`connected
      ensures Now() == Apply(old(Now()), Dial) && connected
    {
      connected := true;
      global := global.(generation := global.generation + 1);
      global := global.(revision := global.revision + 1);
      global := global.(catalog := global.catalog + 1);
    }

    method DropConnection(current: bool) returns (gap: Token)
      modifies this`global, this`connected
      ensures Now() == Apply(old(Now()), Drop(current)) && gap == global
    {
      if current {
        connected := false;
        global := global.(revision := global.revision + 1);
        global := global.(catalog := global.catalog + 1);
      }
      gap := global;
    }

    method CountEvent(body: EventBody, pid: ID, valid: bool) returns (stamp: Token)
      modifies this`global, this`players
      ensures Now() == Apply(old(Now()), Arrive(body, pid, valid))
      ensures stamp == PlayerView(Now(), pid).token
      ensures pid in old(players) && PlayerKind(body) && pid != "" ==>
                stamp == PlayerView(old(Now()), pid).token.(player := old(players)[pid] + 1)
    {
      if !(body.Progress? && valid) {
        if PlayerKind(body) && pid != "" {
          if pid in players {
            players := players[pid := players[pid] + 1];
          }
        } else {
          global := global.(revision := global.revision + 1);
        }
        if body.CatalogChanged? {
          global := global.(catalog := global.catalog + 1);
        }
      }
      var view := ViewOf(pid);
      stamp := view.token;
    }

    /** Whichever comes first, a request submitted before an interrupt ends up cancelled: an
        interrupt cancels the active one, and activation cancels one submitted earlier. */
    method Activate(request: nat, submitted: nat)
      requires submitted <= fence
      modifies this`active, this`interrupted
      ensures active == Some(request)
      ensures interrupted == old(interrupted) + (if submitted < fence then {request} else {})
    {
      active := Some(request);
      if submitted != fence { interrupted := interrupted + {request}; }
    }

    /** The last check before a write is counted and sent: a guard is current and unexpired. It
        changes nothing. */
    method CheckGuard(pid: ID, guard: Token, expiresAt: Time, now: Time) returns (ok: bool)
      ensures ok <==> GuardMatches(Now(), pid, guard) && now < expiresAt
    {
      var view := ViewOf(pid);
      ok := view.connected && view.token == guard && now < expiresAt;
    }

    /** Counting the write consumes every guard this player had, the one just checked included. */
    method CountWrite(pid: ID, m: Mutation)
      modifies this`writes
      ensures Now() == Apply(old(Now()), StampWrite(pid, m))
      ensures forall guard :: GuardMatches(old(Now()), pid, guard) ==> !GuardMatches(Now(), pid, guard)
    {
      var revision := 0;
      if pid in writes { revision := writes[pid].revision; }
      writes := writes[pid := PlayerWrite(revision + 1, m)];
    }
  }
}
