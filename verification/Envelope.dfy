/** The bounded volume envelope of automated playback: ramp, hold, fade and stop, driven by
    whatever clock readings the worker gets. */
module Envelope {
  import opened Heos

  datatype Automation = Automation(targetLevel: int, rampSeconds: int, durationSeconds: int, fadeSeconds: int)

  predicate Valid(a: Automation, level: int, ceiling: Option<int>) {
    ceiling.Some? && level <= a.targetLevel <= ceiling.value && a.targetLevel <= 100 &&
    1 <= a.durationSeconds <= 7200 && 0 <= a.fadeSeconds <= 60 && a.fadeSeconds < a.durationSeconds &&
    0 <= a.rampSeconds <= a.durationSeconds - a.fadeSeconds
  }

  datatype Phase = Ramping | Playing | Fading | Stopping

  function Rank(p: Phase): nat { match p case Ramping => 0 case Playing => 1 case Fading => 2 case Stopping => 3 }

  function PhaseAt(a: Automation, elapsed: Time): Phase {
    if elapsed >= a.durationSeconds * SECOND then Stopping
    else if a.fadeSeconds > 0 && elapsed >= (a.durationSeconds - a.fadeSeconds) * SECOND then Fading
    else if a.rampSeconds > 0 && elapsed < a.rampSeconds * SECOND then Ramping
    else Playing
  }

  function RampProduct(a: Automation, initial: int, elapsed: Time): int { elapsed * (a.targetLevel - initial) }

  function FadeProduct(a: Automation, from: int, elapsed: Time): int {
    (elapsed - (a.durationSeconds - a.fadeSeconds) * SECOND) * from
  }

  /** The level of one tick; `from` is where the fade started and `last` what was last set. */
  function Level(a: Automation, initial: int, from: int, last: int, elapsed: Time): int {
    match PhaseAt(a, elapsed)
    case Stopping => if a.fadeSeconds > 0 then 0 else last
    case Fading => from - FadeProduct(a, from, elapsed) / (a.fadeSeconds * SECOND)
    case Ramping => initial + RampProduct(a, initial, elapsed) / (a.rampSeconds * SECOND)
    case Playing => a.targetLevel
  }

  // ---- Arithmetic of one step ----

  lemma Quotient(a: int, b: int)
    requires b > 0
    ensures (a / b) * b <= a < (a / b + 1) * b
  {
  }

  lemma QuotientMonotone(a: int, c: int, b: int)
    requires a <= c && b > 0
    ensures a / b <= c / b
  {
    Quotient(a, b);
    Quotient(c, b);
    if a / b > c / b {
      Multiply(c / b + 1, a / b, b);
    }
  }

  lemma Multiply(x: int, y: int, b: int)
    requires x <= y && b >= 0
    ensures x * b <= y * b
  {
  }

  /** A share of at most the whole: the quotient of `part * n` by `whole` lies in [0, n], and
      is n only for the whole. */
  lemma Share(part: int, whole: int, n: int)
    requires 0 <= part <= whole && 0 < whole && 0 <= n
    ensures 0 <= part * n / whole <= n && (part < whole && 0 < n ==> part * n / whole < n)
  {
    Multiply(0, part, n);
    Multiply(part, whole, n);
    var q := part * n / whole;
    Quotient(part * n, whole);
    if q > n { Multiply(n + 1, q, whole); }
    if q < 0 { Multiply(q + 1, 0, whole); }
    if part < whole && 0 < n && q >= n {
      Multiply(n, q, whole);
      Multiply(part + 1, whole, n);
    }
  }

  /** On the ramp the level is the ideal straight line rounded down, and lies between the
      initial and the target level. */
  lemma RampIsFloor(a: Automation, initial: int, from: int, last: int, elapsed: Time)
    requires initial <= a.targetLevel && 0 <= elapsed && PhaseAt(a, elapsed) == Ramping
    ensures var level := Level(a, initial, from, last, elapsed); var ramp := a.rampSeconds * SECOND;
            (level - initial) * ramp <= elapsed * (a.targetLevel - initial) < (level - initial + 1) * ramp &&
            initial <= level <= a.targetLevel
  {
    Quotient(RampProduct(a, initial, elapsed), a.rampSeconds * SECOND);
    Share(elapsed, a.rampSeconds * SECOND, a.targetLevel - initial);
  }

  /** On the fade it is the ideal straight line to zero rounded up; so from a nonzero start
      it stays above zero until the deadline itself. */
  lemma FadeIsCeiling(a: Automation, initial: int, from: int, last: int, elapsed: Time)
    requires 0 <= from && PhaseAt(a, elapsed) == Fading
    ensures var level := Level(a, initial, from, last, elapsed); var fade := a.fadeSeconds * SECOND;
            var left := a.durationSeconds * SECOND - elapsed;
            (level - 1) * fade < left * from <= level * fade &&
            0 <= level <= from && (0 < from ==> 0 < level)
  {
    var fade := a.fadeSeconds * SECOND;
    var gone := elapsed - (a.durationSeconds - a.fadeSeconds) * SECOND;
    Quotient(gone * from, fade);
    Share(gone, fade, from);
    var q := gone * from / fade;
    assert (a.durationSeconds * SECOND - elapsed) * from == fade * from - gone * from;
    assert (from - q) * fade == from * fade - q * fade && (from - q - 1) * fade == from * fade - q * fade - fade;
  }

  /** The nanosecond products of every tick fit a signed 64-bit integer. */
  lemma ProductsFit(a: Automation, initial: int, from: int, ceiling: Option<int>, elapsed: Time)
    requires Valid(a, initial, ceiling) && 0 <= initial && 0 <= from <= a.targetLevel && 0 <= elapsed
    ensures PhaseAt(a, elapsed) == Ramping ==> 0 <= RampProduct(a, initial, elapsed) < 0x7FFF_FFFF_FFFF_FFFF
    ensures PhaseAt(a, elapsed) == Fading ==> 0 <= FadeProduct(a, from, elapsed) < 0x7FFF_FFFF_FFFF_FFFF
  {
    if PhaseAt(a, elapsed) == Ramping {
      Multiply(0, elapsed, a.targetLevel - initial);
      Multiply(elapsed, 7200 * SECOND, a.targetLevel - initial);
    }
    if PhaseAt(a, elapsed) == Fading {
      var gone := elapsed - (a.durationSeconds - a.fadeSeconds) * SECOND;
      Multiply(0, gone, from);
      Multiply(gone, 60 * SECOND, from);
    }
  }

  // ---- The run ----

  /** How one attempt to set a level ended. A failed one may have been sent. */
  datatype Attempt = Confirmed | NotSent | Failed

  /** One turn of the loop: the clock, whether a quiet turn only observes, how the write of
      the level ended, and whether a final Stop was confirmed. */
  datatype Tick = Tick(now: Time, observing: bool, attempt: Attempt, stopOk: bool)

  predicate Forward(ticks: seq<Tick>) { forall i, j :: 0 <= i < j < |ticks| ==> ticks[i].now <= ticks[j].now }

  /** A level that was, or may have been, sent, and the time since playback began. */
  datatype Command = Command(level: int, elapsed: Time)

  function Levels(initial: int, commands: seq<Command>): seq<int> {
    [initial] + seq(|commands|, i requires 0 <= i < |commands| => commands[i].level)
  }

  /** Rises, then falls: never up again after coming down. */
  ghost predicate UpThenDown(levels: seq<int>, pivot: nat) {
    pivot < |levels| && (forall i, j :: 0 <= i < j <= pivot ==> levels[i] <= levels[j]) &&
    (forall i, j :: pivot <= i < j < |levels| ==> levels[i] >= levels[j])
  }

  ghost predicate PhasesForward(phases: seq<Phase>) {
    forall i, j :: 0 <= i < j < |phases| ==> Rank(phases[i]) <= Rank(phases[j])
  }

  lemma PhaseMonotone(a: Automation, s: Time, t: Time)
    requires s <= t && a.rampSeconds <= a.durationSeconds - a.fadeSeconds && 0 <= a.fadeSeconds
    ensures Rank(PhaseAt(a, s)) <= Rank(PhaseAt(a, t))
  {
  }

  /** One step against the previous one: rising while ramping or holding, falling after. */
  lemma LevelMoves(a: Automation, initial: int, from: int, last: int, s: Time, t: Time)
    requires 0 <= initial <= a.targetLevel && 0 <= s <= t && PhaseAt(a, s) == PhaseAt(a, t) && 0 <= from
    ensures PhaseAt(a, t) == Ramping ==> Level(a, initial, from, last, s) <= Level(a, initial, from, last, t)
    ensures PhaseAt(a, t) == Fading ==> Level(a, initial, from, last, t) <= Level(a, initial, from, last, s)
  {
    if PhaseAt(a, t) == Ramping {
      Multiply(s, t, a.targetLevel - initial);
      QuotientMonotone(RampProduct(a, initial, s), RampProduct(a, initial, t), a.rampSeconds * SECOND);
    }
    if PhaseAt(a, t) == Fading {
      var begin := (a.durationSeconds - a.fadeSeconds) * SECOND;
      Multiply(s - begin, t - begin, from);
      QuotientMonotone(FadeProduct(a, from, s), FadeProduct(a, from, t), a.fadeSeconds * SECOND);
    }
  }

  /** What is known of the last set level in a phase whose line stood at `line`. Before any
      fade it is at most what the ramp allows; in the fade it is at least what the line leaves. */
  ghost predicate Tracks(target: int, initial: int, phase: Phase, line: int, from: int, last: int) {
    0 <= last <= target &&
    (from < 0 && phase != Stopping ==> initial <= last && (phase == Ramping ==> last <= line)) &&
    (from >= 0 ==> last <= from && Rank(phase) >= 2 && (phase == Fading ==> line <= last))
  }

  /** The fade starts from the last set level, once. */
  function FadeFrom(phase: Phase, from: int, last: int): int { if phase == Fading && from < 0 then last else from }

  /** Where the line of one moment lies, and which way it has moved since the one before. */
  ghost predicate LineMoves(
      target: int, initial: int, was: Phase, line: int, phase: Phase, from: int, last: int, level: int) {
    Rank(was) <= Rank(phase) &&
    match phase
    case Ramping => initial <= level <= target && line <= level
    case Playing => level == target
    case Fading =>
      var start := FadeFrom(phase, from, last);
      0 <= level <= start && (0 < start ==> 0 < level) && (from >= 0 && was == Fading ==> level <= line)
    case Stopping => level == 0 || level == last
  }

  /** One turn: the level moves in the one direction its phase allows, and whether or not it
      could be set, what was known of the last level is known again. */
  lemma TurnTracks(target: int, initial: int, was: Phase, line: int, phase: Phase, from: int, last: int, level: int)
    requires 0 <= initial <= target && Tracks(target, initial, was, line, from, last)
    requires LineMoves(target, initial, was, line, phase, from, last, level)
    ensures var f := FadeFrom(phase, from, last);
            0 <= level <= target && Tracks(target, initial, phase, level, f, last) &&
            Tracks(target, initial, phase, level, f, level) &&
            (Rank(phase) <= 1 ==> last <= level) && (Rank(phase) >= 2 ==> level <= last) &&
            (level == 0 && level != last ==> phase == Stopping)
  {
  }

  /** The line at an earlier moment, for a phase in which it does not depend on `last`. */
  ghost predicate LineAt(a: Automation, initial: int, from: int, at: Time, line: int) {
    0 <= at &&
    (PhaseAt(a, at) == Ramping || (PhaseAt(a, at) == Fading && from >= 0) ==> line == Level(a, initial, from, 0, at))
  }

  lemma LineMovesOn(
      a: Automation, initial: int, ceiling: Option<int>, from: int, last: int, at: Time, line: int, elapsed: Time)
    requires Valid(a, initial, ceiling) && 0 <= initial && 0 <= last && LineAt(a, initial, from, at, line)
    requires at <= elapsed
    ensures var f := FadeFrom(PhaseAt(a, elapsed), from, last); var level := Level(a, initial, f, last, elapsed);
            LineMoves(a.targetLevel, initial, PhaseAt(a, at), line, PhaseAt(a, elapsed), from, last, level) &&
            LineAt(a, initial, f, elapsed, level)
  {
    var f := FadeFrom(PhaseAt(a, elapsed), from, last);
    PhaseMonotone(a, at, elapsed);
    match PhaseAt(a, elapsed)
    case Ramping =>
      RampIsFloor(a, initial, f, last, elapsed);
      LevelMoves(a, initial, 0, 0, at, elapsed);
    case Fading =>
      FadeIsCeiling(a, initial, f, last, elapsed);
      if from >= 0 && PhaseAt(a, at) == Fading { LevelMoves(a, initial, from, 0, at, elapsed); }
    case _ =>
  }

  /** What the commands so far have kept to. */
  ghost predicate Shaped(a: Automation, initial: int, commands: seq<Command>, pivot: nat) {
    UpThenDown(Levels(initial, commands), pivot) &&
    forall i :: 0 <= i < |commands| ==>
      0 <= commands[i].level <= a.targetLevel &&
      (commands[i].level == 0 ==> commands[i].elapsed >= a.durationSeconds * SECOND)
  }

  lemma PushCommand(a: Automation, initial: int, commands: seq<Command>, pivot: nat, c: Command)
    requires Shaped(a, initial, commands, pivot) && 0 <= c.level <= a.targetLevel
    requires (c.level == 0 ==> c.elapsed >= a.durationSeconds * SECOND)
    ensures Levels(initial, commands + [c]) == Levels(initial, commands) + [c.level]
    ensures c.level <= Levels(initial, commands)[|commands|] ==> Shaped(a, initial, commands + [c], pivot)
    ensures pivot == |commands| && Levels(initial, commands)[pivot] <= c.level ==>
      Shaped(a, initial, commands + [c], pivot + 1)
  {
    assert Levels(initial, commands + [c]) == Levels(initial, commands) + [c.level];
  }

  /** The whole automation. Commanded levels stay between zero and the target, rise and then
      only fall, are zero only at the deadline, and phases only move forward; late, skipped
      and retried turns included. A stopped run with a fade ended at zero. */
  method Automate(a: Automation, ceiling: Option<int>, initial: int, began: Time, ticks: seq<Tick>)
    returns (commands: seq<Command>, phases: seq<Phase>, stopped: bool)
    requires Valid(a, initial, ceiling) && 0 <= initial && Forward(ticks)
    ensures exists pivot: nat :: Shaped(a, initial, commands, pivot)
    ensures PhasesForward(phases)
    ensures stopped && a.fadeSeconds > 0 ==> Levels(initial, commands)[|commands|] == 0
  {
    commands, phases, stopped := [], [], false;
    var last, from, ended, i := initial, -1, false, 0;
    ghost var at: Time, line: int, pivot: nat := 0, Level(a, initial, -1, 0, 0), 0;
    if a.rampSeconds > 0 { RampIsFloor(a, initial, from, 0, 0); }
    while i < |ticks| && !ended
      invariant 0 <= i <= |ticks|
      invariant Shaped(a, initial, commands, pivot) && Levels(initial, commands)[|commands|] == last
      invariant PhasesForward(phases) && forall j :: 0 <= j < |phases| ==> Rank(phases[j]) <= Rank(PhaseAt(a, at))
      invariant LineAt(a, initial, from, at, line) && Tracks(a.targetLevel, initial, PhaseAt(a, at), line, from, last)
      invariant Rank(PhaseAt(a, at)) <= 1 ==> pivot == |commands|
      invariant forall j :: i <= j < |ticks| ==> at <= Elapsed(began, ticks[j].now)
      invariant stopped && a.fadeSeconds > 0 ==> last == 0
    {
      var tick, elapsed := ticks[i], Elapsed(began, ticks[i].now);
      i := i + 1;
      var phase := PhaseAt(a, elapsed);
      LineMovesOn(a, initial, ceiling, from, last, at, line, elapsed);
      var level := Level(a, initial, FadeFrom(phase, from, last), last, elapsed);
      TurnTracks(a.targetLevel, initial, PhaseAt(a, at), line, phase, from, last, level);
      from := FadeFrom(phase, from, last);
      at, line := elapsed, level;
      if tick.observing && level == last && phase != Stopping { continue; }
      phases := phases + [phase];
      var settled := level == last || tick.attempt == Confirmed;
      if level != last && tick.attempt != NotSent {
        // Every level that may have reached the device is recorded, confirmed or not.
        PushCommand(a, initial, commands, pivot, Command(level, elapsed));
        if last < level { pivot := pivot + 1; }
        commands := commands + [Command(level, elapsed)];
        last := level;
      }
      // The terminal Stop follows the last level; any failure but an unsent step ends the run.
      stopped := settled && phase == Stopping && tick.stopOk;
      ended := (settled && phase == Stopping) || tick.attempt == Failed;
    }
  }

  function Elapsed(began: Time, now: Time): Time { if now < began then 0 else now - began }
}
