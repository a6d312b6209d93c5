/**
 * The attack step sequencer (frontend/src/pages/AttackVisualizer.js): a
 * four-stage script per attack type and a current stage index driven by
 * manual navigation and by an autoplay timer.
 */
module Visualizer {
  import opened Wrappers

  datatype Attack = SQLi | XSS | BruteForce

  /** One stage of a script. */
  datatype Stage = Stage(title: string, desc: string, icon: string)

  /** `stepsByAttack`: every script has exactly four stages. */
  function StepsByAttack(a: Attack): (steps: seq<Stage>)
    ensures |steps| == 4
    ensures steps[3].title == match a
      case BruteForce => "Lockout"
      case _ => "Defense"
  {
    match a
    case SQLi => [
      Stage("User Input", "Attacker enters a crafted payload like ' OR '1'='1", "\U{1F468}\U{200D}\U{1F4BB}"),
      Stage("Vulnerable Query", "Input is concatenated into SQL, altering logic (tautology).", "\U{1F9E9}"),
      Stage("DB Response", "Database returns unintended rows (e.g., first user).", "\U{1F5C4}\U{FE0F}"),
      Stage("Defense", "Prepared statements treat input as data, not SQL.", "\U{1F6E1}\U{FE0F}")]
    case XSS => [
      Stage("User Input", "Attacker submits a script payload.", "\U{1F468}\U{200D}\U{1F4BB}"),
      Stage("Reflection/Storage", "Payload is reflected or stored in page.", "\U{1F4E8}"),
      Stage("Browser Execute", "Victim browser executes script in origin.", "\U{1F310}"),
      Stage("Defense", "Output encoding and CSP block execution.", "\U{1F6E1}\U{FE0F}")]
    case BruteForce => [
      Stage("Login Attempts", "Automated repeated guesses.", "\U{1F501}"),
      Stage("Detection", "Threshold reached triggers detection.", "\U{1F6A8}"),
      Stage("Rate Limit", "429 Too Many Requests returned.", "\U{23F3}"),
      Stage("Lockout", "Account temporarily locked.", "\U{1F512}")]
  }

  /** A stage index valid for a script of length `len`. */
  predicate InRange(s: int, len: int) {
    0 <= s < len
  }

  /** The `next` updater, `Math.min(len - 1, s + 1)`: clamps at the last stage. */
  function NextStep(s: int, len: int): (r: int)
    ensures r <= len - 1
    ensures s < len - 1 ==> r == s + 1
    ensures s >= len - 1 ==> r == len - 1
  {
    if len - 1 < s + 1 then len - 1 else s + 1
  }

  /** The `prev` updater, `Math.max(0, s - 1)`: clamps at the first stage. */
  function PrevStep(s: int): (r: int)
    ensures r >= 0
    ensures s > 0 ==> r == s - 1
    ensures s <= 0 ==> r == 0
  {
    if 0 > s - 1 then 0 else s - 1
  }

  /** The autoplay updater: advances, and wraps to the first stage from the last. */
  function TickStep(s: int, len: int): (r: int)
    ensures s < len - 1 ==> r == s + 1
    ensures s >= len - 1 ==> r == 0
  {
    if s >= len - 1 then 0 else s + 1
  }

  /** No navigation leaves the range of a non-empty script. */
  lemma UpdatersStayInRange(s: int, len: int)
    requires InRange(s, len)
    ensures InRange(NextStep(s, len), len)
    ensures InRange(PrevStep(s), len)
    ensures InRange(TickStep(s, len), len)
  {
  }

  /** Manual `next` and the autoplay tick agree except at the last stage. */
  lemma NextAgreesWithTickExceptAtEnd(s: int, len: int)
    requires InRange(s, len)
    ensures s < len - 1 ==> NextStep(s, len) == TickStep(s, len)
    ensures s == len - 1 ==> NextStep(s, len) == s && TickStep(s, len) == 0
  {
  }

  /** The autoplay tick visits every stage: `len` ticks return to the start. */
  function TickN(s: int, len: int, n: nat): int
  {
    if n == 0 then s else TickStep(TickN(s, len, n - 1), len)
  }

  lemma {:induction false} TickCycles(len: int, n: nat)
    requires len > 0 && n <= len
    ensures n < len ==> TickN(0, len, n) == n
    ensures n == len ==> TickN(0, len, n) == 0
  {
    if n > 0 {
      TickCycles(len, n - 1);
    }
  }

  /** `Math.max(300, speedMs)`: the autoplay period never drops below 300 ms. */
  const MinIntervalMs := 300

  function IntervalMs(speedMs: int): (ms: int)
    ensures ms >= MinIntervalMs && ms >= speedMs
    ensures ms == speedMs || ms == MinIntervalMs
  {
    if MinIntervalMs > speedMs then MinIntervalMs else speedMs
  }

  /** The visualizer page's state. */
  class Sequencer {
    var attack: Attack
    var step: int
    var payload: string
    var autoPlay: bool
    var speedMs: int

    /** The index designates a stage of the current script. */
    ghost predicate Valid()
      reads this
    {
      InRange(step, |StepsByAttack(attack)|)
    }

    function Steps(): (steps: seq<Stage>)
      reads this
      ensures |steps| == 4
    {
      StepsByAttack(attack)
    }

    constructor ()
      ensures Valid()
      ensures attack == SQLi && step == 0 && payload == "' OR '1'='1"
      ensures autoPlay && speedMs == 1200
    {
      attack := SQLi;
      step := 0;
      payload := "' OR '1'='1";
      autoPlay := true;
      speedMs := 1200;
    }

    method Next()
      requires Valid()
      modifies this`step
      ensures Valid()
      ensures step == NextStep(old(step), |Steps()|)
      ensures old(step) == |Steps()| - 1 ==> step == old(step)
    {
      step := NextStep(step, |Steps()|);
    }

    method Prev()
      requires Valid()
      modifies this`step
      ensures Valid()
      ensures step == PrevStep(old(step))
      ensures old(step) == 0 ==> step == 0
    {
      step := PrevStep(step);
    }

    method Restart()
      modifies this`step
      ensures Valid() && step == 0
    {
      step := 0;
    }

    /**
     * Selecting another attack keeps the index. It stays valid only because
     * every script has the same length.
     */
    method SetAttack(a: Attack)
      requires Valid()
      modifies this`attack
      ensures attack == a && step == old(step)
      ensures Valid()
    {
      attack := a;
    }

    method SetPayload(p: string)
      modifies this`payload
      ensures payload == p
    {
      payload := p;
    }

    method ToggleAutoPlay()
      modifies this`autoPlay
      ensures autoPlay == !old(autoPlay)
    {
      autoPlay := !autoPlay;
    }

    /** The speed slider stores its value as given; the floor applies to the timer. */
    method SetSpeed(v: int)
      modifies this`speedMs
      ensures speedMs == v
    {
      speedMs := v;
    }

    /** The period of the running autoplay timer; none while autoplay is off. */
    function TimerPeriod(): (ms: Option<int>)
      reads this
      ensures ms.Some? <==> autoPlay
      ensures ms.Some? ==> ms.value >= MinIntervalMs && ms.value == IntervalMs(speedMs)
    {
      if autoPlay then Some(IntervalMs(speedMs)) else None
    }

    /** A tick of the autoplay timer. A timer stopped by pausing delivers nothing. */
    method TimerFires()
      requires Valid()
      modifies this`step
      ensures Valid()
      ensures old(autoPlay) ==> step == TickStep(old(step), |Steps()|)
      ensures !old(autoPlay) ==> step == old(step)
      ensures old(step) == |Steps()| - 1 && old(autoPlay) ==> step == 0
    {
      if autoPlay {
        step := TickStep(step, |Steps()|);
      }
    }

    /** `((step + 1) / steps.length) * 100`, as an exact ratio. */
    function ProgressPercent(): (p: real)
      reads this
      requires Valid()
      ensures 0.0 < p <= 100.0
      ensures p == 100.0 <==> step == |Steps()| - 1
    {
      Progress(step, |Steps()|)
    }
  }

  function Progress(s: int, len: int): (p: real)
    requires InRange(s, len)
    ensures 0.0 < p <= 100.0
    ensures p == 100.0 <==> s == len - 1
  {
    var p := (s + 1) as real / len as real * 100.0;
    ProgressBounds(s, len);
    p
  }

  lemma ProgressBounds(s: int, len: int)
    requires InRange(s, len)
    ensures 0.0 < (s + 1) as real / len as real * 100.0 <= 100.0
    ensures (s + 1) as real / len as real * 100.0 == 100.0 <==> s == len - 1
  {
    var q := (s + 1) as real / len as real;
    assert q * len as real == (s + 1) as real;
    if s == len - 1 {
      assert q == 1.0;
    } else {
      assert (s + 1) as real < len as real;
      assert q < 1.0;
    }
  }
}
