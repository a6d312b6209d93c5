/**
 * The dashboard (frontend/src/pages/Dashboard.js): fetching the counters,
 * the 60-frame count-up animation, the success rates and the pie slices.
 */
module Dashboard {
  import opened Wrappers
  import Api
  import Rounding

  /** The four counters the stat cards show. */
  datatype Counters = Counters(totalAttacks: int, successfulAttacks: int, totalDefenses: int, successfulDefenses: int)

  const Zero := Counters(0, 0, 0, 0)

  /** The animation runs in this many frames (2000 ms at 2000/60 ms each). */
  const Frames := 60

  function CountersOf(s: Api.Stats): Counters {
    Counters(s.totalAttacks, s.successfulAttacks, s.totalDefenses, s.successfulDefenses)
  }

  /** `Math.floor(target * (k / 60))`, computed exactly. */
  function FrameValue(target: int, k: int): (v: int)
    ensures 60 * v <= target * k < 60 * v + 60
  {
    Rounding.DivBounds(target * k, Frames);
    target * k / Frames
  }

  /** The counters shown after frame `k`. */
  function Frame(s: Api.Stats, k: int): Counters {
    Counters(FrameValue(s.totalAttacks, k), FrameValue(s.successfulAttacks, k),
             FrameValue(s.totalDefenses, k), FrameValue(s.successfulDefenses, k))
  }

  /** Floor division by a positive divisor is monotone. */
  lemma DivMonotone(a: int, b: int, d: int)
    requires a <= b && d > 0
    ensures a / d <= b / d
  {
    Rounding.DivBounds(a, d);
    Rounding.DivBounds(b, d);
    Rounding.MulStrict(a / d, b / d + 1, d);
  }

  /** Multiplying a non-negative number by a larger factor does not make it smaller. */
  lemma MulMonotone(t: int, j: int, k: int)
    requires t >= 0 && j <= k
    ensures t * j <= t * k
  {
    assert t * k - t * j == t * (k - j);
  }

  /** A frame never overshoots: a non-negative counter stays between 0 and its target. */
  lemma {:induction false} FrameBounds(target: int, k: int)
    requires target >= 0 && 0 <= k <= Frames
    ensures 0 <= FrameValue(target, k) <= target
  {
    MulMonotone(target, 0, k);
    MulMonotone(target, k, Frames);
    DivMonotone(0, target * k, Frames);
    DivMonotone(target * k, target * Frames, Frames);
  }

  /** Later frames show at least as much as earlier ones (the count only goes up). */
  lemma {:induction false} FrameMonotone(target: int, j: int, k: int)
    requires target >= 0 && j <= k
    ensures FrameValue(target, j) <= FrameValue(target, k)
  {
    MulMonotone(target, j, k);
    DivMonotone(target * j, target * k, Frames);
  }

  /** The first frame is zero and the last frame is the target itself. */
  lemma FrameEnds(target: int)
    ensures FrameValue(target, 0) == 0
    ensures FrameValue(target, Frames) == target
  {
  }

  /** The dashboard page's state. */
  class DashboardPage {
    var stats: Api.Stats
    var loading: bool
    var animated: Counters
    /** `currentStep` of the running count-up, meaningful while `animating`. */
    var step: int
    var animating: bool

    /** A count-up is under way only once loading has finished, and stops at the last frame. */
    ghost predicate Valid()
      reads this
    {
      0 <= step <= Frames && (animating ==> step < Frames && !loading)
    }

    /** The page as first rendered: zero counters, waiting for data. */
    constructor ()
      ensures Valid()
      ensures stats == Api.InitialStats && loading && animated == Zero && !animating && step == 0
    {
      stats := Api.InitialStats;
      loading := true;
      animated := Zero;
      step := 0;
      animating := false;
    }

    /**
     * `fetchStats` completing: a reply replaces the stats, an error keeps them.
     * Either way loading ends, and the effect keyed on `[stats, loading]`
     * starts a fresh count-up from frame 0 (the counters on screen stay as
     * they are until its first frame).
     */
    method FetchStats(reply: Option<Api.Stats>)
      modifies this`stats, this`loading, this`step, this`animating
      ensures Valid()
      ensures stats == (if reply.Some? then reply.value else old(stats))
      ensures !loading && animating && step == 0
    {
      if reply.Some? {
        stats := reply.value;
      }
      loading := false;
      step := 0;
      animating := true;
    }

    /** One firing of the animation interval. */
    method Tick()
      requires Valid()
      modifies this`animated, this`step, this`animating
      ensures Valid()
      ensures !old(animating) ==> animated == old(animated) && step == old(step) && !animating
      ensures old(animating) ==> step == old(step) + 1
      ensures old(animating) && step < Frames ==> animating && animated == Frame(stats, step)
      ensures old(animating) && step == Frames ==> !animating && animated == CountersOf(stats)
    {
      if animating {
        step := step + 1;
        animated := Frame(stats, step);
        if step >= Frames {
          animating := false;
          animated := CountersOf(stats);
        }
      }
    }

    /** Letting the interval run out: the cards end on the fetched counters. */
    method RunAnimation()
      requires Valid()
      modifies this`animated, this`step, this`animating
      ensures Valid()
      ensures !animating
      ensures old(animating) ==> animated == CountersOf(stats) && step == Frames
      ensures !old(animating) ==> animated == old(animated)
    {
      while animating
        invariant Valid()
        invariant old(animating) && !animating ==> animated == CountersOf(stats) && step == Frames
        invariant !old(animating) ==> !animating && animated == old(animated)
        decreases Frames - step
      {
        Tick();
      }
    }
  }

  /** `successRate` in tenths of a percent (`toFixed(1)`); 0 when there were no attacks. */
  function SuccessRateTenths(s: Api.Stats): (r: int)
    ensures s.totalAttacks <= 0 ==> r == 0
    ensures s.totalAttacks > 0 ==> r == Rounding.PercentTenths(s.successfulAttacks, s.totalAttacks)
    ensures s.totalAttacks > 0 ==>
      2 * r * s.totalAttacks - s.totalAttacks <= 2000 * s.successfulAttacks < 2 * r * s.totalAttacks + s.totalAttacks
    ensures 0 <= s.successfulAttacks <= s.totalAttacks ==> 0 <= r <= 1000
    ensures 0 < s.successfulAttacks == s.totalAttacks ==> r == 1000
  {
    if s.totalAttacks > 0 then Rounding.PercentTenths(s.successfulAttacks, s.totalAttacks) else 0
  }

  /** `defenseRate` in tenths of a percent; 0 when there were no defenses. */
  function DefenseRateTenths(s: Api.Stats): (r: int)
    ensures s.totalDefenses <= 0 ==> r == 0
    ensures s.totalDefenses > 0 ==> r == Rounding.PercentTenths(s.successfulDefenses, s.totalDefenses)
    ensures s.totalDefenses > 0 ==>
      2 * r * s.totalDefenses - s.totalDefenses <= 2000 * s.successfulDefenses < 2 * r * s.totalDefenses + s.totalDefenses
    ensures 0 <= s.successfulDefenses <= s.totalDefenses ==> 0 <= r <= 1000
    ensures 0 < s.successfulDefenses == s.totalDefenses ==> r == 1000
  {
    if s.totalDefenses > 0 then Rounding.PercentTenths(s.successfulDefenses, s.totalDefenses) else 0
  }

  /** One slice of the attack-type pie chart. */
  datatype Slice = Slice(name: string, value: int)

  /** `attackTypeData`: one slice per attack type; no slices means the "no data" placeholder. */
  function PieSlices(types: map<string, int>): (slices: set<Slice>)
    ensures forall sl :: sl in slices <==> sl.name in types && types[sl.name] == sl.value
    ensures slices == {} <==> types == map[]
  {
    var slices := set k | k in types :: Slice(k, types[k]);
    if types != map[] then
      var k :| k in types;
      assert Slice(k, types[k]) in slices;
      slices
    else
      slices
  }
}
