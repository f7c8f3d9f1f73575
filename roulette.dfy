/** The genome ruler ("roulette"): its configuration, its mutable scroll and
    zoom state, the `Roulette` facade that drives that state, and the tick
    layer that lays out 31 ticks over the current interval.

    Numbers are modelled as reals; the floating-point rounding of the
    source's `number` is not. */
module Roulette {

  /** A one-dimensional interval given by its start `x` and its `size`. */
  datatype Interval = Interval(x: real, size: real) {
    /** The interval moved by `d`. */
    function Shift(d: real): (r: Interval)
      ensures r.x == x + d && r.size == size
      ensures r.End() - r.x == End() - x
    {
      Interval(x + d, size)
    }

    /** The interval with its start kept and its size replaced. */
    function Resize(newSize: real): (r: Interval)
      ensures r.x == x && r.End() == x + newSize
    {
      Interval(x, newSize)
    }

    function End(): real {
      x + size
    }

    /** `[start, end]` */
    function Coords(): (c: (real, real))
      ensures c.1 - c.0 == size
    {
      (x, End())
    }
  }

  /** A two-dimensional vector. */
  datatype Vector = Vector(x: real, y: real) {
    function Add(v: Vector): Vector {
      Vector(x + v.x, y + v.y)
    }
  }

  datatype RouletteOrientation = Horizontal | Vertical {
    /** The enum's numeric value. */
    function Value(): nat {
      match this
      case Horizontal => 0
      case Vertical => 1
    }
  }

  /** Kinds of ruler objects, with their enum values 0..6. */
  datatype TypeRO = PeriodStreak | HalfStreak | Tick | NoDirectionBox | ForwardBox | ReversedBox | DiagramColumn {
    function Value(): nat {
      match this
      case PeriodStreak => 0
      case HalfStreak => 1
      case Tick => 2
      case NoDirectionBox => 3
      case ForwardBox => 4
      case ReversedBox => 5
      case DiagramColumn => 6
    }
  }

  /** The ruler's configuration: where it is drawn, how long its visible
      part is and which way it runs. The value/pixel conversion callbacks
      are not part of this model. */
  datatype RouletteConfig = RouletteConfig(visualPosition: Vector, visibleLength: real, horizontal: RouletteOrientation) {
    /** The visible interval `[0, visibleLength]`. */
    function Visible(): (r: Interval)
      ensures r.Coords() == (0.0, visibleLength)
    {
      Interval(0.0, visibleLength)
    }

    /** A distance laid along the ruler's axis. */
    function Orient(d: real): (v: Vector)
      ensures horizontal == Horizontal ==> v == Vector(d, 0.0)
      ensures horizontal != Horizontal ==> v == Vector(0.0, d)
    {
      if horizontal == Horizontal then Vector(d, 0.0) else Vector(0.0, d)
    }

    /** A ruler position in drawing coordinates. */
    function Translate(c: real): Vector {
      Orient(c).Add(visualPosition)
    }

    function BaseShift(): Vector {
      Translate(0.0)
    }

    function IsHorizontal(): bool {
      horizontal == Horizontal
    }
  }

  /** Orient is linear, and Translate moves only along the ruler's axis: the
      base shift is the visual position, and two positions differ by the
      oriented difference of their coordinates. */
  lemma TranslateAlongAxis(cfg: RouletteConfig, a: real, b: real)
    ensures cfg.Orient(a).Add(cfg.Orient(b)) == cfg.Orient(a + b)
    ensures cfg.BaseShift() == cfg.visualPosition
    ensures cfg.Translate(b) == cfg.Translate(a).Add(cfg.Orient(b - a))
    ensures cfg.IsHorizontal() ==> cfg.Translate(a).y == cfg.visualPosition.y
    ensures !cfg.IsHorizontal() ==> cfg.Translate(a).x == cfg.visualPosition.x
  {
  }

  /** The ruler's scroll and zoom state. */
  class RouletteState {
    var interval: Interval
    var offset: real
    var factor: real

    constructor ()
      ensures interval == Interval(0.0, 0.0) && offset == 0.0 && factor == 1.0
    {
      offset := 0.0;
      factor := 1.0;
      interval := Interval(0.0, 0.0);
    }

    /** Moves the interval by `d` and the offset by `-d`, so that
        `interval.x + offset` does not change. */
    method Shift(d: real)
      modifies this
      ensures interval == old(interval).Shift(d) && offset == old(offset) - d && factor == old(factor)
      ensures interval.x + offset == old(interval.x + offset)
    {
      interval := interval.Shift(d);
      offset := offset - d;
    }

    /** Multiplies the zoom factor; nothing else changes. */
    method Zoom(d: real)
      modifies this
      ensures factor == old(factor) * d && interval == old(interval) && offset == old(offset)
    {
      factor := factor * d;
    }

    /** Resizes the interval; nothing else changes. */
    method Resize(size: real)
      modifies this
      ensures interval == old(interval).Resize(size) && offset == old(offset) && factor == old(factor)
    {
      interval := interval.Resize(size);
    }
  }

  // ---------------------------------------------------------------------
  // Tick layout

  /** The number of tick steps; there is one tick more than steps. */
  const TickSteps: nat := 30

  /** The kind of tick `i`: a period streak every tenth tick, a half streak
      on the other fifth ticks, a plain tick otherwise. */
  function TickKind(i: nat): TypeRO {
    if i % 10 == 0 then PeriodStreak else if i % 5 == 0 then HalfStreak else Tick
  }

  /** A laid-out tick: its position and kind (its label text and colour are
      not part of this model). */
  datatype TickMark = TickMark(pos: real, kind: TypeRO)

  /** The tick at index `i` over `[start, end]`. */
  function TickAt(start: real, end: real, i: nat): TickMark {
    TickMark(start + (end - start) / TickSteps as real * i as real, TickKind(i))
  }

  /** The layout of the tick layer over `[start, end]`. */
  function TickLayout(start: real, end: real): (ts: seq<TickMark>)
    ensures |ts| == TickSteps + 1
    ensures forall i :: 0 <= i < |ts| ==> ts[i] == TickAt(start, end, i)
  {
    seq(TickSteps + 1, (i: nat) => TickAt(start, end, i))
  }

  /** The layout starts at `start`, ends at `end` and is evenly spaced by a
      thirtieth of the interval. */
  lemma TickLayoutSpan(start: real, end: real)
    ensures var ts := TickLayout(start, end);
            && ts[0].pos == start
            && ts[TickSteps].pos == end
            && forall i :: 0 <= i < TickSteps ==> ts[i + 1].pos - ts[i].pos == (end - start) / 30.0
  {
    var ts := TickLayout(start, end);
    var step := (end - start) / 30.0;
    assert ts[TickSteps].pos == start + step * 30.0;
    forall i | 0 <= i < TickSteps
      ensures ts[i + 1].pos - ts[i].pos == step
    {
      assert ts[i + 1].pos == start + step * (i as real + 1.0);
    }
  }

  function CountKind(ts: seq<TickMark>, k: TypeRO): (n: nat)
    ensures n <= |ts|
  {
    if ts == [] then 0
    else CountKind(ts[..|ts| - 1], k) + (if ts[|ts| - 1].kind == k then 1 else 0)
  }

  /** The number of indices below `n` whose tick kind is `k`. */
  function KindsBelow(n: nat, k: TypeRO): nat {
    if n == 0 then 0 else KindsBelow(n - 1, k) + (if TickKind(n - 1) == k then 1 else 0)
  }

  lemma {:induction false} CountKindOfPrefix(ts: seq<TickMark>, k: TypeRO)
    requires forall i :: 0 <= i < |ts| ==> ts[i].kind == TickKind(i)
    ensures CountKind(ts, k) == KindsBelow(|ts|, k)
    decreases |ts|
  {
    if ts != [] {
      CountKindOfPrefix(ts[..|ts| - 1], k);
    }
  }

  lemma TickKindPeriodic(i: nat)
    ensures TickKind(i + 10) == TickKind(i)
  {
    var q, r := i / 10, i % 10;
    assert i + 10 == 10 * (q + 1) + r;
    assert (i + 10) % 10 == r;
    assert (i + 10) % 5 == i % 5;
  }

  /** Tick kinds repeat every ten indices. */
  lemma {:induction false} TickKindDecade(q: nat, r: nat)
    ensures TickKind(10 * q + r) == TickKind(r)
    decreases q
  {
    if q > 0 {
      TickKindDecade(q - 1, r);
      TickKindPeriodic(10 * (q - 1) + r);
      assert 10 * (q - 1) + r + 10 == 10 * q + r;
    }
  }

  /** Counting kinds over a decade that starts at a multiple of ten. */
  lemma {:induction false} KindsShift(q: nat, j: nat, k: TypeRO)
    requires j <= 10
    ensures KindsBelow(10 * q + j, k) == KindsBelow(10 * q, k) + KindsBelow(j, k)
  {
    if j > 0 {
      KindsShift(q, j - 1, k);
      TickKindDecade(q, j - 1);
    }
  }

  /** Over the first `d` decades there are `d` period streaks, `d` half
      streaks and `8 * d` plain ticks, and no mark of another kind. */
  lemma {:induction false} KindsPerDecade(d: nat, k: TypeRO)
    ensures KindsBelow(10 * d, k) ==
              if k == Tick then 8 * d else if k == PeriodStreak || k == HalfStreak then d else 0
  {
    if d > 0 {
      KindsPerDecade(d - 1, k);
      KindsShift(d - 1, 10, k);
      KindsInFirstDecade(k);
      assert 10 * (d - 1) + 10 == 10 * d;
    }
  }

  /** The first decade holds one period streak, one half streak and eight
      plain ticks. */
  lemma KindsInFirstDecade(k: TypeRO)
    ensures KindsBelow(10, k) ==
              if k == Tick then 8 else if k == PeriodStreak || k == HalfStreak then 1 else 0
  {
    assert KindsBelow(5, k) == if k == Tick then 4 else if k == PeriodStreak then 1 else 0;
  }


  /** Any 31 marks whose kinds follow `TickKind` are 4 period streaks, 3
      half streaks and 24 plain ticks. */
  lemma KindsOfThirtyOne(ts: seq<TickMark>)
    requires |ts| == 31
    requires forall i :: 0 <= i < |ts| ==> ts[i].kind == TickKind(i)
    ensures CountKind(ts, PeriodStreak) == 4
    ensures CountKind(ts, HalfStreak) == 3
    ensures CountKind(ts, Tick) == 24
  {
    CountKindOfPrefix(ts, PeriodStreak);
    CountKindOfPrefix(ts, HalfStreak);
    CountKindOfPrefix(ts, Tick);
    KindsPerDecade(3, PeriodStreak);
    KindsPerDecade(3, HalfStreak);
    KindsPerDecade(3, Tick);
    assert TickKind(30) == PeriodStreak;
  }

  /** The 31 ticks are 4 period streaks, 3 half streaks and 24 plain ticks. */
  lemma TickLayoutKinds(start: real, end: real)
    ensures CountKind(TickLayout(start, end), PeriodStreak) == 4
    ensures CountKind(TickLayout(start, end), HalfStreak) == 3
    ensures CountKind(TickLayout(start, end), Tick) == 24
  {
    KindsOfThirtyOne(TickLayout(start, end));
  }


  /** The tick layer. */
  class TicksRC {
    const name: string
    const config: RouletteConfig
    const state: RouletteState
    var ticks: seq<TickMark>

    constructor (config: RouletteConfig, state: RouletteState)
      ensures this.config == config && this.state == state && name == "ticks" && ticks == []
    {
      name := "ticks";
      this.config := config;
      this.state := state;
      ticks := [];
    }

    /** Clears the ticks and lays out one per step over the state's interval. */
    method Init()
      modifies this
      ensures ticks == TickLayout(state.interval.Coords().0, state.interval.Coords().1)
    {
      ticks := [];
      var (start, end) := state.interval.Coords();
      var amount := 3 * 10;
      var step := (end - start) / amount as real;
      assert step == (end - start) / TickSteps as real;
      var i := 0;
      while i <= amount
        invariant 0 <= i <= amount + 1
        invariant |ticks| == i
        invariant forall j :: 0 <= j < i ==> ticks[j] == TickAt(start, end, j)
      {
        var tickType := if i % 10 == 0 then PeriodStreak else if i % 5 == 0 then HalfStreak else Tick;
        var tick := TickMark(start + step * i as real, tickType);
        assert tick == TickAt(start, end, i);
        ticks := ticks + [tick];
        i := i + 1;
      }
    }
  }

  /** The ruler facade. Its components and their asynchronous invalidation
      are not part of this model. */
  class Roulette {
    const config: RouletteConfig
    const state: RouletteState
    const ticks: TicksRC

    constructor (config: RouletteConfig)
      ensures this.config == config && fresh(state) && fresh(ticks)
      ensures state.interval == Interval(0.0, 0.0) && state.offset == 0.0 && state.factor == 1.0
      ensures ticks.state == state && ticks.config == config && ticks.ticks == []
    {
      this.config := config;
      var s := new RouletteState();
      state := s;
      ticks := new TicksRC(config, s);
    }

    method Shift(d: real)
      modifies state
      ensures state.interval == old(state.interval).Shift(d)
      ensures state.offset == old(state.offset) - d && state.factor == old(state.factor)
    {
      state.Shift(d);
    }

    /** Moves the interval start to `newShift`. */
    method MoveTo(newShift: real)
      modifies state
      ensures state.interval == Interval(newShift, old(state.interval.size))
      ensures state.interval.x + state.offset == old(state.interval.x + state.offset)
      ensures state.factor == old(state.factor)
    {
      Shift(newShift - state.interval.x);
    }

    method Scale(d: real)
      modifies state
      ensures state.factor == old(state.factor) * d
      ensures state.interval == old(state.interval) && state.offset == old(state.offset)
    {
      state.Zoom(d);
    }

    /** Moves to `newShift` and scales by the ratio of the new length to the
        size before the move. */
    method Zoom(newShift: real, newLength: real)
      requires state.interval.size != 0.0
      modifies state
      ensures state.interval == Interval(newShift, old(state.interval.size))
      ensures state.factor == old(state.factor) * (newLength / old(state.interval.size))
      ensures state.interval.x + state.offset == old(state.interval.x + state.offset)
    {
      var prevSize := state.interval.size;
      MoveTo(newShift);
      Scale(newLength / prevSize);
    }

    method Resize(size: real)
      modifies state
      ensures state.interval == old(state.interval).Resize(size)
      ensures state.offset == old(state.offset) && state.factor == old(state.factor)
    {
      state.Resize(size);
    }
  }
}
