/** The mouse-wheel and trackpad zoom controller of the contact map
    (`ContigMouseWheelZoom`). Each wheel event records a genomic anchor
    under the pointer, normalises the wheel delta and either zooms at once
    (trackpad) or adds the delta to an accumulator and re-arms a debounce
    timer (wheel). When that timer fires, the accumulated delta is settled
    into one animated change of resolution that keeps the anchored base pair
    under the pointer.

    The map, its view, its tile layers, the projection transform and the
    dimension holder are collaborators: what the controller reads from them
    is passed in (`MapHost`, `DimensionHolder`), and what it asks of the view
    is returned as a list of `ViewCall`s. Time is the parameter `now`
    (milliseconds); the two timers are the slots `settleTimer` and
    `trackpadTimer`. */
module WheelZoom {
  import opened Wrappers
  import opened ResolutionTable

  datatype Point = Point(x: real, y: real)
  datatype BinPair = BinPair(x: int, y: int)
  datatype BpPair = BpPair(x: int, y: int)
  datatype PixelPair = PixelPair(x: int, y: int)

  /** `WheelEvent.deltaMode` */
  datatype DeltaMode = DomDeltaPixel | DomDeltaLine | DomDeltaPage

  /** What the controller reads of a map browser event; `accepted` is the
      verdict of the interaction's `condition_` on it. */
  datatype MapBrowserEvent = MapBrowserEvent(
    accepted: bool,
    isWheel: bool,
    pixel: Point,
    coordinate: Point,
    deltaY: real,
    deltaMode: DeltaMode)

  /** Browser detection (`FIREFOX`, `DEVICE_PIXEL_RATIO`). */
  datatype Platform = Platform(firefox: bool, devicePixelRatio: real)

  /** A candidate layer with the properties the controller reads: whether it
      is a tile layer, its z-index, and its `pixelResolution` and
      `bpResolution` properties. */
  datatype TileLayer = TileLayer(isTileLayer: bool, zIndex: int, pixelResolution: real, bpResolution: nat)

  /** The dimension holder, known only through the contracts in ValidHolder. */
  datatype DimensionHolder = DimensionHolder(
    binsAtResolution: nat -> nat,
    clampBins: (BinPair, nat) -> BinPair,
    startBpOfBin: (int, nat) -> int,
    binContainingBp: (int, nat) -> int)

  /** What the controller assumes of the dimension holder: clamping lands in
      `[0, bins)` on both axes, and the first bp of a bin does not decrease as
      the bin grows. */
  ghost predicate ValidHolder(h: DimensionHolder) {
    && (forall b: BinPair, r: nat ::
          0 <= h.clampBins(b, r).x < h.binsAtResolution(r) && 0 <= h.clampBins(b, r).y < h.binsAtResolution(r))
    && (forall b1: int, b2: int, r: nat :: b1 <= b2 ==> h.startBpOfBin(b1, r) <= h.startBpOfBin(b2, r))
  }

  /** The view, as queried during one call. */
  datatype View = View(
    animating: bool,
    constrainResolution: bool,
    zoom: Option<real>,
    resolution: real,
    constrainedZoom: real -> real,
    resolutionForZoom: real -> real)

  /** What the controller reads from the map during one call: the view, the
      map size in pixels, `layer.getData(pixel)` and the transform from the
      view projection into a layer's projection. */
  datatype MapHost = MapHost(
    view: View,
    size: Point,
    hasDataAt: (TileLayer, Point) -> bool,
    toLayerProjection: (TileLayer, Point) -> Point)

  /** Where an animation is pinned: a fixed anchor coordinate, an explicit
      centre, or a centre computed from undefined table entries (NaN). */
  datatype AnimationTarget = AnchoredAt(anchor: Point) | CenteredAt(center: Point) | UndefinedCenter

  /** The requests the controller makes of the view. */
  datatype ViewCall =
    | CancelAnimations
    | BeginInteraction
    | AdjustZoom(delta: real, anchor: Option<Point>)
    | EndInteraction(direction: int, anchor: Option<Point>)
    | Animate(duration: int, resolution: real, target: AnimationTarget)

  /** A pending timer: when it was armed and its delay in milliseconds. */
  datatype Timer = Timer(armedAt: int, delay: int)

  /** The interaction mode the base interaction keeps; this controller only clears it. */
  datatype DeviceMode = Trackpad | Wheel

  /** Options inherited from the base interaction. */
  datatype Settings = Settings(
    deltaPerZoom: real,
    maxDelta: real,
    duration: int,
    timeout: int,
    trackpadEventGap: int,
    constrainResolution: bool,
    useAnchor: bool)

  ghost predicate ValidSettings(s: Settings) {
    s.deltaPerZoom > 0.0 && s.maxDelta >= 0.0 && s.timeout >= 0
  }

  /** The anchor snapshot: genomic anchor, map coordinate and pixel of the
      pointer, and the rounded centre pixel of the viewport. */
  datatype AnchorSnapshot = AnchorSnapshot(bps: BpPair, coord: Point, pixel: Point, centerPixel: PixelPair)

  /** The gesture accumulator. */
  datatype Gesture = Gesture(
    totalDelta: real,
    startTime: Option<int>,
    isTrackPad: Option<bool>,
    lastDelta: real,
    settleTimer: Option<Timer>,
    trackpadTimer: Option<Timer>)

  function Abs(x: real): real {
    if x < 0.0 then -x else x
  }

  /** `Math.round` */
  function Round(x: real): int {
    (x + 0.5).Floor
  }

  /** `clamp` of `ol/math`: `Math.min(Math.max(x, lo), hi)`. */
  function Clamp(x: real, lo: real, hi: real): real {
    var m := if x > lo then x else lo;
    if m < hi then m else hi
  }

  // ---------------------------------------------------------------------
  // Anchor capture

  /** The hovered layer: among the candidates (tile layers with data at the
      pixel), the one with the least z-index; the sort is stable, so among
      equal z-indices the first in the list. */
  function HoveredLayer(layers: seq<TileLayer>, candidate: TileLayer -> bool): (h: Option<nat>)
    ensures h.None? <==> forall j :: 0 <= j < |layers| ==> !candidate(layers[j])
    ensures h.Some? ==> h.value < |layers| && candidate(layers[h.value])
    ensures h.Some? ==> forall j :: 0 <= j < |layers| && candidate(layers[j]) ==>
                          layers[h.value].zIndex <= layers[j].zIndex
    ensures h.Some? ==> forall j :: 0 <= j < h.value && candidate(layers[j]) ==>
                          layers[h.value].zIndex < layers[j].zIndex
  {
    if layers == [] then None
    else
      var rest := HoveredLayer(layers[1..], candidate);
      if candidate(layers[0]) && (rest.None? || layers[0].zIndex <= layers[1 + rest.value].zIndex) then Some(0)
      else if rest.Some? then Some(1 + rest.value)
      else None
  }

  /** The bin pair under a layer coordinate: the coordinate divided by the
      layer's pixel resolution, x floored, y floored then negated (map y
      grows upwards, bin y downwards), clamped at the layer's bin
      resolution. */
  function AnchorBins(h: DimensionHolder, layer: TileLayer, c: Point): (b: BinPair)
    requires ValidHolder(h) && layer.pixelResolution > 0.0
    ensures 0 <= b.x < h.binsAtResolution(layer.bpResolution)
    ensures 0 <= b.y < h.binsAtResolution(layer.bpResolution)
  {
    var fixed := Point(c.x / layer.pixelResolution, c.y / layer.pixelResolution);
    h.clampBins(BinPair(fixed.x.Floor, -fixed.y.Floor), layer.bpResolution)
  }

  /** The genomic anchor: the first bp of each clamped bin. */
  function AnchorBps(h: DimensionHolder, layer: TileLayer, c: Point): BpPair
    requires ValidHolder(h) && layer.pixelResolution > 0.0
  {
    var b := AnchorBins(h, layer, c);
    BpPair(h.startBpOfBin(b.x, layer.bpResolution), h.startBpOfBin(b.y, layer.bpResolution))
  }

  /** A pointer further right (and further down on the map, where map y is
      smaller) never anchors to an earlier bp, as long as neither position is
      clamped. */
  lemma AnchorMonotone(h: DimensionHolder, layer: TileLayer, c1: Point, c2: Point)
    requires ValidHolder(h) && layer.pixelResolution > 0.0
    requires c1.x <= c2.x && c1.y >= c2.y
    requires forall b: BinPair :: 0 <= b.x < h.binsAtResolution(layer.bpResolution)
               && 0 <= b.y < h.binsAtResolution(layer.bpResolution)
               ==> h.clampBins(b, layer.bpResolution) == b
    requires var f1 := BinPair((c1.x / layer.pixelResolution).Floor, -(c1.y / layer.pixelResolution).Floor);
             var f2 := BinPair((c2.x / layer.pixelResolution).Floor, -(c2.y / layer.pixelResolution).Floor);
             var n := h.binsAtResolution(layer.bpResolution);
             0 <= f1.x < n && 0 <= f1.y < n && 0 <= f2.x < n && 0 <= f2.y < n
    ensures AnchorBps(h, layer, c1).x <= AnchorBps(h, layer, c2).x
    ensures AnchorBps(h, layer, c1).y <= AnchorBps(h, layer, c2).y
  {
    var pr := layer.pixelResolution;
    DivMonotone(c1.x, c2.x, pr);
    DivMonotone(c2.y, c1.y, pr);
    FloorMonotone(c1.x / pr, c2.x / pr);
    FloorMonotone(c2.y / pr, c1.y / pr);
  }

  lemma DivMonotone(a: real, b: real, k: real)
    requires a <= b && k > 0.0
    ensures a / k <= b / k
  {
    assert b / k - a / k == (b - a) / k;
  }

  lemma FloorMonotone(a: real, b: real)
    requires a <= b
    ensures a.Floor <= b.Floor
  {
  }

  /** The viewport centre pixel, `Math.round(size / 2)` on each axis. */
  function CenterPixel(size: Point): PixelPair {
    PixelPair(Round(size.x / 2.0), Round(size.y / 2.0))
  }

  /** The snapshot one event yields: present exactly when some tile layer has
      data under the pointer, holding the anchor read on the hovered layer,
      the event's coordinate and pixel, and the rounded viewport centre. */
  function CaptureAnchor(layers: seq<TileLayer>, h: DimensionHolder, host: MapHost, e: MapBrowserEvent)
    : (a: Option<AnchorSnapshot>)
    requires ValidHolder(h)
    requires forall l <- layers :: l.pixelResolution > 0.0
    ensures a.Some? <==> exists j :: 0 <= j < |layers| && layers[j].isTileLayer && host.hasDataAt(layers[j], e.pixel)
    ensures a.Some? ==> a.value.coord == e.coordinate && a.value.pixel == e.pixel
    ensures a.Some? ==> a.value.centerPixel == CenterPixel(host.size)
    // the genomic anchor is read on the hovered layer: the first bps of its
    // clamped, in-range bins at that layer's bp resolution
    ensures a.Some? ==>
              var hovered := HoveredLayer(layers, (l: TileLayer) => l.isTileLayer && host.hasDataAt(l, e.pixel));
              && hovered.Some?
              && var layer := layers[hovered.value];
                 var r := layer.bpResolution;
                 && a.value.bps == AnchorBps(h, layer, host.toLayerProjection(layer, e.coordinate))
                 && exists b: BinPair :: 0 <= b.x < h.binsAtResolution(r) && 0 <= b.y < h.binsAtResolution(r)
                      && a.value.bps == BpPair(h.startBpOfBin(b.x, r), h.startBpOfBin(b.y, r))
  {
    match HoveredLayer(layers, (l: TileLayer) => l.isTileLayer && host.hasDataAt(l, e.pixel))
    case None => None
    case Some(j) =>
      var layer := layers[j];
      var bps := AnchorBps(h, layer, host.toLayerProjection(layer, e.coordinate));
      Some(AnchorSnapshot(bps, e.coordinate, e.pixel, CenterPixel(host.size)))
  }

  // ---------------------------------------------------------------------
  // Delta normalisation, device classification, accumulation

  /** The normalised delta: `deltaY`, divided by the device pixel ratio on
      Firefox in pixel mode, multiplied by 40 in line mode. It is zero, or
      has the sign of `deltaY`. */
  function NormalizeDelta(e: MapBrowserEvent, p: Platform): (delta: real)
    requires p.devicePixelRatio > 0.0
    ensures delta == 0.0 <==> e.deltaY == 0.0
    ensures delta > 0.0 <==> e.deltaY > 0.0
    ensures e.deltaMode == DomDeltaLine ==> delta == 40.0 * e.deltaY
    ensures e.deltaMode == DomDeltaPage || (e.deltaMode == DomDeltaPixel && !p.firefox) ==> delta == e.deltaY
    ensures e.deltaMode == DomDeltaPixel && p.firefox ==> delta * p.devicePixelRatio == e.deltaY
  {
    var d := if p.firefox && e.deltaMode == DomDeltaPixel then e.deltaY / p.devicePixelRatio else e.deltaY;
    if e.deltaMode == DomDeltaLine then d * 40.0 else d
  }

  /** Device classification: recomputed as `|delta| < 4` when there is none
      yet or when more than `gap` ms passed since the gesture start,
      otherwise kept. */
  function ClassifyDevice(isTrackPad: Option<bool>, startTime: int, now: int, gap: int, delta: real): (trackpad: bool)
    ensures isTrackPad.None? || now - startTime > gap ==> (trackpad <==> Abs(delta) < 4.0)
    ensures isTrackPad.Some? && now - startTime <= gap ==> trackpad == isTrackPad.value
  {
    if isTrackPad.None? || now - startTime > gap then Abs(delta) < 4.0 else isTrackPad.value
  }

  /** The settle delay `max(timeout - (now - start), 0)`: never negative, at
      most `timeout` once `now` has reached the gesture start, and when
      positive the settle falls exactly `timeout` ms after the start. */
  function TimeLeft(timeout: int, now: int, startTime: int): (left: int)
    ensures left >= 0
    ensures timeout >= 0 && now >= startTime ==> left <= timeout
    ensures left == 0 <==> now - startTime >= timeout
    ensures left > 0 ==> now + left == startTime + timeout
  {
    var t := timeout - (now - startTime);
    if t > 0 then t else 0
  }

  /** The direction hint given when an interaction ends: the sign of the
      last delta, 0 when there was none. */
  function DirectionOf(lastDelta: real): (d: int)
    ensures d == 0 <==> lastDelta == 0.0
    ensures d == 1 <==> lastDelta > 0.0
    ensures d == -1 <==> lastDelta < 0.0
  {
    if lastDelta == 0.0 then 0 else if lastDelta > 0.0 then 1 else -1
  }

  /** One wheel event with a non-zero normalised delta, on the accumulator.
      Trackpad branch: the zoom is adjusted at once, the trackpad timer is
      re-armed and the gesture start moves to `now`. Wheel branch: the delta
      is added to the total and the settle timer re-armed. */
  function WheelStep(g: Gesture, s: Settings, delta: real, now: int, view: View, lastAnchor: Option<Point>)
    : (Gesture, seq<ViewCall>)
    requires ValidSettings(s)
  {
    var start := g.startTime.GetOr(now);
    var trackpad := ClassifyDevice(g.isTrackPad, start, now, s.trackpadEventGap, delta);
    if trackpad && !(view.constrainResolution || s.constrainResolution) then
      var opening := if g.trackpadTimer.Some? then []
                     else (if view.animating then [CancelAnimations] else []) + [BeginInteraction];
      (g.(startTime := Some(now), isTrackPad := Some(trackpad), lastDelta := delta,
          trackpadTimer := Some(Timer(now, s.timeout))),
       opening + [AdjustZoom(-delta / s.deltaPerZoom, lastAnchor)])
    else
      (g.(totalDelta := g.totalDelta + delta, startTime := Some(start), isTrackPad := Some(trackpad),
          lastDelta := delta, settleTimer := Some(Timer(now, TimeLeft(s.timeout, now, start)))),
       [])
  }

  /** Each branch of WheelStep keeps the other branch's state: the trackpad
      branch leaves the total and the settle timer alone, the wheel branch
      adds exactly `delta` and leaves the trackpad timer alone; both record
      `delta` as the last delta. */
  lemma WheelStepBranches(g: Gesture, s: Settings, delta: real, now: int, view: View, lastAnchor: Option<Point>)
    requires ValidSettings(s)
    ensures var (g', calls) := WheelStep(g, s, delta, now, view, lastAnchor);
            && g'.lastDelta == delta
            && g'.isTrackPad.Some?
            && (g'.isTrackPad.value && !(view.constrainResolution || s.constrainResolution) ==>
                  g'.totalDelta == g.totalDelta && g'.settleTimer == g.settleTimer
                  && g'.startTime == Some(now) && g'.trackpadTimer == Some(Timer(now, s.timeout))
                  && calls[|calls| - 1] == AdjustZoom(-delta / s.deltaPerZoom, lastAnchor)
                  // a trackpad gesture opens an interaction only when none is pending
                  && (BeginInteraction in calls <==> g.trackpadTimer.None?))
            && (!g'.isTrackPad.value || view.constrainResolution || s.constrainResolution ==>
                  g'.totalDelta == g.totalDelta + delta && g'.trackpadTimer == g.trackpadTimer
                  && calls == []
                  && g'.startTime == Some(g.startTime.GetOr(now))
                  && g'.settleTimer.Some? && g'.settleTimer.value.armedAt == now
                  && 0 <= g'.settleTimer.value.delay
                  && (now >= g'.startTime.value ==> g'.settleTimer.value.delay <= s.timeout))
  {
  }

  /** A normalised wheel input: its delta and its time. */
  datatype WheelInput = WheelInput(delta: real, now: int)

  /** The accumulator after a run of events; zero deltas leave it unchanged. */
  function RunWheel(g: Gesture, s: Settings, view: View, lastAnchor: Option<Point>, inputs: seq<WheelInput>): Gesture
    requires ValidSettings(s)
    decreases |inputs|
  {
    if inputs == [] then g
    else
      var next := if inputs[0].delta == 0.0 then g
                  else WheelStep(g, s, inputs[0].delta, inputs[0].now, view, lastAnchor).0;
      RunWheel(next, s, view, lastAnchor, inputs[1..])
  }

  function SumDeltas(inputs: seq<WheelInput>): real {
    if inputs == [] then 0.0 else inputs[0].delta + SumDeltas(inputs[1..])
  }

  /** Debounce collapsing: when every event takes the wheel branch (the view
      is resolution-constrained, or no event looks like a trackpad), the
      accumulated delta is the sum of all deltas, an existing gesture start
      is kept, and the one pending settle is the one armed by the last
      event. */
  lemma {:induction false} DebounceCollapses(g: Gesture, s: Settings, view: View, lastAnchor: Option<Point>,
                                             inputs: seq<WheelInput>)
    requires ValidSettings(s)
    requires view.constrainResolution || s.constrainResolution
             || (g.isTrackPad != Some(true) && forall i <- inputs :: i.delta == 0.0 || Abs(i.delta) >= 4.0)
    ensures var r := RunWheel(g, s, view, lastAnchor, inputs);
            && r.totalDelta == g.totalDelta + SumDeltas(inputs)
            && r.trackpadTimer == g.trackpadTimer
            && (g.startTime.Some? ==> r.startTime == g.startTime)
            && (inputs != [] && inputs[|inputs| - 1].delta != 0.0 ==>
                  r.startTime.Some? && r.settleTimer == Some(Timer(inputs[|inputs| - 1].now,
                    TimeLeft(s.timeout, inputs[|inputs| - 1].now, r.startTime.value))))
    decreases |inputs|
  {
    if inputs != [] {
      var i := inputs[0];
      var next := if i.delta == 0.0 then g else WheelStep(g, s, i.delta, i.now, view, lastAnchor).0;
      if i.delta != 0.0 {
        WheelStepBranches(g, s, i.delta, i.now, view, lastAnchor);
        assert next.isTrackPad != Some(true) || view.constrainResolution || s.constrainResolution;
      }
      DebounceCollapses(next, s, view, lastAnchor, inputs[1..]);
      if |inputs| == 1 && i.delta != 0.0 {
        assert RunWheel(next, s, view, lastAnchor, inputs[1..]) == next;
      }
    }
  }

  /** Trackpad gestures bypass the accumulator: on an unconstrained view, a
      run of small deltas (|delta| < 4) starting from a state not already
      classified as a wheel leaves the total and the settle timer untouched
      and ends classified as a trackpad, with the gesture start at the last
      event. */
  lemma {:induction false} TrackpadBypassesAccumulator(g: Gesture, s: Settings, view: View,
                                                       lastAnchor: Option<Point>, inputs: seq<WheelInput>)
    requires ValidSettings(s)
    requires !(view.constrainResolution || s.constrainResolution)
    requires g.isTrackPad != Some(false)
    requires forall i <- inputs :: Abs(i.delta) < 4.0
    ensures var r := RunWheel(g, s, view, lastAnchor, inputs);
            && r.totalDelta == g.totalDelta
            && r.settleTimer == g.settleTimer
            && r.isTrackPad != Some(false)
            && (inputs != [] && inputs[|inputs| - 1].delta != 0.0 ==>
                  r.isTrackPad == Some(true) && r.startTime == Some(inputs[|inputs| - 1].now))
    decreases |inputs|
  {
    if inputs != [] {
      var i := inputs[0];
      var next := if i.delta == 0.0 then g else WheelStep(g, s, i.delta, i.now, view, lastAnchor).0;
      assert i in inputs;
      TrackpadBypassesAccumulator(next, s, view, lastAnchor, inputs[1..]);
      if |inputs| == 1 && i.delta != 0.0 {
        assert RunWheel(next, s, view, lastAnchor, inputs[1..]) == next;
      }
    }
  }

  // ---------------------------------------------------------------------
  // Settling

  /** The zoom-level change of a settle: the total clamped to
      `±maxDelta * deltaPerZoom`, negated and divided by `deltaPerZoom`;
      collapsed to its sign when the resolution is constrained. Scrolling
      down (positive total) zooms out (negative change). */
  function ZoomDelta(totalDelta: real, maxDelta: real, deltaPerZoom: real, constrained: bool): (d: real)
    requires deltaPerZoom > 0.0 && maxDelta >= 0.0
    ensures !constrained ==> -maxDelta <= d <= maxDelta
    ensures constrained ==> d == -1.0 || d == 0.0 || d == 1.0
    ensures maxDelta > 0.0 ==> (d > 0.0 <==> totalDelta < 0.0) && (d < 0.0 <==> totalDelta > 0.0)
    ensures maxDelta == 0.0 ==> d == 0.0
    ensures !constrained && Abs(totalDelta) <= maxDelta * deltaPerZoom ==> d == -totalDelta / deltaPerZoom
    ensures !constrained && totalDelta >= maxDelta * deltaPerZoom ==> d == -maxDelta
    ensures !constrained && totalDelta <= -(maxDelta * deltaPerZoom) ==> d == maxDelta
  {
    var bound := maxDelta * deltaPerZoom;
    var c := Clamp(totalDelta, -bound, bound);
    var d := -c / deltaPerZoom;
    assert bound / deltaPerZoom == maxDelta;
    DivMonotone(-bound, c, deltaPerZoom);
    DivMonotone(c, bound, deltaPerZoom);
    assert -bound / deltaPerZoom == -maxDelta;
    if constrained then (if d != 0.0 then (if d > 0.0 then 1.0 else -1.0) else 0.0) else d
  }

  /** The centre of the view after a level-crossing settle: the stored bp
      anchor converted to bins at the new level's bin resolution, scaled by
      its pixel resolution with y negated, and shifted by the pixel offset
      between the captured centre and pointer at the new resolution. */
  function LevelCrossingCenter(h: DimensionHolder, a: AnchorSnapshot, binResolution: nat,
                               pixelResolution: real, resolution: real): Point
  {
    var binX := h.binContainingBp(a.bps.x, binResolution);
    var binY := h.binContainingBp(a.bps.y, binResolution);
    var dx := a.centerPixel.x as real - a.pixel.x;
    var dy := a.centerPixel.y as real - a.pixel.y;
    Point(binX as real * pixelResolution + dx * resolution, -(binY as real * pixelResolution) - dy * resolution)
  }

  /** The map coordinate shown at `pixel` by an unrotated view with the given
      centre, resolution and centre pixel (pixel y grows downwards). */
  function CoordinateAtPixel(center: Point, resolution: real, centerPixel: Point, pixel: Point): Point {
    Point(center.x + (pixel.x - centerPixel.x) * resolution, center.y - (pixel.y - centerPixel.y) * resolution)
  }

  /** Anchor invariance across a level change: once the view is centred as
      computed, the pointer shows the map position of the anchored bin at
      the new level, up to half a pixel from rounding the centre pixel
      (ScaleRoundTrip: reading bins back at that position gives the anchored
      bins). */
  lemma AnchorStaysUnderPointer(h: DimensionHolder, a: AnchorSnapshot, size: Point, binResolution: nat,
                                pixelResolution: real, resolution: real)
    requires a.centerPixel == CenterPixel(size) && resolution >= 0.0
    ensures var binX := h.binContainingBp(a.bps.x, binResolution);
            var binY := h.binContainingBp(a.bps.y, binResolution);
            var center := LevelCrossingCenter(h, a, binResolution, pixelResolution, resolution);
            var shown := CoordinateAtPixel(center, resolution, Point(size.x / 2.0, size.y / 2.0), a.pixel);
            && Abs(shown.x - binX as real * pixelResolution) <= resolution / 2.0
            && Abs(shown.y + binY as real * pixelResolution) <= resolution / 2.0
            && CoordinateAtPixel(center, resolution, Point(a.centerPixel.x as real, a.centerPixel.y as real), a.pixel)
               == Point(binX as real * pixelResolution, -(binY as real * pixelResolution))
  {
    HorizontalUnderPointer(h, a, size, binResolution, pixelResolution, resolution);
    VerticalUnderPointer(h, a, size, binResolution, pixelResolution, resolution);
  }

  lemma HorizontalUnderPointer(h: DimensionHolder, a: AnchorSnapshot, size: Point, binResolution: nat,
                               pixelResolution: real, resolution: real)
    requires a.centerPixel == CenterPixel(size) && resolution >= 0.0
    ensures var binX := h.binContainingBp(a.bps.x, binResolution);
            var center := LevelCrossingCenter(h, a, binResolution, pixelResolution, resolution);
            && Abs(CoordinateAtPixel(center, resolution, Point(size.x / 2.0, size.y / 2.0), a.pixel).x
                   - binX as real * pixelResolution) <= resolution / 2.0
            && CoordinateAtPixel(center, resolution, Point(a.centerPixel.x as real, a.centerPixel.y as real), a.pixel).x
               == binX as real * pixelResolution
  {
    var binX := h.binContainingBp(a.bps.x, binResolution);
    var pos := binX as real * pixelResolution;
    var center := LevelCrossingCenter(h, a, binResolution, pixelResolution, resolution);
    assert center.x == pos + (a.centerPixel.x as real - a.pixel.x) * resolution;
    AxisUnderPointer(pos, a.centerPixel.x, a.pixel.x, size.x / 2.0, resolution);
  }

  lemma VerticalUnderPointer(h: DimensionHolder, a: AnchorSnapshot, size: Point, binResolution: nat,
                             pixelResolution: real, resolution: real)
    requires a.centerPixel == CenterPixel(size) && resolution >= 0.0
    ensures var binY := h.binContainingBp(a.bps.y, binResolution);
            var center := LevelCrossingCenter(h, a, binResolution, pixelResolution, resolution);
            && Abs(CoordinateAtPixel(center, resolution, Point(size.x / 2.0, size.y / 2.0), a.pixel).y
                   + binY as real * pixelResolution) <= resolution / 2.0
            && CoordinateAtPixel(center, resolution, Point(a.centerPixel.x as real, a.centerPixel.y as real), a.pixel).y
               == -(binY as real * pixelResolution)
  {
    var binY := h.binContainingBp(a.bps.y, binResolution);
    var pos := binY as real * pixelResolution;
    var center := LevelCrossingCenter(h, a, binResolution, pixelResolution, resolution);
    assert center.y == -pos - (a.centerPixel.y as real - a.pixel.y) * resolution;
    AxisUnderPointer(pos, a.centerPixel.y, a.pixel.y, size.y / 2.0, resolution);
  }

  /** One axis of AnchorStaysUnderPointer: a centre offset from a position by
      the pixel distance between centre pixel and pointer brings that
      position back under the pointer, exactly for the rounded centre pixel
      and within half a pixel for the true one. */
  lemma AxisUnderPointer(pos: real, centerPixel: int, pixel: real, half: real, resolution: real)
    requires centerPixel == Round(half) && resolution >= 0.0
    ensures var c := pos + (centerPixel as real - pixel) * resolution;
            && c + (pixel - centerPixel as real) * resolution == pos
            && Abs(c + (pixel - half) * resolution - pos) <= resolution / 2.0
    ensures var c := -pos - (centerPixel as real - pixel) * resolution;
            && c - (pixel - centerPixel as real) * resolution == -pos
            && Abs(c - (pixel - half) * resolution + pos) <= resolution / 2.0
  {
    var cp := centerPixel as real;
    assert (cp - pixel) * resolution + (pixel - cp) * resolution == 0.0 by {
      assert (cp - pixel) * resolution + (pixel - cp) * resolution == (cp - pixel + pixel - cp) * resolution;
    }
    assert (cp - pixel) * resolution + (pixel - half) * resolution == (cp - half) * resolution by {
      assert (cp - pixel) * resolution + (pixel - half) * resolution == (cp - pixel + pixel - half) * resolution;
    }
    RoundingError(half, resolution);
  }

  /** A bin scaled to map units by a positive pixel resolution reads back as
      that bin, on the x axis and on the negated y axis. */
  lemma ScaleRoundTrip(b: int, k: real)
    requires k > 0.0
    ensures ((b as real * k) / k).Floor == b
    ensures -((-(b as real * k)) / k).Floor == b
  {
    assert (b as real * k) / k == b as real;
    assert (-(b as real * k)) / k == -(b as real);
  }

  /** `Math.round` moves a value by at most one half, and so a product by at
      most half the factor. */
  lemma RoundingError(x: real, k: real)
    requires k >= 0.0
    ensures Abs((Round(x) as real - x) * k) <= k / 2.0
  {
    RoundBounds(x);
    ProductBound(Round(x) as real - x, k);
  }

  lemma RoundBounds(x: real)
    ensures -0.5 < Round(x) as real - x <= 0.5
  {
  }

  lemma ProductBound(e: real, k: real)
    requires -0.5 <= e <= 0.5 && k >= 0.0
    ensures Abs(e * k) <= k / 2.0
  {
    if e >= 0.0 {
      assert e * k <= 0.5 * k;
    } else {
      assert (-e) * k <= 0.5 * k;
      assert e * k == -((-e) * k);
    }
  }

  /** The animation a settle requests when a complete anchor exists: the new
      zoom is constrained by the view and mapped to a resolution; both
      resolutions are looked up in the table; on the same level the anchor
      coordinate pins the zoom, across levels the view is re-centred from the
      stored bp anchor. */
  function SettleAnimation(a: AnchorSnapshot, zoomDelta: real, currentZoom: real, view: View,
                           ps: seq<real>, resolutions: seq<nat>, h: DimensionHolder, duration: int): ViewCall
    requires |resolutions| == |ps|
  {
    var newResolution := view.resolutionForZoom(view.constrainedZoom(currentZoom + zoomDelta));
    var oldLevel := CountAbove(ps, view.resolution);
    var newLevel := CountAbove(ps, newResolution);
    if newLevel == oldLevel then
      Animate(duration, newResolution, AnchoredAt(a.coord))
    else if newLevel < |ps| then
      Animate(duration, newResolution,
              CenteredAt(LevelCrossingCenter(h, a, resolutions[newLevel], ps[newLevel], newResolution)))
    else
      Animate(duration, newResolution, UndefinedCenter)
  }

  /** The worked scenario of a two-level zoom: table [64, 16, 4, 1] with bin
      sizes [1000, 250, 50, 10], view at resolution 16, two wheel deltas of
      -120 with 120 per zoom level and a limit of 2 levels. The zoom delta
      is +2; if the view maps that to resolution 1, the settle crosses from
      level 1 to level 3 and re-centres from the anchor at bin size 10. */
  lemma TwoLevelScenario(a: AnchorSnapshot, currentZoom: real, view: View, h: DimensionHolder, duration: int)
    requires view.resolution == 16.0
    requires view.resolutionForZoom(view.constrainedZoom(currentZoom + 2.0)) == 1.0
    ensures ZoomDelta(-120.0 + -120.0, 2.0, 120.0, false) == 2.0
    ensures SettleAnimation(a, 2.0, currentZoom, view, [64.0, 16.0, 4.0, 1.0], [1000, 250, 50, 10], h, duration)
            == Animate(duration, 1.0, CenteredAt(LevelCrossingCenter(h, a, 10, 1.0, 1.0)))
  {
    var ps := [64.0, 16.0, 4.0, 1.0];
    assert StrictlyDescending(ps);
    LevelOfEntryAndGap(ps, 1, 16.0);
    LevelOfEntryAndGap(ps, 3, 1.0);
  }

  // ---------------------------------------------------------------------
  // The controller

  class ContigMouseWheelZoom {
    const holder: DimensionHolder
    const resolutions: seq<nat>
    const pixelResolutionSet: seq<real>
    const layers: seq<TileLayer>
    const settings: Settings

    // the gesture accumulator
    var totalDelta: real
    var startTime: Option<int>
    var isTrackPad: Option<bool>
    var lastDelta: real
    var settleTimer: Option<Timer>
    var trackpadTimer: Option<Timer>
    var mode: Option<DeviceMode>
    /** Kept by the base interaction; this controller never assigns it. */
    var lastAnchor: Option<Point>

    // the anchor snapshot
    var lastMouseBps: Option<BpPair>
    var lastMouseCoord: Option<Point>
    var lastMousePixel: Option<Point>
    var lastCenterPixel: Option<PixelPair>

    ghost predicate Valid()
      reads this
    {
      && ValidHolder(holder)
      && ValidSettings(settings)
      && |resolutions| == |pixelResolutionSet|
      && StrictlyDescending(pixelResolutionSet)
      && (forall l <- layers :: l.pixelResolution > 0.0)
      && (settleTimer.Some? ==> settleTimer.value.delay >= 0)
      // the four anchor fields are written together
      && lastMouseCoord.Some? == lastMouseBps.Some?
      && lastMousePixel.Some? == lastMouseBps.Some?
      && lastCenterPixel.Some? == lastMouseBps.Some?
    }

    /** The accumulator as a value. */
    function GestureState(): Gesture
      reads this
    {
      Gesture(totalDelta, startTime, isTrackPad, lastDelta, settleTimer, trackpadTimer)
    }

    /** The anchor snapshot, when all of its parts are present. */
    function Snapshot(): Option<AnchorSnapshot>
      reads this
    {
      if lastMouseBps.Some? && lastCenterPixel.Some? && lastMousePixel.Some? && lastMouseCoord.Some? then
        Some(AnchorSnapshot(lastMouseBps.value, lastMouseCoord.value, lastMousePixel.value, lastCenterPixel.value))
      else None
    }

    constructor (holder: DimensionHolder, resolutions: seq<nat>, pixelResolutionSet: seq<real>,
                 layers: seq<TileLayer>, settings: Settings)
      requires ValidHolder(holder) && ValidSettings(settings)
      requires |resolutions| == |pixelResolutionSet| && StrictlyDescending(pixelResolutionSet)
      requires forall l <- layers :: l.pixelResolution > 0.0
      ensures Valid()
      ensures this.holder == holder && this.resolutions == resolutions
      ensures this.pixelResolutionSet == pixelResolutionSet && this.layers == layers && this.settings == settings
      ensures GestureState() == Gesture(0.0, None, None, 0.0, None, None)
      ensures mode.None? && lastAnchor.None? && Snapshot().None? && lastMouseBps.None?
    {
      this.holder := holder;
      this.resolutions := resolutions;
      this.pixelResolutionSet := pixelResolutionSet;
      this.layers := layers;
      this.settings := settings;
      totalDelta, startTime, isTrackPad, lastDelta := 0.0, None, None, 0.0;
      settleTimer, trackpadTimer, mode, lastAnchor := None, None, None, None;
      lastMouseBps, lastMouseCoord, lastMousePixel, lastCenterPixel := None, None, None, None;
    }

    /** `handleEvent`: returns whether the event propagates further, and the
        requests made of the view. */
    method HandleEvent(e: MapBrowserEvent, platform: Platform, host: MapHost, now: int)
      returns (propagate: bool, calls: seq<ViewCall>)
      requires Valid()
      requires platform.devicePixelRatio > 0.0
      modifies this
      ensures Valid()
      ensures mode == old(mode) && lastAnchor == old(lastAnchor)
      // events the condition rejects, and other event types, pass through untouched
      ensures !e.accepted || !e.isWheel ==> propagate && calls == [] && unchanged(this)
      ensures e.accepted && e.isWheel ==> !propagate
      // the anchor is captured before the delta is looked at
      ensures e.accepted && e.isWheel ==>
                var captured := CaptureAnchor(layers, holder, host, e);
                Snapshot() == if settings.useAnchor && captured.Some? then captured else old(Snapshot())
      // a zero delta changes nothing else
      ensures e.accepted && e.isWheel && NormalizeDelta(e, platform) == 0.0 ==>
                calls == [] && GestureState() == old(GestureState())
      ensures e.accepted && e.isWheel && NormalizeDelta(e, platform) != 0.0 ==>
                (GestureState(), calls)
                == WheelStep(old(GestureState()), settings, NormalizeDelta(e, platform), now, host.view, lastAnchor)
    {
      if !e.accepted || !e.isWheel {
        return true, [];
      }
      RecordAnchor(e, host);

      var delta := NormalizeDelta(e, platform);
      if delta == 0.0 {
        return false, [];
      }
      WheelStepBranches(GestureState(), settings, delta, now, host.view, lastAnchor);
      calls := Accumulate(delta, now, host.view);
      propagate := false;
    }

    /** The part of `handleEvent` after a non-zero delta: classification,
        then the trackpad or the wheel branch. */
    method Accumulate(delta: real, now: int, view: View) returns (calls: seq<ViewCall>)
      requires ValidSettings(settings)
      modifies this
      ensures mode == old(mode) && lastAnchor == old(lastAnchor)
      ensures lastMouseBps == old(lastMouseBps) && lastMouseCoord == old(lastMouseCoord)
      ensures lastMousePixel == old(lastMousePixel) && lastCenterPixel == old(lastCenterPixel)
      ensures GestureState() == WheelStep(old(GestureState()), settings, delta, now, view, lastAnchor).0
      ensures calls == WheelStep(old(GestureState()), settings, delta, now, view, lastAnchor).1
    {
      ghost var g0 := GestureState();
      ghost var trackpad := ClassifyDevice(g0.isTrackPad, g0.startTime.GetOr(now), now, settings.trackpadEventGap, delta);
      lastDelta := delta;

      if startTime.None? {
        startTime := Some(now);
      }
      if isTrackPad.None? || now - startTime.value > settings.trackpadEventGap {
        isTrackPad := Some(Abs(delta) < 4.0);
      }
      assert startTime == Some(g0.startTime.GetOr(now)) && isTrackPad == Some(trackpad);

      if isTrackPad.value && !(view.constrainResolution || settings.constrainResolution) {
        var opening: seq<ViewCall> := [];
        if trackpadTimer.None? {
          if view.animating {
            opening := [CancelAnimations];
          }
          opening := opening + [BeginInteraction];
        }
        trackpadTimer := Some(Timer(now, settings.timeout));
        calls := opening + [AdjustZoom(-delta / settings.deltaPerZoom, lastAnchor)];
        startTime := Some(now);
        return;
      }

      totalDelta := totalDelta + delta;
      var timeLeft := TimeLeft(settings.timeout, now, startTime.value);
      settleTimer := Some(Timer(now, timeLeft));
      calls := [];
    }

    /** `endInteraction_`, run when the trackpad timer fires: the slot is
        emptied, so the next trackpad gesture opens a new interaction, and the
        view ends the interaction in the direction of the last delta. */
    method TrackpadTimerFires() returns (calls: seq<ViewCall>)
      requires Valid() && trackpadTimer.Some?
      modifies this
      ensures Valid()
      ensures trackpadTimer.None?
      ensures GestureState() == old(GestureState()).(trackpadTimer := None)
      ensures mode == old(mode) && lastAnchor == old(lastAnchor) && Snapshot() == old(Snapshot())
      ensures lastMouseBps == old(lastMouseBps)
      ensures calls == [EndInteraction(DirectionOf(lastDelta), lastAnchor)]
    {
      trackpadTimer := None;
      calls := [EndInteraction(DirectionOf(lastDelta), lastAnchor)];
    }

    /** The anchor capture at the start of `handleEvent`: with anchoring on,
        the snapshot of the hovered tile layer replaces the stored one. */
    method RecordAnchor(e: MapBrowserEvent, host: MapHost)
      requires Valid()
      modifies this
      ensures Valid()
      ensures GestureState() == old(GestureState()) && mode == old(mode) && lastAnchor == old(lastAnchor)
      ensures var captured := CaptureAnchor(layers, holder, host, e);
              Snapshot() == if settings.useAnchor && captured.Some? then captured else old(Snapshot())
    {
      var hovered := HoveredLayer(layers, (l: TileLayer) => l.isTileLayer && host.hasDataAt(l, e.pixel));
      if hovered.Some? {
        var layer := layers[hovered.value];
        var bps := AnchorBps(holder, layer, host.toLayerProjection(layer, e.coordinate));
        if settings.useAnchor {
          lastMouseBps := Some(bps);
          lastMouseCoord := Some(e.coordinate);
          lastMousePixel := Some(e.pixel);
          lastCenterPixel := Some(CenterPixel(host.size));
        }
      }
    }

    /** `handleWheelZoom_`, run when the settle timer fires. */
    method Settle(host: MapHost) returns (calls: seq<ViewCall>)
      requires Valid()
      modifies this
      ensures Valid()
      ensures Snapshot() == old(Snapshot()) && lastAnchor == old(lastAnchor)
      ensures isTrackPad == old(isTrackPad) && lastDelta == old(lastDelta) && trackpadTimer == old(trackpadTimer)
      // a view without a zoom aborts before anything is reset
      ensures host.view.zoom.None? ==>
                calls == (if host.view.animating then [CancelAnimations] else [])
                && totalDelta == old(totalDelta) && startTime == old(startTime)
                && settleTimer == old(settleTimer) && mode == old(mode)
      // otherwise the gesture is reset whether or not an anchor exists
      ensures host.view.zoom.Some? ==>
                totalDelta == 0.0 && startTime.None? && settleTimer.None? && mode.None?
      ensures host.view.zoom.Some? ==>
                calls == (if host.view.animating then [CancelAnimations] else [])
                         + (if old(Snapshot()).None? then []
                            else [SettleAnimation(old(Snapshot()).value,
                                                  ZoomDelta(old(totalDelta), settings.maxDelta, settings.deltaPerZoom,
                                                            host.view.constrainResolution || settings.constrainResolution),
                                                  host.view.zoom.value, host.view, pixelResolutionSet, resolutions,
                                                  holder, settings.duration)])
    {
      var view := host.view;
      calls := if view.animating then [CancelAnimations] else [];
      var delta := ZoomDelta(totalDelta, settings.maxDelta, settings.deltaPerZoom,
                             view.constrainResolution || settings.constrainResolution);
      if view.zoom.None? {
        return;
      }
      var currentZoom := view.zoom.value;

      if lastMouseBps.Some? && lastCenterPixel.Some? && lastMousePixel.Some? && lastMouseCoord.Some? {
        var newZoom := view.constrainedZoom(currentZoom + delta);
        var newResolution := view.resolutionForZoom(newZoom);
        var oldLevel := LevelOf(pixelResolutionSet, view.resolution);
        var newLevel := LevelOf(pixelResolutionSet, newResolution);
        if newLevel != oldLevel {
          if newLevel < |pixelResolutionSet| {
            var anchor := Snapshot().value;
            var center := LevelCrossingCenter(holder, anchor, resolutions[newLevel],
                                              pixelResolutionSet[newLevel], newResolution);
            calls := calls + [Animate(settings.duration, newResolution, CenteredAt(center))];
          } else {
            calls := calls + [Animate(settings.duration, newResolution, UndefinedCenter)];
          }
        } else {
          calls := calls + [Animate(settings.duration, newResolution, AnchoredAt(lastMouseCoord.value))];
        }
      }

      mode := None;
      totalDelta := 0.0;
      startTime := None;
      settleTimer := None;
    }
  }
}
