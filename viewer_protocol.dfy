/**
 * The messages exchanged with the 3D viewer iframe, the payload the node
 * builds from its widgets, the widget writes an `ANGLE_UPDATE` makes, and the
 * noise filter and debounce state of the resize observer.
 */
module ViewerProtocol {
  import opened Wrappers
  import opened JsValues
  import opened SlotStore

  /** The payload of `INIT` and `SYNC_ANGLES`. */
  datatype ViewerState = ViewerState(
    horizontal: Value, vertical: Value, zoom: Value, lightColor: Value,
    useDefaultPrompts: Value, cameraView: bool)

  /** A message the node posts to the viewer. */
  datatype Outgoing =
    | Init(state: ViewerState)
    | SyncAngles(state: ViewerState)
    | UpdateImage(imageUrl: string)
    | Resize(width: real, height: real)

  /** The `data` of a message event, by its `type` field. */
  datatype Incoming =
    | ViewerReady
    | AngleUpdate(horizontal: Value, vertical: Value, zoom: Value)
    | Unrecognised

  /**
   * The payload built from the widgets, each field `widget?.value || default`:
   * a falsy or missing widget sends the default, so an elevation of 0 goes out as 30.
   */
  function ViewerStateOf(w: Widgets): ViewerState {
    ViewerState(
      Or(ValueOf(w.azimuth), Num(0.0)),
      Or(ValueOf(w.elevation), Num(30.0)),
      Or(ValueOf(w.intensity), Num(5.0)),
      Or(ValueOf(w.color), Str("#FFFFFF")),
      Or(ValueOf(w.cinematic), Bool(true)),
      false)
  }

  /** What `syncTo3DView` posts: one `SYNC_ANGLES` when the viewer is ready and its window exists, else nothing. */
  function SyncPost(ready: bool, window: bool, w: Widgets): seq<Outgoing> {
    if ready && window then [SyncAngles(ViewerStateOf(w))] else []
  }

  /** What the pending-image closure posts when it runs: its image, if the viewer window exists. */
  function ImagePost(window: bool, image: string): seq<Outgoing> {
    if window then [UpdateImage(image)] else []
  }

  /** What flushing the one-slot image buffer posts. */
  function FlushPost(window: bool, pending: Option<string>): seq<Outgoing> {
    match pending
    case Some(image) => ImagePost(window, image)
    case None => []
  }

  /** The widgets after an `ANGLE_UPDATE`: azimuth, elevation and intensity, where those widgets exist. */
  function AngleApplied(w: Widgets, horizontal: Value, vertical: Value, zoom: Value): Widgets {
    w.(azimuth := Write(w.azimuth, horizontal), elevation := Write(w.elevation, vertical),
       intensity := Write(w.intensity, zoom))
  }

  // ----- Properties of the payload -----

  /** A truthy widget value is sent as it is; a falsy or missing one is replaced by its default. */
  lemma PayloadFields(w: Widgets)
    ensures var s := ViewerStateOf(w);
            && (Truthy(ValueOf(w.azimuth)) ==> s.horizontal == w.azimuth.value)
            && (!Truthy(ValueOf(w.azimuth)) ==> s.horizontal == Num(0.0))
            && (Truthy(ValueOf(w.elevation)) ==> s.vertical == w.elevation.value)
            && (!Truthy(ValueOf(w.elevation)) ==> s.vertical == Num(30.0))
            && (Truthy(ValueOf(w.intensity)) ==> s.zoom == w.intensity.value)
            && (!Truthy(ValueOf(w.intensity)) ==> s.zoom == Num(5.0))
            && (Truthy(ValueOf(w.color)) ==> s.lightColor == w.color.value)
            && (!Truthy(ValueOf(w.color)) ==> s.lightColor == Str("#FFFFFF"))
            && s.cameraView == false
  {
  }

  /** An elevation of 0 reaches the viewer as 30, not as 0. */
  lemma ZeroElevationSentAsThirty(w: Widgets)
    requires w.elevation == Some(Num(0.0))
    ensures ViewerStateOf(w).vertical == Num(30.0)
  {
  }

  /** `useDefaultPrompts` is `true` whatever the cinematic checkbox holds, so the checkbox never reaches the viewer. */
  lemma CinematicFlagNotSent(w: Widgets, b: bool)
    ensures ViewerStateOf(w.(cinematic := Some(Bool(b)))).useDefaultPrompts == Bool(true)
    ensures ViewerStateOf(w.(cinematic := Some(Bool(b)))) == ViewerStateOf(w.(cinematic := Some(Bool(true))))
  {
  }

  /** An azimuth of 0 and a missing azimuth widget send the same horizontal angle, 0. */
  lemma ZeroAzimuthSentAsZero(w: Widgets)
    requires w.azimuth == Some(Num(0.0)) || w.azimuth == None
    ensures ViewerStateOf(w).horizontal == Num(0.0)
  {
  }

  // ----- Properties of ANGLE_UPDATE -----

  /**
   * An `ANGLE_UPDATE` writes the three angles into the widgets that exist,
   * creates no widget, and leaves the colour and the cinematic checkbox untouched.
   */
  lemma AngleAppliedEffect(w: Widgets, h: Value, v: Value, z: Value)
    ensures var r := AngleApplied(w, h, v, z);
            && SameWidgets(r, w)
            && (w.azimuth.Some? ==> r.azimuth == Some(h))
            && (w.elevation.Some? ==> r.elevation == Some(v))
            && (w.intensity.Some? ==> r.intensity == Some(z))
            && r.color == w.color && r.cinematic == w.cinematic
  {
  }

  // ----- The resize noise filter and debounce -----

  /** The closure state of the resize observer: `lastSize`, and whether a debounce timer is pending. */
  datatype ResizeState = ResizeState(lastWidth: real, lastHeight: real, timerPending: bool)

  const InitialResize := ResizeState(0.0, 0.0, false)

  function Abs(x: real): real {
    if x < 0.0 then -x else x
  }

  /** A new size less than one unit away from `lastSize` in both directions is noise. */
  predicate IsNoise(s: ResizeState, width: real, height: real) {
    Abs(width - s.lastWidth) < 1.0 && Abs(height - s.lastHeight) < 1.0
  }

  /** One observer callback: noise is ignored; otherwise `lastSize` is updated and the timer (re)started. */
  function Observe(s: ResizeState, width: real, height: real): ResizeState {
    if IsNoise(s, width, height) then s else ResizeState(width, height, true)
  }

  /** A run of observer callbacks, oldest first. */
  function ObserveAll(s: ResizeState, sizes: seq<(real, real)>): ResizeState
    decreases |sizes|
  {
    if sizes == [] then s
    else
      var last := sizes[|sizes| - 1];
      Observe(ObserveAll(s, sizes[..|sizes| - 1]), last.0, last.1)
  }

  /** A burst made only of noise relative to `lastSize` changes nothing: no timer, no new `lastSize`. */
  lemma {:induction false} NoiseBurstIgnored(s: ResizeState, sizes: seq<(real, real)>)
    requires forall k :: 0 <= k < |sizes| ==> IsNoise(s, sizes[k].0, sizes[k].1)
    ensures ObserveAll(s, sizes) == s
    decreases |sizes|
  {
    if sizes != [] {
      NoiseBurstIgnored(s, sizes[..|sizes| - 1]);
    }
  }

  /**
   * Any burst that is not all noise leaves exactly one timer pending, whatever
   * its length, and `lastSize` within one unit of the final observed size.
   */
  lemma {:induction false} BurstLeavesOneTimer(s: ResizeState, sizes: seq<(real, real)>, k: nat)
    requires k < |sizes| && !IsNoise(ObserveAll(s, sizes[..k]), sizes[k].0, sizes[k].1)
    ensures ObserveAll(s, sizes).timerPending
    ensures var last := sizes[|sizes| - 1];
            IsNoise(ObserveAll(s, sizes), last.0, last.1)
    decreases |sizes|
  {
    var last := sizes[|sizes| - 1];
    var before := ObserveAll(s, sizes[..|sizes| - 1]);
    if k < |sizes| - 1 {
      assert sizes[..|sizes| - 1][..k] == sizes[..k];
      BurstLeavesOneTimer(s, sizes[..|sizes| - 1], k);
    } else {
      assert sizes[..k] == sizes[..|sizes| - 1];
    }
  }
}
