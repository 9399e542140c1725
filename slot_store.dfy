/**
 * The light-slot store of the lighting node: the slot record, the widgets a
 * slot is bound to, and the pure effect of saving widgets into a slot, loading
 * a slot into the widgets, removing a slot and restoring a saved store.
 * The class in module LightNode applies these to its fields.
 */
module SlotStore {
  import opened Wrappers
  import opened JsValues

  /** One light slot: `{azimuth, elevation, intensity, color}`. */
  datatype LightConfig = LightConfig(azimuth: Value, elevation: Value, intensity: Value, color: Value)

  /** The record a new slot starts with, and the node's first slot. */
  const DefaultConfig := LightConfig(Num(0.0), Num(30.0), Num(5.0), Str("#FFFFFF"))

  /**
   * The node's widgets that the extension looks up by name: `light_azimuth`,
   * `light_elevation`, `light_intensity`, `light_color_hex` and `cinematic_mode`.
   * Each may be missing.
   */
  datatype Widgets = Widgets(azimuth: Widget, elevation: Widget, intensity: Widget, color: Widget, cinematic: Widget)

  /** The name of a widget whose value changed; `OtherWidget` is any name but the five above. */
  datatype WidgetName = LightAzimuth | LightElevation | LightIntensity | LightColorHex | CinematicMode | OtherWidget

  /** The widget names whose change is pushed to the viewer. */
  predicate IsLightingWidget(name: WidgetName) {
    !name.OtherWidget?
  }

  /** The widgets after the user set widget `name` to `v`; other widgets' values are not tracked. */
  function Edited(w: Widgets, name: WidgetName, v: Value): Widgets {
    match name
    case LightAzimuth => w.(azimuth := Write(w.azimuth, v))
    case LightElevation => w.(elevation := Write(w.elevation, v))
    case LightIntensity => w.(intensity := Write(w.intensity, v))
    case LightColorHex => w.(color := Write(w.color, v))
    case CinematicMode => w.(cinematic := Write(w.cinematic, v))
    case OtherWidget => w
  }

  /** Both widget sets have the same widgets (the values may differ). */
  predicate SameWidgets(w1: Widgets, w2: Widgets) {
    && w1.azimuth.Some? == w2.azimuth.Some? && w1.elevation.Some? == w2.elevation.Some?
    && w1.intensity.Some? == w2.intensity.Some? && w1.color.Some? == w2.color.Some?
    && w1.cinematic.Some? == w2.cinematic.Some?
  }

  /** The widgets `w` that exist show the fields of `c`. */
  predicate Shows(w: Widgets, c: LightConfig) {
    && (w.azimuth.Some? ==> w.azimuth.value == c.azimuth)
    && (w.elevation.Some? ==> w.elevation.value == c.elevation)
    && (w.intensity.Some? ==> w.intensity.value == c.intensity)
    && (w.color.Some? ==> w.color.value == c.color)
  }

  /** The slot `c` after `saveCurrentConfig` copied the existing widgets into it. */
  function Captured(c: LightConfig, w: Widgets): LightConfig {
    LightConfig(Read(w.azimuth, c.azimuth), Read(w.elevation, c.elevation),
                Read(w.intensity, c.intensity), Read(w.color, c.color))
  }

  /** The widgets `w` after `loadConfig` copied slot `c` into those that exist. */
  function Loaded(w: Widgets, c: LightConfig): Widgets {
    w.(azimuth := Write(w.azimuth, c.azimuth), elevation := Write(w.elevation, c.elevation),
       intensity := Write(w.intensity, c.intensity), color := Write(w.color, c.color))
  }

  /** The slot list after `saveCurrentConfig` with active index `active`: no change when that slot does not exist. */
  function SavedInto(configs: seq<LightConfig>, active: int, w: Widgets): seq<LightConfig> {
    if 0 <= active < |configs| then configs[active := Captured(configs[active], w)] else configs
  }

  /** `configs.splice(index, 1)`: removes the slot at `index`, or nothing when there is none. */
  function RemovedAt(configs: seq<LightConfig>, index: nat): seq<LightConfig> {
    if index < |configs| then configs[..index] + configs[index + 1..] else configs
  }

  /** The active index after a removal left `newLength` slots. */
  function ActiveAfterRemove(active: int, newLength: nat, index: nat): int {
    if active >= newLength then newLength - 1
    else if active > index then active - 1
    else active
  }

  /** What `serialize` attaches to the saved node and `configure` reads back; either part may be absent. */
  datatype Persisted = Persisted(lightConfigs: Option<seq<LightConfig>>, activeConfigIndex: Option<int>)

  /** `configure` takes over the slots only when a non-empty list is present. */
  predicate Restores(data: Persisted) {
    data.lightConfigs.Some? && |data.lightConfigs.value| > 0
  }

  /**
   * The active index `configure` sets: `data._activeConfigIndex || 0`; an absent
   * index gives 0, and a present one is taken as it is (0 || 0 is 0), unclamped.
   */
  function RestoredActive(data: Persisted): int {
    data.activeConfigIndex.GetOr(0)
  }

  /**
   * The store `(slots, active index)` after `configure` read `data` into a node
   * whose store was `(configs, active)`: taken over only when `Restores(data)`.
   */
  function RestoredStore(configs: seq<LightConfig>, active: int, data: Persisted): (seq<LightConfig>, int) {
    if Restores(data) then (data.lightConfigs.value, RestoredActive(data)) else (configs, active)
  }

  // ----- Properties of saving and loading -----

  /**
   * Loading a slot makes every existing widget show it, creates or drops no
   * widget, and leaves the cinematic checkbox alone.
   */
  lemma LoadedShows(w: Widgets, c: LightConfig)
    ensures Shows(Loaded(w, c), c)
    ensures SameWidgets(Loaded(w, c), w)
    ensures Loaded(w, c).cinematic == w.cinematic
  {
  }

  /** Saving into a slot makes the slot agree with every existing widget. */
  lemma CapturedShows(c: LightConfig, w: Widgets)
    ensures Shows(w, Captured(c, w))
  {
  }

  /** A slot field whose widget is missing keeps its prior value when the widgets are saved into it. */
  lemma CapturedKeepsMissing(c: LightConfig, w: Widgets)
    ensures w.azimuth == None ==> Captured(c, w).azimuth == c.azimuth
    ensures w.elevation == None ==> Captured(c, w).elevation == c.elevation
    ensures w.intensity == None ==> Captured(c, w).intensity == c.intensity
    ensures w.color == None ==> Captured(c, w).color == c.color
  {
  }

  /** Saving widgets that already show the slot leaves the slot as it was. */
  lemma CapturedShown(c: LightConfig, w: Widgets)
    requires Shows(w, c)
    ensures Captured(c, w) == c
  {
  }

  /** Loading a slot that the widgets already show leaves the widgets as they were. */
  lemma LoadedShown(w: Widgets, c: LightConfig)
    requires Shows(w, c)
    ensures Loaded(w, c) == w
  {
  }

  /** Saving the widgets and loading the result back leaves the widgets as they were. */
  lemma {:induction false} CaptureThenLoad(c: LightConfig, w: Widgets)
    ensures Loaded(w, Captured(c, w)) == w
  {
    CapturedShows(c, w);
    LoadedShown(w, Captured(c, w));
  }

  /** Loading a slot and saving the widgets back into it leaves the slot as it was. */
  lemma LoadThenCapture(c: LightConfig, w: Widgets)
    ensures Captured(c, Loaded(w, c)) == c
  {
  }

  /** `saveCurrentConfig` rewrites at most the active slot, and leaves the list length as it was. */
  lemma SavedIntoOnlyActive(configs: seq<LightConfig>, active: int, w: Widgets)
    ensures |SavedInto(configs, active, w)| == |configs|
    ensures forall j :: 0 <= j < |configs| && j != active ==> SavedInto(configs, active, w)[j] == configs[j]
    ensures 0 <= active < |configs| ==> SavedInto(configs, active, w)[active] == Captured(configs[active], w)
  {
  }

  // ----- Properties of removal -----

  /** `splice(index, 1)` with an index in range drops exactly that slot and keeps the others in order. */
  lemma RemovedAtElements(configs: seq<LightConfig>, index: nat)
    requires index < |configs|
    ensures |RemovedAt(configs, index)| == |configs| - 1
    ensures forall j :: 0 <= j < index ==> RemovedAt(configs, index)[j] == configs[j]
    ensures forall j :: index <= j < |configs| - 1 ==> RemovedAt(configs, index)[j] == configs[j + 1]
  {
  }

  /** The index adjustment keeps an in-range active index in range of the shortened list. */
  lemma ActiveAfterRemoveInBounds(active: int, length: nat, index: nat)
    requires 0 <= active < length && length > 1
    ensures 0 <= ActiveAfterRemove(active, length - 1, index) < length - 1
  {
  }

  /**
   * Removing a slot other than the active one keeps the same slot active; removing
   * the active slot activates the slot that moves into its place, or the new last
   * slot when the removed one was last.
   */
  lemma ActiveAfterRemoveFollowsSlot(configs: seq<LightConfig>, active: nat, index: nat)
    requires active < |configs| && index < |configs| && |configs| > 1
    ensures var r := RemovedAt(configs, index);
            var a := ActiveAfterRemove(active, |r|, index);
            && 0 <= a < |r|
            && (active != index ==> r[a] == configs[active])
            && (active == index ==> a == if index < |r| then index else |r| - 1)
  {
    RemovedAtElements(configs, index);
  }

  // ----- Properties of persistence -----

  /**
   * What `serialize` saves from a node with widgets `w`, restored by `configure`
   * into any node, gives back that slot list and active index; once the active
   * slot is loaded into widgets of the same shape, they show exactly the light
   * `w` showed (the cinematic checkbox is not part of a slot and stays as it was).
   */
  lemma RestoreAfterSave(configs: seq<LightConfig>, active: int, w: Widgets,
                         priorConfigs: seq<LightConfig>, priorActive: int, w2: Widgets)
    requires 0 <= active < |configs| && SameWidgets(w, w2)
    ensures var saved := SavedInto(configs, active, w);
            var data := Persisted(Some(saved), Some(active));
            && RestoredStore(priorConfigs, priorActive, data) == (saved, active)
            && Loaded(w2, saved[active]) == w.(cinematic := w2.cinematic)
  {
  }
}
