# Qwen Multiangle Lightning node — a Dafny model

This project models the two parts of the ComfyUI "Qwen Multiangle Lightning" node that hold the logic:

- **The browser extension** (`web/js/qwen_camera.js`). It keeps a list of light slots. Each slot is
  `{azimuth, elevation, intensity, color}` and one slot is active. It saves the node's widgets into
  the active slot and loads a slot back into the widgets. It adds, removes and switches slots. It talks
  to the 3D viewer iframe through a small message protocol, with a readiness flag and a one-image
  buffer. It filters and debounces resize notifications. It persists the slots through
  `serialize`/`configure`. This part is the class `LightNode.LightingNode`, whose methods update its
  fields in place. Timers are explicit tick methods (`FireScheduledSync`, `FireResizeTimer`). Every
  `postMessage` to the viewer is appended to the `outbox` log. The pure effect of each store operation
  is a function in `SlotStore`, and the message payloads and the resize filter are in `ViewerProtocol`.
- **The Python node** (`nodes.py`). `_build_prompt` turns one light configuration into a relighting
  prompt: eight 45° direction sectors, five height bands, three intensity bands, a fixed preamble and
  an optional cinematic wrapper. `generate_lighting_prompt` maps it over the slot list that the
  extension stores in its hidden `light_configs_json` widget. This part is the module `LightingPrompt`.

Some representation choices:

- JavaScript values are the datatype `JsValues.Value`, with JavaScript truthiness, so that
  `widget?.value || default` is modelled as written.
- The node's widget set is `SlotStore.Widgets`, a record with one optional value for each of the five
  widgets the extension looks up by name. `None` means `node.widgets.find(...)` finds nothing.
- `iframe.contentWindow` is the boolean `viewerWindow`. A message event is the `Incoming` value it
  carries, plus whether its source is that window.
- Module `NodeScenarios` drives the class from creation through the user-visible runs the code
  describes. Examples are an unsaved edit being lost when another slot is removed, and a burst of
  images before the viewer is ready delivering only the last one.

## Model

| member | source | states |
|---|---|---|
| LightNode.LightingNode.constructor | web/js/qwen_camera.js:22-36 | a new node has exactly one slot, the default `{0, 30, 5.0, "#FFFFFF"}`; slot 0 is active; the viewer is not ready; no image is buffered and nothing is sent |
| LightNode.LightingNode.SaveCurrentConfig | web/js/qwen_camera.js:39-52 | the active slot takes the value of each widget that exists, and every other slot and field is unchanged; nothing happens when the active index has no slot |
| LightNode.LightingNode.LoadConfig | web/js/qwen_camera.js:55-71 | each widget that exists takes the slot's field and one delayed sync is scheduled; nothing happens when the index has no slot |
| LightNode.LightingNode.AddNewConfig | web/js/qwen_camera.js:74-79 | first saves the widgets into the old active slot, then appends exactly one default slot; the new last slot becomes active and the widgets show it |
| LightNode.LightingNode.RemoveConfig | web/js/qwen_camera.js:82-95 | no change with at most one slot; otherwise splices out the slot, then clamps the active index to the new last slot or decrements it if it was past the removed slot, and loads that slot; an in-bounds active index stays in bounds and the widgets then show the active slot; index 0 is excluded by the caller (close buttons exist only for `i > 0`, lines 207 and 227) |
| LightNode.LightingNode.SwitchToConfig | web/js/qwen_camera.js:98-105 | no change when the index is already active; otherwise the old active slot receives the pre-switch widgets, the index becomes active, the widgets show that slot and the widgets are synced to the viewer |
| LightNode.LightingNode.SyncTo3DView | web/js/qwen_camera.js:389-407 | posts exactly one `SYNC_ANGLES` with the widgets' payload when the viewer is ready and its window exists, and nothing otherwise |
| LightNode.LightingNode.FireScheduledSync | web/js/qwen_camera.js:70 | a timer scheduled by `loadConfig` runs `syncTo3DView` once |
| LightNode.LightingNode.OnWidgetChanged | web/js/qwen_camera.js:410-418 | after the widget's new value is set, a change to one of the five lighting widgets syncs the viewer, and a change to any other widget posts nothing |
| LightNode.LightingNode.OnMessage | web/js/qwen_camera.js:311-351 | a message not from the viewer's window changes nothing; `VIEWER_READY` sets the ready flag, flushes and drops the buffered image, then posts `INIT`; `ANGLE_UPDATE` writes only the three angle widgets and posts nothing; readiness implies an empty image buffer |
| LightNode.LightingNode.OnExecuted | web/js/qwen_camera.js:421-443 | a missing or empty image does nothing; once the viewer is ready the image is posted at once; before that it replaces any buffered image (last write wins, at most one pending) |
| LightNode.LightingNode.ObserveResize | web/js/qwen_camera.js:367-385 | a size within one unit of `lastSize` in both directions changes nothing; otherwise `lastSize` becomes the new size and the single debounce timer is (re)started |
| LightNode.LightingNode.FireResizeTimer | web/js/qwen_camera.js:355-364 | the debounce timer posts one `RESIZE` with the iframe's current size if the window exists, and clears the timer |
| LightNode.LightingNode.Serialize | web/js/qwen_camera.js:460-468 | saves the widgets into the active slot, then emits the slot list and the active index |
| LightNode.LightingNode.Configure | web/js/qwen_camera.js:471-487 | the new store is `RestoredStore` of the old store and the data: only a present non-empty slot list is taken over, with the saved index or 0 and no clamping, and that slot is loaded; anything else leaves the store untouched |
| LightNode.LightingNode.ConfigsWidgetValue | web/js/qwen_camera.js:447-457 | reading the hidden widget saves the widgets into the active slot and yields the whole (non-empty) slot list |
| LightNode.LightingNode.OnRemoved | web/js/qwen_camera.js:503-517 | cancels the resize timer, drops a buffered image and detaches the message and resize handlers |
| SlotStore.Captured | web/js/qwen_camera.js:48-51 | the slot after a save; specified by `CapturedShows`, `CapturedKeepsMissing`, `CapturedShown` and `LoadThenCapture` |
| SlotStore.Loaded | web/js/qwen_camera.js:64-67 | the widgets after a load; specified by `LoadedShows`, `LoadedShown` and `CaptureThenLoad` |
| SlotStore.SavedInto | web/js/qwen_camera.js:39-52 | the slot list after `saveCurrentConfig`; specified by `SavedIntoOnlyActive` |
| SlotStore.RemovedAt | web/js/qwen_camera.js:85 | the slot list after `splice(index, 1)`; specified by `RemovedAtElements` |
| SlotStore.ActiveAfterRemove | web/js/qwen_camera.js:88-92 | the adjusted active index; specified by `ActiveAfterRemoveInBounds` and `ActiveAfterRemoveFollowsSlot` |
| SlotStore.Restores | web/js/qwen_camera.js:477 | whether `configure` takes over the saved data; specified by `RestoreAfterSave` and `NodeScenarios.ConfigureEmpty` |
| SlotStore.RestoredActive | web/js/qwen_camera.js:479 | the restored index: the saved index, or 0 when it is absent or 0; specified by `RestoreAfterSave` |
| SlotStore.RestoredStore | web/js/qwen_camera.js:477-479 | the store after `configure`; specified by `RestoreAfterSave` and used by `LightNode.LightingNode.Configure` |
| SlotStore.LoadedShows | web/js/qwen_camera.js:55-67 | after a load every existing widget shows the slot; no widget is created or lost; the cinematic checkbox is untouched |
| SlotStore.CapturedShows | web/js/qwen_camera.js:39-51 | after a save the slot agrees with every existing widget |
| SlotStore.CapturedKeepsMissing | web/js/qwen_camera.js:48-51 | a slot field whose widget is missing keeps its prior value |
| SlotStore.CapturedShown | web/js/qwen_camera.js:39-51 | saving widgets that already show the slot leaves the slot unchanged |
| SlotStore.LoadedShown | web/js/qwen_camera.js:55-67 | loading a slot the widgets already show leaves the widgets unchanged |
| SlotStore.CaptureThenLoad | web/js/qwen_camera.js:39-67 | a save followed by a load of the same slot leaves the widgets as they were |
| SlotStore.LoadThenCapture | web/js/qwen_camera.js:39-67 | a load followed by a save into the same slot leaves the slot as it was |
| SlotStore.SavedIntoOnlyActive | web/js/qwen_camera.js:39-52 | a save changes at most the active slot and never the list length |
| SlotStore.RemovedAtElements | web/js/qwen_camera.js:85 | `splice(index, 1)` drops exactly the slot at `index` and keeps the others in order |
| SlotStore.ActiveAfterRemoveInBounds | web/js/qwen_camera.js:88-92 | the index adjustment keeps `0 <= active < length` |
| SlotStore.ActiveAfterRemoveFollowsSlot | web/js/qwen_camera.js:85-92 | removing another slot keeps the same slot active; removing the active slot activates its successor, or the new last slot |
| SlotStore.RestoreAfterSave | web/js/qwen_camera.js:460-481 | restoring what `serialize` saved, into a node with any prior store, gives back exactly the saved slot list and active index; loading the active slot into widgets of the same shape reproduces the saved node's four lighting widget values |
| ViewerProtocol.ViewerStateOf | web/js/qwen_camera.js:329-337 | the `INIT`/`SYNC_ANGLES` payload (built the same way at lines 398-406); specified by `PayloadFields`, `ZeroElevationSentAsThirty`, `CinematicFlagNotSent` and `ZeroAzimuthSentAsZero` |
| ViewerProtocol.AngleApplied | web/js/qwen_camera.js:344-346 | the widgets after `ANGLE_UPDATE`; specified by `AngleAppliedEffect` |
| ViewerProtocol.Observe | web/js/qwen_camera.js:374-384 | one resize-observer callback; specified through `ObserveAll` by `NoiseBurstIgnored` and `BurstLeavesOneTimer` |
| ViewerProtocol.ObserveAll | web/js/qwen_camera.js:369-385 | a run of resize-observer callbacks; specified by `NoiseBurstIgnored` and `BurstLeavesOneTimer` |
| ViewerProtocol.PayloadFields | web/js/qwen_camera.js:329-337 | each payload field is the widget's value when truthy and its default (0, 30, 5.0, `#FFFFFF`) when falsy or missing; `cameraView` is false |
| ViewerProtocol.ZeroElevationSentAsThirty | web/js/qwen_camera.js:332 | an elevation of 0 is sent as 30 |
| ViewerProtocol.CinematicFlagNotSent | web/js/qwen_camera.js:335 | `useDefaultPrompts` is `true` whatever the cinematic checkbox holds |
| ViewerProtocol.ZeroAzimuthSentAsZero | web/js/qwen_camera.js:331 | an azimuth of 0 and a missing azimuth widget both send 0 |
| ViewerProtocol.AngleAppliedEffect | web/js/qwen_camera.js:338-346 | `ANGLE_UPDATE` writes the three angles into the widgets that exist, creates none, and leaves colour and cinematic mode untouched |
| ViewerProtocol.NoiseBurstIgnored | web/js/qwen_camera.js:374-376 | any run of sub-unit changes relative to `lastSize` leaves the observer state unchanged and starts no timer |
| ViewerProtocol.BurstLeavesOneTimer | web/js/qwen_camera.js:374-384 | any run with at least one real change ends with one pending timer and `lastSize` within one unit of the last reported size |
| LightingPrompt.PositionDesc | nodes.py:72-79 | the direction text; specified by `PositionDescBySector`, `SectorsPartition` and `PositionDescSameIffSameSector` |
| LightingPrompt.ElevationDesc | nodes.py:82-86 | the height text; specified by `ElevationDescByBand` and `ElevationBandMonotone` |
| LightingPrompt.IntensityDesc | nodes.py:89-91 | the intensity text; specified by `IntensityDescByBand` and `IntensityBandMonotone` |
| LightingPrompt.ColorDesc | nodes.py:102 | `colored light (hex: <color>)`; its place in the prompt is stated by `PromptCarriesColor` |
| LightingPrompt.DetailPrompt | nodes.py:103 | the light description; specified by `CinematicWrapsPlain` |
| LightingPrompt.EntryPrompt | nodes.py:124-130 | the prompt of one slot with per-key fallback; specified by `FullEntryIgnoresWidgets` and `EmptyEntryUsesWidgets` |
| LightingPrompt.GeneratedPrompts | nodes.py:112-134 | the returned prompt list; specified by `GeneratedPromptsShape` and `GeneratedPromptsStartWithConstraints` |
| LightingPrompt.NormalizedAzimuth | nodes.py:71 | `azimuth % 360` lies in `[0, 360)` and differs from the azimuth by whole turns |
| LightingPrompt.Sector | nodes.py:72-79 | the sector index is one of eight |
| LightingPrompt.SectorsPartition | nodes.py:72-79 | every azimuth in `[0, 360)` lies in exactly one of the eight sectors: front is below 22.5 or from 337.5, the others 45° wide |
| LightingPrompt.PositionDescBySector | nodes.py:72-79 | the direction text is the text of the azimuth's sector |
| LightingPrompt.PositionTextsDistinct | nodes.py:72-79 | the eight direction texts are pairwise different |
| LightingPrompt.PositionDescSameIffSameSector | nodes.py:71-79 | two azimuths get the same direction text exactly when they fall in the same sector |
| LightingPrompt.ElevationBand | nodes.py:82-86 | the height band is one of five |
| LightingPrompt.ElevationDescByBand | nodes.py:82-86 | the height text is the text of the band at thresholds `<= -60`, `< -30`, `< 20`, `< 60` |
| LightingPrompt.ElevationBandMonotone | nodes.py:82-86 | a higher elevation never gets a lower band |
| LightingPrompt.IntensityBand | nodes.py:89-91 | the intensity band is one of three |
| LightingPrompt.IntensityDescByBand | nodes.py:89-91 | "soft ambient" below 3.0, "bright directional" below 7.0, else "strong dramatic contrast" |
| LightingPrompt.IntensityBandMonotone | nodes.py:89-91 | a higher intensity never gets a lower band |
| LightingPrompt.BuildPrompt | nodes.py:93-108 | every prompt starts with the scene-lock preamble |
| LightingPrompt.PromptCarriesColor | nodes.py:102-108 | every prompt contains `colored light (hex: <color>)` right after the intensity text |
| LightingPrompt.CinematicWrapsPlain | nodes.py:103-108 | the plain prompt is the preamble plus the description; the cinematic prompt wraps that description in the cinematic prefix and suffix |
| LightingPrompt.PromptPeriodic | nodes.py:71 | azimuths a whole number of turns apart give the same prompt |
| LightingPrompt.GenerateLightingPrompt | nodes.py:110-134 | the loop returns exactly `GeneratedPrompts`, the prompt list whose shape `GeneratedPromptsShape` states |
| LightingPrompt.SlotPromptsElements | nodes.py:123-131 | one prompt per slot, in slot order, each built from that slot |
| LightingPrompt.GeneratedPromptsShape | nodes.py:112-134 | one prompt per parsed slot when there is at least one; otherwise, for blank or unparsable input or an empty list, exactly one prompt from the widget values |
| LightingPrompt.GeneratedPromptsStartWithConstraints | nodes.py:93-134 | every generated prompt starts with the preamble |
| LightingPrompt.FullEntryIgnoresWidgets | nodes.py:124-130 | a slot with all four keys gives a prompt independent of the widget arguments |
| LightingPrompt.EmptyEntryUsesWidgets | nodes.py:124-130 | a slot with no keys falls back to every widget argument |
| NodeScenarios.AddEditSwitch | web/js/qwen_camera.js:74-105 | after adding a slot, editing the azimuth to 90 and switching back, slot 1 keeps the edit and the widgets show slot 0 |
| NodeScenarios.RemoveDiscardsUnsavedEdit | web/js/qwen_camera.js:82-95 | with slot 1 active, an unsaved azimuth edit is lost when slot 2 is removed, because slot 1 is loaded back over it |
| NodeScenarios.BufferedImage | web/js/qwen_camera.js:315-443 | of two images sent before readiness only the second is delivered, once, before `INIT`; a repeated `VIEWER_READY` sends `INIT` but no image; a later image goes out at once |
| NodeScenarios.AngleUpdateNoEcho | web/js/qwen_camera.js:311-390 | nothing is synced before readiness, a message from another window is ignored, and `ANGLE_UPDATE` changes the widgets without a reply |
| NodeScenarios.ResizeBurst | web/js/qwen_camera.js:367-385 | jitter starts no timer; a burst of real changes ends in a single `RESIZE` |
| NodeScenarios.SerializeThenConfigure | web/js/qwen_camera.js:460-487 | restoring what `serialize` produced into a new node reproduces the slots and the active index |
| NodeScenarios.ConfigureEmpty | web/js/qwen_camera.js:477 | restoring an empty slot list leaves a new node's single default slot active |

## Left out

- DOM construction, the tab bar, hover handlers, the canvas colour preview and the context-menu entry: these are presentation only. The tab bar's caller constraints are kept: only slots `i > 0` can be removed, and any tab can be switched to.
- The iframe and its Blob URL, `addEventListener`, `ResizeObserver`, `setTimeout`, `getBoundingClientRect` and `app.graph.setDirtyCanvas` are browser plumbing. They become the `viewerWindow` flag, the `outbox` log, tick methods and parameters. The viewer page `camera_viewer.js` is not part of this model.
- The host's own `onNodeCreated`, `serialize`, `configure`, `onExecuted`, `onWidgetChanged` and `onRemoved` chained by the overrides are not part of this model. The extra fields that the host's `serialize` writes are not modelled.
- Widgets other than the five named ones keep no value in the model (`OtherWidget`).
- JavaScript `null`, `NaN`, object and array values are not modelled: `Value` has `undefined`, numbers (any rational, so 45.5 is carried through widgets, slots and `ANGLE_UPDATE`), strings and booleans only.
- `serialize` hands out the live `_lightConfigs` array, so later edits show through the saved object, and `configure` adopts `data._lightConfigs` by reference (qwen_camera.js:478), so later edits show through the data it read. The model copies slot lists as values and does not capture either aliasing.
- LightNode.LightingNode.ConfigsWidgetValue: returns the slot list itself, where the hidden widget returns its `JSON.stringify` text (qwen_camera.js:452). The model does not capture the text encoding, in which a slot field holding `undefined` is dropped.
- `onRemoved` does not cancel the syncs that `loadConfig` scheduled; the model keeps them pending too. A message whose `source` is null while `contentWindow` is also null is treated as not from the viewer.
- `generate_lighting_prompt`'s image-to-PNG/base64 preview, `_compute_image_hash`, `_cache` and the node registration tables are foreign library calls or unused. `json.loads` is the input datatype `ConfigsInput`, which is blank, unparsable or a parsed list of partial slots.
- Falsy parsed JSON that is not a list (`null`, `0`, `false`, `""`, `{}`) fails `if configs:` (nodes.py:121) and yields the single widget prompt; the model expresses it as `Parsed([])`, which gives the same result. Truthy non-list JSON (a non-empty object, string or number) and list elements that are not objects are not modelled.
- The slot entry `LightingPrompt.ConfigEntry` holds an `int` azimuth and elevation, a `real` intensity and a `string` colour. The Python code also accepts other types there: a float or bool angle is reduced and compared, and a non-string colour is formatted by the f-string (nodes.py:71-102). An angle or intensity key holding `null` makes `%` or a comparison raise. The model's slot entries cannot express these inputs.
- Azimuth and elevation are integers in `LightingPrompt`, as the node declares them (nodes.py:27-32). Python's `%` with a positive divisor agrees with Dafny's.
- `removeConfig` does not itself refuse index 0; only the tab bar's missing close button protects slot 0 (qwen_camera.js:207, 227), which `RemoveConfig` takes as its precondition. `configure` does not clamp the restored index (qwen_camera.js:479). `removeConfig` does not save the widgets before removing, so an unsaved edit of the active slot is lost (`NodeScenarios.RemoveDiscardsUnsavedEdit`).
- The widget set is a record of five optional values, not a general map, because the extension only ever looks up these five names.
