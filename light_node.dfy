/**
 * The lighting node as the browser extension sets it up when the node is
 * created: the slot store (`_lightConfigs`, `_activeConfigIndex`), the widgets it
 * is bound to, the readiness flag and one-slot image buffer of the viewer
 * protocol, the messages posted to the viewer, the resize observer's state and
 * the timers the node starts. Timers are explicit tick methods; the browser,
 * the viewer and the user are the callers of the methods marked as events.
 */
module LightNode {
  import opened Wrappers
  import opened JsValues
  import opened SlotStore
  import opened ViewerProtocol

  class LightingNode {
    /** `node._lightConfigs` */
    var configs: seq<LightConfig>
    /** `node._activeConfigIndex` */
    var active: int
    /** The named widgets among `node.widgets` */
    var widgets: Widgets
    /** `node._viewerReady` */
    var viewerReady: bool
    /** The image captured by `node._pendingImageSend`, when that closure is set */
    var pendingImage: Option<string>
    /** Whether `iframe.contentWindow` exists */
    var viewerWindow: bool
    /** Every `postMessage` to the viewer, oldest first */
    var outbox: seq<Outgoing>
    /** The resize observer's `lastSize` and `resizeTimeout` */
    var resize: ResizeState
    /** Timers started by `loadConfig` (`setTimeout(syncTo3DView, 50)`) that have not fired yet */
    var scheduledSyncs: nat
    /** Whether `onRemoved` ran: the message listener and resize observer are gone */
    var detached: bool

    /** At least one slot exists, and no image waits once the viewer is ready. */
    ghost predicate Valid()
      reads this
    {
      |configs| >= 1 && (viewerReady ==> pendingImage == None)
    }

    predicate ActiveInBounds()
      reads this
    {
      0 <= active < |configs|
    }

    /** The existing widgets show the active slot's stored values. */
    predicate WidgetsShowActive()
      reads this
    {
      ActiveInBounds() && Shows(widgets, configs[active])
    }

    /** `onNodeCreated`: one default slot, slot 0 active, viewer not ready, nothing sent. */
    constructor (initialWidgets: Widgets)
      ensures Valid() && ActiveInBounds()
      ensures configs == [DefaultConfig] && active == 0 && widgets == initialWidgets
      ensures !viewerReady && pendingImage == None && !viewerWindow && outbox == []
      ensures resize == InitialResize && scheduledSyncs == 0 && !detached
    {
      configs := [DefaultConfig];
      active := 0;
      widgets := initialWidgets;
      viewerReady := false;
      pendingImage := None;
      viewerWindow := false;
      outbox := [];
      resize := InitialResize;
      scheduledSyncs := 0;
      detached := false;
    }

    // ----- Slot store -----

    /** `saveCurrentConfig`: copies the existing widgets into the active slot, if it exists. */
    method SaveCurrentConfig()
      modifies this`configs
      ensures configs == SavedInto(old(configs), active, widgets)
    {
      if 0 <= active < |configs| {
        configs := configs[active := Captured(configs[active], widgets)];
      }
    }

    /** `loadConfig(index)`: copies the slot into the existing widgets and schedules a sync; nothing when the slot does not exist. */
    method LoadConfig(index: int)
      modifies this`widgets, this`scheduledSyncs
      ensures 0 <= index < |configs| ==>
        widgets == Loaded(old(widgets), configs[index]) && scheduledSyncs == old(scheduledSyncs) + 1
      ensures !(0 <= index < |configs|) ==>
        widgets == old(widgets) && scheduledSyncs == old(scheduledSyncs)
    {
      if 0 <= index < |configs| {
        widgets := Loaded(widgets, configs[index]);
        scheduledSyncs := scheduledSyncs + 1;
      }
    }

    /** `addNewConfig`: save the widgets, append a copy of the default slot, make it active and load it. */
    method AddNewConfig()
      requires Valid()
      modifies this`configs, this`active, this`widgets, this`scheduledSyncs
      ensures Valid() && ActiveInBounds() && WidgetsShowActive()
      ensures configs == SavedInto(old(configs), old(active), old(widgets)) + [DefaultConfig]
      ensures active == |configs| - 1
      ensures widgets == Loaded(old(widgets), DefaultConfig)
      ensures scheduledSyncs == old(scheduledSyncs) + 1
    {
      SaveCurrentConfig();
      configs := configs + [DefaultConfig];
      active := |configs| - 1;
      LoadConfig(active);
      LoadedShows(old(widgets), DefaultConfig);
    }

    /**
     * `removeConfig(index)`: nothing when at most one slot exists; otherwise the
     * slot is spliced out, the active index adjusted and the (new) active slot
     * loaded. The widgets are not saved first. The only caller passes an index
     * above 0: slot 0 has no close button.
     */
    method RemoveConfig(index: int)
      requires Valid() && index > 0
      modifies this`configs, this`active, this`widgets, this`scheduledSyncs
      ensures Valid()
      ensures |old(configs)| <= 1 ==>
        configs == old(configs) && active == old(active) && widgets == old(widgets) &&
        scheduledSyncs == old(scheduledSyncs)
      ensures |old(configs)| > 1 ==>
        && configs == RemovedAt(old(configs), index)
        && active == ActiveAfterRemove(old(active), |configs|, index)
        && (ActiveInBounds() ==>
              widgets == Loaded(old(widgets), configs[active]) && scheduledSyncs == old(scheduledSyncs) + 1)
        && (!ActiveInBounds() ==> widgets == old(widgets) && scheduledSyncs == old(scheduledSyncs))
      ensures old(ActiveInBounds()) ==> ActiveInBounds()
      ensures old(ActiveInBounds()) && |old(configs)| > 1 ==> WidgetsShowActive()
    {
      if |configs| <= 1 {
        return;
      }
      configs := RemovedAt(configs, index);
      if active >= |configs| {
        active := |configs| - 1;
      } else if active > index {
        active := active - 1;
      }
      LoadConfig(active);
      if ActiveInBounds() {
        LoadedShows(old(widgets), configs[active]);
      }
    }

    /**
     * `switchToConfig(index)`: nothing when `index` is already active; otherwise
     * save the widgets into the old active slot, activate `index`, load it and
     * push the widgets to the viewer.
     */
    method SwitchToConfig(index: int)
      requires Valid()
      modifies this`configs, this`active, this`widgets, this`scheduledSyncs, this`outbox
      ensures Valid()
      ensures index == old(active) ==>
        configs == old(configs) && widgets == old(widgets) && active == old(active) &&
        scheduledSyncs == old(scheduledSyncs) && outbox == old(outbox)
      ensures index != old(active) ==>
        && configs == SavedInto(old(configs), old(active), old(widgets))
        && active == index
        && (0 <= index < |configs| ==>
              widgets == Loaded(old(widgets), old(configs)[index]) && scheduledSyncs == old(scheduledSyncs) + 1)
        && (!(0 <= index < |configs|) ==> widgets == old(widgets) && scheduledSyncs == old(scheduledSyncs))
        && outbox == old(outbox) + SyncPost(viewerReady, viewerWindow, widgets)
      ensures index != old(active) && 0 <= index < |configs| ==> WidgetsShowActive()
    {
      if index == active {
        return;
      }
      SaveCurrentConfig();
      SavedIntoOnlyActive(old(configs), old(active), old(widgets));
      active := index;
      LoadConfig(index);
      if 0 <= index < |configs| {
        LoadedShows(old(widgets), configs[index]);
      }
      SyncTo3DView();
    }

    // ----- Viewer protocol -----

    /** `syncTo3DView`: posts the widgets as `SYNC_ANGLES` when the viewer is ready and its window exists. */
    method SyncTo3DView()
      modifies this`outbox
      ensures outbox == old(outbox) + SyncPost(viewerReady, viewerWindow, widgets)
    {
      if viewerReady && viewerWindow {
        outbox := outbox + [SyncAngles(ViewerStateOf(widgets))];
      }
    }

    /** Timer tick: one of the syncs `loadConfig` scheduled fires. */
    method FireScheduledSync()
      requires scheduledSyncs > 0
      modifies this`scheduledSyncs, this`outbox
      ensures scheduledSyncs == old(scheduledSyncs) - 1
      ensures outbox == old(outbox) + SyncPost(viewerReady, viewerWindow, widgets)
    {
      scheduledSyncs := scheduledSyncs - 1;
      SyncTo3DView();
    }

    /** Event: the user changed widget `name` (the host then calls `onWidgetChanged`). */
    method OnWidgetChanged(name: WidgetName, v: Value)
      modifies this`widgets, this`outbox
      ensures widgets == Edited(old(widgets), name, v)
      ensures IsLightingWidget(name) ==> outbox == old(outbox) + SyncPost(viewerReady, viewerWindow, widgets)
      ensures !IsLightingWidget(name) ==> outbox == old(outbox)
    {
      widgets := Edited(widgets, name, v);
      if IsLightingWidget(name) {
        SyncTo3DView();
      }
    }

    /** Event: the iframe's window appears or goes (`iframe.contentWindow`). */
    method SetViewerWindow(present: bool)
      modifies this`viewerWindow
      ensures viewerWindow == present
    {
      viewerWindow := present;
    }

    /**
     * Event: a `message` event. It is handled only when its source is the
     * viewer's own window (`fromViewer`, which that window must exist for) and
     * the listener is still registered. `VIEWER_READY` marks the viewer ready,
     * flushes and drops a buffered image, then posts `INIT`; `ANGLE_UPDATE`
     * writes the three angles into the widgets and posts nothing.
     */
    method OnMessage(fromViewer: bool, msg: Incoming)
      requires Valid()
      modifies this`viewerReady, this`pendingImage, this`outbox, this`widgets
      ensures Valid()
      ensures !(fromViewer && viewerWindow && !detached) || msg.Unrecognised? ==>
        viewerReady == old(viewerReady) && pendingImage == old(pendingImage) &&
        outbox == old(outbox) && widgets == old(widgets)
      ensures fromViewer && viewerWindow && !detached && msg.ViewerReady? ==>
        && viewerReady && pendingImage == None && widgets == old(widgets)
        && outbox == old(outbox) + FlushPost(viewerWindow, old(pendingImage)) + [Init(ViewerStateOf(widgets))]
      ensures fromViewer && viewerWindow && !detached && msg.AngleUpdate? ==>
        && widgets == AngleApplied(old(widgets), msg.horizontal, msg.vertical, msg.zoom)
        && viewerReady == old(viewerReady) && pendingImage == old(pendingImage) && outbox == old(outbox)
    {
      if !(fromViewer && viewerWindow && !detached) {
        return;
      }
      match msg
      case ViewerReady =>
        viewerReady := true;
        if pendingImage.Some? {
          if viewerWindow {
            outbox := outbox + [UpdateImage(pendingImage.value)];
          }
          pendingImage := None;
        }
        outbox := outbox + [Init(ViewerStateOf(widgets))];
      case AngleUpdate(h, v, z) =>
        widgets := AngleApplied(widgets, h, v, z);
      case Unrecognised =>
    }

    /**
     * Event: `onExecuted` with the first entry of `message.image_base64`, if any.
     * A non-empty image is sent at once when the viewer is ready, and otherwise
     * replaces whatever image was buffered.
     */
    method OnExecuted(image: Option<string>)
      requires Valid()
      modifies this`pendingImage, this`outbox
      ensures Valid()
      ensures image == None || image == Some("") ==>
        pendingImage == old(pendingImage) && outbox == old(outbox)
      ensures image.Some? && image.value != "" && viewerReady ==>
        pendingImage == old(pendingImage) && outbox == old(outbox) + ImagePost(viewerWindow, image.value)
      ensures image.Some? && image.value != "" && !viewerReady ==>
        pendingImage == image && outbox == old(outbox)
    {
      if image.Some? && image.value != "" {
        if viewerReady {
          if viewerWindow {
            outbox := outbox + [UpdateImage(image.value)];
          }
        } else {
          pendingImage := image;
        }
      }
    }

    // ----- Resize negotiation -----

    /** Event: the resize observer reports the iframe's new content size. */
    method ObserveResize(width: real, height: real)
      modifies this`resize
      ensures detached ==> resize == old(resize)
      ensures !detached ==> resize == Observe(old(resize), width, height)
    {
      if detached {
        return;
      }
      if Abs(width - resize.lastWidth) < 1.0 && Abs(height - resize.lastHeight) < 1.0 {
        return;
      }
      resize := ResizeState(width, height, true);
    }

    /** Timer tick: the resize debounce timer fires and posts the iframe's current size, if its window exists. */
    method FireResizeTimer(rectWidth: real, rectHeight: real)
      requires resize.timerPending
      modifies this`resize, this`outbox
      ensures resize == old(resize).(timerPending := false)
      ensures outbox == old(outbox) + (if viewerWindow then [Resize(rectWidth, rectHeight)] else [])
    {
      resize := resize.(timerPending := false);
      if viewerWindow {
        outbox := outbox + [Resize(rectWidth, rectHeight)];
      }
    }

    // ----- Persistence -----

    /** `serialize`: saves the widgets into the active slot, then hands out the slots and the active index. */
    method Serialize() returns (data: Persisted)
      requires Valid()
      modifies this`configs
      ensures Valid()
      ensures configs == SavedInto(old(configs), active, widgets)
      ensures data == Persisted(Some(configs), Some(active))
    {
      SaveCurrentConfig();
      data := Persisted(Some(configs), Some(active));
    }

    /**
     * `configure`: takes over a non-empty saved slot list with its index (0 when
     * absent, not clamped) and loads that slot; anything else leaves the store as it is.
     */
    method Configure(data: Persisted)
      requires Valid()
      modifies this`configs, this`active, this`widgets, this`scheduledSyncs
      ensures Valid()
      ensures !Restores(data) ==>
        configs == old(configs) && active == old(active) && widgets == old(widgets) &&
        scheduledSyncs == old(scheduledSyncs)
      ensures (configs, active) == RestoredStore(old(configs), old(active), data)
      ensures Restores(data) ==>
        && configs == data.lightConfigs.value
        && active == RestoredActive(data)
        && (ActiveInBounds() ==>
              widgets == Loaded(old(widgets), configs[active]) && scheduledSyncs == old(scheduledSyncs) + 1)
        && (!ActiveInBounds() ==> widgets == old(widgets) && scheduledSyncs == old(scheduledSyncs))
      ensures Restores(data) && ActiveInBounds() ==> WidgetsShowActive()
    {
      if data.lightConfigs.Some? && |data.lightConfigs.value| > 0 {
        configs := data.lightConfigs.value;
        active := data.activeConfigIndex.GetOr(0);
        LoadConfig(active);
        if ActiveInBounds() {
          LoadedShows(old(widgets), configs[active]);
        }
      }
    }

    /** The hidden `light_configs_json` widget's value: saves the widgets, then hands out the slot list. */
    method ConfigsWidgetValue() returns (slots: seq<LightConfig>)
      requires Valid()
      modifies this`configs
      ensures Valid()
      ensures configs == SavedInto(old(configs), active, widgets)
      ensures slots == configs && |slots| >= 1
    {
      SaveCurrentConfig();
      slots := configs;
    }

    /**
     * `onRemoved`: cancels the resize timer, drops a buffered image and
     * deregisters the listener and observer. The syncs `loadConfig` scheduled
     * are not cancelled.
     */
    method OnRemoved()
      requires Valid()
      modifies this`resize, this`pendingImage, this`detached
      ensures Valid()
      ensures resize == old(resize).(timerPending := false) && pendingImage == None && detached
    {
      resize := resize.(timerPending := false);
      pendingImage := None;
      detached := true;
    }
  }
}
