/**
 * Runs of the lighting node from creation, written as clients of the class in
 * module LightNode: what a user, the viewer and the browser's timers see
 * follows from the node's method contracts alone.
 */
module NodeScenarios {
  import opened Wrappers
  import opened JsValues
  import opened SlotStore
  import opened ViewerProtocol
  import opened LightNode

  /** The node's widgets at their declared defaults. */
  const DefaultWidgets := Widgets(Some(Num(0.0)), Some(Num(30.0)), Some(Num(5.0)),
                                  Some(Str("#FFFFFF")), Some(Bool(true)))

  /**
   * Add a slot, turn the azimuth to 90, switch back to slot 0: slot 1 keeps the
   * edit and the widgets show slot 0 again.
   */
  method AddEditSwitch() returns (slots: seq<LightConfig>, active: int, shown: Widgets)
    ensures slots == [DefaultConfig, LightConfig(Num(90.0), Num(30.0), Num(5.0), Str("#FFFFFF"))]
    ensures active == 0
    ensures shown == DefaultWidgets
  {
    var node := new LightingNode(DefaultWidgets);
    node.AddNewConfig();
    node.OnWidgetChanged(LightAzimuth, Num(90.0));
    node.SwitchToConfig(0);
    slots, active, shown := node.configs, node.active, node.widgets;
  }

  /**
   * With three slots and slot 1 active, an azimuth edit not yet saved is lost
   * when slot 2 is removed: slot 1 is loaded back over it.
   */
  method RemoveDiscardsUnsavedEdit() returns (slots: seq<LightConfig>, active: int, shown: Widgets)
    ensures slots == [DefaultConfig, DefaultConfig]
    ensures active == 1
    ensures shown == DefaultWidgets
  {
    var node := new LightingNode(DefaultWidgets);
    node.AddNewConfig();
    node.AddNewConfig();
    node.SwitchToConfig(1);
    node.OnWidgetChanged(LightAzimuth, Num(90.0));
    node.RemoveConfig(2);
    slots, active, shown := node.configs, node.active, node.widgets;
  }

  /**
   * Two images arrive before the viewer is ready: only the second is delivered,
   * once, on `VIEWER_READY`, before `INIT`; a repeated `VIEWER_READY` sends `INIT`
   * again but no image; an image after readiness goes out at once.
   */
  method BufferedImage() returns (log: seq<Outgoing>)
    ensures log == [UpdateImage("second"), Init(ViewerStateOf(DefaultWidgets)),
                    Init(ViewerStateOf(DefaultWidgets)), UpdateImage("third")]
  {
    var node := new LightingNode(DefaultWidgets);
    node.SetViewerWindow(true);
    node.OnExecuted(Some("first"));
    node.OnExecuted(Some("second"));
    assert node.outbox == [] && node.pendingImage == Some("second");
    node.OnMessage(true, ViewerReady);
    node.OnMessage(true, ViewerReady);
    node.OnExecuted(Some("third"));
    log := node.outbox;
  }

  /**
   * Before `VIEWER_READY` nothing is synced; a message from another window is
   * ignored; after it, an `ANGLE_UPDATE` changes the widgets without any reply.
   */
  method AngleUpdateNoEcho() returns (log: seq<Outgoing>, shown: Widgets)
    ensures log == [Init(ViewerStateOf(DefaultWidgets))]
    ensures shown == DefaultWidgets.(azimuth := Some(Num(45.0)), elevation := Some(Num(10.0)), intensity := Some(Num(2.0)))
  {
    var node := new LightingNode(DefaultWidgets);
    node.SetViewerWindow(true);
    node.SyncTo3DView();
    node.OnMessage(false, ViewerReady);
    assert node.outbox == [] && !node.viewerReady;
    node.OnMessage(true, ViewerReady);
    node.OnMessage(true, AngleUpdate(Num(45.0), Num(10.0), Num(2.0)));
    log, shown := node.outbox, node.widgets;
  }

  /**
   * A sub-unit jitter starts no timer; a resize followed by three quick further
   * changes and a jitter leaves one timer, which posts one `RESIZE`.
   */
  method ResizeBurst() returns (log: seq<Outgoing>, last: ResizeState)
    ensures log == [Resize(322.0, 207.0)]
    ensures last == ResizeState(320.0, 205.0, false)
  {
    var node := new LightingNode(DefaultWidgets);
    node.SetViewerWindow(true);
    node.ObserveResize(0.5, 0.25);
    assert node.resize == InitialResize;
    node.ObserveResize(300.0, 200.0);
    node.ObserveResize(310.0, 200.0);
    node.ObserveResize(315.0, 203.0);
    node.ObserveResize(320.0, 205.0);
    node.ObserveResize(320.5, 205.5);
    node.FireResizeTimer(322.0, 207.0);
    log, last := node.outbox, node.resize;
  }

  /** Saving a node and restoring the result into a new node reproduces the slots and the active slot. */
  method SerializeThenConfigure(node: LightingNode, widgets: Widgets) returns (copy: LightingNode)
    requires node.Valid()
    modifies node
    ensures fresh(copy) && copy.Valid()
    ensures node.configs == SavedInto(old(node.configs), node.active, node.widgets) && node.active == old(node.active)
    ensures copy.configs == node.configs && copy.active == node.active
  {
    var data := node.Serialize();
    copy := new LightingNode(widgets);
    copy.Configure(data);
  }

  /** Restoring a save with no slots leaves a new node's single default slot in place. */
  method ConfigureEmpty(widgets: Widgets, index: Option<int>) returns (slots: seq<LightConfig>, active: int)
    ensures slots == [DefaultConfig] && active == 0
  {
    var node := new LightingNode(widgets);
    node.Configure(Persisted(Some([]), index));
    slots, active := node.configs, node.active;
  }
}
