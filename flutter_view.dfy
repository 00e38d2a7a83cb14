/** `ui.TradeableFlutterView`: the three display modes, the data each mode
    hands to Flutter, the intent extras of the fullscreen button, and the
    remembered state of `FlutterContainer` and of the card flip. Sizes given
    in `Dp` are `real`s. */
module FlutterViews {
  import opened Values
  import opened Engine
  import Lists
  import WrapperBridge
  import FlutterActivity

  datatype DisplayMode = Direct | CardFlip | Fullscreen

  /** The mode string each display mode puts in its data or intent. */
  function ModeName(mode: DisplayMode): (s: string)
    ensures mode == Direct <==> s == "direct"
    ensures mode == CardFlip <==> s == "card"
    ensures mode == Fullscreen <==> s == "fullscreen"
  {
    match mode
    case Direct => "direct"
    case CardFlip => "card"
    case Fullscreen => "fullscreen"
  }

  /** `prepareData`: the caller's data with width, height and mode written
      over it, and topicId written only when one is given. */
  function PrepareData(mode: string, width: real, height: real, data: Payload, topicId: Option<int>): (r: Payload)
    ensures r.Keys == data.Keys + {"width", "height", "mode"} + (if topicId.Some? then {"topicId"} else {})
    ensures r["width"] == Dbl(width) && r["height"] == Dbl(height) && r["mode"] == Str(mode)
    ensures topicId.Some? ==> r["topicId"] == Int(topicId.value)
    ensures topicId.None? && "topicId" in data ==> r["topicId"] == data["topicId"]
    ensures forall k :: k in data && k != "width" && k != "height" && k != "mode" && k != "topicId" ==> r[k] == data[k]
  {
    var finalData := data["width" := Dbl(width)]["height" := Dbl(height)]["mode" := Str(mode)];
    match topicId
    case Some(t) => finalData["topicId" := Int(t)]
    case None => finalData
  }

  /** What `FlutterContainer` sends: each entry read with `as?`, falling back to
      direct, "", 320, 220 and 0. */
  function ContainerViewState(initialData: Payload): (vs: WrapperBridge.ViewState)
    ensures vs.mode == OrElse(AsString(initialData, "mode"), "direct")
    ensures vs.text == OrElse(AsString(initialData, "text"), "")
    ensures vs.width == OrElse(AsDouble(initialData, "width"), 320.0)
    ensures vs.height == OrElse(AsDouble(initialData, "height"), 220.0)
    ensures vs.topicId == OrElse(AsInt(initialData, "topicId"), 0)
  {
    WrapperBridge.ViewState(
      OrElse(AsString(initialData, "mode"), "direct"),
      OrElse(AsString(initialData, "text"), ""),
      OrElse(AsDouble(initialData, "width"), 320.0),
      OrElse(AsDouble(initialData, "height"), 220.0),
      OrElse(AsInt(initialData, "topicId"), 0))
  }

  /** What `DirectView` sends itself: mode, width and height are cast with
      `as`, so they must be there with those types; text and topicId use `as?`. */
  function DirectViewState(prepared: Payload): (vs: WrapperBridge.ViewState)
    requires "mode" in prepared && prepared["mode"].Str?
    requires "width" in prepared && prepared["width"].Dbl?
    requires "height" in prepared && prepared["height"].Dbl?
    ensures Some(vs.mode) == AsString(prepared, "mode")
    ensures Some(vs.width) == AsDouble(prepared, "width") && Some(vs.height) == AsDouble(prepared, "height")
    ensures vs.text == OrElse(AsString(prepared, "text"), "")
    ensures vs.topicId == OrElse(AsInt(prepared, "topicId"), 0)
  {
    WrapperBridge.ViewState(prepared["mode"].s, OrElse(AsString(prepared, "text"), ""),
      prepared["width"].d, prepared["height"].d, OrElse(AsInt(prepared, "topicId"), 0))
  }

  /** A direct view sends its state twice, once itself and once through
      its container; on prepared data the two are the same state, which
      carries the given mode and sizes. */
  lemma DirectViewSendsSameStateTwice(mode: string, width: real, height: real, data: Payload, topicId: Option<int>)
    ensures var prepared := PrepareData(mode, width, height, data, topicId);
      && DirectViewState(prepared) == ContainerViewState(prepared)
      && ContainerViewState(prepared).mode == mode
      && ContainerViewState(prepared).width == width
      && ContainerViewState(prepared).height == height
      && (topicId.Some? ==> ContainerViewState(prepared).topicId == topicId.value)
  {
  }

  /** The view `TradeableFlutterView` composes for a mode: a direct view or a
      card over prepared data, or a button whose tap starts the fullscreen
      activity with the given extras. */
  datatype Rendering =
    | DirectRendering(prepared: Payload)
    | CardRendering(prepared: Payload)
    | FullscreenButton(extras: Payload)

  /** The types `putExtra` is called with; anything else is dropped. */
  predicate IsExtraValue(v: Value)
  {
    v.Str? || v.Int? || v.Dbl? || v.Bool?
  }

  /** The extras set before the data is copied. */
  function FixedFullscreenExtras(width: real, height: real, data: Payload, topicId: Option<int>): (r: Payload)
    ensures r.Keys == {"mode", "text", "topicId", "width", "height"}
    ensures r["mode"] == Str("fullscreen") && r["width"] == Dbl(width) && r["height"] == Dbl(height)
    ensures r["text"] == Str(OrElse(AsString(data, "text"), "Open Fullscreen"))
    ensures r["topicId"] == Int(OrElse(topicId, 0))
  {
    map["mode" := Str("fullscreen"),
        "text" := Str(OrElse(AsString(data, "text"), "Open Fullscreen")),
        "topicId" := Int(OrElse(topicId, 0)),
        "width" := Dbl(width),
        "height" := Dbl(height)]
  }

  /** The extras after the data entries of `done` have been copied over the
      fixed ones: a copied entry of an extra type wins, other entries are
      dropped. */
  function CopiedExtras(fixed: Payload, data: Payload, done: set<string>): Payload
    requires done <= data.Keys
  {
    map k | k in fixed.Keys + (set j | j in done && IsExtraValue(data[j])) ::
      if k in done && IsExtraValue(data[k]) then data[k] else fixed[k]
  }

  /** Copying one more entry adds it when it has an extra type and changes
      nothing otherwise. */
  lemma CopiedExtrasStep(fixed: Payload, data: Payload, done: set<string>, key: string)
    requires done <= data.Keys && key in data && key !in done
    ensures CopiedExtras(fixed, data, done + {key}) ==
      if IsExtraValue(data[key]) then CopiedExtras(fixed, data, done)[key := data[key]] else CopiedExtras(fixed, data, done)
  {
    var before := CopiedExtras(fixed, data, done);
    var after := CopiedExtras(fixed, data, done + {key});
    if IsExtraValue(data[key]) {
      assert after.Keys == before.Keys + {key};
    } else {
      assert after.Keys == before.Keys;
    }
  }

  /** All the extras of the fullscreen intent: a data entry of an extra type
      wins over the fixed extra of the same key, other entries are dropped. */
  function FullscreenExtras(width: real, height: real, data: Payload, topicId: Option<int>): (r: Payload)
    ensures r.Keys == FixedFullscreenExtras(width, height, data, topicId).Keys + (set k | k in data && IsExtraValue(data[k]))
    ensures forall k :: k in data && IsExtraValue(data[k]) ==> r[k] == data[k]
    ensures forall k :: k in r && !(k in data && IsExtraValue(data[k])) ==> r[k] == FixedFullscreenExtras(width, height, data, topicId)[k]
  {
    CopiedExtras(FixedFullscreenExtras(width, height, data, topicId), data, data.Keys)
  }

  /** The button's `onClick`: set the fixed extras, then `putExtra` each data
      entry of type String, Int, Double or Boolean, in the map's iteration
      order; the keys are distinct, so the order does not matter. */
  method CopyFullscreenExtras(width: real, height: real, data: Payload, topicId: Option<int>) returns (extras: Payload)
    ensures extras == FullscreenExtras(width, height, data, topicId)
  {
    var fixed := FixedFullscreenExtras(width, height, data, topicId);
    extras := fixed;
    var remaining := data.Keys;
    assert extras == CopiedExtras(fixed, data, {});
    while remaining != {}
      invariant remaining <= data.Keys
      invariant extras == CopiedExtras(fixed, data, data.Keys - remaining)
      decreases remaining
    {
      var key :| key in remaining;
      CopiedExtrasStep(fixed, data, data.Keys - remaining, key);
      assert data.Keys - remaining + {key} == data.Keys - (remaining - {key});
      var value := data[key];
      if IsExtraValue(value) {
        extras := extras[key := value];
      }
      remaining := remaining - {key};
    }
    assert data.Keys - remaining == data.Keys;
  }

  /** What the activity reads from the button's extras: the caller's data
      overrides every fixed extra it supplies with the type the activity
      reads, and the fixed extras fill in the rest. */
  lemma FullscreenButtonLaunchArgs(width: real, height: real, data: Payload, topicId: Option<int>)
    ensures var args := FlutterActivity.ReadLaunchArgs(FullscreenExtras(width, height, data, topicId));
      && args.mode == OrElse(AsString(data, "mode"), "fullscreen")
      && args.text == OrElse(AsString(data, "text"), "Open Fullscreen")
      && args.topicId == (if "topicId" in data && data["topicId"].Int? then data["topicId"].i
                          else if "topicId" in data && IsExtraValue(data["topicId"]) then 0 else OrElse(topicId, 0))
      && args.width == (if "width" in data && data["width"].Dbl? then data["width"].d
                        else if "width" in data && IsExtraValue(data["width"]) then 0.0 else width)
      && args.height == (if "height" in data && data["height"].Dbl? then data["height"].d
                         else if "height" in data && IsExtraValue(data["height"]) then 0.0 else height)
  {
    var fixed := FixedFullscreenExtras(width, height, data, topicId);
    var extras := FullscreenExtras(width, height, data, topicId);
    assert "mode" in extras && "text" in extras && "topicId" in extras && "width" in extras && "height" in extras;
  }

  /** `TradeableFlutterView`: the `when (mode)` dispatch, with the composable's
      defaults (direct, 320 by 220, no data, no topic id). */
  function Render(mode: DisplayMode := Direct, width: real := 320.0, height: real := 220.0,
                  data: Payload := map[], topicId: Option<int> := None): (r: Rendering)
    ensures mode == Direct <==> r.DirectRendering?
    ensures mode == CardFlip <==> r.CardRendering?
    ensures mode == Fullscreen <==> r.FullscreenButton?
    ensures !r.FullscreenButton? ==> r.prepared == PrepareData(ModeName(mode), width, height, data, topicId)
    ensures r.FullscreenButton? ==> r.extras == FullscreenExtras(width, height, data, topicId)
  {
    match mode
    case Direct => DirectRendering(PrepareData("direct", width, height, data, topicId))
    case CardFlip => CardRendering(PrepareData("card", width, height, data, topicId))
    case Fullscreen => FullscreenButton(FullscreenExtras(width, height, data, topicId))
  }

  /** The mode a container's data names, read as `initialData["mode"] as? String`. */
  predicate IsCardData(initialData: Payload)
  {
    AsString(initialData, "mode") == Some("card")
  }

  /** `FlutterContainer`: a close handler slot owner, one view, and an
      `isReady` flag that makes the state go out once per view. */
  class FlutterContainer {
    const initialData: Payload
    const onClose: Option<Handler>
    const bridge: WrapperBridge.FlutterBridge
    var flutterView: FlutterView?
    var isReady: bool

    constructor (initialData: Payload, onClose: Option<Handler>, bridge: WrapperBridge.FlutterBridge)
      ensures this.initialData == initialData && this.onClose == onClose && this.bridge == bridge
      ensures flutterView == null && !isReady
    {
      this.initialData := initialData;
      this.onClose := onClose;
      this.bridge := bridge;
      flutterView := null;
      isReady := false;
    }

    /** The `DisposableEffect` body: installs `onClose`, which may be `null`. */
    method Enter()
      requires bridge.Valid()
      modifies bridge`closeHandler
      ensures bridge.Valid() && bridge.closeHandler == onClose
    {
      bridge.SetupCloseHandler(onClose);
    }

    /** The `AndroidView` factory; a failed creation propagates and changes nothing. */
    method Factory() returns (r: Result<FlutterView, WrapperBridge.BridgeError>)
      requires bridge.Valid()
      modifies this`flutterView, bridge`flutterViews, bridge`trace
      ensures bridge.Valid()
      ensures r.Err? <==> old(bridge.flutterEngine) == null
      ensures r.Err? ==> flutterView == old(flutterView) && unchanged(bridge)
      ensures r.Ok? ==> flutterView == r.value && bridge.flutterViews == old(bridge.flutterViews) + [r.value]
      ensures isReady == old(isReady)
    {
      r := bridge.CreateFlutterView();
      if r.Ok? {
        flutterView := r.value;
      }
    }

    /** The `LaunchedEffect(flutterView)`: with a view and not yet ready, send
        the container's view state and become ready; otherwise send nothing. */
    method SendInitialState()
      requires bridge.Valid()
      modifies this`isReady, bridge`trace
      ensures bridge.Valid()
      ensures old(flutterView != null && !isReady) ==>
        isReady && bridge.trace == old(bridge.trace) + bridge.SetDataEffects(ContainerViewState(initialData))
      ensures !old(flutterView != null && !isReady) ==>
        isReady == old(isReady) && bridge.trace == old(bridge.trace)
      ensures flutterView != null ==> isReady
    {
      if flutterView != null && !isReady {
        var vs := ContainerViewState(initialData);
        bridge.SendViewState(vs.mode, vs.text, vs.width, vs.height, vs.topicId);
        isReady := true;
      }
    }

    /** `onDispose`: the handler slot is always cleared and the view and flag
        always reset, but the view is detached only in card mode. */
    method Dispose()
      requires bridge.Valid()
      modifies this`flutterView, this`isReady, bridge`closeHandler, bridge`flutterViews, bridge`trace
      ensures bridge.Valid()
      ensures bridge.closeHandler == None && flutterView == null && !isReady
      ensures old(flutterView) != null && IsCardData(initialData) ==>
        && bridge.flutterViews == Lists.RemoveFirst<FlutterView>(old(bridge.flutterViews), old(flutterView))
        && bridge.trace == old(bridge.trace) + [DetachFromEngine(old(flutterView))]
      ensures !(old(flutterView) != null && IsCardData(initialData)) ==>
        bridge.flutterViews == old(bridge.flutterViews) && bridge.trace == old(bridge.trace)
    {
      bridge.SetupCloseHandler(None);
      if flutterView != null {
        if IsCardData(initialData) {
          bridge.DetachView(flutterView);
        }
      }
      flutterView := null;
      isReady := false;
    }
  }

  /** Disposal detaches exactly the card views: the data of a direct view never
      names the mode "card", that of a card always does. */
  lemma OnlyCardsDetach(width: real, height: real, data: Payload, topicId: Option<int>)
    ensures IsCardData(PrepareData(ModeName(CardFlip), width, height, data, topicId))
    ensures !IsCardData(PrepareData(ModeName(Direct), width, height, data, topicId))
  {
  }

  /** `CardFlipView`'s `isFlipped`: the front shows until tapped; the back
      handler and the container's close both turn the card back. */
  class CardFlipState {
    var isFlipped: bool

    constructor ()
      ensures !isFlipped
    {
      isFlipped := false;
    }

    method TapFront()
      modifies this
      ensures isFlipped
    {
      isFlipped := true;
    }

    /** `BackHandler(enabled = isFlipped)`: only a flipped card handles back. */
    method Back() returns (handled: bool)
      modifies this
      ensures handled == old(isFlipped) && !isFlipped
    {
      handled := isFlipped;
      if isFlipped {
        isFlipped := false;
      }
    }

    method Close()
      modifies this
      ensures !isFlipped
    {
      isFlipped := false;
    }
  }
}
