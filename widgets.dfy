/** `ui.TradeableWidgets`: three ready-made direct views, each a fixed data
    map handed to `TradeableFlutterView`. */
module Widgets {
  import opened Values
  import FlutterViews
  import WrapperBridge

  /** A host callback the widgets accept; opaque. */
  datatype CallbackListener = CallbackListener(id: nat)

  /** `buildMap { put("type", "dashboard"); dateThreshold?.let { put("dateThreshold", it) } }`. */
  function DashboardData(dateThreshold: Option<int>): (r: Payload)
    ensures r.Keys == {"type"} + (if dateThreshold.Some? then {"dateThreshold"} else {})
    ensures AsString(r, "type") == Some("dashboard")
    ensures dateThreshold.Some? ==> AsInt(r, "dateThreshold") == dateThreshold
  {
    match dateThreshold
    case None => map["type" := Str("dashboard")]
    case Some(d) => map["type" := Str("dashboard"), "dateThreshold" := Int(d)]
  }

  function CourseCardData(courseId: string): (r: Payload)
    ensures r.Keys == {"type", "courseId"}
    ensures AsString(r, "type") == Some("course_card") && AsString(r, "courseId") == Some(courseId)
  {
    map["type" := Str("course_card"), "courseId" := Str(courseId)]
  }

  function LearnSheetData(pageId: Option<string>): (r: Payload)
    ensures r.Keys == {"type"} + (if pageId.Some? then {"pageId"} else {})
    ensures AsString(r, "type") == Some("learn_sheet")
    ensures pageId.Some? ==> AsString(r, "pageId") == pageId
  {
    match pageId
    case None => map["type" := Str("learn_sheet")]
    case Some(p) => map["type" := Str("learn_sheet"), "pageId" := Str(p)]
  }

  /** `TradeableDashboard` (height 300 by default): a direct view 400 wide with
      no topic id; its container sends ("direct", "", 400, height, 0), and its
      data keeps the type and the threshold exactly when one is given. */
  function Dashboard(height: real := 300.0, dateThreshold: Option<int> := None,
                     onCallback: Option<CallbackListener> := None): (r: FlutterViews.Rendering)
    ensures r.DirectRendering?
    ensures FlutterViews.ContainerViewState(r.prepared) == WrapperBridge.ViewState("direct", "", 400.0, height, 0)
    ensures AsString(r.prepared, "type") == Some("dashboard")
    ensures "dateThreshold" in r.prepared <==> dateThreshold.Some?
    ensures dateThreshold.Some? ==> AsInt(r.prepared, "dateThreshold") == dateThreshold
  {
    FlutterViews.Render(FlutterViews.Direct, 400.0, height, DashboardData(dateThreshold), None)
  }

  /** `TradeableCourseCard` (120 high and 200 wide by default): a direct view at
      the caller's size with exactly the type and course id on top of the
      prepared keys. */
  function CourseCard(courseId: string, height: real := 120.0, width: real := 200.0,
                      onCallback: Option<CallbackListener> := None): (r: FlutterViews.Rendering)
    ensures r.DirectRendering?
    ensures FlutterViews.ContainerViewState(r.prepared) == WrapperBridge.ViewState("direct", "", width, height, 0)
    ensures r.prepared.Keys == {"type", "courseId", "width", "height", "mode"}
    ensures AsString(r.prepared, "courseId") == Some(courseId)
  {
    FlutterViews.Render(FlutterViews.Direct, width, height, CourseCardData(courseId), None)
  }

  /** `TradeableLearnSheet` (height 200 by default): a direct view 400 wide
      whose data keeps the type and the page id exactly when one is given. */
  function LearnSheet(pageId: Option<string> := None, height: real := 200.0,
                      onCallback: Option<CallbackListener> := None): (r: FlutterViews.Rendering)
    ensures r.DirectRendering?
    ensures FlutterViews.ContainerViewState(r.prepared) == WrapperBridge.ViewState("direct", "", 400.0, height, 0)
    ensures AsString(r.prepared, "type") == Some("learn_sheet")
    ensures "pageId" in r.prepared <==> pageId.Some?
    ensures pageId.Some? ==> AsString(r.prepared, "pageId") == pageId
  {
    FlutterViews.Render(FlutterViews.Direct, 400.0, height, LearnSheetData(pageId), None)
  }

  /** Called with no arguments, each widget renders at the composables'
      default sizes. */
  lemma DefaultSizes(courseId: string)
    ensures FlutterViews.ContainerViewState(Dashboard().prepared) == WrapperBridge.ViewState("direct", "", 400.0, 300.0, 0)
    ensures FlutterViews.ContainerViewState(CourseCard(courseId).prepared) == WrapperBridge.ViewState("direct", "", 200.0, 120.0, 0)
    ensures FlutterViews.ContainerViewState(LearnSheet().prepared) == WrapperBridge.ViewState("direct", "", 400.0, 200.0, 0)
    ensures FlutterViews.Render() == FlutterViews.DirectRendering(FlutterViews.PrepareData("direct", 320.0, 220.0, map[], None))
  {
  }

  /** No widget looks at `onCallback`. */
  lemma CallbackIsUnused(a: Option<CallbackListener>, b: Option<CallbackListener>, height: real, width: real,
                         dateThreshold: Option<int>, courseId: string, pageId: Option<string>)
    ensures Dashboard(height, dateThreshold, a) == Dashboard(height, dateThreshold, b)
    ensures CourseCard(courseId, height, width, a) == CourseCard(courseId, height, width, b)
    ensures LearnSheet(pageId, height, a) == LearnSheet(pageId, height, b)
  {
  }
}
