/** `NavigationHandler`: a last-value container for the navigation request;
    every setter overwrites it and no history is kept. */
module NavigationHandlers {
  import opened Values

  /** `mapOf("route" to route, "arguments" to arguments)`. */
  function NavigateState(route: string, arguments: Payload): (r: Payload)
    ensures r.Keys == {"route", "arguments"}
    ensures AsString(r, "route") == Some(route) && r["arguments"] == KMap(arguments)
    ensures "action" !in r
  {
    map["route" := Str(route), "arguments" := KMap(arguments)]
  }

  /** `mapOf("action" to "replaceRoute", "route" to route, "arguments" to arguments)`. */
  function ReplaceRouteState(route: string, arguments: Payload): (r: Payload)
    ensures r.Keys == {"action", "route", "arguments"}
    ensures AsString(r, "action") == Some("replaceRoute")
    ensures AsString(r, "route") == Some(route) && r["arguments"] == KMap(arguments)
  {
    map["action" := Str("replaceRoute"), "route" := Str(route), "arguments" := KMap(arguments)]
  }

  /** A single-key request such as `mapOf("action" to "popToRoot")`. */
  function ActionState(action: string): (r: Payload)
    ensures r.Keys == {"action"} && AsString(r, "action") == Some(action)
  {
    map["action" := Str(action)]
  }

  class NavigationHandler {
    var navigationState: Payload

    constructor ()
      ensures navigationState == map[]
    {
      navigationState := map[];
    }

    /** Only logs; the channel hookup is not written yet. */
    method Initialize()
      ensures unchanged(this)
    {
    }

    method NavigateTo(route: string, arguments: Payload := map[])
      modifies this
      ensures navigationState == NavigateState(route, arguments)
    {
      navigationState := NavigateState(route, arguments);
    }

    method ReplaceRoute(route: string, arguments: Payload := map[])
      modifies this
      ensures navigationState == ReplaceRouteState(route, arguments)
    {
      navigationState := ReplaceRouteState(route, arguments);
    }

    method PopToRoot()
      modifies this
      ensures navigationState == ActionState("popToRoot")
    {
      navigationState := ActionState("popToRoot");
    }

    method ReceiveData(data: Payload)
      modifies this
      ensures navigationState == data
    {
      navigationState := data;
    }

    method GoBack()
      modifies this
      ensures navigationState == ActionState("goBack")
    {
      navigationState := ActionState("goBack");
    }

    /** Only logs; nothing is sent yet. */
    method SendData(data: Payload)
      ensures unchanged(this)
    {
    }

    method UpdateState(screenData: Payload)
      modifies this
      ensures navigationState == screenData
    {
      navigationState := screenData;
    }
  }
}
