# Tradeable Android SDK: a Dafny model of its bookkeeping core

The Tradeable Android SDK embeds a Flutter module in an Android app. Most of
it is glue between the two. This project models that glue's bookkeeping and
payload-building logic, and proves properties about it:

- **Embedded-view bridge** (`WrapperBridge`, `android/wrapper/FlutterBridge.kt`). It owns one Flutter engine
  and three method channels, and keeps a registry of the views attached to the engine. It also holds a
  close-handler slot and a one-way "TFS initialized" flag. The engine, views and channels are opaque
  objects (`Engine`). Every call the bridge makes to them is appended, in order, to the field `trace`.
- **Handlers** (`AuthHandlers`, `NavigationHandlers`). Last-value containers for the auth data and the
  navigation request.
- **Mock SDK bridge** (`SdkBridge`, `bridge/FlutterBridge.kt`). A ready flag, cached credentials, the
  init-data map, and the rule that only debug-mode or error messages are logged.
- **SDK facade** (`TradeableSdk`, `core/TradeableSDK.kt`). The configuration, the bridge, the initialized
  flag and the current credentials. It covers the guarded operations, the extras of the full-page intent,
  and `destroy`.
- **Message codec** (`MessageCodec`, `bridge/TradeableMessageCodec.kt`). The recursive conversion of an
  org.json tree into Kotlin maps and lists, which is the inverse of `JSONObject(Map)`. Also the fixed
  message envelopes, and parsers that answer `null` on text that does not parse.
- **Fullscreen activity** (`FlutterActivity`, `ui/TradeableFlutterActivity.kt`). The intent-extra defaults,
  the bounded wait for TFS initialisation, the size fallbacks, and the detach-then-stop rule of
  `onDestroy`.
- **Flutter view composables** (`FlutterViews`, `Widgets`, `ui/TradeableFlutterView.kt`,
  `ui/TradeableWidgets.kt`).
  - the data each display mode hands to Flutter (`prepareData`);
  - the type-filtered copy of that data into the fullscreen intent;
  - the `FlutterContainer` send-once and dispose rules;
  - the card-flip flag;
  - the three widgets' data maps.

Shared pieces:
- `Values.Value` stands in for Kotlin's `Any?` and for the org.json nodes as well.
- `Numerals` models `String.toIntOrNull()`.
- `Lists` models `MutableList.remove`.

The model takes the environment as parameters:
- a channel reply (`Engine.Reply`);
- the outcome of the host's `onRefreshCredentials` callback (`Option<Credentials>`, where `None` is a thrown exception);
- whether pre-warming threw;
- the value of `isTFSInitialized()` after each delay (`nat -> bool`);
- `JSONObject(text)` as its outcome (`None` when the text is malformed);
- the text `optString` gives a non-string value (`render`).

The wrapper bridge's `navigateTo` sends only `arguments` on the navigation channel. The route is only
logged. The model does the same.

## Model

| member | source | states |
|---|---|---|
| Numerals.ToIntOrNull | tradeable-sdk/src/main/java/com/tradeable/sdk/core/TradeableSDK.kt:129 | A number comes back iff the text is a decimal numeral (an optional `+` or `-`, then one or more digits) whose value lies in the 32-bit `Int` range, and the number is the value the numeral denotes. Everything else gives `null`. |
| Numerals.ToIntOrNullInvertsToString | tradeable-sdk/src/main/java/com/tradeable/sdk/core/TradeableSDK.kt:129 | Every 32-bit `Int`, written in decimal, parses back to itself. |
| Numerals.ToIntOrNullRejects | tradeable-sdk/src/main/java/com/tradeable/sdk/core/TradeableSDK.kt:129 | "", "-", "12a", "1a", "+x", " 1" and "2147483648" give `null`; "-2147483648" gives the smallest `Int`. |
| Numerals.ToIntOrNullNonCanonical | tradeable-sdk/src/main/java/com/tradeable/sdk/core/TradeableSDK.kt:129 | "+7" and "007" give 7, and "-0" gives 0. |
| Lists.RemoveFirst | tradeable-sdk/src/main/java/com/tradeable/sdk/android/wrapper/FlutterBridge.kt:113 | `remove` makes the list one shorter iff the view was in it, and adds no element. |
| Lists.RemoveFirstAbsent | tradeable-sdk/src/main/java/com/tradeable/sdk/android/wrapper/FlutterBridge.kt:113 | Removing a view that is not in the list leaves the list unchanged. |
| Lists.RemoveFirstPresent | tradeable-sdk/src/main/java/com/tradeable/sdk/android/wrapper/FlutterBridge.kt:113 | Removing a present view cuts out exactly its first occurrence and keeps the other elements in order; the multiset loses one copy. |
| Lists.RemoveFirstNoDuplicates | tradeable-sdk/src/main/java/com/tradeable/sdk/android/wrapper/FlutterBridge.kt:113 | In a list without duplicates, removal takes the view out entirely, keeps the list duplicate-free, and keeps every other view. |
| MessageCodec.ToPlain | tradeable-sdk/src/main/java/com/tradeable/sdk/bridge/TradeableMessageCodec.kt:83-111 | An object becomes a map with the same keys, an array becomes a list of the same length, `JSONObject.NULL` becomes null, and any other value is kept. |
| MessageCodec.Wrap | tradeable-sdk/src/main/java/com/tradeable/sdk/bridge/TradeableMessageCodec.kt:15 | A map becomes an object with the same keys, a list becomes an array of the same length, null becomes `JSONObject.NULL`, and any other value is kept. |
| MessageCodec.ToPlainIsPlain | tradeable-sdk/src/main/java/com/tradeable/sdk/bridge/TradeableMessageCodec.kt:89-94 | The conversion of any org.json tree leaves no JSON object, array or `JSONObject.NULL` at any depth. |
| MessageCodec.WrapIsJsonTree | tradeable-sdk/src/main/java/com/tradeable/sdk/bridge/TradeableMessageCodec.kt:14-16 | `JSONObject(map)` of plain Kotlin values holds no Kotlin null, map or list at any depth. |
| MessageCodec.ToPlainInvertsWrap | tradeable-sdk/src/main/java/com/tradeable/sdk/bridge/TradeableMessageCodec.kt:83-111 | Converting a wrapped plain value gives back the value: nested maps, lists and nulls survive. |
| MessageCodec.WrapInvertsToPlain | tradeable-sdk/src/main/java/com/tradeable/sdk/bridge/TradeableMessageCodec.kt:83-111 | Wrapping a converted JSON tree gives back the tree, so the conversion loses nothing. |
| MessageCodec.ConvertValue | tradeable-sdk/src/main/java/com/tradeable/sdk/bridge/TradeableMessageCodec.kt:89-94 | The `when (value)` dispatch: objects become maps, arrays become lists, JSON null becomes null, and other values are kept. The result equals the reference conversion. |
| MessageCodec.JsonObjectToMap | tradeable-sdk/src/main/java/com/tradeable/sdk/bridge/TradeableMessageCodec.kt:83-97 | The map has exactly the object's keys, and each value is converted. |
| MessageCodec.JsonArrayToList | tradeable-sdk/src/main/java/com/tradeable/sdk/bridge/TradeableMessageCodec.kt:99-111 | The list has the array's length and order, and each element is converted. |
| MessageCodec.Encode | tradeable-sdk/src/main/java/com/tradeable/sdk/bridge/TradeableMessageCodec.kt:14-16 | `encode` keeps exactly the map's keys, and each value is the map's value under the same key as `JSONObject(map)` wraps it. |
| MessageCodec.Decode | tradeable-sdk/src/main/java/com/tradeable/sdk/bridge/TradeableMessageCodec.kt:21-23 | `decode` keeps exactly the object's keys, and each value is the conversion of the object's value under the same key. |
| MessageCodec.DecodeInvertsEncode | tradeable-sdk/src/main/java/com/tradeable/sdk/bridge/TradeableMessageCodec.kt:14-23 | On the object tree, `decode(encode(m)) == m` for every map of plain values. The text step in between is not modelled. |
| MessageCodec.StrMapWraps | tradeable-sdk/src/main/java/com/tradeable/sdk/bridge/TradeableMessageCodec.kt:35 | A string-to-string parameter map is plain, and it is encoded as an object of strings. |
| MessageCodec.CardEnvelope | tradeable-sdk/src/main/java/com/tradeable/sdk/bridge/TradeableMessageCodec.kt:32-36 | The map `createCardMessage` encodes has exactly the keys action, type and parameters, all plain values. |
| MessageCodec.PageEnvelope | tradeable-sdk/src/main/java/com/tradeable/sdk/bridge/TradeableMessageCodec.kt:46-50 | The map `createPageMessage` encodes has exactly the keys action, route and parameters, all plain values. |
| MessageCodec.CreateCardMessage | tradeable-sdk/src/main/java/com/tradeable/sdk/bridge/TradeableMessageCodec.kt:28-37 | The message has exactly the keys action="renderCard", type and parameters (an object of the strings), and it decodes to that envelope. |
| MessageCodec.CreatePageMessage | tradeable-sdk/src/main/java/com/tradeable/sdk/bridge/TradeableMessageCodec.kt:42-51 | The message has exactly the keys action="navigate", route and parameters, and it decodes to that envelope. |
| MessageCodec.OptString | tradeable-sdk/src/main/java/com/tradeable/sdk/bridge/TradeableMessageCodec.kt:60 | `optString` gives "" for a missing key and the string itself for a string value. |
| MessageCodec.OptObjectAsMap | tradeable-sdk/src/main/java/com/tradeable/sdk/bridge/TradeableMessageCodec.kt:61 | Present exactly when the key holds a JSON object; the map then has that object's keys and is its conversion. |
| MessageCodec.ParseNamed | tradeable-sdk/src/main/java/com/tradeable/sdk/bridge/TradeableMessageCodec.kt:56-81 | `null` exactly on unparseable text; otherwise the name key read with `optString`, and "data" read as an object. |
| MessageCodec.ParseCallback | tradeable-sdk/src/main/java/com/tradeable/sdk/bridge/TradeableMessageCodec.kt:56-66 | `null` iff the text does not parse. A missing action gives "", and a string action is kept. Data is null iff "data" is absent or not an object. |
| MessageCodec.ParseAnalyticsEvent | tradeable-sdk/src/main/java/com/tradeable/sdk/bridge/TradeableMessageCodec.kt:71-81 | The same rules, with eventName in place of action. |
| MessageCodec.ParsedCallbackDataIsPlain | tradeable-sdk/src/main/java/com/tradeable/sdk/bridge/TradeableMessageCodec.kt:61 | A parsed callback's data holds only plain Kotlin values. |
| AuthHandlers.TfsAuthData | tradeable-sdk/src/main/java/com/tradeable/sdk/android/wrapper/AuthHandler.kt:38-45 | Exactly the six credential keys, all strings, from which the six arguments read back unchanged. |
| AuthHandlers.AuthHandler.constructor | tradeable-sdk/src/main/java/com/tradeable/sdk/android/wrapper/AuthHandler.kt:19-23 | Starts as the empty map, with the flag false. |
| AuthHandlers.AuthHandler.Initialize | tradeable-sdk/src/main/java/com/tradeable/sdk/android/wrapper/AuthHandler.kt:25-28 | Changes no state. |
| AuthHandlers.AuthHandler.HandleInitializeTFS | tradeable-sdk/src/main/java/com/tradeable/sdk/android/wrapper/AuthHandler.kt:30-50 | The state becomes the six-key auth data and the flag becomes true. |
| AuthHandlers.AuthHandler.UpdateAuthState | tradeable-sdk/src/main/java/com/tradeable/sdk/android/wrapper/AuthHandler.kt:52-54 | Replaces the state and leaves the flag alone. No method writes false, so once true the flag stays true. |
| NavigationHandlers.NavigateState | tradeable-sdk/src/main/java/com/tradeable/sdk/android/wrapper/NavigationHandler.kt:29 | Exactly {route, arguments}, with no action key. |
| NavigationHandlers.ReplaceRouteState | tradeable-sdk/src/main/java/com/tradeable/sdk/android/wrapper/NavigationHandler.kt:34 | Exactly {action: "replaceRoute", route, arguments}. |
| NavigationHandlers.ActionState | tradeable-sdk/src/main/java/com/tradeable/sdk/android/wrapper/NavigationHandler.kt:39 | A single-key map holding the action. |
| NavigationHandlers.NavigationHandler.constructor | tradeable-sdk/src/main/java/com/tradeable/sdk/android/wrapper/NavigationHandler.kt:19 | Starts as the empty map. |
| NavigationHandlers.NavigationHandler.Initialize | tradeable-sdk/src/main/java/com/tradeable/sdk/android/wrapper/NavigationHandler.kt:22-25 | Changes no state. |
| NavigationHandlers.NavigationHandler.NavigateTo | tradeable-sdk/src/main/java/com/tradeable/sdk/android/wrapper/NavigationHandler.kt:27-30 | The state becomes {route, arguments}; arguments default to the empty map. |
| NavigationHandlers.NavigationHandler.ReplaceRoute | tradeable-sdk/src/main/java/com/tradeable/sdk/android/wrapper/NavigationHandler.kt:32-35 | The state becomes {action: "replaceRoute", route, arguments}. |
| NavigationHandlers.NavigationHandler.PopToRoot | tradeable-sdk/src/main/java/com/tradeable/sdk/android/wrapper/NavigationHandler.kt:37-40 | The state becomes {action: "popToRoot"}. |
| NavigationHandlers.NavigationHandler.ReceiveData | tradeable-sdk/src/main/java/com/tradeable/sdk/android/wrapper/NavigationHandler.kt:42-45 | The state becomes the data itself. No history is kept. |
| NavigationHandlers.NavigationHandler.GoBack | tradeable-sdk/src/main/java/com/tradeable/sdk/android/wrapper/NavigationHandler.kt:47-50 | The state becomes {action: "goBack"}. |
| NavigationHandlers.NavigationHandler.SendData | tradeable-sdk/src/main/java/com/tradeable/sdk/android/wrapper/NavigationHandler.kt:52-55 | Changes no state. |
| NavigationHandlers.NavigationHandler.UpdateState | tradeable-sdk/src/main/java/com/tradeable/sdk/android/wrapper/NavigationHandler.kt:57-59 | The state becomes the screen data itself. |
| WrapperBridge.ViewStatePayload | tradeable-sdk/src/main/java/com/tradeable/sdk/android/wrapper/FlutterBridge.kt:153-159 | Exactly the keys mode, text, width, height and topicId, from which the view state reads back unchanged. |
| WrapperBridge.FlutterBridge.constructor | tradeable-sdk/src/main/java/com/tradeable/sdk/android/wrapper/FlutterBridge.kt:32-45 | No engine, no channels and no views; no handler; both flags false; fresh, empty handlers. |
| WrapperBridge.FlutterBridge.Initialize | tradeable-sdk/src/main/java/com/tradeable/sdk/android/wrapper/FlutterBridge.kt:47-80 | A second call changes nothing. A first call creates the engine and the three channels named by the constants, and runs the entrypoint before installing the base handler. The flag ends true. |
| WrapperBridge.FlutterBridge.CreateFlutterView | tradeable-sdk/src/main/java/com/tradeable/sdk/android/wrapper/FlutterBridge.kt:82-98 | Without an engine: an illegal-state error, and nothing changes. With one: the engine is moved to resumed, and then a fresh view is attached and appended to the registry; the views already there stay. |
| WrapperBridge.FlutterBridge.SetupCloseHandler | tradeable-sdk/src/main/java/com/tradeable/sdk/android/wrapper/FlutterBridge.kt:103-106 | The slot holds the last handler given; `null` clears it. |
| WrapperBridge.FlutterBridge.DetachView | tradeable-sdk/src/main/java/com/tradeable/sdk/android/wrapper/FlutterBridge.kt:111-115 | The view is detached and its occurrence removed, and other views are kept. A view not in the registry leaves it unchanged, so a repeated call does too. |
| WrapperBridge.FlutterBridge.HandleBaseChannelCall | tradeable-sdk/src/main/java/com/tradeable/sdk/android/wrapper/FlutterBridge.kt:66-75 | closeCard and closeFullscreen run the current handler, if any, and reply success. Any other method replies not-implemented and runs nothing. |
| WrapperBridge.FlutterBridge.PauseEngine | tradeable-sdk/src/main/java/com/tradeable/sdk/android/wrapper/FlutterBridge.kt:120-124 | Inactive, then paused; nothing without an engine. |
| WrapperBridge.FlutterBridge.ResumeEngine | tradeable-sdk/src/main/java/com/tradeable/sdk/android/wrapper/FlutterBridge.kt:129-132 | Resumed; nothing without an engine. |
| WrapperBridge.FlutterBridge.StopEngine | tradeable-sdk/src/main/java/com/tradeable/sdk/android/wrapper/FlutterBridge.kt:137-142 | Inactive, then paused, then detached; nothing without an engine. |
| WrapperBridge.FlutterBridge.StartEngine | tradeable-sdk/src/main/java/com/tradeable/sdk/android/wrapper/FlutterBridge.kt:147-150 | Resumed; nothing without an engine. |
| WrapperBridge.FlutterBridge.SendViewState | tradeable-sdk/src/main/java/com/tradeable/sdk/android/wrapper/FlutterBridge.kt:152-163 | One `setData` carrying the five-key view state, with defaults "", 300, 200 and 0; nothing without a base channel. |
| WrapperBridge.FlutterBridge.InitializeTFS | tradeable-sdk/src/main/java/com/tradeable/sdk/android/wrapper/FlutterBridge.kt:165-196 | Sends the six-key auth data. Only a success reply sets the flag; an error or not-implemented reply leaves it unchanged. |
| WrapperBridge.FlutterBridge.NavigateTo | tradeable-sdk/src/main/java/com/tradeable/sdk/android/wrapper/FlutterBridge.kt:200-203 | One `navigateTo` carrying the arguments (the empty map by default); nothing without a navigation channel. |
| WrapperBridge.FlutterBridge.UpdateNavigationState | tradeable-sdk/src/main/java/com/tradeable/sdk/android/wrapper/FlutterBridge.kt:205-207 | The navigation handler's state becomes the screen data; the bridge's own fields are unchanged. |
| SdkBridge.Emitted | tradeable-sdk/src/main/java/com/tradeable/sdk/bridge/FlutterBridge.kt:197-205 | A line is written iff debug mode is on or the message is an error; it is at error level iff it is an error. |
| SdkBridge.CredentialsPayload | tradeable-sdk/src/main/java/com/tradeable/sdk/bridge/FlutterBridge.kt:159-165 | Exactly the five credential keys, from which the credentials read back unchanged. |
| SdkBridge.FlutterBridge.constructor | tradeable-sdk/src/main/java/com/tradeable/sdk/bridge/FlutterBridge.kt:22-41 | Not ready, nothing cached. |
| SdkBridge.FlutterBridge.Log | tradeable-sdk/src/main/java/com/tradeable/sdk/bridge/FlutterBridge.kt:197-205 | Appends exactly what `Emitted` allows. |
| SdkBridge.FlutterBridge.PreWarmEngine | tradeable-sdk/src/main/java/com/tradeable/sdk/bridge/FlutterBridge.kt:46-70 | Afterwards `isReady()` is true. |
| SdkBridge.FlutterBridge.UpdateCredentials | tradeable-sdk/src/main/java/com/tradeable/sdk/bridge/FlutterBridge.kt:75-96 | Always caches the credentials, ready or not. |
| SdkBridge.FlutterBridge.NavigateTo | tradeable-sdk/src/main/java/com/tradeable/sdk/bridge/FlutterBridge.kt:101-117 | When not ready, the only effect is one error line. |
| SdkBridge.FlutterBridge.GetInitData | tradeable-sdk/src/main/java/com/tradeable/sdk/bridge/FlutterBridge.kt:155-168 | Exactly baseUrl and credentials. Credentials is null iff nothing is cached; otherwise it is a five-key copy of the cache. |
| SdkBridge.FlutterBridge.GetInitDataJson | tradeable-sdk/src/main/java/com/tradeable/sdk/bridge/FlutterBridge.kt:173-175 | The JSON object has the same two keys and decodes back to the init data. |
| SdkBridge.FlutterBridge.IsReady | tradeable-sdk/src/main/java/com/tradeable/sdk/bridge/FlutterBridge.kt:180 | The ready flag: true after `preWarmEngine`, false after `destroy`. |
| SdkBridge.FlutterBridge.Destroy | tradeable-sdk/src/main/java/com/tradeable/sdk/bridge/FlutterBridge.kt:185-195 | Not ready and nothing cached, so a later `getInitData` has null credentials. |
| TradeableSdk.TopicIdOf | tradeable-sdk/src/main/java/com/tradeable/sdk/core/TradeableSDK.kt:129 | The parsed "topicId" parameter, or 0 when it is absent or not an `Int`. |
| TradeableSdk.FullPageExtras | tradeable-sdk/src/main/java/com/tradeable/sdk/core/TradeableSDK.kt:126-130 | Exactly mode="fullscreen", text (the title, or "Fullscreen") and topicId. |
| TradeableSdk.FullPageTopicIdRoundTrip | tradeable-sdk/src/main/java/com/tradeable/sdk/core/TradeableSDK.kt:129 | A topicId parameter written from an `Int` opens the page with that id. |
| TradeableSdk.TradeableSDK.constructor | tradeable-sdk/src/main/java/com/tradeable/sdk/core/TradeableSDK.kt:44-54 | Everything is null and the flag is false. |
| TradeableSdk.TradeableSDK.IsDebugMode | tradeable-sdk/src/main/java/com/tradeable/sdk/core/TradeableSDK.kt:173 | True iff a config is held and its debugMode is set. |
| TradeableSdk.TradeableSDK.BridgeDebugModeAgrees | tradeable-sdk/src/main/java/com/tradeable/sdk/bridge/FlutterBridge.kt:198 | The bridge's log gate gives the same answer as the SDK's `isDebugMode()` while that bridge is the SDK's own. |
| TradeableSdk.TradeableSDK.Initialize | tradeable-sdk/src/main/java/com/tradeable/sdk/core/TradeableSDK.kt:63-91 | No effect when already initialized. Otherwise it stores the context and config and builds a fresh bridge. Initialized iff pre-warming completes, and only then does it fetch and forward credentials. |
| TradeableSdk.TradeableSDK.RefreshCredentials | tradeable-sdk/src/main/java/com/tradeable/sdk/core/TradeableSDK.kt:96-112 | Without a config: null, and nothing changes. On success it stores, forwards and returns the credentials. On failure it returns null and nothing changes. |
| TradeableSdk.TradeableSDK.OpenFullPage | tradeable-sdk/src/main/java/com/tradeable/sdk/core/TradeableSDK.kt:120-132 | Starts nothing iff not initialized; otherwise starts the page with `FullPageExtras`. |
| TradeableSdk.TradeableSDK.OpenDashboard | tradeable-sdk/src/main/java/com/tradeable/sdk/core/TradeableSDK.kt:137-139 | Behind the same guard; the started extras are exactly those of `openFullPage` for route "/dashboard" with no parameters or title: mode "fullscreen", text "Fullscreen" and topic 0. |
| TradeableSdk.TradeableSDK.HandleAnalyticsEvent | tradeable-sdk/src/main/java/com/tradeable/sdk/core/TradeableSDK.kt:159-161 | The event reaches the host iff a config with an analytics listener is held. |
| TradeableSdk.TradeableSDK.HandleCallback | tradeable-sdk/src/main/java/com/tradeable/sdk/core/TradeableSDK.kt:166-168 | The event reaches the host iff a config with a callback listener is held. |
| TradeableSdk.TradeableSDK.Destroy | tradeable-sdk/src/main/java/com/tradeable/sdk/core/TradeableSDK.kt:178-186 | The old bridge is destroyed. Bridge, config and context end null, the flag false and the credentials null. |
| FlutterActivity.ReadLaunchArgs | tradeable-sdk/src/main/java/com/tradeable/sdk/ui/TradeableFlutterActivity.kt:61-65 | Each extra that is absent or of another type gives its default: "fullscreen", "Open Fullscreen", 0, 0.0 or 0.0. |
| FlutterActivity.SizeOr | tradeable-sdk/src/main/java/com/tradeable/sdk/ui/TradeableFlutterActivity.kt:177-178 | A positive size passes through. Any other size gives the fallback, so the result is positive. |
| FlutterActivity.FullscreenViewState | tradeable-sdk/src/main/java/com/tradeable/sdk/ui/TradeableFlutterActivity.kt:174-180 | Mode, text and topic come from the launch arguments. Width and height are always positive: 400 and 600 when not given. |
| FlutterActivity.AwaitTfsInitialization | tradeable-sdk/src/main/java/com/tradeable/sdk/ui/TradeableFlutterActivity.kt:146-165 | Retries end between 0 and 50, with no retries when the flag is already up. The result is Ready iff the flag is up at the end, otherwise Failed("SDK initialization timeout"). The time waited is retries × 100 ms, at most 5000 ms. |
| FlutterActivity.TradeableFlutterActivity.constructor | tradeable-sdk/src/main/java/com/tradeable/sdk/ui/TradeableFlutterActivity.kt:57-65 | The launch arguments come from the extras; the state is Initializing; no view, not ready. |
| FlutterActivity.TradeableFlutterActivity.RunInitialization | tradeable-sdk/src/main/java/com/tradeable/sdk/ui/TradeableFlutterActivity.kt:146-165 | Ends Ready or Failed, and no third state. It is Ready iff the flag was up at one of the 51 checks. |
| FlutterActivity.TradeableFlutterActivity.OnViewCreated | tradeable-sdk/src/main/java/com/tradeable/sdk/ui/TradeableFlutterActivity.kt:205-208 | The view is remembered and marked ready. |
| FlutterActivity.TradeableFlutterActivity.SendViewStateIfReady | tradeable-sdk/src/main/java/com/tradeable/sdk/ui/TradeableFlutterActivity.kt:168-186 | A view state, with the size fallbacks, goes out only once the view is ready. |
| FlutterActivity.TradeableFlutterActivity.OnDestroy | tradeable-sdk/src/main/java/com/tradeable/sdk/ui/TradeableFlutterActivity.kt:84-98 | With a view: detach it, clear the field, then stop the engine, in that order. With none: the bridge is untouched. |
| FlutterActivity.TradeableFlutterActivity.OnPause | tradeable-sdk/src/main/java/com/tradeable/sdk/ui/TradeableFlutterActivity.kt:100-104 | Pauses the engine. |
| FlutterActivity.TradeableFlutterActivity.OnResume | tradeable-sdk/src/main/java/com/tradeable/sdk/ui/TradeableFlutterActivity.kt:106-111 | Resumes the engine, view or no view. |
| FlutterActivity.FlutterViewContainer.constructor | tradeable-sdk/src/main/java/com/tradeable/sdk/ui/TradeableFlutterActivity.kt:230-231 | No view, not created. |
| FlutterActivity.FlutterViewContainer.Enter | tradeable-sdk/src/main/java/com/tradeable/sdk/ui/TradeableFlutterActivity.kt:244-245 | Installs the finish-activity close handler. |
| FlutterActivity.FlutterViewContainer.Factory | tradeable-sdk/src/main/java/com/tradeable/sdk/ui/TradeableFlutterActivity.kt:264-279 | A created view is remembered by the container and by the activity, and the activity becomes view-ready. A failed creation changes nothing. |
| FlutterActivity.FlutterViewContainer.Dispose | tradeable-sdk/src/main/java/com/tradeable/sdk/ui/TradeableFlutterActivity.kt:249-260 | Clears the close handler, and detaches the view whatever the mode. |
| FlutterViews.ModeName | tradeable-sdk/src/main/java/com/tradeable/sdk/ui/TradeableFlutterView.kt:114 | "direct", "card" and "fullscreen", one per display mode and each only for that mode. |
| FlutterViews.PrepareData | tradeable-sdk/src/main/java/com/tradeable/sdk/ui/TradeableFlutterView.kt:272-285 | Keeps every caller key, and overwrites width, height and mode. It sets topicId only when one is given; otherwise a caller's topicId is kept. |
| FlutterViews.ContainerViewState | tradeable-sdk/src/main/java/com/tradeable/sdk/ui/TradeableFlutterView.kt:302-308 | Each entry is read with `as?`, with defaults direct, "", 320, 220 and 0. |
| FlutterViews.DirectViewState | tradeable-sdk/src/main/java/com/tradeable/sdk/ui/TradeableFlutterView.kt:119-125 | The mode and sizes are cast out of the prepared data, and text and topic fall back to "" and 0. |
| FlutterViews.DirectViewSendsSameStateTwice | tradeable-sdk/src/main/java/com/tradeable/sdk/ui/TradeableFlutterView.kt:114-135 | A direct view's two sends carry the same state, with the given mode, sizes and topic. |
| FlutterViews.FixedFullscreenExtras | tradeable-sdk/src/main/java/com/tradeable/sdk/ui/TradeableFlutterView.kt:243-247 | mode="fullscreen", text (the data's text or "Open Fullscreen"), topicId (default 0), width and height. |
| FlutterViews.CopiedExtrasStep | tradeable-sdk/src/main/java/com/tradeable/sdk/ui/TradeableFlutterView.kt:249-256 | One `putExtra` step adds the entry iff it is a String, Int, Double or Boolean. |
| FlutterViews.FullscreenExtras | tradeable-sdk/src/main/java/com/tradeable/sdk/ui/TradeableFlutterView.kt:242-256 | A data entry of an extra type wins over the fixed extra of the same key. Entries of other types are dropped. |
| FlutterViews.CopyFullscreenExtras | tradeable-sdk/src/main/java/com/tradeable/sdk/ui/TradeableFlutterView.kt:242-256 | The copy loop builds exactly `FullscreenExtras`, whatever the iteration order. |
| FlutterViews.FullscreenButtonLaunchArgs | tradeable-sdk/src/main/java/com/tradeable/sdk/ui/TradeableFlutterView.kt:242-256 | What the activity reads from the button's intent. Caller keys of the right type override mode, text, topicId, width and height. A caller key of another extra type gives the activity's default. |
| FlutterViews.Render | tradeable-sdk/src/main/java/com/tradeable/sdk/ui/TradeableFlutterView.kt:71-101 | Direct and card views get the data prepared with their mode string; the fullscreen mode gets a button with the fullscreen extras. The defaults are direct, 320 by 220, no data and no topic id. |
| FlutterViews.OnlyCardsDetach | tradeable-sdk/src/main/java/com/tradeable/sdk/ui/TradeableFlutterView.kt:321-323 | Card data names the mode "card", and direct data never does. |
| FlutterViews.FlutterContainer.constructor | tradeable-sdk/src/main/java/com/tradeable/sdk/ui/TradeableFlutterView.kt:295-296 | No view, not ready. |
| FlutterViews.FlutterContainer.Enter | tradeable-sdk/src/main/java/com/tradeable/sdk/ui/TradeableFlutterView.kt:314-316 | Installs `onClose`, which may be null. |
| FlutterViews.FlutterContainer.Factory | tradeable-sdk/src/main/java/com/tradeable/sdk/ui/TradeableFlutterView.kt:331-342 | Remembers the created view; a failed creation changes nothing. |
| FlutterViews.FlutterContainer.SendInitialState | tradeable-sdk/src/main/java/com/tradeable/sdk/ui/TradeableFlutterView.kt:299-311 | With a view and not yet ready: send the container state once and become ready. Otherwise nothing is sent. |
| FlutterViews.FlutterContainer.Dispose | tradeable-sdk/src/main/java/com/tradeable/sdk/ui/TradeableFlutterView.kt:318-328 | Always clears the handler and resets the view and the flag. It detaches the view iff the mode is "card". |
| FlutterViews.CardFlipState.constructor | tradeable-sdk/src/main/java/com/tradeable/sdk/ui/TradeableFlutterView.kt:148 | Starts unflipped. |
| FlutterViews.CardFlipState.TapFront | tradeable-sdk/src/main/java/com/tradeable/sdk/ui/TradeableFlutterView.kt:181 | Flips the card. |
| FlutterViews.CardFlipState.Back | tradeable-sdk/src/main/java/com/tradeable/sdk/ui/TradeableFlutterView.kt:152-154 | Handled only when flipped; afterwards the card is unflipped. |
| FlutterViews.CardFlipState.Close | tradeable-sdk/src/main/java/com/tradeable/sdk/ui/TradeableFlutterView.kt:173 | Unflips the card. |
| Widgets.DashboardData | tradeable-sdk/src/main/java/com/tradeable/sdk/ui/TradeableWidgets.kt:37-40 | Type "dashboard", plus the key dateThreshold iff one was given. |
| Widgets.CourseCardData | tradeable-sdk/src/main/java/com/tradeable/sdk/ui/TradeableWidgets.kt:66 | Exactly {type: "course_card", courseId}. |
| Widgets.LearnSheetData | tradeable-sdk/src/main/java/com/tradeable/sdk/ui/TradeableWidgets.kt:81-84 | Type "learn_sheet", plus the key pageId iff one was given. |
| Widgets.Dashboard | tradeable-sdk/src/main/java/com/tradeable/sdk/ui/TradeableWidgets.kt:31-48 | A direct view with the state ("direct", "", 400, height, 0), height 300 by default, whose data keeps the type and has the threshold iff one is given. |
| Widgets.CourseCard | tradeable-sdk/src/main/java/com/tradeable/sdk/ui/TradeableWidgets.kt:55-68 | A direct view at the caller's size, 120 high and 200 wide by default, whose data has exactly the two keys plus the prepared ones. |
| Widgets.LearnSheet | tradeable-sdk/src/main/java/com/tradeable/sdk/ui/TradeableWidgets.kt:75-91 | A direct view 400 wide, 200 high by default, whose data keeps the type and has the page id iff one is given. |
| Widgets.DefaultSizes | tradeable-sdk/src/main/java/com/tradeable/sdk/ui/TradeableWidgets.kt:33-59 | Called without arguments, the widgets are 400×300, 200×120 and 400×200, and `TradeableFlutterView()` is a direct 320×220 view. |
| Widgets.CallbackIsUnused | tradeable-sdk/src/main/java/com/tradeable/sdk/ui/TradeableWidgets.kt:31-35 | No widget's rendering depends on `onCallback`. |

## Left out

- **Logging.**
  - Log text is not modelled, and neither is `android.util.Log`.
  - The mock bridge keeps its lines as abstract messages with a level.
  - The SDK facade's own log lines are not modelled. They follow the same debug-or-error rule as the bridge's.
- **Stand-ins for the Android and Flutter objects.**
  - The Flutter engine, views, channels and `DartExecutor` are opaque objects, and the calls made to them are a trace.
  - The `synchronized` `getInstance` singleton is a bridge object passed to the activity and containers.
  - `WeakReference` is an `Option`.
- **Concurrency.** Coroutines, `delay`, `Dispatchers` and `sdkScope.launch` are left out, because they are timing and concurrency. The launched init block is one sequential step, and the retry loop counts delays. So the model does not capture that two `initialize` calls made before the launched block sets `_isInitialized` both pass the guard, and each builds a bridge.
- **Platform rendering.** Jetpack Compose rendering, layout, modifiers, `BackHandler` wiring and `AndroidView` are left out, along with the lifecycle observer (it only logs), `onStart`/`onStop` (they only log), `view.post`, background colours and layout params. Only their state flags and payloads are kept.
- **The fullscreen intent.** `startActivity` and intent delivery are left out: the extras map is the result.
- **org.json text and number types.**
  - Parsing and `toString()` are left out: the tree stands in for the text.
  - A `Double` is a `real`, a `Dp` a `real`, and an `Int` extra an unbounded `int`. Float rounding is not modelled.
- **Exceptions that cannot occur in the model.** The catch blocks of `onDestroy`, of the activity's `sendViewState` call and of the container's `detachView` are empty paths: nothing they guard can throw here. A failing `createFlutterView` is an `Err` result. In the source it propagates out of the view factory.
- **Commented-out code.** The commented-out channel code of the mock bridge, including its empty `setupMethodCallHandler`, has no behaviour.
- **Trivial getters and unused inputs.**
  - The internal getters `getFlutterBridge`, `getConfig` and `getApplicationContext` are plain field reads.
  - `isTFSInitialized()` is read directly, as the bridge field.
  - The unused `activity` parameter of the wrapper's `initialize` is dropped.
  - Of the two optional listeners in `TradeableConfig`, only their presence is kept.
- **Files outside the core.** `TradeableInitProvider.kt` and the Gradle files are not part of this model.
- Numerals.ToIntOrNull: accepts only the ASCII digits '0'..'9'. Kotlin also accepts other Unicode decimal digits, and no caller here relies on that.
- FlutterActivity.AwaitTfsInitialization: the flag read after the loop is taken to be the same reading as the loop's last check. In the source they are two reads with no delay between them.
- MessageCodec.DecodeInvertsEncode: holds of the object tree only. The source's round trip goes through `toString()` and `JSONObject(text)`, where org.json writes an integral `Double` such as 1.0 as "1" and reads it back as an `Int`, and reads a `Long` back as an `Int` when it fits. Those number-type changes are not modelled; the envelopes and the init data carry only strings and nulls, so they are unaffected.
- MessageCodec.Wrap: covers null, strings, numbers, booleans, maps, lists and the boxed primitives `wrap` keeps. It does not model the values `JSONObject.wrap` replaces: a Java collection or array becomes a `JSONArray`, another `java.*` object becomes its `toString()` text, and any other object (a lambda, a data class, a `Pair`) becomes `null`. The round trip of `DecodeInvertsEncode` is therefore only stated for the values modelled; the core passes only strings, maps of strings and nulls.
