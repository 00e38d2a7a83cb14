/** The Flutter side as the bridge sees it: opaque handles for the engine, its
    views and its method channels, and the calls made to them. */
module Engine {
  import opened Values

  /** An `io.flutter.embedding.engine.FlutterEngine`. */
  class FlutterEngine {
    constructor () {}
  }

  /** An `io.flutter.embedding.android.FlutterView`. */
  class FlutterView {
    constructor () {}
  }

  /** A `MethodChannel` bound to the engine's binary messenger. */
  class MethodChannel {
    const name: string

    constructor (name: string)
      ensures this.name == name
    {
      this.name := name;
    }
  }

  /** A `() -> Unit` close callback, known only by its identity. */
  datatype Handler = Handler(id: nat)

  /** The `lifecycleChannel` messages. */
  datatype LifecycleEvent = AppIsResumed | AppIsInactive | AppIsPaused | AppIsDetached

  /** How the Dart side answers a method call. */
  datatype Reply = Success | Error(code: string, message: Option<string>) | NotImplemented

  /** One call the bridge makes to the engine, a view, a channel or the
      registered close handler. */
  datatype Effect =
    | ExecuteDefaultEntrypoint
    | SetMethodCallHandler(channel: string)
    | Lifecycle(event: LifecycleEvent)
    | AttachToEngine(view: FlutterView)
    | DetachFromEngine(view: FlutterView)
    | InvokeMethod(channel: string, methodName: string, arguments: Payload)
    | InvokeCloseHandler(handler: Handler)
}
