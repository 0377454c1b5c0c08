/** MainActivity: the app's Flutter activity. It answers the widget method
    channel's calls (whether a widget is pinned, pin one), and forwards a
    launch intent's `open_tab` extra to Flutter. The platform's answers
    (SDK level, AppWidgetManager, the launcher's reply) are inputs. */
module Activity {
  import opened Wrappers
  import opened Android
  import opened QuickActions
  import opened SnapshotParser
  import opened SpendingWidget

  /** The method channel's name. */
  const Channel: string := "com.example.app_qlct/widget"
  /** `Build.VERSION_CODES.O`, Android 8.0, the first release that can pin
      widgets. */
  const AndroidO: int := 26

  /** What the AppWidgetManager answers: the ids of the provider's widgets
      (`getAppWidgetIds` may return null), whether the launcher supports
      pinning, and what `requestPinAppWidget` returns. */
  datatype WidgetManager = WidgetManager(appWidgetIds: Option<seq<int>>, pinSupported: bool, pinResult: bool)

  /** The device: its SDK level and the AppWidgetManager, if the system
      provides one. */
  datatype Device = Device(sdkInt: int, manager: Option<WidgetManager>)

  /** A reply on the method channel: `success(value)`, `error(code,
      message, null)` or `notImplemented()`. */
  datatype Reply = Success(value: bool) | Error(code: string, message: string) | NotImplemented

  /** One `handleRequestPinWidget` call: its one reply, and whether it asked
      the launcher to pin a widget. */
  datatype PinOutcome = PinOutcome(reply: Reply, pinRequested: bool)

  /** `hasPinnedWidget`. */
  function HasPinnedWidget(device: Device): bool {
    match device.manager
    case None => false
    case Some(manager) => manager.appWidgetIds.Some? && |manager.appWidgetIds.value| > 0
  }

  /** `handleRequestPinWidget`: the checks in the source's order, each
      ending the call with its one reply. */
  function RequestPinWidget(device: Device): PinOutcome {
    if device.sdkInt < AndroidO then
      PinOutcome(Error("unsupported", "Tính năng cần Android 8.0 trở lên"), false)
    else if device.manager.None? then
      PinOutcome(Error("manager_null", "AppWidgetManager unavailable"), false)
    else
      var manager := device.manager.value;
      if manager.appWidgetIds.Some? && |manager.appWidgetIds.value| > 0 then PinOutcome(Success(true), false)
      else if !manager.pinSupported then PinOutcome(Success(false), false)
      else PinOutcome(Success(manager.pinResult), true)
  }

  /** The method call handler set in `configureFlutterEngine`. */
  function OnMethodCall(methodName: string, device: Device): Reply {
    if methodName == "requestPinWidget" then RequestPinWidget(device).reply
    else if methodName == "hasPinnedWidget" then Success(HasPinnedWidget(device))
    else NotImplemented
  }

  /** A widget is pinned iff there is a manager and it reports a non-null,
      non-empty id array. */
  lemma HasPinnedWidgetIff(device: Device)
    ensures HasPinnedWidget(device) <==>
      device.manager.Some? && device.manager.value.appWidgetIds.Some? && device.manager.value.appWidgetIds.value != []
  {
  }

  /** Below Android 8.0 the reply is the "unsupported" error, whatever the
      manager would say, and no pin is requested. */
  lemma OldSdkUnsupported(device: Device)
    requires device.sdkInt < AndroidO
    ensures RequestPinWidget(device) == PinOutcome(Error("unsupported", "Tính năng cần Android 8.0 trở lên"), false)
  {
  }

  /** From Android 8.0 on: no manager gives the "manager_null" error; a
      pinned widget gives success(true) without asking the launcher; a
      launcher that cannot pin gives success(false); otherwise the
      launcher's answer is the reply. A pin is requested only in that last
      case. */
  lemma PinCascade(device: Device)
    requires device.sdkInt >= AndroidO
    ensures var outcome := RequestPinWidget(device);
      && (device.manager.None? ==> outcome == PinOutcome(Error("manager_null", "AppWidgetManager unavailable"), false))
      && (HasPinnedWidget(device) ==> outcome == PinOutcome(Success(true), false))
      && (device.manager.Some? && !HasPinnedWidget(device) && !device.manager.value.pinSupported ==>
            outcome == PinOutcome(Success(false), false))
      && (outcome.pinRequested <==>
            device.manager.Some? && !HasPinnedWidget(device) && device.manager.value.pinSupported)
      && (outcome.pinRequested ==> outcome.reply == Success(device.manager.value.pinResult))
  {
  }

  /** Every pin request ends in exactly one reply, a success or an error,
      never "not implemented"; it is an error exactly on the first two
      checks. */
  lemma PinRepliesOnce(device: Device)
    ensures RequestPinWidget(device).reply.Success? || RequestPinWidget(device).reply.Error?
    ensures RequestPinWidget(device).reply.Error? <==> device.sdkInt < AndroidO || device.manager.None?
  {
  }

  /** The channel answers the two methods it knows and only those. */
  lemma DispatchKnowsTwoMethods(methodName: string, device: Device)
    ensures OnMethodCall(methodName, device).NotImplemented? <==>
      methodName != "requestPinWidget" && methodName != "hasPinnedWidget"
    ensures methodName == "hasPinnedWidget" ==> OnMethodCall(methodName, device) == Success(HasPinnedWidget(device))
  {
    if methodName == "requestPinWidget" {
      PinRepliesOnce(device);
    }
  }

  /** Which channel object carried a message: the one set up in
      `configureFlutterEngine`, or one made on the spot from the engine's
      messenger. */
  datatype Route = ConfiguredChannel | FreshChannel

  /** `invokeMethod(method, argument)` on the widget channel. */
  datatype ChannelMessage = ChannelMessage(route: Route, channel: string, methodName: string, argument: int)

  /** What `handleWidgetIntent` sends: with an `open_tab` extra on the
      current intent, "openTab" with that tab (0 unless an Int is stored),
      on the configured channel if there is one, else on a fresh channel if
      an engine is attached, else nothing. Without the extra, nothing. */
  function OpenTabMessages(intent: Option<Intent>, channelSet: bool, engineAttached: bool): (sent: seq<ChannelMessage>)
    ensures |sent| <= 1
    ensures sent != [] ==> intent.Some? && HasExtra(intent.value, "open_tab")
  {
    if intent.None? || !HasExtra(intent.value, "open_tab") then []
    else
      var tabIndex := GetIntExtra(intent.value, "open_tab", 0);
      if channelSet then [ChannelMessage(ConfiguredChannel, Channel, "openTab", tabIndex)]
      else if engineAttached then [ChannelMessage(FreshChannel, Channel, "openTab", tabIndex)]
      else []
  }

  class MainActivity {
    /** The activity's current intent (`getIntent()` may be null). */
    var intent: Option<Intent>
    /** `widgetChannel != null`. */
    var channelSet: bool
    /** A Flutter engine with a messenger is attached. */
    var engineAttached: bool
    /** The messages sent to Flutter so far. */
    var sent: seq<ChannelMessage>

    constructor(launchIntent: Option<Intent>)
      ensures intent == launchIntent && !channelSet && !engineAttached && sent == []
    {
      intent := launchIntent;
      channelSet := false;
      engineAttached := false;
      sent := [];
    }

    /** `configureFlutterEngine`: the engine is attached and the channel,
      with its handler, is set. */
    method ConfigureFlutterEngine()
      modifies this
      ensures channelSet && engineAttached
      ensures intent == old(intent) && sent == old(sent)
    {
      engineAttached := true;
      channelSet := true;
    }

    /** `handleWidgetIntent`. */
    method HandleWidgetIntent()
      modifies this
      ensures sent == old(sent) + OpenTabMessages(intent, channelSet, engineAttached)
      ensures intent == old(intent) && channelSet == old(channelSet) && engineAttached == old(engineAttached)
    {
      if intent.Some? {
        var it := intent.value;
        if HasExtra(it, "open_tab") {
          var tabIndex := GetIntExtra(it, "open_tab", 0);
          if channelSet {
            sent := sent + [ChannelMessage(ConfiguredChannel, Channel, "openTab", tabIndex)];
          } else if engineAttached {
            sent := sent + [ChannelMessage(FreshChannel, Channel, "openTab", tabIndex)];
          }
        }
      }
    }

    /** `onCreate`: handles the launch intent. */
    method OnCreate()
      modifies this
      ensures sent == old(sent) + OpenTabMessages(intent, channelSet, engineAttached)
      ensures intent == old(intent) && channelSet == old(channelSet) && engineAttached == old(engineAttached)
    {
      HandleWidgetIntent();
    }

    /** `onNewIntent`: the new intent becomes the current one and is
      handled. */
    method OnNewIntent(newIntent: Intent)
      modifies this
      ensures intent == Some(newIntent)
      ensures sent == old(sent) + OpenTabMessages(Some(newIntent), channelSet, engineAttached)
      ensures channelSet == old(channelSet) && engineAttached == old(engineAttached)
    {
      intent := Some(newIntent);
      HandleWidgetIntent();
    }
  }

  /** A tap on the widget's body opens the Statistics tab: once the
      channel is configured, exactly one "openTab" with tab 3 is sent. */
  lemma RootClickOpensStatistics(appWidgetId: int)
    ensures OpenTabMessages(Some(RootPendingIntent(appWidgetId).intent), true, true)
      == [ChannelMessage(ConfiguredChannel, Channel, "openTab", StatisticsTab)]
  {
  }

  /** Quick-action and editor taps carry no `open_tab` extra, so they send
      no "openTab". */
  lemma OtherTapsOpenNoTab(appWidgetId: int, action: QuickActionData, channelSet: bool, engineAttached: bool)
    ensures OpenTabMessages(Some(QuickActionPendingIntent(appWidgetId, action).intent), channelSet, engineAttached) == []
    ensures OpenTabMessages(Some(ConfigPendingIntent(appWidgetId).intent), channelSet, engineAttached) == []
  {
    assert !HasExtra(ConfigPendingIntent(appWidgetId).intent, "open_tab");
  }

  /** The tab sent is the extra's Int, or 0 when the extra holds another
      kind of value. */
  lemma OpenTabArgument(intent: Intent, channelSet: bool, engineAttached: bool)
    requires HasExtra(intent, "open_tab") && (channelSet || engineAttached)
    ensures var sent := OpenTabMessages(Some(intent), channelSet, engineAttached);
      && |sent| == 1
      && sent[0].methodName == "openTab"
      && sent[0].argument == (if intent.extras["open_tab"].IntExtra? then intent.extras["open_tab"].i else 0)
      && (sent[0].route == ConfiguredChannel <==> channelSet)
  {
  }
}
