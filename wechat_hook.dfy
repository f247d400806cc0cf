/**
 * The bookkeeping state of the Xposed module `WeChatHook`: the bounded log, the counter and app id
 * of `callWX`, the cached native instance, the once-only flags, and the `/CallWX` request guard.
 * Xposed hook installation, reflection and the embedded server are outside the model; their
 * outcomes arrive as parameters (`HookAttempt`, `InvokeOutcome`).
 */
module CloudFunctionHook {
  import opened Wrappers
  import opened KotlinInt
  import opened Decimal
  import opened Text
  import opened LogBuffer

  const Label := "[WX-FaaS-HOOK]"
  const WeChatPackage := "com.tencent.mm"
  const AppBrandProcess := "com.tencent.mm:appbrand"
  const AppBrandUI := "com.tencent.mm.plugin.appbrand.ui.AppBrandUI"
  const ServerPort := 59999

  /** An opaque object reference, carried with the text its `toString()` gives. */
  datatype Handle = Handle(rendering: string)

  datatype ThrowableKind = Exception | Error

  /** A JVM throwable: an `Exception` or an `Error`, with its possibly absent message. */
  datatype Throwable = Throwable(kind: ThrowableKind, message: Option<string>)

  /** What the reflective call of `nativeInvokeHandler` did: returned, or threw (lookup or call). */
  datatype InvokeOutcome = Returned | Threw(thrown: Throwable)

  /** What `XposedHelpers.findAndHookMethod` did for one hook. */
  datatype HookAttempt = Installed | Failed(message: Option<string>)

  /** The arguments with which `callWX` calls `nativeInvokeHandler` on the cached instance. */
  datatype Invocation = Invocation(
    target: Handle, jsapiName: string, data: string, extra: string,
    callbackId: int32, isSync: bool, arg6: int32, arg7: int32)

  /** The body of a POST to `/CallWX`. */
  datatype CallWXRequest = CallWXRequest(appid: string, jsapiName: string, data: string)

  /**
   * What the server sends back: `{"result": …}`, a 400 text, or a 500 with the throwable's
   * `localizedMessage`, taken to equal its `message` (the JVM default).
   */
  datatype Response =
    | ResultBody(result: string)
    | BadRequest(text: string)
    | InternalServerError(message: Option<string>)

  /** Kotlin's rendering of a nullable value in a string template. */
  function Show(s: Option<string>): string
  {
    match s
    case None => "null"
    case Some(v) => v
  }

  function ShowHandle(h: Option<Handle>): string
  {
    match h
    case None => "null"
    case Some(x) => x.rendering
  }

  // The texts of the log lines, one function per `log(...)` call site.

  function FoundAppLine(packageName: string, processName: string): string
  {
    Label + " Found app " + packageName + " with processName: " + processName
  }

  function ActiveLine(processName: string): string
  {
    Label + " Active in process " + processName + ". Waiting for UI to trigger hooks..."
  }

  function UiDetectedLine(activityName: string): string
  {
    Label + " [UI DETECTED] " + activityName + " found. Injecting hooks now..."
  }

  function RequestHookLine(attempt: HookAttempt): string
  {
    match attempt
    case Installed => Label + " Hooked Request successfully."
    case Failed(m) => Label + " Failed to hook Request: " + Show(m)
  }

  function ResponseHookLine(attempt: HookAttempt): string
  {
    match attempt
    case Installed => Label + " Hooked Response successfully."
    case Failed(m) => Label + " Failed to hook Response: " + Show(m)
  }

  function RequestLine(api: string, data: string): string
  {
    "[REQ] -> API: " + api + " | Data: " + data
  }

  function ResponseLine(id: int32, result: Option<string>): string
  {
    "[RES] <- ID: " + IntToDecimal(id as int) + " | Result: " + Show(result)
  }

  const StartServerLine := Label + " start embeddedServer at 0.0.0.0:" + IntToDecimal(ServerPort)

  const ReceiveLine := Label + " receive callWX api data，to do invokeMethod"

  function CacheLine(instance: Option<Handle>): string
  {
    Label + " check appBrandCommonBindingJniInstance cache: " + ShowHandle(instance)
  }

  function InvokeSuccessLine(appid: string, counter: int32): string
  {
    Label + " invokeMethod success: " + CallId(appid, counter)
  }

  function InvokeExceptionLine(message: Option<string>): string
  {
    Label + " Exception in callWX with cached instance: " + Show(message)
  }

  const NullInstanceLine := Label + " AppBrandCommonBindingJniInstance is null"

  /** The string `callWX` returns: `"$callAppId-$callWXAsyncRequestCounter"`. */
  function CallId(appid: string, counter: int32): string
  {
    appid + "-" + IntToDecimal(counter as int)
  }

  /** For one app, the id determines the counter value it was formed from. */
  lemma CallIdInjective(appid: string, c1: int32, c2: int32)
    requires CallId(appid, c1) == CallId(appid, c2)
    ensures c1 == c2
  {
    assert IntToDecimal(c1 as int) == CallId(appid, c1)[|appid| + 1..];
    assert IntToDecimal(c2 as int) == CallId(appid, c2)[|appid| + 1..];
    Injective(c1 as int, c2 as int);
  }

  /**
   * While the counter is non-negative the id determines both the app id and the counter:
   * the counter's digits are everything after the last '-'.
   */
  lemma CallIdDeterminesPair(a1: string, c1: int32, a2: string, c2: int32)
    requires c1 >= 0 && c2 >= 0
    requires CallId(a1, c1) == CallId(a2, c2)
    ensures a1 == a2 && c1 == c2
  {
    var s, d1, d2 := CallId(a1, c1), NatToDecimal(c1 as nat), NatToDecimal(c2 as nat);
    assert s == a1 + "-" + d1 == a2 + "-" + d2;
    DashBeforeDigits(a1, d1);
    DashBeforeDigits(a2, d2);
    if |d1| < |d2| {
      assert false;
    } else if |d2| < |d1| {
      assert false;
    }
    assert a1 == s[..|a1|] == a2;
    CallIdInjective(a1, c1, c2);
  }

  /** In `a + "-" + d` with `d` all digits, the '-' at index `|a|` is the last one. */
  lemma DashBeforeDigits(a: string, d: string)
    requires AllDigits(d)
    ensures (a + "-" + d)[|a|] == '-'
    ensures forall k :: |a| < k < |a| + 1 + |d| ==> IsDigit((a + "-" + d)[k])
  {
    forall k | |a| < k < |a| + 1 + |d| ensures IsDigit((a + "-" + d)[k]) {
      assert (a + "-" + d)[k] == d[k - |a| - 1];
    }
  }

  /** Once the counter has wrapped to negative values, two different apps can receive the same id. */
  lemma CallIdAmbiguousWhenNegative()
    ensures CallId("a", -1) == CallId("a-", 1)
  {
    assert NatToDecimal(1) == "1";
  }

  /** The ids of `n` consecutive, non-overlapping calls from one app are pairwise distinct while `n <= 2^32`. */
  lemma ConsecutiveCallIdsDistinct(appid: string, start: int32, i: nat, j: nat)
    requires i < j < i + Modulus
    ensures CallId(appid, Advance(start, i)) != CallId(appid, Advance(start, j))
  {
    AdvanceDistinct(start, i, j);
    if CallId(appid, Advance(start, i)) == CallId(appid, Advance(start, j)) {
      CallIdInjective(appid, Advance(start, i), Advance(start, j));
    }
  }

  /** The guard of the `/CallWX` route: all three fields are non-empty. */
  predicate HasAllParameters(request: CallWXRequest)
  {
    |request.appid| > 0 && |request.jsapiName| > 0 && |request.data| > 0
  }

  /** The throwable escapes `callWX`: the invoke was attempted and threw something that is not an `Exception`. */
  predicate Escapes(instance: Option<Handle>, outcome: InvokeOutcome)
  {
    instance.Some? && outcome.Threw? && outcome.thrown.kind == Error
  }

  /** The lines `callWX` logs, in order, given the incremented counter. */
  function CallWXLines(appid: string, counter: int32, instance: Option<Handle>, outcome: InvokeOutcome): (lines: seq<string>)
    ensures |lines| >= 2 && lines[..2] == [ReceiveLine, CacheLine(instance)]
    ensures instance.None? ==> lines == [ReceiveLine, CacheLine(instance), NullInstanceLine]
    ensures instance.Some? && outcome.Returned? ==> lines[|lines| - 1] == InvokeSuccessLine(appid, counter)
    ensures |lines| == if Escapes(instance, outcome) then 2 else 3
  {
    [ReceiveLine, CacheLine(instance)] +
    match instance
    case None => [NullInstanceLine]
    case Some(_) =>
      match outcome
      case Returned => [InvokeSuccessLine(appid, counter)]
      case Threw(t) => if t.kind == Exception then [InvokeExceptionLine(t.message)] else []
  }

  /** The lines logged when a package is loaded. */
  function LoadPackageLines(packageName: string, processName: string): seq<string>
  {
    if packageName != WeChatPackage then []
    else if !Contains(processName, AppBrandProcess) then [FoundAppLine(packageName, processName)]
    else [FoundAppLine(packageName, processName), ActiveLine(processName)]
  }

  class WeChatHook {
    var serverStarted: bool
    var callWXAsyncRequestCounter: int32
    var callAppId: Option<string>
    var logList: seq<string>
    var appBrandCommonBindingJniInstance: Option<Handle>

    /** The log never holds more than `MaxLogSize` entries. */
    ghost predicate Valid()
      reads this
    {
      |logList| <= MaxLogSize
    }

    constructor ()
      ensures Valid()
      ensures !serverStarted && callWXAsyncRequestCounter == 0 && callAppId == None
      ensures logList == [] && appBrandCommonBindingJniInstance == None
    {
      serverStarted := false;
      callWXAsyncRequestCounter := 0;
      callAppId := None;
      logList := [];
      appBrandCommonBindingJniInstance := None;
    }

    /** `log(message)`: drop the oldest entry of a full list, then append. */
    method Log(message: string)
      requires Valid()
      modifies this`logList
      ensures Valid()
      ensures logList == Pushed(old(logList), message)
    {
      if |logList| >= MaxLogSize {
        logList := logList[1..];
      }
      logList := logList + [message];
    }

    /** `handleLoadPackage`: only WeChat's package goes on to `setupHooks`. */
    method HandleLoadPackage(packageName: string, processName: string) returns (hook: ActivityCreateHook?)
      requires Valid()
      modifies this`logList
      ensures Valid()
      ensures hook != null <==> packageName == WeChatPackage && Contains(processName, AppBrandProcess)
      ensures hook != null ==> fresh(hook) && hook.host == this && !hook.hooksApplied
      ensures logList == PushedAll(old(logList), LoadPackageLines(packageName, processName))
    {
      hook := null;
      if packageName == WeChatPackage {
        var line := FoundAppLine(packageName, processName);
        Log(line);
        PushedAllSnoc(old(logList), [], line);
        hook := SetupHooks(processName);
        if hook != null {
          PushedAllSnoc(old(logList), [line], ActiveLine(processName));
        }
      }
    }

    /**
     * `setupHooks`: in a mini-program process, log and install the `Activity.onCreate` hook,
     * returned as the object that owns its `hooksApplied` flag.
     */
    method SetupHooks(processName: string) returns (hook: ActivityCreateHook?)
      requires Valid()
      modifies this`logList
      ensures Valid()
      ensures hook != null <==> Contains(processName, AppBrandProcess)
      ensures hook != null ==> fresh(hook) && hook.host == this && !hook.hooksApplied
      ensures hook == null ==> logList == old(logList)
      ensures hook != null ==> logList == Pushed(old(logList), ActiveLine(processName))
    {
      if !Contains(processName, AppBrandProcess) {
        return null;
      }
      Log(ActiveLine(processName));
      hook := new ActivityCreateHook(this);
    }

    /** `injectRealHooks`: try both hooks; succeed when at least one was installed. */
    method InjectRealHooks(requestHook: HookAttempt, responseHook: HookAttempt) returns (success: bool)
      requires Valid()
      modifies this`logList
      ensures Valid()
      ensures success <==> requestHook.Installed? || responseHook.Installed?
      ensures logList == PushedAll(old(logList), [RequestHookLine(requestHook), ResponseHookLine(responseHook)])
    {
      success := false;
      Log(RequestHookLine(requestHook));
      if requestHook.Installed? {
        success := true;
      }
      Log(ResponseHookLine(responseHook));
      if responseHook.Installed? {
        success := true;
      }
      PushedAllSnoc(old(logList), [RequestHookLine(requestHook)], ResponseHookLine(responseHook));
      PushedAllSnoc(old(logList), [], RequestHookLine(requestHook));
    }

    /** The request hook body (before `nativeInvokeHandler`): cache the instance, last write wins, and log. */
    method OnNativeInvokeHandler(instance: Handle, api: string, data: string)
      requires Valid()
      modifies this`appBrandCommonBindingJniInstance, this`logList
      ensures Valid()
      ensures appBrandCommonBindingJniInstance == Some(instance)
      ensures logList == Pushed(old(logList), RequestLine(api, data))
    {
      appBrandCommonBindingJniInstance := Some(instance);
      Log(RequestLine(api, data));
    }

    /** The response hook body (before `invokeCallbackHandler`): it only logs. */
    method OnInvokeCallbackHandler(callbackId: int32, result: Option<string>)
      requires Valid()
      modifies this`logList
      ensures Valid()
      ensures logList == Pushed(old(logList), ResponseLine(callbackId, result))
    {
      Log(ResponseLine(callbackId, result));
    }

    /** `startServer`: logs the address; the server itself is not modelled. */
    method StartServer()
      requires Valid()
      modifies this`logList
      ensures Valid()
      ensures logList == Pushed(old(logList), StartServerLine)
    {
      Log(StartServerLine);
    }

    /** `startServerIfNeeded`: start the server only on the first call. */
    method StartServerIfNeeded() returns (started: bool)
      requires Valid()
      modifies this`serverStarted, this`logList
      ensures Valid()
      ensures serverStarted
      ensures started <==> !old(serverStarted)
      ensures logList == if started then Pushed(old(logList), StartServerLine) else old(logList)
    {
      started := !serverStarted;
      if !serverStarted {
        StartServer();
        serverStarted := true;
      }
    }

    /**
     * `callWX`: record the app id, increment the counter, log, and call the cached instance with
     * the new counter as callback id. `attempted` is the call made, if any. An `Exception` from
     * the call is logged and swallowed; an `Error` escapes as `Err`.
     */
    method CallWX(appid: string, jsapiName: string, data: string, outcome: InvokeOutcome)
      returns (r: Result<string, Throwable>, attempted: Option<Invocation>)
      requires Valid()
      modifies this`callAppId, this`callWXAsyncRequestCounter, this`logList
      ensures Valid()
      ensures callAppId == Some(appid)
      ensures callWXAsyncRequestCounter == Inc(old(callWXAsyncRequestCounter))
      ensures attempted == match appBrandCommonBindingJniInstance
        case None => None
        case Some(h) => Some(Invocation(h, jsapiName, data, "{}", callWXAsyncRequestCounter, true, 0, 0))
      ensures !Escapes(appBrandCommonBindingJniInstance, outcome) ==>
        r == Ok(CallId(appid, callWXAsyncRequestCounter))
      ensures Escapes(appBrandCommonBindingJniInstance, outcome) ==> r == Err(outcome.thrown)
      ensures logList == PushedAll(old(logList),
        CallWXLines(appid, callWXAsyncRequestCounter, appBrandCommonBindingJniInstance, outcome))
    {
      ghost var lines: seq<string> := [];
      callAppId := Some(appid);
      callWXAsyncRequestCounter := Inc(callWXAsyncRequestCounter);
      Log(ReceiveLine);
      PushedAllSnoc(old(logList), lines, ReceiveLine);
      lines := lines + [ReceiveLine];
      var cacheLine := CacheLine(appBrandCommonBindingJniInstance);
      Log(cacheLine);
      PushedAllSnoc(old(logList), lines, cacheLine);
      lines := lines + [cacheLine];
      r := Ok(CallId(appid, callWXAsyncRequestCounter));
      attempted := None;
      var last: seq<string> := [];
      match appBrandCommonBindingJniInstance {
        case Some(instance) =>
          attempted := Some(Invocation(instance, jsapiName, data, "{}", callWXAsyncRequestCounter, true, 0, 0));
          match outcome {
            case Returned =>
              last := [InvokeSuccessLine(appid, callWXAsyncRequestCounter)];
            case Threw(t) =>
              if t.kind == Exception {
                last := [InvokeExceptionLine(t.message)];
              } else {
                r := Err(t);
              }
          }
        case None =>
          last := [NullInstanceLine];
      }
      if last != [] {
        Log(last[0]);
        PushedAllSnoc(old(logList), lines, last[0]);
        assert lines + [last[0]] == lines + last;
      } else {
        assert lines + last == lines;
      }
      assert lines + last == CallWXLines(appid, callWXAsyncRequestCounter, appBrandCommonBindingJniInstance, outcome);
    }

    /**
     * The `/CallWX` route: an incomplete request gets 400 "Missing parameters" and changes nothing;
     * a complete one runs `callWX`, and a throwable escaping it becomes a 500.
     */
    method PostCallWX(request: CallWXRequest, outcome: InvokeOutcome)
      returns (response: Response, attempted: Option<Invocation>)
      requires Valid()
      modifies this`callAppId, this`callWXAsyncRequestCounter, this`logList
      ensures Valid()
      ensures !HasAllParameters(request) ==>
        response == BadRequest("Missing parameters") && attempted == None && unchanged(this)
      ensures HasAllParameters(request) ==>
        && callAppId == Some(request.appid)
        && callWXAsyncRequestCounter == Inc(old(callWXAsyncRequestCounter))
        && attempted == (match appBrandCommonBindingJniInstance
             case None => None
             case Some(h) => Some(Invocation(h, request.jsapiName, request.data, "{}",
                                             callWXAsyncRequestCounter, true, 0, 0)))
        && response == (if Escapes(appBrandCommonBindingJniInstance, outcome)
                        then InternalServerError(outcome.thrown.message)
                        else ResultBody(CallId(request.appid, callWXAsyncRequestCounter)))
        && logList == PushedAll(old(logList), CallWXLines(request.appid, callWXAsyncRequestCounter,
                                                          appBrandCommonBindingJniInstance, outcome))
    {
      if HasAllParameters(request) {
        var r;
        r, attempted := CallWX(request.appid, request.jsapiName, request.data, outcome);
        match r {
          case Ok(id) => response := ResultBody(id);
          case Err(t) => response := InternalServerError(t.message);
        }
      } else {
        response := BadRequest("Missing parameters");
        attempted := None;
      }
    }
  }

  /** The anonymous `Activity.onCreate` hook installed by `setupHooks`, which owns `hooksApplied`. */
  class ActivityCreateHook {
    const host: WeChatHook
    var hooksApplied: bool

    constructor (host: WeChatHook)
      ensures this.host == host && !hooksApplied
    {
      this.host := host;
      hooksApplied := false;
    }

    /**
     * `afterHookedMethod`: the first time an AppBrandUI activity appears, inject the real hooks;
     * the flag is set only when that injection reported success. `injected` says whether
     * `injectRealHooks` ran.
     */
    method AfterHookedMethod(activityName: string, requestHook: HookAttempt, responseHook: HookAttempt)
      returns (injected: bool)
      requires host.Valid()
      modifies this, host`logList
      ensures host.Valid()
      ensures injected <==> Contains(activityName, AppBrandUI) && !old(hooksApplied)
      ensures hooksApplied <==> old(hooksApplied) || (injected && (requestHook.Installed? || responseHook.Installed?))
      ensures !injected ==> host.logList == old(host.logList)
      ensures injected ==> host.logList == PushedAll(old(host.logList),
        [UiDetectedLine(activityName), RequestHookLine(requestHook), ResponseHookLine(responseHook)])
    {
      injected := Contains(activityName, AppBrandUI) && !hooksApplied;
      if injected {
        var line := UiDetectedLine(activityName);
        host.Log(line);
        var ok := host.InjectRealHooks(requestHook, responseHook);
        if ok {
          hooksApplied := true;
        }
        assert [line, RequestHookLine(requestHook), ResponseHookLine(responseHook)][1..]
            == [RequestHookLine(requestHook), ResponseHookLine(responseHook)];
      }
    }
  }
}
