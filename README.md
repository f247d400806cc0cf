# WeChatHook bookkeeping, modelled in Dafny

`WeChatHook` is an Xposed module loaded into WeChat's mini-program (AppBrand) processes. It waits for
the AppBrandUI activity, installs two hooks on the mini-program's native bridge, caches the native
bridge object it sees in the request hook, and writes every step to a log list that keeps the most
recent 1500 lines. It also defines a `POST /CallWX` route inside `startServer`. That route calls the
cached object's `nativeInvokeHandler` with a running counter as callback id and answers
`"<appid>-<counter>"` at once. Nothing in `WeChatHook.kt` calls `startServerIfNeeded`, the only
caller of `startServer`. So as the file stands the server is never started and the route is never
reached; the model describes what the route and `callWX` do once called.

The model covers the state the class keeps and how each operation changes it:

- `LogBuffer` (log_buffer.dfy): `Pushed` is one `log` call on the list, `PushedAll` a batch of calls.
  `Window` is the reference definition, the last 1500 entries of the whole history. The lemmas prove
  that the list stays within 1500 entries, that the new message comes last, and that the oldest entry
  is dropped first. They also prove that the list always equals the window over everything logged.
- `KotlinInt` (kotlin_int.dfy): the Kotlin `Int` counter as `int32`. `Inc` is `++` with wrap-around, and
  `Advance` is `k` increments. The lemmas prove that `k` increments add `k` modulo 2^32 and that no
  value repeats within 2^32 sequential calls. Overlapping calls are not covered; see "## Left out".
- `Decimal` (decimal.dfy): `Int.toString` as used in string templates, with a parser as its partner.
  The lemmas prove a round trip and injectivity.
- `Text` (text.dfy): `String.contains`, proved equal to "there is an index where the substring occurs".
- `CloudFunctionHook` (wechat_hook.dfy): the class `WeChatHook`, whose fields are `serverStarted`,
  `callWXAsyncRequestCounter`, `callAppId`, `logList` and `appBrandCommonBindingJniInstance`. Its methods
  are `log`, `handleLoadPackage`, `setupHooks`, `injectRealHooks`, the two hook bodies,
  `startServer`, `startServerIfNeeded`, `callWX` and the `/CallWX` route. The anonymous
  `Activity.onCreate` hook object owns `hooksApplied`; it is the class `ActivityCreateHook`. The
  module also holds the text of every log line and the result id `CallId`.

The outcomes of foreign calls are parameters of the methods:

- what `findAndHookMethod` did for each hook (`HookAttempt`);
- what the reflective `nativeInvokeHandler` call did (`InvokeOutcome`: it returned, or it threw an
  `Exception` or an `Error`);
- the text an object's `toString()` gives (`Handle`).

`callWX` catches only `Exception`. So the model lets an `Error` escape: by then the counter has
already been incremented and two lines logged. The route then answers 500, as the `StatusPages`
handler does. That handler sends `cause.localizedMessage`. The model takes it to equal the
throwable's `message`, which is the JVM default.

`WeChatHook.kt` has no table of pending calls. It does not wait for the response, has no timeout,
and does not refuse a call when no native instance is cached. Instead:

- `callWX` returns the id at once;
- with no cached instance it still increments the counter and still returns an id, and only logs
  that the instance is null;
- the response hook only logs;
- the counter wraps around instead of staying positive.

## Model

| member | source | states |
|---|---|---|
| `LogBuffer.PushedShape` | app/src/main/java/com/dawnnnnnn/wechat_cloud_function_hook/WeChatHook.kt:162-170 | From a list of at most 1500 entries, one `log` call leaves at most 1500. The message comes last. Below the bound the call only appends. At the bound the list keeps its size and drops exactly the oldest entry, with the rest in order. |
| `LogBuffer.PushedWindow` | app/src/main/java/com/dawnnnnnn/wechat_cloud_function_hook/WeChatHook.kt:164-169 | One `log` call on the window over a history gives the window over that history plus the new message. |
| `LogBuffer.PushedAllWindow` | app/src/main/java/com/dawnnnnnn/wechat_cloud_function_hook/WeChatHook.kt:164-169 | Logging any batch of messages on the window over a history gives exactly the window over the history followed by the batch. |
| `LogBuffer.LastMessagesKept` | app/src/main/java/com/dawnnnnnn/wechat_cloud_function_hook/WeChatHook.kt:38-39 | Starting from the empty list, logging `1500 + k` messages leaves exactly the last 1500 of them, oldest first. |
| `LogBuffer.PushedAllBounded` | app/src/main/java/com/dawnnnnnn/wechat_cloud_function_hook/WeChatHook.kt:162-170 | No batch of `log` calls takes a list of at most 1500 entries past 1500. |
| `LogBuffer.PushedAllSnoc` | app/src/main/java/com/dawnnnnnn/wechat_cloud_function_hook/WeChatHook.kt:162-170 | Logging a batch and then one more message is the same as logging the longer batch. |
| `CloudFunctionHook.WeChatHook.constructor` | app/src/main/java/com/dawnnnnnn/wechat_cloud_function_hook/WeChatHook.kt:32-40 | Initial state: server not started, counter 0, no app id, empty log, no cached instance. |
| `CloudFunctionHook.WeChatHook.Log` | app/src/main/java/com/dawnnnnnn/wechat_cloud_function_hook/WeChatHook.kt:162-170 | `log(m)` replaces the list with one `log` step (`Pushed`), keeps it within 1500 entries, and changes no other field. |
| `CloudFunctionHook.WeChatHook.HandleLoadPackage` | app/src/main/java/com/dawnnnnnn/wechat_cloud_function_hook/WeChatHook.kt:138-143 | A hook object is created iff the package is `com.tencent.mm` and the process name contains `com.tencent.mm:appbrand`. The new object is fresh, tied to this instance, and has `hooksApplied` false. The log gets the "Found app" line only for WeChat, then the "Active in process" line only in an AppBrand process. |
| `CloudFunctionHook.WeChatHook.SetupHooks` | app/src/main/java/com/dawnnnnnn/wechat_cloud_function_hook/WeChatHook.kt:46-78 | Outside an AppBrand process nothing is logged or installed. Inside one, the "Active in process" line is logged and a fresh `onCreate` hook object with `hooksApplied` false is returned. |
| `CloudFunctionHook.ActivityCreateHook.constructor` | app/src/main/java/com/dawnnnnnn/wechat_cloud_function_hook/WeChatHook.kt:59-60 | A new `onCreate` hook starts with `hooksApplied` false and is tied to its `WeChatHook`. |
| `CloudFunctionHook.ActivityCreateHook.AfterHookedMethod` | app/src/main/java/com/dawnnnnnn/wechat_cloud_function_hook/WeChatHook.kt:62-75 | Injection runs iff the activity name contains the AppBrandUI class name and `hooksApplied` is still false. Once it is set, no injection happens again and nothing is logged. The flag becomes true only when an injection ran and installed at least one hook. When injection runs, the log gets the "UI DETECTED" line and then the two hook-result lines. |
| `CloudFunctionHook.WeChatHook.InjectRealHooks` | app/src/main/java/com/dawnnnnnn/wechat_cloud_function_hook/WeChatHook.kt:80-136 | Returns true iff at least one of the two installations did not throw. First the request-hook line is logged (success or failure message), then the response-hook line. |
| `CloudFunctionHook.WeChatHook.OnNativeInvokeHandler` | app/src/main/java/com/dawnnnnnn/wechat_cloud_function_hook/WeChatHook.kt:97-102 | The request hook caches the object it sees, so the last write wins, and logs the `[REQ]` line with the api and the data. |
| `CloudFunctionHook.WeChatHook.OnInvokeCallbackHandler` | app/src/main/java/com/dawnnnnnn/wechat_cloud_function_hook/WeChatHook.kt:122-126 | The response hook only appends the `[RES]` line with the id and the result. No other state changes. |
| `CloudFunctionHook.WeChatHook.StartServer` | app/src/main/java/com/dawnnnnnn/wechat_cloud_function_hook/WeChatHook.kt:172-173 | Starting the server logs the "start embeddedServer at 0.0.0.0:59999" line. |
| `CloudFunctionHook.WeChatHook.StartServerIfNeeded` | app/src/main/java/com/dawnnnnnn/wechat_cloud_function_hook/WeChatHook.kt:145-150 | The server is started iff it was not started before, so at most once. `serverStarted` is true afterwards. The start line is logged only on that first call. |
| `CloudFunctionHook.WeChatHook.CallWX` | app/src/main/java/com/dawnnnnnn/wechat_cloud_function_hook/WeChatHook.kt:205-240 | On every path: `callAppId` becomes the caller's appid, and the counter goes up by exactly one (`Inc`, wrapping at `Int.MAX_VALUE`). With no cached instance nothing is invoked. With one, it is invoked with the api, the data, `"{}"`, the new counter as callback id, `true`, `0` and `0`. The result is `appid-counter` unless the invoke threw an `Error`; an `Exception` is swallowed and logged. The log gets exactly the lines `CallWXLines` lists. |
| `CloudFunctionHook.CallWXLines` | app/src/main/java/com/dawnnnnnn/wechat_cloud_function_hook/WeChatHook.kt:208-237 | `callWX` always logs the receive line and the cache line first. Without an instance the third line is the "is null" line. After a successful invoke the last line is the success line with the id. Only an escaping `Error` leaves out the third line. |
| `CloudFunctionHook.WeChatHook.PostCallWX` | app/src/main/java/com/dawnnnnnn/wechat_cloud_function_hook/WeChatHook.kt:189-197 | If the appid, jsapi_name or data is empty, the answer is BadRequest "Missing parameters" and no state changes. Otherwise `callWX` runs: the counter goes up by one. With no cached instance nothing is invoked. With one, it is invoked with the request's jsapi_name and data, `"{}"`, the new counter as callback id, `true`, `0` and `0`. The answer is the `result` body with `appid-counter`, or a 500 carrying the `localizedMessage` (taken equal to `message`) of an escaping `Error`. |
| `CloudFunctionHook.CallIdInjective` | app/src/main/java/com/dawnnnnnn/wechat_cloud_function_hook/WeChatHook.kt:239 | For one app, two ids are equal only if the counter values were equal. |
| `CloudFunctionHook.CallIdDeterminesPair` | app/src/main/java/com/dawnnnnnn/wechat_cloud_function_hook/WeChatHook.kt:239 | While the counter is non-negative, the id determines both the appid and the counter. |
| `CloudFunctionHook.CallIdAmbiguousWhenNegative` | app/src/main/java/com/dawnnnnnn/wechat_cloud_function_hook/WeChatHook.kt:239 | Once the counter has wrapped negative, this is no longer so: `CallId("a", -1) == CallId("a-", 1)`. |
| `CloudFunctionHook.ConsecutiveCallIdsDistinct` | app/src/main/java/com/dawnnnnnn/wechat_cloud_function_hook/WeChatHook.kt:205-239 | The ids one app receives from up to 2^32 consecutive, non-overlapping calls are pairwise distinct. |
| `KotlinInt.Inc` | app/src/main/java/com/dawnnnnnn/wechat_cloud_function_hook/WeChatHook.kt:207 | `++` on a Kotlin `Int` is addition of one modulo 2^32, read back into the `Int` range (`Wrap`). So it adds one below `Int.MAX_VALUE` and goes to `Int.MIN_VALUE` from it. |
| `KotlinInt.AdvanceIsWrap` | app/src/main/java/com/dawnnnnnn/wechat_cloud_function_hook/WeChatHook.kt:207 | `k` increments add `k` modulo 2^32. |
| `KotlinInt.AdvanceFromZero` | app/src/main/java/com/dawnnnnnn/wechat_cloud_function_hook/WeChatHook.kt:33 | From the initial 0, the counter equals the number of calls until it first overflows. |
| `KotlinInt.AdvanceDistinct` | app/src/main/java/com/dawnnnnnn/wechat_cloud_function_hook/WeChatHook.kt:207 | Fewer than 2^32 increments, one after another, never bring the counter back to an earlier value. |
| `Decimal.NatToDecimal` | app/src/main/java/com/dawnnnnnn/wechat_cloud_function_hook/WeChatHook.kt:239 | The rendering of a natural number is a non-empty string of digits with no leading zero. |
| `Decimal.RoundTrip` | app/src/main/java/com/dawnnnnnn/wechat_cloud_function_hook/WeChatHook.kt:239 | Parsing the rendering of any integer, negative ones included, gives the integer back. |
| `Decimal.Injective` | app/src/main/java/com/dawnnnnnn/wechat_cloud_function_hook/WeChatHook.kt:239 | Distinct integers render as distinct strings. |
| `Text.ContainsIffOccurs` | app/src/main/java/com/dawnnnnnn/wechat_cloud_function_hook/WeChatHook.kt:48 | The left-to-right search behind `contains`, used for the process and activity names, succeeds iff the substring occurs at some index. |

## Left out

- Xposed itself is not modelled: `findAndHookMethod`, `MethodHookParam`, `Activity` and `ClassLoader`. The outcome of each hook installation in `injectRealHooks` is a parameter. Installing the `Activity.onCreate` hook in `setupHooks` is taken to succeed. The hook callbacks are methods that any caller may invoke; the model does not track whether their hook was installed.
- The copy of each log line sent to `XposedBridge.log` is not modelled, because it is framework output.
- Java reflection (`getMethod`, `isAccessible`, `invoke`) is reduced to an `InvokeOutcome` parameter.
- CloudFunctionHook.WeChatHook.CallWX and CloudFunctionHook.WeChatHook.PostCallWX: the reflective call goes through the hooked `nativeInvokeHandler`, so in the running app the request hook also fires during `callWX`. That logs a `[REQ]` line and stores the same instance again. The log that both contracts state (`CallWXLines`) leaves that line out, because it comes from Xposed's dispatch, which the model does not include.
- The casts in the hook bodies (`param.thisObject as Activity`, `args[0] as String`) are not modelled. Their arguments are taken to have the right types.
- The Ktor/Netty server is not modelled: the server start itself, gson marshalling, the `/` and `/wx_log` routes, and the decoding of the request body (gson can leave fields null). What remains is the `/CallWX` guard and its three answers.
- Concurrency is not modelled; every operation runs to completion before the next starts. The model does not capture:
  - `synchronized(logList)` and the unsynchronized read of `logList` in `/wx_log`;
  - the race between concurrent requests in `callWX`. `callWXAsyncRequestCounter++` is a plain read-modify-write on a shared field, so two overlapping calls can get the same callback id. The returned string reads the shared `callAppId` and the counter again, so an id can carry another caller's appid or counter.

  So `KotlinInt.AdvanceDistinct`, `CloudFunctionHook.ConsecutiveCallIdsDistinct` and `CloudFunctionHook.WeChatHook.CallWX` hold for calls that do not overlap only.
- Nothing in `WeChatHook.kt` calls `startServerIfNeeded`. It is modelled as written.
- Unused state and dead code are not modelled: `hookedAppIds`, `requestLabel`, the commented-out `hookInvokeHandlersIfNeeded`, the empty `initZygote`, and the unused `android.R.attr.classLoader` import.
- Starting the embedded server (`embeddedServer(...).start`) is taken to succeed. If it threw (for example, because port 59999 is taken), `serverStarted` would stay false and the exception would propagate; the model does not include that path.
- `Object.toString()` of the cached instance and `Throwable.message` are foreign. They are carried as given strings: `Handle.rendering`, and the optional `message`. `Throwable.localizedMessage` is taken to equal `message`.
