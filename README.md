# Latency-driven video annotation client, modelled in Dafny

This project models the core of an Angular client. The client streams camera frames over a
websocket to an annotation server and draws the bounding box each reply carries. It also
tunes its capture rate from the measured round-trip latency. Two cooperating pieces are
modelled:

- **`VideoStreamComponent`.** It owns the latency history (one sample `now - startTime` per
  received annotation) and the rate decision (15, 20 or 30 fps from the mean of the *whole*
  history). It also does the fixed-width downsample (320 pixels wide, aspect ratio kept) and
  the scale of the returned box from native video pixels to displayed pixels, with
  independent X and Y factors. It keeps its own reconnect counter, capped at 5 and never
  reset, and shows `'N/A'` for every missing text field.
- **`WebsocketService`.** It owns the transport. Its reconnect counter is capped at 10 and
  reset on every `onopen`. `onclose` and `onerror` run the same `reconnect()`, which later
  reconnects to the current socket's URL. `send` writes only while the current socket is
  OPEN. `disconnect` requests close of the current socket.

Modules, one per concept:

| file | module | contents |
|---|---|---|
| wrappers.dfy | `Wrappers` | `Option` |
| latency_stats.dfy | `LatencyStats` | the left-fold `Sum`, `Mean`, order independence, bounds |
| rate_controller.dfy | `RateController` | the three-band step `FpsFor` and the rate history |
| retry_policy.dfy | `RetryPolicy` | the capped counter both classes use, and its behaviour over a failure episode |
| geometry.dfy | `Geometry` | downsample height and the box scale transform |
| status_text.dfy | `StatusText` | the `value \|\| 'N/A'` fallback |
| websocket_service.dfy | `Websocket` | class `WebsocketService<In, Out>` |
| video_stream.dfy | `VideoStream` | class `VideoStreamComponent` |

Numbers are Dafny `real`, so arithmetic is exact. Video and layout sizes, and canvas
attributes, are `nat`, as they are integers in the DOM.

The platform socket has two parts: its URL and its ready state (CONNECTING, OPEN, CLOSING,
CLOSED). An old socket's handlers stay attached after `connect` creates a new one, so the
service keeps every socket it has created. `this.websocket` is the newest of them. Platform
events (`OnOpen`, `OnClose`, `OnError`, `OnMessage`) name the socket they fire on.

A `setTimeout` is a pending-timer count, and `ReconnectTimerFires` fires one of those
timers. Two failure events can each schedule a timer, so a single flag would not be enough.
`performance.now()` is the `now` parameter. The capture interval is a `capturing` flag plus
the period it was created with.

Behaviour of the code worth knowing:

- The capture period `1000 / fps` is computed once, when the camera stream arrives. A later
  rate change does not reschedule capture. `StreamAcquired` alone sets `capturePeriodMs`;
  `ReceiveBoundingBox` changes `fps` but cannot touch the period.
- The code has no guard for zero video dimensions, in the downsample or in the box scale. A
  non-zero size is therefore a `requires` of `CaptureTick` and `ReceiveBoundingBox`, and
  neither method skips anything.
- `disconnect()` calls `close()`, and the `onclose` handler that follows always calls
  `reconnect()`. There is no separate "intentional disconnect" state.
- `onerror` followed by `onclose` schedules two reconnects and uses two attempts; the
  service does not serialise reconnects. `CloseAfterErrorScenario` shows this.
- `send` on a socket that is not open only logs. It returns nothing and queues nothing.
- The canvas used for the downsample is the same element as the overlay. Each capture tick
  resizes it to 320 pixels wide, and each annotation resizes it to the displayed video size.

## Model

| member | source | states |
|---|---|---|
| LatencyStats.Sum | src/app/video-stream/video-stream.component.ts:165 | the `reduce` from 0: an empty history sums to 0 and one sample sums to itself (bounds on the sum are `SumAtLeast`, `SumAtMost` and `SumAbove`) |
| LatencyStats.SumAtLeast | src/app/video-stream/video-stream.component.ts:165 | if every sample is at least lo, the sum is at least count × lo |
| LatencyStats.SumAtMost | src/app/video-stream/video-stream.component.ts:165 | if every sample is at most hi, the sum is at most count × hi |
| LatencyStats.SumAbove | src/app/video-stream/video-stream.component.ts:165 | if every sample of a non-empty history exceeds lo, the sum exceeds count × lo |
| LatencyStats.Mean | src/app/video-stream/video-stream.component.ts:165 | defined only for a non-empty history; the mean times the number of samples is the left-fold sum of the samples |
| LatencyStats.MeanPush | src/app/video-stream/video-stream.component.ts:114-118 | the mean after pushing one sample is (old mean × old count + sample) / (old count + 1) |
| LatencyStats.SumPermutation | src/app/video-stream/video-stream.component.ts:179 | the sum of the latency history does not depend on the arrival order (same multiset, same sum) |
| LatencyStats.MeanPermutation | src/app/video-stream/video-stream.component.ts:179 | the mean the rate decision uses is order-independent |
| LatencyStats.MeanWithin | src/app/video-stream/video-stream.component.ts:179 | if every sample lies in [lo, hi], so does the mean |
| LatencyStats.MeanAbove | src/app/video-stream/video-stream.component.ts:179 | if every sample exceeds a bound, so does the mean |
| LatencyStats.MeanAtMost | src/app/video-stream/video-stream.component.ts:179 | if no sample exceeds a bound, neither does the mean |
| RateController.FpsFor | src/app/video-stream/video-stream.component.ts:180-186 | the rate is always 15, 20 or 30; 15 exactly when avg > 100; 20 exactly when 50 < avg ≤ 100; 30 exactly when avg ≤ 50 |
| RateController.FpsMonotone | src/app/video-stream/video-stream.component.ts:180-186 | a higher average latency never gives a higher rate |
| RateController.FpsBoundaries | src/app/video-stream/video-stream.component.ts:180-186 | 100 gives 20 and 50 gives 30 (the thresholds are strict); 150 gives 15, 75 gives 20, 10 gives 30 |
| RateController.FpsHistory | src/app/video-stream/video-stream.component.ts:112-118 | one decision per received annotation; decision k is the rate for the mean of the first k+1 samples |
| RateController.AverageNotLastSample | src/app/video-stream/video-stream.component.ts:178-186 | samples 120, 130, 110, 90, 40 give rates 15, 15, 15, 15, 20, while the last sample alone would give 30 |
| RateController.FpsFromUniformSamples | src/app/video-stream/video-stream.component.ts:178-186 | a history whose samples all exceed 100 gives 15; one whose samples are all ≤ 50 gives 30 |
| RetryPolicy.Schedules | src/app/websocket.service.ts:40 | the `attempts < max` guard (also video-stream.component.ts:67): a failure schedules a reconnect exactly when the counter is below the cap, so scheduling leaves room for one more attempt and a counter at the cap schedules nothing |
| RetryPolicy.NextAttempts | src/app/websocket.service.ts:39-47 | one failure raises the counter by exactly one when it is below the cap and leaves it unchanged otherwise; it never passes the cap and never decreases |
| RetryPolicy.EpisodeBounded | src/app/websocket.service.ts:39-47 | after k failures with no open, the counter is min(start + k, cap), and the reconnects scheduled number exactly its rise, at most cap − start |
| RetryPolicy.ExhaustedStaysExhausted | src/app/video-stream/video-stream.component.ts:66-74 | once the counter is at the cap, any number of further failures schedules nothing and leaves it at the cap |
| Geometry.TargetHeight | src/app/video-stream/video-stream.component.ts:94-96 | the downsampled height h satisfies h × originalWidth = originalHeight × 320, and is non-negative; requires originalWidth ≠ 0 |
| Geometry.AspectPreserved | src/app/video-stream/video-stream.component.ts:95-96 | targetHeight / 320 = originalHeight / originalWidth |
| Geometry.DownsampleOfTargetWidth | src/app/video-stream/video-stream.component.ts:95-96 | a frame already 320 wide keeps its height |
| Geometry.ScaleBox | src/app/video-stream/video-stream.component.ts:133-141 | x and w are scaled by displayWidth / videoWidth, and y and h by displayHeight / videoHeight, independently; requires non-zero video size |
| Geometry.ScaleExample | src/app/video-stream/video-stream.component.ts:133-141 | native 640×480 shown at 320×240 maps {100, 50, 40, 20} to {50, 25, 20, 10} |
| Geometry.ScaleIdentity | src/app/video-stream/video-stream.component.ts:133-141 | shown at native size, the box is unchanged |
| Geometry.ScaleRoundTrip | src/app/video-stream/video-stream.component.ts:133-141 | scaling from display back to native recovers the original box |
| Geometry.ScaleStaysInside | src/app/video-stream/video-stream.component.ts:133-141 | a box inside the native frame is drawn inside the displayed frame |
| StatusText.ShowOrUnavailable | src/app/video-stream/video-stream.component.ts:160-162 | an absent or empty field shows 'N/A'; a non-empty one shows itself; the readout is never blank |
| StatusText.ShowIdempotent | src/app/video-stream/video-stream.component.ts:160-162 | showing an already shown text again changes nothing |
| VideoStream.MetricsFor | src/app/video-stream/video-stream.component.ts:150-165 | the readouts show the last sample and a mean that times the count is the history's sum; each text readout is `field \|\| 'N/A'` of its own field, so none is blank |
| VideoStream.FallbackPerField | src/app/video-stream/video-stream.component.ts:160-162 | a missing orientation shows 'N/A' while a present advisory text shows as sent, and the third text does not depend on the orientation |
| Websocket.AfterCloseRequest | src/app/websocket.service.ts:61-65 | `close()` moves a CONNECTING or OPEN socket to CLOSING and leaves a CLOSING or CLOSED one as it is |
| Websocket.WebsocketService.constructor | src/app/websocket.service.ts:8-14 | no socket, counter 0, no timer, nothing sent or published |
| Websocket.WebsocketService.Connect | src/app/websocket.service.ts:16-17 | one new CONNECTING socket for the given URL becomes the current socket; nothing else changes |
| Websocket.WebsocketService.Reconnect | src/app/websocket.service.ts:39-47 | below 10 attempts, count one more and schedule exactly one timer; at 10, change nothing |
| Websocket.WebsocketService.OnOpen | src/app/websocket.service.ts:19-22 | the socket becomes OPEN and the counter is reset to 0, whichever socket opened |
| Websocket.WebsocketService.OnClose | src/app/websocket.service.ts:24-27 | the socket is CLOSED, and the counter and timers change exactly as one `Reconnect` changes them |
| Websocket.WebsocketService.OnError | src/app/websocket.service.ts:33-36 | the counter and timers change exactly as `OnClose` changes them; no socket state changes |
| Websocket.WebsocketService.OnMessage | src/app/websocket.service.ts:29-31 | the message is appended once to what subscribers have received, so the earlier sequence is a prefix of the new one |
| Websocket.WebsocketService.ReconnectTimerFires | src/app/websocket.service.ts:43 | one timer is consumed and a new CONNECTING socket is created for the current socket's URL, so reconnects never change the endpoint |
| Websocket.WebsocketService.IsOpen | src/app/websocket.service.ts:50 | the `send` guard: true exactly when a current socket exists and its ready state is OPEN (so not CONNECTING, CLOSING or CLOSED) |
| Websocket.WebsocketService.Send | src/app/websocket.service.ts:49-55 | the outbox grows by exactly this payload iff a current socket exists and is OPEN; otherwise it is unchanged |
| Websocket.WebsocketService.Disconnect | src/app/websocket.service.ts:61-65 | with no socket, nothing changes; otherwise only the current socket's state changes, as `close()` changes it |
| VideoStream.VideoStreamComponent.constructor | src/app/video-stream/video-stream.component.ts:17-23 | an empty history, send time 0, 30 fps, counter 0 |
| VideoStream.VideoStreamComponent.Init | src/app/video-stream/video-stream.component.ts:25-40 | notes which elements were found and connects the service to the fixed server URL |
| VideoStream.VideoStreamComponent.ConnectWebSocket | src/app/video-stream/video-stream.component.ts:47-54 | one new CONNECTING socket for the fixed server URL |
| VideoStream.VideoStreamComponent.StreamAcquired | src/app/video-stream/video-stream.component.ts:76-88 | capture starts, with a period that times the current fps is 1000 ms |
| VideoStream.VideoStreamComponent.CaptureTick | src/app/video-stream/video-stream.component.ts:87-107 | with video and context present: canvas 320 wide and ⌊targetHeight⌋ high, the frame drawn at 320 × targetHeight, the send time is `now`, and the frame is sent iff the service is open; otherwise nothing changes |
| VideoStream.VideoStreamComponent.ReceiveBoundingBox | src/app/video-stream/video-stream.component.ts:112-119 | exactly one sample `now − startTime` is appended with earlier samples unchanged; the rate is the one for the mean of the whole history; readouts and overlay are refreshed when the annotation is present |
| VideoStream.VideoStreamComponent.UpdateMetrics | src/app/video-stream/video-stream.component.ts:150-175 | when the annotation is present, the readouts are those of `MetricsFor`; never runs on an empty history |
| VideoStream.VideoStreamComponent.DrawBoundingBox | src/app/video-stream/video-stream.component.ts:122-148 | when annotation, context and video are present, the canvas takes the displayed size and holds exactly the scaled box in the given colour; otherwise nothing changes |
| VideoStream.VideoStreamComponent.AdjustFpsBasedOnLatency | src/app/video-stream/video-stream.component.ts:178-187 | the rate is the step function of the mean of the whole history |
| VideoStream.VideoStreamComponent.AttemptReconnect | src/app/video-stream/video-stream.component.ts:66-74 | below 5, count one more and schedule exactly one reconnect; at 5, nothing; the counter never passes 5 and no method resets it |
| VideoStream.VideoStreamComponent.HandleWebSocketError | src/app/video-stream/video-stream.component.ts:56-59 | the effect of `AttemptReconnect` |
| VideoStream.VideoStreamComponent.HandleWebSocketClose | src/app/video-stream/video-stream.component.ts:61-64 | the same effect as the error path |
| VideoStream.VideoStreamComponent.ReconnectTimerFires | src/app/video-stream/video-stream.component.ts:70 | one timer is consumed and the service gets a new socket to the fixed server URL; the component's counter is unchanged |
| VideoStream.VideoStreamComponent.Destroy | src/app/video-stream/video-stream.component.ts:189-194 | capture stops and the service's current socket is asked to close |

Two scenario methods check the contracts from a caller's side.
`Websocket.CloseAfterErrorScenario` covers error followed by close: two attempts, two
reconnects to the same URL, and sending only once a socket is open.
`VideoStream.OverlayScenario` covers the halved box and its `'N/A'` readout.

## Left out

- The browser calls are not modelled: `getUserMedia`, `querySelector`/`getElementById`, the canvas drawing calls, `toDataURL`, base64 splitting, `JSON.parse` and `JSON.stringify`. The encoded frame is an input string, and a parsed inbound message is an `Option<Annotation>`, where `None` stands for a falsy parse result.
- Camera failure is not modelled: if the camera is refused, `StreamAcquired` is never called.
- The `typeof document` check of `ngOnInit` is not modelled.
- The status elements are assumed present. The `toFixed(3)` latency string and the box readout string are not modelled; the readouts keep the numbers.
- Timer delays (2000 ms and 5000 ms) and the rxjs `interval` are not modelled. Timers are pending counts, fired by explicit events in any order the caller chooses.
- rxjs subscription mechanics are not modelled, including the extra subscription each `connectWebSocket` call adds. The component's error and complete handlers are modelled as callable events, even though the service's subject only ever emits `next`.
- IEEE-754 rounding, NaN and Infinity are not modelled. In particular, the NaN produced by an annotation without coordinates is outside the model.
- The platform's normalisation of `WebSocket.url` (for instance, a trailing `/`) is not modelled; a socket's URL is the string it was created with.
- The `SyntaxError` that `new WebSocket` throws for an invalid URL is not modelled.
- Platform readiness rules appear only as event preconditions: `OnOpen` only on a CONNECTING socket, `OnMessage` only on an OPEN one. Otherwise the platform's own ready-state changes are left to the caller.
- The outbox does not record which socket carried each payload.
- StatusText.ShowOrUnavailable: text fields are strings or absent, so JavaScript falsiness of other value types (0, false, NaN) is not modelled.
- VideoStream.VideoStreamComponent.constructor: the component's template is not part of this model. The canvas starts at the HTML default of 300×150.
- VideoStream.VideoStreamComponent.ReceiveBoundingBox: a parsed message always carries `colorRectangle` in this model. A truthy message without it makes `drawBoundingBox` throw, so `adjustFpsBasedOnLatency` never runs for that sample. The sample stays in the history, the readouts are already updated and `fps` keeps its old value. The model does not capture that state, in which `fps` no longer matches the mean of the history.
- VideoStream.VideoStreamComponent.DrawBoundingBox: on a message without `colorRectangle`, the source resizes the canvas to the client size and clears it, then throws before `strokeRect`. This abort path is not modelled; the model always draws the outline.
- Console logging is not modelled.
