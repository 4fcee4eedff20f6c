/**
 * The video stream component: it sends a downsampled frame on every capture tick, measures
 * the latency of every annotation the server returns, keeps the whole latency history,
 * chooses its rate from the mean of that history, draws the returned box scaled to the
 * displayed video, and retries its own subscription up to five times.
 *
 * The DOM is reduced to what the component reads (the two video sizes) and writes (the
 * canvas size and what was last drawn on it, and the status readouts). Time is an input.
 */
module VideoStream {
  import opened Wrappers
  import opened LatencyStats
  import opened RateController
  import opened RetryPolicy
  import opened Geometry
  import opened StatusText
  import Websocket

  /** The endpoint the component always connects to. */
  const ServerUrl: string := "ws://13.51.158.147:5000"
  const MaxReconnectAttempts: nat := 5
  /** The rate before any annotation has been received. */
  const InitialFps: int := 30
  /** The size of a canvas element whose width and height were never set. */
  const DefaultCanvasWidth: nat := 300
  const DefaultCanvasHeight: nat := 150

  /** A parsed annotation: the box in native video pixels, its colour and three texts. */
  datatype Annotation = Annotation(
    box: Rect,
    colorRectangle: seq<real>,
    orientation: Option<string>,
    text4User: Option<string>,
    textFacDis: Option<string>)

  /** The message the component sends: `{frame}`, the base64 JPEG of the downsampled frame. */
  datatype Outbound = FrameMessage(frame: string)

  /** What the component reads from the video element. */
  datatype VideoElement = VideoElement(videoWidth: nat, videoHeight: nat, clientWidth: nat, clientHeight: nat)

  /** What was last drawn on the shared canvas. */
  datatype CanvasContent =
    | Blank
    | VideoFrame(width: real, height: real)
    | Outline(box: Rect, color: seq<real>)

  /** The status readouts written by `updateMetrics`. */
  datatype Metrics = Metrics(
    orientation: string,
    text4User: string,
    textFacDis: string,
    lastLatency: real,
    avgLatency: real)

  /**
   * The readouts for an annotation, given the latency history that includes its sample.
   * Each text is its own field or 'N/A', so no readout is ever blank.
   */
  function MetricsFor(a: Annotation, samples: seq<real>): (m: Metrics)
    requires samples != []
    ensures m.lastLatency == samples[|samples| - 1]
    ensures m.avgLatency * |samples| as real == Sum(samples)
    ensures m.orientation == ShowOrUnavailable(a.orientation)
    ensures m.text4User == ShowOrUnavailable(a.text4User)
    ensures m.textFacDis == ShowOrUnavailable(a.textFacDis)
  {
    Metrics(
      ShowOrUnavailable(a.orientation),
      ShowOrUnavailable(a.text4User),
      ShowOrUnavailable(a.textFacDis),
      samples[|samples| - 1],
      Mean(samples))
  }

  /** Each text readout depends only on its own field: one missing field leaves the others as sent. */
  lemma FallbackPerField(a: Annotation, samples: seq<real>)
    requires samples != []
    requires a.orientation == None
    requires a.text4User.Some? && a.text4User.value != ""
    ensures MetricsFor(a, samples).orientation == Unavailable
    ensures MetricsFor(a, samples).text4User == a.text4User.value
    ensures MetricsFor(a, samples).textFacDis == MetricsFor(a.(orientation := Some("up")), samples).textFacDis
  {
  }

  class VideoStreamComponent {
    const service: Websocket.WebsocketService<Option<Annotation>, Outbound>
    /** `document.querySelector('video')` found an element. */
    var hasVideo: bool
    /** The overlay canvas and its 2D context were found. */
    var hasContext: bool
    var bbox: Option<Annotation>
    var latencyList: seq<real>
    var startTime: real
    var fps: int
    var reconnectAttempts: nat
    /** Reconnect timers the component scheduled and that have not fired. */
    var pendingReconnects: nat
    /** The capture interval is subscribed. */
    var capturing: bool
    /** The period the capture interval was created with. */
    var capturePeriodMs: real
    var canvasWidth: nat
    var canvasHeight: nat
    var canvas: CanvasContent
    var metrics: Option<Metrics>

    ghost predicate Valid()
      reads this
    {
      && reconnectAttempts <= MaxReconnectAttempts
      && fps == (if latencyList == [] then InitialFps else FpsFor(Mean(latencyList)))
      && (metrics.Some? ==> latencyList != [])
    }

    constructor (service: Websocket.WebsocketService<Option<Annotation>, Outbound>)
      ensures Valid()
      ensures this.service == service
      ensures !hasVideo && !hasContext && bbox == None && !capturing
      ensures latencyList == [] && startTime == 0.0 && fps == InitialFps
      ensures reconnectAttempts == 0 && pendingReconnects == 0
      ensures canvasWidth == DefaultCanvasWidth && canvasHeight == DefaultCanvasHeight && canvas == Blank
      ensures metrics == None
    {
      this.service := service;
      hasVideo, hasContext := false, false;
      bbox := None;
      latencyList, startTime, fps := [], 0.0, InitialFps;
      reconnectAttempts, pendingReconnects := 0, 0;
      capturing, capturePeriodMs := false, 0.0;
      canvasWidth, canvasHeight, canvas := DefaultCanvasWidth, DefaultCanvasHeight, Blank;
      metrics := None;
    }

    /** `ngOnInit`: look up the elements, connect, and ask for the camera. */
    method Init(videoFound: bool, contextFound: bool)
      requires Valid() && service.Valid()
      modifies this`hasVideo, this`hasContext, service`urls, service`states
      ensures Valid() && service.Valid()
      ensures hasVideo == videoFound && hasContext == contextFound
      ensures service.urls == old(service.urls) + [ServerUrl]
      ensures service.states == old(service.states) + [Websocket.Connecting]
    {
      hasVideo, hasContext := videoFound, contextFound;
      ConnectWebSocket();
    }

    /** `connectWebSocket`: connect the service to the fixed endpoint. */
    method ConnectWebSocket()
      requires service.Valid()
      modifies service`urls, service`states
      ensures service.Valid()
      ensures service.urls == old(service.urls) + [ServerUrl]
      ensures service.states == old(service.states) + [Websocket.Connecting]
    {
      service.Connect(ServerUrl);
    }

    /**
     * The camera stream arrived: `captureFrames` creates the interval once, with the period
     * of the rate at this moment; later rate changes do not touch it.
     */
    method StreamAcquired()
      requires Valid()
      modifies this`capturing, this`capturePeriodMs
      ensures Valid()
      ensures capturing
      ensures capturePeriodMs * fps as real == 1000.0
    {
      capturePeriodMs := 1000.0 / fps as real;
      capturing := true;
    }

    /**
     * One tick of the capture interval: downsample to 320 pixels wide on the canvas, note
     * the send time, and send the encoded frame.
     */
    method CaptureTick(video: VideoElement, encodedFrame: string, now: real)
      requires Valid() && service.Valid()
      requires capturing
      requires hasVideo && hasContext ==> video.videoWidth != 0
      modifies this`canvasWidth, this`canvasHeight, this`canvas, this`startTime, service`outbox
      ensures Valid() && service.Valid()
      ensures old(hasVideo && hasContext) ==>
        && canvasWidth == TargetWidth
        && canvasHeight == TargetHeight(video.videoWidth, video.videoHeight).Floor
        && canvas == VideoFrame(TargetWidth as real, TargetHeight(video.videoWidth, video.videoHeight))
        && startTime == now
        && service.outbox == (if service.IsOpen() then old(service.outbox) + [FrameMessage(encodedFrame)]
                              else old(service.outbox))
      ensures !old(hasVideo && hasContext) ==>
        && canvasWidth == old(canvasWidth) && canvasHeight == old(canvasHeight) && canvas == old(canvas)
        && startTime == old(startTime) && service.outbox == old(service.outbox)
    {
      if hasVideo && hasContext {
        var targetHeight := TargetHeight(video.videoWidth, video.videoHeight);
        canvasWidth := TargetWidth;
        canvasHeight := targetHeight.Floor;
        canvas := VideoFrame(TargetWidth as real, targetHeight);
        startTime := now;
        service.Send(FrameMessage(encodedFrame));
      }
    }

    /**
     * `receiveBoundingBox`: record `now - startTime`, refresh the readouts, draw the box and
     * choose the rate from the mean of the whole history.
     */
    method ReceiveBoundingBox(data: Option<Annotation>, now: real, video: VideoElement)
      requires Valid()
      requires data.Some? && hasVideo && hasContext ==> video.videoWidth != 0 && video.videoHeight != 0
      modifies this`bbox, this`latencyList, this`metrics, this`canvasWidth, this`canvasHeight,
               this`canvas, this`fps
      ensures Valid()
      ensures bbox == data
      ensures latencyList == old(latencyList) + [now - startTime]
      ensures fps == FpsFor(Mean(latencyList))
      ensures metrics == if data.Some? then Some(MetricsFor(data.value, latencyList)) else old(metrics)
      ensures data.Some? && hasVideo && hasContext ==>
        && canvasWidth == video.clientWidth && canvasHeight == video.clientHeight
        && canvas == Outline(ScaleBox(data.value.box, video.clientWidth, video.clientHeight,
                                      video.videoWidth, video.videoHeight),
                             data.value.colorRectangle)
      ensures !(data.Some? && hasVideo && hasContext) ==>
        canvasWidth == old(canvasWidth) && canvasHeight == old(canvasHeight) && canvas == old(canvas)
    {
      bbox := data;
      var latency := now - startTime;
      latencyList := latencyList + [latency];
      UpdateMetrics();
      DrawBoundingBox(video);
      AdjustFpsBasedOnLatency();
    }

    /** `updateMetrics`: the readouts, when the annotation is present. */
    method UpdateMetrics()
      requires latencyList != []
      modifies this`metrics
      ensures metrics == if bbox.Some? then Some(MetricsFor(bbox.value, latencyList)) else old(metrics)
    {
      if bbox.Some? {
        metrics := Some(MetricsFor(bbox.value, latencyList));
      }
    }

    /** `drawBoundingBox`: resize the canvas to the displayed video and stroke the scaled box. */
    method DrawBoundingBox(video: VideoElement)
      requires bbox.Some? && hasVideo && hasContext ==> video.videoWidth != 0 && video.videoHeight != 0
      modifies this`canvasWidth, this`canvasHeight, this`canvas
      ensures bbox.Some? && hasVideo && hasContext ==>
        && canvasWidth == video.clientWidth && canvasHeight == video.clientHeight
        && canvas == Outline(ScaleBox(bbox.value.box, video.clientWidth, video.clientHeight,
                                      video.videoWidth, video.videoHeight),
                             bbox.value.colorRectangle)
      ensures !(bbox.Some? && hasVideo && hasContext) ==>
        canvasWidth == old(canvasWidth) && canvasHeight == old(canvasHeight) && canvas == old(canvas)
    {
      if bbox.Some? && hasVideo && hasContext {
        canvasWidth, canvasHeight := video.clientWidth, video.clientHeight;
        canvas := Blank;
        var scaled := ScaleBox(bbox.value.box, canvasWidth, canvasHeight, video.videoWidth, video.videoHeight);
        canvas := Outline(scaled, bbox.value.colorRectangle);
      }
    }

    /** `adjustFpsBasedOnLatency`: the rate for the mean of the whole history. */
    method AdjustFpsBasedOnLatency()
      requires latencyList != []
      modifies this`fps
      ensures fps == FpsFor(Mean(latencyList))
    {
      var avgLatency := Mean(latencyList);
      if avgLatency > HighLatencyMs {
        fps := LowFps;
      } else if avgLatency > ModerateLatencyMs {
        fps := MediumFps;
      } else {
        fps := FullFps;
      }
    }

    /** `handleWebSocketError`. */
    method HandleWebSocketError()
      requires Valid()
      modifies this`reconnectAttempts, this`pendingReconnects
      ensures Valid()
      ensures reconnectAttempts == NextAttempts(old(reconnectAttempts), MaxReconnectAttempts)
      ensures pendingReconnects
              == old(pendingReconnects) + if Schedules(old(reconnectAttempts), MaxReconnectAttempts) then 1 else 0
    {
      AttemptReconnect();
    }

    /** `handleWebSocketClose`: the same `attemptReconnect` as the error path. */
    method HandleWebSocketClose()
      requires Valid()
      modifies this`reconnectAttempts, this`pendingReconnects
      ensures Valid()
      ensures reconnectAttempts == NextAttempts(old(reconnectAttempts), MaxReconnectAttempts)
      ensures pendingReconnects
              == old(pendingReconnects) + if Schedules(old(reconnectAttempts), MaxReconnectAttempts) then 1 else 0
    {
      AttemptReconnect();
    }

    /** `attemptReconnect`: below five, count one more attempt and schedule one reconnect. */
    method AttemptReconnect()
      requires Valid()
      modifies this`reconnectAttempts, this`pendingReconnects
      ensures Valid()
      ensures reconnectAttempts == NextAttempts(old(reconnectAttempts), MaxReconnectAttempts)
      ensures pendingReconnects
              == old(pendingReconnects) + if Schedules(old(reconnectAttempts), MaxReconnectAttempts) then 1 else 0
    {
      if reconnectAttempts < MaxReconnectAttempts {
        reconnectAttempts := reconnectAttempts + 1;
        pendingReconnects := pendingReconnects + 1;
      }
    }

    /** A reconnect timer of the component fires: `connectWebSocket` again; the counter stays. */
    method ReconnectTimerFires()
      requires Valid() && service.Valid()
      requires pendingReconnects > 0
      modifies this`pendingReconnects, service`urls, service`states
      ensures Valid() && service.Valid()
      ensures pendingReconnects == old(pendingReconnects) - 1
      ensures service.urls == old(service.urls) + [ServerUrl]
      ensures service.states == old(service.states) + [Websocket.Connecting]
    {
      pendingReconnects := pendingReconnects - 1;
      ConnectWebSocket();
    }

    /** `ngOnDestroy`: stop capturing and disconnect the service. */
    method Destroy()
      requires Valid() && service.Valid()
      modifies this`capturing, service`states
      ensures Valid() && service.Valid()
      ensures !capturing
      ensures old(service.states) == [] ==> service.states == []
      ensures old(service.states) != [] ==>
        service.states == old(service.states)[|old(service.states)| - 1 :=
                            Websocket.AfterCloseRequest(old(service.states)[|old(service.states)| - 1])]
    {
      capturing := false;
      service.Disconnect();
    }
  }

  /**
   * An annotation for native 640x480 video displayed at 320x240 is drawn halved, and its
   * missing orientation is shown as unavailable while the advisory text is shown as sent.
   */
  method OverlayScenario()
  {
    var service := new Websocket.WebsocketService<Option<Annotation>, Outbound>();
    var c := new VideoStreamComponent(service);
    c.Init(true, true);
    var video := VideoElement(640, 480, 320, 240);
    var a := Annotation(Rect(100.0, 50.0, 40.0, 20.0), [0.0, 255.0, 0.0], None, Some("Move left"), None);
    c.ReceiveBoundingBox(Some(a), 120.0, video);
    ScaleExample();
    assert c.canvas == Outline(Rect(50.0, 25.0, 20.0, 10.0), [0.0, 255.0, 0.0]);
    assert c.metrics.Some? && c.metrics.value.orientation == Unavailable;
    assert c.metrics.value.text4User == "Move left";
  }
}
