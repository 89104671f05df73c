/** `MainWindow`: the application window. It owns the monitoring tab, keeps
    the running flag of the image-processing worker, guards the remote
    inference start and stop by the device state, writes every status
    message to the status bar and the log, and routes the processor's
    callbacks to the tab. Remote answers arrive as parameters. */
module MainWindow {
  import MainTab
  import DetectionProcessor

  type Remote<T> = DetectionProcessor.Remote<T>

  /** The dictionary a remote start or stop returns: its `"result"` and
      `"message"` entries, each possibly absent. */
  datatype Reply = Reply(result: MainTab.Option<string>, message: MainTab.Option<string>)

  /** The remote calls a window operation makes. */
  datatype Call = GetConnectionState | RemoteStart | RemoteStop

  /** The data a processor callback carries. */
  datatype Data =
    | Text(text: string)
    | Frame(width: nat, height: nat)
    | Labels(labels: seq<string>)
    | StateReport(connection: string, operation: string, timestamp: string)

  /** The tab operation a callback tag is handed to. */
  datatype Handler = ToStatus | ToImage | ToDetectionInfo | ToDeviceState | Ignored

  const READY: string := "準備完了"
  const PROCESSING_STARTED: string := "処理を開始しました"
  const PROCESSING_STOPPED: string := "処理を停止しました"
  const INFERENCE_STARTED: string := "推論を開始しました"
  const INFERENCE_STOPPED: string := "推論を停止しました"
  const START_ERROR: string := "推論開始エラー: "
  const STOP_ERROR: string := "推論停止エラー: "
  const START_REFUSED: string := "推論開始条件を満たしていません: "
  const STOP_REFUSED: string := "推論停止条件を満たしていません: "
  const STATE_ERROR: string := "デバイス状態取得エラー: "
  const UNKNOWN_ERROR: string := "Unknown error"

  /** The handler of each callback tag. */
  function Route(tag: string): Handler {
    if tag == "status" then ToStatus
    else if tag == "image" then ToImage
    else if tag == "detection" then ToDetectionInfo
    else if tag == "device_state" then ToDeviceState
    else Ignored
  }

  /** Each of the four tags goes to its own handler, no two to the same one,
      and every other tag is ignored. */
  lemma RouteExactlyOne(tag: string)
    ensures Route("status") == ToStatus && Route("image") == ToImage
    ensures Route("detection") == ToDetectionInfo && Route("device_state") == ToDeviceState
    ensures Route(tag) == Ignored <==> tag !in {"status", "image", "detection", "device_state"}
  {
  }

  /** The data each tag's handler takes: text for a status, an image, a label
      list, or the three strings of a device-state report. */
  predicate Fits(tag: string, data: Data) {
    match Route(tag)
    case ToStatus => data.Text?
    case ToImage => data.Frame?
    case ToDetectionInfo => data.Labels?
    case ToDeviceState => data.StateReport?
    case Ignored => true
  }

  /** The log line `update_status` writes for a message at a time. */
  function LogLine(now: string, message: string): string {
    "[" + now + "] " + message + "\n"
  }

  /** The log lines of several messages written at the same time. */
  function LogLines(now: string, messages: seq<string>): (lines: string)
    ensures messages == [] ==> lines == []
    ensures |messages| == 1 ==> lines == LogLine(now, messages[0])
    ensures |messages| == 2 ==> lines == LogLine(now, messages[0]) + LogLine(now, messages[1])
  {
    if messages == [] then [] else LogLines(now, messages[..|messages| - 1]) + LogLine(now, messages[|messages| - 1])
  }

  /** The text of a reply's `"message"`, `"Unknown error"` when absent. */
  function ReplyMessage(reply: Reply): string {
    if reply.message.Some? then reply.message.value else UNKNOWN_ERROR
  }

  /** The remote calls `start_inference` makes: the state query, then the
      remote start only for a device that is connected and idle. */
  function StartInferenceCalls(state: Remote<(string, string)>): (calls: seq<Call>)
    ensures |calls| > 0 && calls[0] == GetConnectionState
    ensures RemoteStart in calls <==> state.Answer? && MainTab.CanStartInference(state.value.0, state.value.1)
    ensures RemoteStop !in calls
  {
    if state.Answer? && MainTab.CanStartInference(state.value.0, state.value.1) then [GetConnectionState, RemoteStart]
    else [GetConnectionState]
  }

  /** The remote calls `stop_inference` makes: the state query, then the
      remote stop only for a device that is connected and not idle. */
  function StopInferenceCalls(state: Remote<(string, string)>): (calls: seq<Call>)
    ensures |calls| > 0 && calls[0] == GetConnectionState
    ensures RemoteStop in calls <==> state.Answer? && MainTab.CanStopInference(state.value.0, state.value.1)
    ensures RemoteStart !in calls
  {
    if state.Answer? && MainTab.CanStopInference(state.value.0, state.value.1) then [GetConnectionState, RemoteStop]
    else [GetConnectionState]
  }

  /** The remote start and the remote stop are never both reachable from the
      same device state, and for a connected device exactly one is; the
      window's guards are the ones the tab enables its buttons by. */
  lemma InferenceGuardsExclusive(state: Remote<(string, string)>)
    ensures !(RemoteStart in StartInferenceCalls(state) && RemoteStop in StopInferenceCalls(state))
    ensures state.Answer? && state.value.0 == "Connected" ==>
      (RemoteStart in StartInferenceCalls(state)) != (RemoteStop in StopInferenceCalls(state))
    ensures state.Raised? ==> StartInferenceCalls(state) == StopInferenceCalls(state) == [GetConnectionState]
  {
    if state.Answer? {
      MainTab.InferenceButtonsExclusive(state.value.0, state.value.1);
    }
  }

  /** Whether a remote start or stop answered `"SUCCESS"`. */
  predicate Succeeded(reply: Remote<Reply>) {
    reply.Answer? && reply.value.result == MainTab.Some("SUCCESS")
  }

  /** Whether `start_inference` got a `"SUCCESS"` reply to a remote start. */
  predicate StartSucceeded(state: Remote<(string, string)>, reply: Remote<Reply>) {
    RemoteStart in StartInferenceCalls(state) && Succeeded(reply)
  }

  /** The status messages `start_inference` writes once the remote start
      has been called. */
  function StartReplyMessages(reply: Remote<Reply>, running: bool): (messages: seq<string>)
    ensures messages != []
    ensures Succeeded(reply) ==> messages[0] == INFERENCE_STARTED
    ensures |messages| == 2 <==> Succeeded(reply) && !running
  {
    if reply.Raised? then [START_ERROR + reply.message]
    else if reply.value.result != MainTab.Some("SUCCESS") then [START_ERROR + ReplyMessage(reply.value)]
    else if running then [INFERENCE_STARTED]
    else [INFERENCE_STARTED, PROCESSING_STARTED]
  }

  /** The status messages `start_inference` writes, given whether processing
      was already running: a success also starts processing, which announces
      itself unless it was running. */
  function StartInferenceMessages(state: Remote<(string, string)>, reply: Remote<Reply>, running: bool): (messages: seq<string>)
    ensures messages != []
    ensures StartSucceeded(state, reply) ==> messages[0] == INFERENCE_STARTED
    ensures |messages| == 2 <==> StartSucceeded(state, reply) && !running
  {
    if state.Raised? then [START_ERROR + state.message]
    else if !MainTab.CanStartInference(state.value.0, state.value.1) then [START_REFUSED + state.value.0 + " - " + state.value.1]
    else StartReplyMessages(reply, running)
  }

  /** The status message `stop_inference` writes. */
  function StopInferenceMessage(state: Remote<(string, string)>, reply: Remote<Reply>): (message: string)
    ensures message == INFERENCE_STOPPED <==>
      RemoteStop in StopInferenceCalls(state) && Succeeded(reply)
  {
    if state.Raised? then StopErrorText(state.message)
    else if !MainTab.CanStopInference(state.value.0, state.value.1) then STOP_REFUSED + state.value.0 + " - " + state.value.1
    else if reply.Raised? then StopErrorText(reply.message)
    else if reply.value.result != MainTab.Some("SUCCESS") then StopErrorText(ReplyMessage(reply.value))
    else INFERENCE_STOPPED
  }

  /** A stop error message; it is never the success message. */
  function StopErrorText(message: string): (text: string)
    ensures text != INFERENCE_STOPPED
  {
    assert (STOP_ERROR + message)[2] != INFERENCE_STOPPED[2];
    STOP_ERROR + message
  }

  /** The status message `check_device_status` writes. */
  function DeviceStatusMessage(state: Remote<(string, string)>): string {
    if state.Raised? then STATE_ERROR + state.message
    else (if state.value.0 == "Connected" then "デバイス接続中" else "デバイス未接続") + " (" + state.value.1 + ")"
  }

  class KumakitaApp {
    /** The monitoring tab. */
    const tab: MainTab.MainTab
    /** Whether the running flag of the processing worker is set. */
    var running: bool
    /** How many processing workers have been started. */
    var workers: nat
    /** The text of the status bar. */
    var status: string

    /** Every started worker is counted. */
    predicate Valid()
      reads this
    {
      running ==> workers > 0
    }

    /** `__init__`, given the answer to the first device-state query: a fresh
        tab, the flag clear, no worker, and the status bar, first ready, then
        overwritten by `check_device_status`. */
    constructor (state: Remote<(string, string)>, now: string)
      ensures Valid() && fresh(tab)
      ensures !running && workers == 0
      ensures status == DeviceStatusMessage(state) && tab.log == LogLine(now, status)
      ensures tab.startEnabled && !tab.stopEnabled && tab.detectionLines == [] && tab.image == MainTab.None
      ensures state.Answer? ==> tab.connectionState == state.value.0 && tab.operationState == state.value.1
      ensures state.Answer? ==> tab.lastUpdated == now && tab.colour == MainTab.StateColour(state.value.0)
      ensures state.Answer? ==> tab.inferenceStartEnabled == MainTab.CanStartInference(state.value.0, state.value.1)
      ensures state.Answer? ==> tab.inferenceStopEnabled == MainTab.CanStopInference(state.value.0, state.value.1)
      ensures state.Raised? ==> tab.connectionState == "Unknown" && tab.operationState == "Unknown"
      ensures state.Raised? ==> tab.lastUpdated == "-" && tab.colour == MainTab.Default
      ensures state.Raised? ==> tab.inferenceStartEnabled && !tab.inferenceStopEnabled
    {
      tab := new MainTab.MainTab();
      running, workers, status := false, 0, READY;
      new;
      CheckDeviceStatus(state, now);
    }

    /** `update_status`: the message on the status bar and, stamped with the
        time, in the log. */
    method UpdateStatus(message: string, now: string)
      modifies this`status, tab`log
      ensures status == message && tab.log == old(tab.log) + LogLine(now, message)
    {
      status := message;
      tab.UpdateLog("[" + now + "] " + message);
    }

    /** `start_processing`: when the flag is clear, set it, start one worker,
        switch the display buttons and announce it; when it is set, nothing. */
    method StartProcessing(now: string)
      requires Valid()
      modifies this`running, this`workers, this`status, tab`log, tab`startEnabled, tab`stopEnabled
      ensures Valid() && running
      ensures old(running) ==> workers == old(workers) && status == old(status) && tab.log == old(tab.log)
      ensures old(running) ==> tab.startEnabled == old(tab.startEnabled) && tab.stopEnabled == old(tab.stopEnabled)
      ensures !old(running) ==> workers == old(workers) + 1 && status == PROCESSING_STARTED
      ensures !old(running) ==> tab.log == old(tab.log) + LogLine(now, PROCESSING_STARTED)
      ensures !old(running) ==> !tab.startEnabled && tab.stopEnabled
    {
      if !running {
        running := true;
        workers := workers + 1;
        tab.SetStartState(true);
        UpdateStatus(PROCESSING_STARTED, now);
      }
    }

    /** `stop_processing`: when the flag is set, clear it, switch the display
        buttons and announce it; when it is clear, nothing. */
    method StopProcessing(now: string)
      requires Valid()
      modifies this`running, this`status, tab`log, tab`startEnabled, tab`stopEnabled
      ensures Valid() && !running
      ensures !old(running) ==> status == old(status) && tab.log == old(tab.log)
      ensures !old(running) ==> tab.startEnabled == old(tab.startEnabled) && tab.stopEnabled == old(tab.stopEnabled)
      ensures old(running) ==> status == PROCESSING_STOPPED && tab.log == old(tab.log) + LogLine(now, PROCESSING_STOPPED)
      ensures old(running) ==> tab.startEnabled && !tab.stopEnabled
    {
      if running {
        running := false;
        tab.SetStartState(false);
        UpdateStatus(PROCESSING_STOPPED, now);
      }
    }

    /** `start_inference`, given the device state and the reply of the remote
        start: the remote start only for a connected, idle device; processing
        starts only on a `"SUCCESS"` reply. */
    method StartInference(state: Remote<(string, string)>, reply: Remote<Reply>, now: string) returns (calls: seq<Call>)
      requires Valid()
      modifies this`running, this`workers, this`status, tab`log, tab`startEnabled, tab`stopEnabled
      ensures Valid()
      ensures calls == StartInferenceCalls(state)
      ensures running == (old(running) || StartSucceeded(state, reply))
      ensures workers == if StartSucceeded(state, reply) && !old(running) then old(workers) + 1 else old(workers)
      ensures StartSucceeded(state, reply) && !old(running) ==> !tab.startEnabled && tab.stopEnabled
      ensures !(StartSucceeded(state, reply) && !old(running)) ==>
        tab.startEnabled == old(tab.startEnabled) && tab.stopEnabled == old(tab.stopEnabled)
      ensures var messages := StartInferenceMessages(state, reply, old(running));
        status == messages[|messages| - 1] && tab.log == old(tab.log) + LogLines(now, messages)
    {
      calls := [GetConnectionState];
      if state.Raised? {
        UpdateStatus(START_ERROR + state.message, now);
        return;
      }
      var (connection, operation) := state.value;
      if connection == "Connected" && operation == "Idle" {
        calls := calls + [RemoteStart];
        HandleStartReply(reply, now);
      } else {
        UpdateStatus(START_REFUSED + connection + " - " + operation, now);
      }
    }

    /** The part of `start_inference` after the remote start: a `"SUCCESS"`
        reply is announced and starts processing, any other reply is
        reported as an error. */
    method HandleStartReply(reply: Remote<Reply>, now: string)
      requires Valid()
      modifies this`running, this`workers, this`status, tab`log, tab`startEnabled, tab`stopEnabled
      ensures Valid()
      ensures running == (old(running) || Succeeded(reply))
      ensures workers == if Succeeded(reply) && !old(running) then old(workers) + 1 else old(workers)
      ensures Succeeded(reply) && !old(running) ==> !tab.startEnabled && tab.stopEnabled
      ensures !(Succeeded(reply) && !old(running)) ==>
        tab.startEnabled == old(tab.startEnabled) && tab.stopEnabled == old(tab.stopEnabled)
      ensures var messages := StartReplyMessages(reply, old(running));
        status == messages[|messages| - 1] && tab.log == old(tab.log) + LogLines(now, messages)
    {
      if reply.Raised? {
        UpdateStatus(START_ERROR + reply.message, now);
      } else if reply.value.result == MainTab.Some("SUCCESS") {
        UpdateStatus(INFERENCE_STARTED, now);
        StartProcessing(now);
      } else {
        UpdateStatus(START_ERROR + ReplyMessage(reply.value), now);
      }
    }

    /** `stop_inference`, given the device state and the reply of the remote
        stop: the remote stop only for a connected device that is not idle;
        the worker is left as it is. */
    method StopInference(state: Remote<(string, string)>, reply: Remote<Reply>, now: string) returns (calls: seq<Call>)
      modifies this`status, tab`log
      ensures calls == StopInferenceCalls(state)
      ensures status == StopInferenceMessage(state, reply)
      ensures tab.log == old(tab.log) + LogLine(now, status)
    {
      calls := [GetConnectionState];
      if state.Raised? {
        UpdateStatus(StopErrorText(state.message), now);
        return;
      }
      var (connection, operation) := state.value;
      if connection == "Connected" && operation != "Idle" {
        calls := calls + [RemoteStop];
        if reply.Raised? {
          UpdateStatus(StopErrorText(reply.message), now);
        } else if reply.value.result == MainTab.Some("SUCCESS") {
          UpdateStatus(INFERENCE_STOPPED, now);
        } else {
          UpdateStatus(StopErrorText(ReplyMessage(reply.value)), now);
        }
      } else {
        UpdateStatus(STOP_REFUSED + connection + " - " + operation, now);
      }
    }

    /** `check_device_status`: the tab shows the device state, and the status
        bar says whether the device is connected; a failed query only writes
        the error. */
    method CheckDeviceStatus(state: Remote<(string, string)>, now: string)
      modifies this`status, tab`log, tab`connectionState, tab`operationState, tab`lastUpdated, tab`colour
      modifies tab`inferenceStartEnabled, tab`inferenceStopEnabled
      ensures status == DeviceStatusMessage(state) && tab.log == old(tab.log) + LogLine(now, status)
      ensures state.Answer? ==> tab.connectionState == state.value.0 && tab.operationState == state.value.1 && tab.lastUpdated == now
      ensures state.Answer? ==> tab.colour == MainTab.StateColour(state.value.0)
      ensures state.Answer? ==> tab.inferenceStartEnabled == MainTab.CanStartInference(state.value.0, state.value.1)
      ensures state.Answer? ==> tab.inferenceStopEnabled == MainTab.CanStopInference(state.value.0, state.value.1)
      ensures state.Raised? ==> tab.connectionState == old(tab.connectionState) && tab.operationState == old(tab.operationState)
      ensures state.Raised? ==> tab.inferenceStartEnabled == old(tab.inferenceStartEnabled) && tab.inferenceStopEnabled == old(tab.inferenceStopEnabled)
      ensures state.Raised? ==> tab.lastUpdated == old(tab.lastUpdated) && tab.colour == old(tab.colour)
    {
      if state.Raised? {
        UpdateStatus(STATE_ERROR + state.message, now);
        return;
      }
      var (connection, operation) := state.value;
      tab.UpdateDeviceState(connection, operation, now);
      UpdateStatus((if connection == "Connected" then "デバイス接続中" else "デバイス未接続") + " (" + operation + ")", now);
    }

    /** `handle_processor_callback`: the data goes to the one handler its tag
        names, on a canvas measured at the given size; any other tag changes
        nothing. The result is `false` when the image handler raises, for an
        image with a zero side or one whose fitted size has a zero side. */
    method HandleProcessorCallback(tag: string, data: Data, now: string, measuredWidth: int, measuredHeight: int) returns (handler: Handler, ok: bool)
      requires Fits(tag, data)
      modifies this`status, tab`log, tab`image, tab`detectionLines, tab`connectionState, tab`operationState
      modifies tab`lastUpdated, tab`colour, tab`inferenceStartEnabled, tab`inferenceStopEnabled
      ensures handler == Route(tag)
      ensures ok == (handler != ToImage || MainTab.Displayable(data.width, data.height, measuredWidth, measuredHeight))
      ensures handler == ToStatus ==> status == data.text && tab.log == old(tab.log) + LogLine(now, data.text)
      ensures handler != ToStatus ==> status == old(status) && tab.log == old(tab.log)
      ensures handler == ToImage && ok ==> tab.image == MainTab.Some(MainTab.Placed(data.width, data.height, measuredWidth, measuredHeight))
      ensures handler != ToImage || !ok ==> tab.image == old(tab.image)
      ensures handler == ToDetectionInfo ==> tab.detectionLines == MainTab.DetectionLines(data.labels)
      ensures handler != ToDetectionInfo ==> tab.detectionLines == old(tab.detectionLines)
      ensures handler == ToDeviceState ==> tab.connectionState == data.connection && tab.operationState == data.operation
      ensures handler == ToDeviceState ==> tab.lastUpdated == data.timestamp
      ensures handler != ToDeviceState ==> tab.connectionState == old(tab.connectionState) && tab.operationState == old(tab.operationState)
      ensures handler == ToDeviceState ==> tab.colour == MainTab.StateColour(data.connection)
      ensures handler == ToDeviceState ==> tab.inferenceStartEnabled == MainTab.CanStartInference(data.connection, data.operation)
      ensures handler == ToDeviceState ==> tab.inferenceStopEnabled == MainTab.CanStopInference(data.connection, data.operation)
      ensures handler != ToDeviceState ==> tab.lastUpdated == old(tab.lastUpdated) && tab.colour == old(tab.colour)
      ensures handler != ToDeviceState ==>
        tab.inferenceStartEnabled == old(tab.inferenceStartEnabled) && tab.inferenceStopEnabled == old(tab.inferenceStopEnabled)
    {
      handler, ok := Route(tag), true;
      if tag == "status" {
        UpdateStatus(data.text, now);
      } else if tag == "image" {
        ok := tab.UpdateImage(data.width, data.height, measuredWidth, measuredHeight);
      } else if tag == "detection" {
        tab.UpdateDetectionInfo(data.labels);
      } else if tag == "device_state" {
        tab.UpdateDeviceState(data.connection, data.operation, data.timestamp);
      }
    }
  }
}
