/** `MainTab`: the monitoring screen. Its state is what the widgets show:
    whether each of the four buttons is enabled, the device-state labels and
    their colour, the log text, the lines of the detection list and where the
    latest image sits on the canvas. */
module MainTab {
  import Decimal
  import ImageUtils

  /** The colour of the connection-state label. */
  datatype Colour = Default | Green | Red | Orange

  /** An image on the canvas: its top-left corner and its size. */
  datatype Placement = Placement(x: int, y: int, width: nat, height: nat)

  /** The line shown when there are no detections. */
  const NO_DETECTIONS: string := "検出されたオブジェクトはありません"

  /** The canvas size used while the canvas is not yet laid out. */
  const FALLBACK_SIZE: int := 320

  /** Whether the inference start button is enabled for a device state. */
  predicate CanStartInference(connection: string, operation: string) {
    connection == "Connected" && operation == "Idle"
  }

  /** Whether the inference stop button is enabled for a device state. */
  predicate CanStopInference(connection: string, operation: string) {
    connection == "Connected" && operation != "Idle"
  }

  /** The colour of the connection-state label: green when connected, red
      when disconnected, orange for any other state. */
  function StateColour(connection: string): (c: Colour)
    ensures c == Green <==> connection == "Connected"
    ensures c == Red <==> connection == "Disconnected"
    ensures c != Default
  {
    if connection == "Connected" then Green else if connection == "Disconnected" then Red else Orange
  }

  /** The two inference buttons are never both enabled; a connected device
      always has exactly one of them enabled, any other has neither. */
  lemma InferenceButtonsExclusive(connection: string, operation: string)
    ensures !(CanStartInference(connection, operation) && CanStopInference(connection, operation))
    ensures connection == "Connected" ==> CanStartInference(connection, operation) != CanStopInference(connection, operation)
    ensures connection != "Connected" ==> !CanStartInference(connection, operation) && !CanStopInference(connection, operation)
  {
  }

  /** The listbox line for the detection numbered `n`: `f"{n}. {label}"`. */
  function NumberedLine(n: nat, text: string): string {
    Decimal.NatToString(n) + ". " + text
  }

  /** The lines of the detection list: a placeholder for no detections,
      otherwise one numbered line per label, from 1, in order. */
  function DetectionLines(labels: seq<string>): (lines: seq<string>)
    ensures labels == [] ==> lines == [NO_DETECTIONS]
    ensures labels != [] ==> |lines| == |labels|
    ensures labels != [] ==> forall i :: 0 <= i < |labels| ==> lines[i] == NumberedLine(i + 1, labels[i])
  {
    if labels == [] then [NO_DETECTIONS]
    else seq(|labels|, i requires 0 <= i < |labels| => NumberedLine(i + 1, labels[i]))
  }

  /** Every numbered line gives back its number and its label. */
  lemma NumberedLineParts(n: nat, text: string)
    ensures var line, digits := NumberedLine(n, text), Decimal.NatToString(n);
      && line[..|digits|] == digits && Decimal.ParseNat(digits) == n
      && line[|digits|..] == ". " + text
  {
    Decimal.ParseNatToString(n);
  }

  /** The canvas size `update_image` uses: a dimension of at most 1 falls back to 320. */
  function CanvasSize(measured: int): (size: nat)
    ensures measured <= 1 ==> size == FALLBACK_SIZE
    ensures measured > 1 ==> size == measured
  {
    if measured <= 1 then FALLBACK_SIZE else measured
  }

  /** The size of an image scaled by the largest ratio that fits the canvas,
      in exact arithmetic. */
  function FitToCanvas(width: nat, height: nat, canvasWidth: nat, canvasHeight: nat): (size: (nat, nat))
    requires width > 0 && height > 0
  {
    if canvasWidth * height <= canvasHeight * width then (canvasWidth, ImageUtils.Shrink(height, canvasWidth, width))
    else (ImageUtils.Shrink(width, canvasHeight, height), canvasHeight)
  }

  /** The scaled image fits the canvas and fills it in one dimension. */
  lemma FitToCanvasFits(width: nat, height: nat, canvasWidth: nat, canvasHeight: nat)
    requires width > 0 && height > 0
    ensures var size := FitToCanvas(width, height, canvasWidth, canvasHeight);
      && size.0 <= canvasWidth && size.1 <= canvasHeight
      && (size.0 == canvasWidth || size.1 == canvasHeight)
  {
    if canvasWidth * height <= canvasHeight * width {
      assert canvasWidth * height == height * canvasWidth;
      ImageUtils.FitStep(height, canvasWidth, width, canvasHeight);
    } else {
      assert canvasHeight * width == width * canvasHeight;
      ImageUtils.FitStep(width, canvasHeight, height, canvasWidth);
    }
  }

  /** Whether `update_image` can show an image of the given size: both of its
      sides and both sides of its fitted size are positive. A zero image side
      makes the ratio divide by zero; a fitted side truncated to zero makes
      the resize reject the size. */
  predicate Displayable(width: nat, height: nat, measuredWidth: int, measuredHeight: int) {
    && width > 0 && height > 0
    && var size := FitToCanvas(width, height, CanvasSize(measuredWidth), CanvasSize(measuredHeight));
       size.0 > 0 && size.1 > 0
  }

  /** A 1000x1 image on a canvas not yet laid out fits to 320x0, which the
      resize rejects, although neither of its own sides is zero. */
  lemma ElongatedNotDisplayable()
    ensures !Displayable(1000, 1, 0, 0)
  {
    assert FitToCanvas(1000, 1, 320, 320) == (320, ImageUtils.Shrink(1, 320, 1000));
  }

  /** Python's `max(0, (canvas - size) // 2)`; with a positive divisor
      Dafny's division rounds down like Python's. */
  function Offset(canvas: int, size: int): int {
    var half := (canvas - size) / 2;
    if half > 0 then half else 0
  }

  /** The placement `update_image` chooses for an image on the measured canvas. */
  function Placed(width: nat, height: nat, measuredWidth: int, measuredHeight: int): (p: Placement)
    requires width > 0 && height > 0
    ensures p.x >= 0 && p.y >= 0
  {
    var cw, ch := CanvasSize(measuredWidth), CanvasSize(measuredHeight);
    var size := FitToCanvas(width, height, cw, ch);
    Placement(Offset(cw, size.0), Offset(ch, size.1), size.0, size.1)
  }

  /** The image is centred: it lies within the canvas, and the margins on
      either side differ by at most one pixel. */
  lemma PlacedCentred(width: nat, height: nat, measuredWidth: int, measuredHeight: int)
    requires width > 0 && height > 0
    ensures var p, cw, ch := Placed(width, height, measuredWidth, measuredHeight), CanvasSize(measuredWidth), CanvasSize(measuredHeight);
      && p.x + p.width <= cw && 0 <= cw - (2 * p.x + p.width) <= 1
      && p.y + p.height <= ch && 0 <= ch - (2 * p.y + p.height) <= 1
  {
    FitToCanvasFits(width, height, CanvasSize(measuredWidth), CanvasSize(measuredHeight));
  }

  class MainTab {
    var startEnabled: bool
    var stopEnabled: bool
    var inferenceStartEnabled: bool
    var inferenceStopEnabled: bool
    var connectionState: string
    var operationState: string
    var lastUpdated: string
    var colour: Colour
    var log: string
    var detectionLines: seq<string>
    /** The image on the canvas, if any. */
    var image: Option<Placement>

    /** `setup_ui`: display start and inference start enabled, both stop
        buttons disabled, the states unknown. */
    constructor ()
      ensures startEnabled && !stopEnabled && inferenceStartEnabled && !inferenceStopEnabled
      ensures connectionState == "Unknown" && operationState == "Unknown" && lastUpdated == "-" && colour == Default
      ensures log == "" && detectionLines == [] && image == None
    {
      startEnabled, stopEnabled := true, false;
      inferenceStartEnabled, inferenceStopEnabled := true, false;
      connectionState, operationState, lastUpdated := "Unknown", "Unknown", "-";
      colour, log, detectionLines, image := Default, "", [], None;
    }

    /** `set_start_state`: exactly one of the display buttons enabled. */
    method SetStartState(running: bool)
      modifies this`startEnabled, this`stopEnabled
      ensures startEnabled == !running && stopEnabled == running
    {
      if running {
        startEnabled, stopEnabled := false, true;
      } else {
        startEnabled, stopEnabled := true, false;
      }
    }

    /** `set_inference_state`; the `running` argument is not consulted. */
    method SetInferenceState(running: bool, connection: string, operation: string)
      modifies this`inferenceStartEnabled, this`inferenceStopEnabled
      ensures inferenceStartEnabled == CanStartInference(connection, operation)
      ensures inferenceStopEnabled == CanStopInference(connection, operation)
    {
      if connection == "Connected" {
        if operation == "Idle" {
          inferenceStartEnabled, inferenceStopEnabled := true, false;
        } else {
          inferenceStartEnabled, inferenceStopEnabled := false, true;
        }
      } else {
        inferenceStartEnabled, inferenceStopEnabled := false, false;
      }
    }

    /** `update_log`: the message appended as a line. */
    method UpdateLog(message: string)
      modifies this`log
      ensures log == old(log) + message + "\n"
    {
      log := log + message + "\n";
    }

    /** `update_device_state`: the labels, their colour and the inference buttons. */
    method UpdateDeviceState(connection: string, operation: string, timestamp: string)
      modifies this`connectionState, this`operationState, this`lastUpdated, this`colour
      modifies this`inferenceStartEnabled, this`inferenceStopEnabled
      ensures connectionState == connection && operationState == operation && lastUpdated == timestamp
      ensures colour == StateColour(connection)
      ensures inferenceStartEnabled == CanStartInference(connection, operation)
      ensures inferenceStopEnabled == CanStopInference(connection, operation)
    {
      connectionState, operationState, lastUpdated := connection, operation, timestamp;
      if connection == "Connected" {
        colour := Green;
      } else if connection == "Disconnected" {
        colour := Red;
      } else {
        colour := Orange;
      }
      SetInferenceState(operation != "Idle", connection, operation);
    }

    /** `update_image`, for an image of the given size on a canvas measured at
        the given size. An image with a zero dimension raises
        `ZeroDivisionError`, and one whose fitted size has a zero side makes
        the resize raise; either leaves the canvas as it was. */
    method UpdateImage(width: nat, height: nat, measuredWidth: int, measuredHeight: int) returns (ok: bool)
      modifies this`image
      ensures ok == Displayable(width, height, measuredWidth, measuredHeight)
      ensures ok ==> image == Some(Placed(width, height, measuredWidth, measuredHeight))
      ensures !ok ==> image == old(image)
    {
      var canvasWidth, canvasHeight := measuredWidth, measuredHeight;
      if canvasWidth <= 1 {
        canvasWidth := FALLBACK_SIZE;
      }
      if canvasHeight <= 1 {
        canvasHeight := FALLBACK_SIZE;
      }
      if width == 0 || height == 0 {
        return false;
      }
      var size := FitToCanvas(width, height, canvasWidth, canvasHeight);
      if size.0 == 0 || size.1 == 0 {
        return false;
      }
      var x := (canvasWidth - size.0) / 2;
      var y := (canvasHeight - size.1) / 2;
      image := Some(Placement(if x > 0 then x else 0, if y > 0 then y else 0, size.0, size.1));
      return true;
    }

    /** `update_detection_info`: the list cleared, then the placeholder or
        the numbered labels. */
    method UpdateDetectionInfo(labels: seq<string>)
      modifies this`detectionLines
      ensures detectionLines == DetectionLines(labels)
    {
      var lines: seq<string> := [];
      if labels == [] {
        lines := [NO_DETECTIONS];
      } else {
        for i := 0 to |labels|
          invariant |lines| == i
          invariant forall k :: 0 <= k < i ==> lines[k] == NumberedLine(k + 1, labels[k])
        {
          lines := lines + [NumberedLine(i + 1, labels[i])];
        }
      }
      detectionLines := lines;
    }
  }

  datatype Option<T> = None | Some(value: T)
}
