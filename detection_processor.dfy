/** One pass of the `process_images` loop of `DetectionProcessor`, with every
    remote call, the base64 decoder and the image decoder as oracle inputs.

    A pass refreshes the last known device state. When the device is
    connected and streaming inference results, it takes the fast path: it
    fetches the latest inference record, decodes the first inference carrying
    detection data and draws it on a black 320x320 image. Otherwise it lists the
    image directories, fetches the newest image of the newest sub-directory,
    fetches the ten latest inference records and draws the detections of the
    first inference whose timestamp equals the image's; when none matches, the
    image is shown with the placeholder label. */
module DetectionProcessor {
  import opened FlatTable
  import opened DetectionDecoder
  import opened ImageUtils
  import Decimal

  /** The answer to a remote call, or the exception it raised. */
  datatype Remote<T> = Answer(value: T) | Raised(message: string)

  /** One inference: its `T` timestamp and its base64 `O` detection data, each
      of which may be missing. */
  datatype Inference = Inference(t: Option<string>, o: Option<string>)

  /** One inference record; `None` when it has no `inference_result` /
      `Inferences` entry. */
  datatype InferenceRecord = InferenceRecord(inferences: Option<seq<Inference>>)

  /** A device entry of a directory listing: its image sub-directory names. */
  datatype Device = Device(images: seq<string>)

  /** One image of a sub-directory: its file name and base64 contents. */
  datatype ImageEntry = ImageEntry(name: string, contents: string)

  /** What `download_image` yields: a decoded image, `None` from `cv2.imdecode`
      for bytes that are not an image, or the error `b64decode` raises. */
  datatype Download = Decoded(picture: Picture) | NotAnImage | BadBase64

  /** An image as a value: its size and what has been drawn on it. */
  datatype Picture = Picture(width: nat, height: nat, strokes: seq<Stroke>)

  /** The answers the remote side gives during one pass. `streamed` is the
      answer to `get_inference_results(1)` and `recent` the answer to
      `get_inference_results(10)`; `None` in either stands for an answer that
      is not a list. `images` is the answer to `get_images` (`None` for an
      answer without images); `running` is the running flag when the
      sub-directory loop starts. */
  datatype Round = Round(
    state: Remote<(string, string)>,
    streamed: Remote<Option<seq<InferenceRecord>>>,
    directories: Remote<seq<seq<Device>>>,
    images: Remote<Option<seq<ImageEntry>>>,
    recent: Remote<Option<seq<InferenceRecord>>>,
    running: bool)

  /** The remote calls a pass makes. */
  datatype Call = GetConnectionState | GetInferenceResults(count: nat) | GetImageDirectories | GetImages(subdir: string)

  /** Why a step failed: a remote exception, a `b64decode` error, or an image
      that could not be decoded. */
  datatype Reason = RemoteError(message: string) | InvalidBase64 | UnreadableImage

  /** The status messages of a pass. */
  datatype Message =
    | DeviceState(connection: string, operation: string)  // "デバイス状態: <c> - <o>"
    | DeviceStateError(message: string)                  // "デバイス状態取得エラー: <e>"
    | StreamingMode                                      // "推論結果ストリーミングモードで動作中"
    | BlackImage                                         // "黒画像に推論結果を表示"
    | Decoder(notice: Notice)                            // the decoder's own messages
    | ResultError(reason: Reason)                        // "推論結果処理エラー: <e>"
    | NoDirectories                                      // "画像ディレクトリが見つかりません"
    | Fetching(subdir: string)                           // "<subdir>から最新画像を取得中"
    | NoImages(subdir: string)                           // "サブディレクトリ <subdir> に画像が見つかりません"
    | LatestImage(name: string, timestamp: string)       // "最新画像: <name>, タイムスタンプ: <ts>"
    | FetchingResults                                    // "推論結果を取得中"
    | Matched(name: string)                              // "画像 <name> に対応する推論結果を発見"
    | Unmatched(name: string)                            // "画像 <name> に対応する推論結果が見つかりません"
    | ImageError(reason: Reason)                         // "画像処理エラー: <e>"
    | Failed(reason: Reason)                             // "エラー: <e>"

  /** A callback: a status message, an image to show, or labels to show. */
  datatype Event = Status(message: Message) | ShowImage(picture: Picture) | ShowDetections(labels: seq<string>)

  /** What a pass did: the remote calls in order, the callbacks in order, the
      new detected labels (`None` when they are left as they were) and the
      pause before the next pass, in seconds. */
  datatype Outcome = Outcome(calls: seq<Call>, events: seq<Event>, labels: Option<seq<string>>, pause: nat)

  /** The device state the loop starts from. */
  const UNKNOWN_STATE: (string, string) := ("Unknown", "Unknown")

  /** The placeholder labels shown for an image without a matching inference. */
  const UNMATCHED_LABELS: seq<string> := [NO_RESULTS]

  /** The label format of the processor: scores to two decimals. */
  const SCORE_FORMAT: ScoreFormat := (b: Bits32) => Decimal.FormatScore(b)

  // ---------------------------------------------------------------------
  // Timestamps and the search for inferences.
  // ---------------------------------------------------------------------

  /** `name.split('.')[0]`: the name up to its first `.`. */
  function Timestamp(name: string): (ts: string)
    ensures '.' !in ts
    ensures ts <= name
    ensures |ts| < |name| ==> name[|ts|] == '.'
  {
    if name == [] || name[0] == '.' then [] else [name[0]] + Timestamp(name[1..])
  }

  /** The first element of `s` satisfying `p`. */
  function First(s: seq<Inference>, p: Inference -> bool): (r: Option<Inference>)
    ensures r.Some? ==> r.value in s && p(r.value)
  {
    if s == [] then None else if p(s[0]) then Some(s[0]) else First(s[1..], p)
  }

  /** `First` finds the earliest element satisfying the test, and finds
      nothing exactly when no element does. */
  lemma {:induction false} FirstIsEarliest(s: seq<Inference>, p: Inference -> bool)
    ensures First(s, p).None? <==> forall k :: 0 <= k < |s| ==> !p(s[k])
    ensures First(s, p).Some? ==>
      exists k :: 0 <= k < |s| && s[k] == First(s, p).value && p(s[k]) && forall j :: 0 <= j < k ==> !p(s[j])
  {
    if s != [] && !p(s[0]) {
      FirstIsEarliest(s[1..], p);
      if First(s, p).Some? {
        var k :| 0 <= k < |s[1..]| && s[1..][k] == First(s, p).value && p(s[1..][k])
          && forall j :: 0 <= j < k ==> !p(s[1..][j]);
        assert s[k + 1] == First(s, p).value;
        forall j | 0 <= j < k + 1 ensures !p(s[j]) {
          if j > 0 {
            assert s[j] == s[1..][j - 1];
          }
        }
      }
      if forall k :: 0 <= k < |s[1..]| ==> !p(s[1..][k]) {
        forall k | 0 <= k < |s| ensures !p(s[k]) {
          if k > 0 {
            assert s[k] == s[1..][k - 1];
          }
        }
      }
    }
  }

  /** The inferences of the records, records then inferences in the order
      received; records without inferences contribute none. */
  function Candidates(records: seq<InferenceRecord>): seq<Inference> {
    if records == [] then []
    else (if records[0].inferences.Some? then records[0].inferences.value else []) + Candidates(records[1..])
  }

  function HasTimestamp(ts: string): Inference -> bool {
    (inf: Inference) => inf.t == Some(ts)
  }

  function CarriesData(): Inference -> bool {
    (inf: Inference) => inf.o.Some?
  }

  /** A search over `a + b` finds what the search over `a` finds, and
      otherwise what the search over `b` finds. */
  lemma {:induction false} FirstOfConcat(a: seq<Inference>, b: seq<Inference>, p: Inference -> bool)
    ensures First(a + b, p) == if First(a, p).Some? then First(a, p) else First(b, p)
  {
    if a == [] {
      assert a + b == b;
    } else {
      assert (a + b)[0] == a[0] && (a + b)[1..] == a[1..] + b;
      FirstOfConcat(a[1..], b, p);
    }
  }

  /** A scan over inferences in order for the first one passing a test: the
      loops `for inference in inferences: if <test>: ...; break` of
      `process_images`. */
  method FindFirst(inferences: seq<Inference>, p: Inference -> bool) returns (found: Option<Inference>)
    ensures found == First(inferences, p)
  {
    assert inferences[0..] == inferences;
    var j := 0;
    while j < |inferences|
      invariant j <= |inferences|
      invariant First(inferences, p) == First(inferences[j..], p)
    {
      assert inferences[j..][0] == inferences[j] && inferences[j..][1..] == inferences[j + 1..];
      if p(inferences[j]) {
        return Some(inferences[j]);
      }
      j := j + 1;
    }
    return None;
  }

  /** The search of `process_images` for the inference matching an image: over
      the records, then over each record's inferences, the first one whose `T`
      equals the timestamp. */
  method FindMatching(records: seq<InferenceRecord>, timestamp: string) returns (matching: Option<Inference>)
    ensures matching == First(Candidates(records), HasTimestamp(timestamp))
  {
    var p := HasTimestamp(timestamp);
    var i := 0;
    while i < |records|
      invariant i <= |records|
      invariant First(Candidates(records), p) == First(Candidates(records[i..]), p)
    {
      assert records[i..][0] == records[i] && records[i..][1..] == records[i + 1..];
      var inferences := if records[i].inferences.Some? then records[i].inferences.value else [];
      FirstOfConcat(inferences, Candidates(records[i + 1..]), p);
      matching := FindFirst(inferences, p);
      if matching.Some? {
        return;
      }
      i := i + 1;
    }
    return None;
  }

  // ---------------------------------------------------------------------
  // What one pass does, as functions of the oracle answers.
  // ---------------------------------------------------------------------

  /** The fast path applies to a connected device streaming inference results. */
  predicate Streaming(state: (string, string)) {
    state.0 == "Connected" && state.1 == "StreamingInferenceResult"
  }

  /** The last known device state after the pass's state query. */
  function NextState(round: Round, known: (string, string)): (string, string) {
    if round.state.Answer? then round.state.value else known
  }

  function StateMessage(round: Round): Message {
    if round.state.Answer? then DeviceState(round.state.value.0, round.state.value.1)
    else DeviceStateError(round.state.message)
  }

  function DecoderEvents(notices: seq<Notice>): (es: seq<Event>)
    ensures |es| == |notices|
  {
    if notices == [] then [] else DecoderEvents(notices[..|notices| - 1]) + [Status(Decoder(notices[|notices| - 1]))]
  }

  /** The detections shown on `picture`: what drawing them on a copy yields. */
  function Drawn(picture: Picture, dets: seq<Detection>, objclass: seq<string>): Picture {
    Picture(picture.width, picture.height, picture.strokes + Strokes(dets, objclass, SCORE_FORMAT, UNIT, UNIT))
  }

  const BLACK: Picture := Picture(320, 320, [])

  /** Decoding and drawing the first inference carrying data on the black image. */
  function StreamedOutcome(o: string, objclass: seq<string>, base64: string -> Option<Bytes>): Outcome {
    match base64(o)
    case None => Outcome([], [Status(ResultError(InvalidBase64))], None, 1)
    case Some(buf) =>
      var dets, labels := Decode(buf), ReturnedLabels(Decode(buf), objclass, SCORE_FORMAT);
      Outcome([], DecoderEvents(DecodeNotices(buf)) + [Status(BlackImage), ShowImage(Drawn(BLACK, dets, objclass)), ShowDetections(labels)],
              Some(labels), 1)
  }

  /** The fast path, after the state query. */
  function FastOutcome(streamed: Remote<Option<seq<InferenceRecord>>>, objclass: seq<string>, base64: string -> Option<Bytes>): Outcome {
    var call := [GetInferenceResults(1)];
    if streamed.Raised? then Outcome(call, [Status(StreamingMode), Status(Failed(RemoteError(streamed.message)))], None, 5)
    else if streamed.value.None? || |streamed.value.value| == 0 || streamed.value.value[0].inferences.None? then
      Outcome(call, [Status(StreamingMode)], None, 1)
    else
      match First(streamed.value.value[0].inferences.value, CarriesData())
      case None => Outcome(call, [Status(StreamingMode)], None, 1)
      case Some(inf) =>
        var r := StreamedOutcome(inf.o.value, objclass, base64);
        Outcome(call, [Status(StreamingMode)] + r.events, r.labels, 1)
  }

  /** Showing an image that has no matching inference. */
  function UnmatchedOutcome(image: ImageEntry, download: string -> Download): Outcome {
    match download(image.contents)
    case BadBase64 => Outcome([], [Status(Unmatched(image.name)), Status(ImageError(InvalidBase64))], None, 5)
    case NotAnImage => Outcome([], [Status(Unmatched(image.name)), Status(ImageError(UnreadableImage))], Some(UNMATCHED_LABELS), 5)
    case Decoded(picture) =>
      Outcome([], [Status(Unmatched(image.name)), ShowImage(picture), ShowDetections(UNMATCHED_LABELS)], Some(UNMATCHED_LABELS), 5)
  }

  /** Decoding and drawing the matching inference on the image. */
  function MatchedOutcome(image: ImageEntry, inf: Inference, objclass: seq<string>,
                          base64: string -> Option<Bytes>, download: string -> Download): Outcome
  {
    var matched := [Status(Matched(image.name))];
    if inf.o.None? then Outcome([], matched, None, 5)
    else
      match base64(inf.o.value)
      case None => Outcome([], matched + [Status(ResultError(InvalidBase64))], None, 5)
      case Some(buf) =>
        var dets, decoded := Decode(buf), matched + DecoderEvents(DecodeNotices(buf));
        match download(image.contents)
        case BadBase64 => Outcome([], decoded + [Status(ResultError(InvalidBase64))], None, 5)
        case NotAnImage => Outcome([], decoded + [Status(ResultError(UnreadableImage))], None, 5)
        case Decoded(picture) =>
          var labels := ReturnedLabels(dets, objclass, SCORE_FORMAT);
          Outcome([], decoded + [ShowImage(Drawn(picture, dets, objclass)), ShowDetections(labels)], Some(labels), 5)
  }

  /** The newest image of a sub-directory, correlated with the recent inferences. */
  function ImageOutcome(image: ImageEntry, recent: Remote<Option<seq<InferenceRecord>>>, objclass: seq<string>,
                        base64: string -> Option<Bytes>, download: string -> Download): Outcome
  {
    var ts := Timestamp(image.name);
    var call, seen := [GetInferenceResults(10)], [Status(LatestImage(image.name, ts)), Status(FetchingResults)];
    if recent.Raised? then Outcome(call, seen + [Status(Failed(RemoteError(recent.message)))], None, 5)
    else
      var records := if recent.value.Some? then recent.value.value else [];
      var r := match First(Candidates(records), HasTimestamp(ts))
        case None => UnmatchedOutcome(image, download)
        case Some(inf) => MatchedOutcome(image, inf, objclass, base64, download);
      Outcome(call, seen + r.events, r.labels, 5)
  }

  /** The normal path, after the state query. */
  function NormalOutcome(round: Round, objclass: seq<string>, base64: string -> Option<Bytes>, download: string -> Download): Outcome {
    var call := [GetImageDirectories];
    if round.directories.Raised? then Outcome(call, [Status(Failed(RemoteError(round.directories.message)))], None, 5)
    else if round.directories.value == [] || round.directories.value[0] == [] then Outcome(call, [Status(NoDirectories)], None, 5)
    else
      var subdirs := round.directories.value[0][0].images;
      if subdirs == [] || !round.running then Outcome(call, [], None, 5)
      else
        var subdir := subdirs[|subdirs| - 1];
        var fetch := [GetImages(subdir)];
        if round.images.Raised? then
          Outcome(call + fetch, [Status(Fetching(subdir)), Status(Failed(RemoteError(round.images.message)))], None, 5)
        else if round.images.value.None? || |round.images.value.value| == 0 then
          Outcome(call + fetch, [Status(Fetching(subdir)), Status(NoImages(subdir))], None, 5)
        else
          var r := ImageOutcome(round.images.value.value[0], round.recent, objclass, base64, download);
          Outcome(call + fetch + r.calls, [Status(Fetching(subdir))] + r.events, r.labels, 5)
  }

  /** One pass of the loop from the last known device state: what it does,
      and the device state it leaves as last known. */
  function Pass(round: Round, known: (string, string), objclass: seq<string>,
                base64: string -> Option<Bytes>, download: string -> Download): (Outcome, (string, string))
  {
    var state := NextState(round, known);
    var r := if Streaming(state) then FastOutcome(round.streamed, objclass, base64)
             else NormalOutcome(round, objclass, base64, download);
    (Outcome([GetConnectionState] + r.calls, [Status(StateMessage(round))] + r.events, r.labels, r.pause), state)
  }

  /** The device state known after consecutive passes. */
  function Known(rounds: seq<Round>, known: (string, string)): (string, string) {
    if rounds == [] then known else NextState(rounds[|rounds| - 1], Known(rounds[..|rounds| - 1], known))
  }

  /** The outcomes of consecutive passes, each starting from the state the
      previous one left. */
  function Run(rounds: seq<Round>, known: (string, string), objclass: seq<string>,
               base64: string -> Option<Bytes>, download: string -> Download): (log: seq<Outcome>)
    ensures |log| == |rounds|
  {
    if rounds == [] then []
    else
      var init := rounds[..|rounds| - 1];
      Run(init, known, objclass, base64, download) + [Pass(rounds[|rounds| - 1], Known(init, known), objclass, base64, download).0]
  }

  /** The detected labels after a series of passes: those of the last pass
      that set them. */
  function LastLabels(log: seq<Outcome>, labels: seq<string>): seq<string> {
    if log == [] then labels
    else LastLabels(log[1..], if log[0].labels.Some? then log[0].labels.value else labels)
  }

  // ---------------------------------------------------------------------
  // The processor.
  // ---------------------------------------------------------------------

  class Processor {
    var objclass: seq<string>
    var detectedLabels: seq<string>
    /** `base64.b64decode`: `None` for text that is not base64. */
    const base64: string -> Option<Bytes>
    /** `download_image`. */
    const download: string -> Download

    constructor (objclass: seq<string>, base64: string -> Option<Bytes>, download: string -> Download)
      ensures this.objclass == objclass && detectedLabels == []
      ensures this.base64 == base64 && this.download == download
    {
      this.objclass, detectedLabels := objclass, [];
      this.base64, this.download := base64, download;
    }

    /** `set_objclass`. */
    method SetObjclass(objclass: seq<string>)
      modifies this
      ensures this.objclass == objclass && detectedLabels == old(detectedLabels)
    {
      this.objclass := objclass;
    }

    /** Drawing decoded detections on a copy of `picture`. */
    method Show(picture: Picture, dets: seq<Detection>) returns (shown: Picture, labels: seq<string>)
      ensures shown == Drawn(picture, dets, objclass)
      ensures labels == ReturnedLabels(dets, objclass, SCORE_FORMAT)
    {
      var image := new Image(picture.width, picture.height, picture.strokes);
      var result;
      result, labels := DrawBoundingBoxes(image, dets, objclass, UNIT, UNIT, SCORE_FORMAT);
      shown := Picture(result.width, result.height, result.strokes);
    }

    /** The fast path: the latest record's first inference carrying data,
        decoded and drawn on a black image. */
    method FastPath(streamed: Remote<Option<seq<InferenceRecord>>>) returns (out: Outcome)
      modifies this
      ensures out == FastOutcome(streamed, objclass, base64)
      ensures detectedLabels == if out.labels.Some? then out.labels.value else old(detectedLabels)
      ensures objclass == old(objclass)
    {
      var call := [GetInferenceResults(1)];
      if streamed.Raised? {
        return Outcome(call, [Status(StreamingMode), Status(Failed(RemoteError(streamed.message)))], None, 5);
      }
      out := Outcome(call, [Status(StreamingMode)], None, 1);
      if streamed.value.Some? && |streamed.value.value| > 0 && streamed.value.value[0].inferences.Some? {
        var first := FindFirst(streamed.value.value[0].inferences.value, CarriesData());
        if first.Some? {
          var bytes := base64(first.value.o.value);
          if bytes.None? {
            out := out.(events := out.events + [Status(ResultError(InvalidBase64))]);
          } else {
            var dets, notices := DeserializeFlatbuffers(bytes.value);
            var shown, labels := Show(BLACK, dets);
            detectedLabels := labels;
            out := out.(events := out.events + DecoderEvents(notices) + [Status(BlackImage), ShowImage(shown), ShowDetections(labels)],
                        labels := Some(labels));
          }
        }
      }
    }

    /** The normal path once the newest image is known. */
    method CorrelateImage(image: ImageEntry, recent: Remote<Option<seq<InferenceRecord>>>) returns (out: Outcome)
      modifies this
      ensures out == ImageOutcome(image, recent, objclass, base64, download)
      ensures detectedLabels == if out.labels.Some? then out.labels.value else old(detectedLabels)
      ensures objclass == old(objclass)
    {
      var ts := Timestamp(image.name);
      out := Outcome([GetInferenceResults(10)], [Status(LatestImage(image.name, ts)), Status(FetchingResults)], None, 5);
      if recent.Raised? {
        out := out.(events := out.events + [Status(Failed(RemoteError(recent.message)))]);
        return;
      }
      var records := if recent.value.Some? then recent.value.value else [];
      var matching := FindMatching(records, ts);
      var r;
      if matching.None? {
        r := ShowUnmatched(image);
      } else {
        r := ShowMatched(image, matching.value);
      }
      out := out.(events := out.events + r.events, labels := r.labels);
    }

    /** An image without a matching inference, shown with the placeholder. */
    method ShowUnmatched(image: ImageEntry) returns (out: Outcome)
      modifies this
      ensures out == UnmatchedOutcome(image, download)
      ensures detectedLabels == if out.labels.Some? then out.labels.value else old(detectedLabels)
      ensures objclass == old(objclass)
    {
      out := Outcome([], [Status(Unmatched(image.name))], None, 5);
      var downloaded := download(image.contents);
      if downloaded.BadBase64? {
        out := out.(events := out.events + [Status(ImageError(InvalidBase64))]);
      } else {
        detectedLabels := UNMATCHED_LABELS;
        out := out.(labels := Some(UNMATCHED_LABELS));
        if downloaded.NotAnImage? {
          out := out.(events := out.events + [Status(ImageError(UnreadableImage))]);
        } else {
          out := out.(events := out.events + [ShowImage(downloaded.picture), ShowDetections(detectedLabels)]);
        }
      }
    }

    /** An image with its matching inference: the inference's detections
        decoded and drawn on it. */
    method ShowMatched(image: ImageEntry, inf: Inference) returns (out: Outcome)
      modifies this
      ensures out == MatchedOutcome(image, inf, objclass, base64, download)
      ensures detectedLabels == if out.labels.Some? then out.labels.value else old(detectedLabels)
      ensures objclass == old(objclass)
    {
      out := Outcome([], [Status(Matched(image.name))], None, 5);
      if inf.o.None? {
        return;
      }
      var bytes := base64(inf.o.value);
      if bytes.None? {
        out := out.(events := out.events + [Status(ResultError(InvalidBase64))]);
        return;
      }
      var dets, notices := DeserializeFlatbuffers(bytes.value);
      out := out.(events := out.events + DecoderEvents(notices));
      var downloaded := download(image.contents);
      match downloaded {
        case BadBase64 =>
          out := out.(events := out.events + [Status(ResultError(InvalidBase64))]);
        case NotAnImage =>
          out := out.(events := out.events + [Status(ResultError(UnreadableImage))]);
        case Decoded(picture) =>
          var shown, labels := Show(picture, dets);
          detectedLabels := labels;
          out := out.(events := out.events + [ShowImage(shown), ShowDetections(labels)], labels := Some(labels));
      }
    }

    /** The normal path: the newest image of the newest sub-directory. */
    method NormalPath(round: Round) returns (out: Outcome)
      modifies this
      ensures out == NormalOutcome(round, objclass, base64, download)
      ensures detectedLabels == if out.labels.Some? then out.labels.value else old(detectedLabels)
      ensures objclass == old(objclass)
    {
      out := Outcome([GetImageDirectories], [], None, 5);
      if round.directories.Raised? {
        return out.(events := [Status(Failed(RemoteError(round.directories.message)))]);
      }
      var directories: seq<seq<Device>> := round.directories.value;
      if directories == [] || directories[0] == [] {
        return out.(events := [Status(NoDirectories)]);
      }
      var subdirs := directories[0][0].images;
      if subdirs == [] || !round.running {
        return;
      }
      var subdir := subdirs[|subdirs| - 1];
      out := out.(calls := out.calls + [GetImages(subdir)], events := [Status(Fetching(subdir))]);
      if round.images.Raised? {
        return out.(events := out.events + [Status(Failed(RemoteError(round.images.message)))]);
      }
      if round.images.value.None? || |round.images.value.value| == 0 {
        return out.(events := out.events + [Status(NoImages(subdir))]);
      }
      var r := CorrelateImage(round.images.value.value[0], round.recent);
      out := out.(calls := out.calls + r.calls, events := out.events + r.events, labels := r.labels);
    }

    /** One pass of the `process_images` loop. */
    method ProcessOnce(round: Round, known: (string, string)) returns (out: Outcome, state: (string, string))
      modifies this
      ensures (out, state) == Pass(round, known, objclass, base64, download)
      ensures detectedLabels == if out.labels.Some? then out.labels.value else old(detectedLabels)
      ensures objclass == old(objclass)
    {
      state := known;
      var message;
      if round.state.Answer? {
        state := round.state.value;
        message := DeviceState(state.0, state.1);
      } else {
        message := DeviceStateError(round.state.message);
      }
      var r;
      if state.0 == "Connected" && state.1 == "StreamingInferenceResult" {
        r := FastPath(round.streamed);
      } else {
        r := NormalPath(round);
      }
      out := Outcome([GetConnectionState] + r.calls, [Status(message)] + r.events, r.labels, r.pause);
    }

    /** `process_images`: passes while the running flag is set, one per round,
        from the unknown device state. */
    method ProcessImages(rounds: seq<Round>) returns (log: seq<Outcome>)
      modifies this
      ensures log == Run(rounds, UNKNOWN_STATE, objclass, base64, download)
      ensures detectedLabels == LastLabels(log, old(detectedLabels))
      ensures objclass == old(objclass)
    {
      var known := UNKNOWN_STATE;
      ghost var names := objclass;
      log := [];
      var i := 0;
      while i < |rounds|
        invariant i <= |rounds| && objclass == names
        invariant log == Run(rounds[..i], UNKNOWN_STATE, names, base64, download)
        invariant known == Known(rounds[..i], UNKNOWN_STATE)
        invariant LastLabels(log, old(detectedLabels)) == detectedLabels
      {
        assert rounds[..i + 1][..i] == rounds[..i];
        var out;
        out, known := ProcessOnce(rounds[i], known);
        LastLabelsAppend(log, out, old(detectedLabels));
        log := log + [out];
        i := i + 1;
      }
      assert rounds[..i] == rounds;
    }
  }

  /** The fast-path gate: a pass asks for the single latest inference record
      exactly when the last known state is connected and streaming, and then
      makes no other call besides the state query; otherwise it lists the image
      directories first. */
  lemma PassCalls(round: Round, known: (string, string), objclass: seq<string>,
                  base64: string -> Option<Bytes>, download: string -> Download)
    ensures var calls := Pass(round, known, objclass, base64, download).0.calls;
      && |calls| >= 2 && calls[0] == GetConnectionState
      && (GetInferenceResults(1) in calls <==> Streaming(NextState(round, known)))
      && (Streaming(NextState(round, known)) ==> calls == [GetConnectionState, GetInferenceResults(1)])
      && (!Streaming(NextState(round, known)) ==> calls[1] == GetImageDirectories)
  {
    NormalCalls(round, objclass, base64, download);
  }

  /** The normal path lists the image directories first and never asks for
      the single latest inference record. */
  lemma NormalCalls(round: Round, objclass: seq<string>, base64: string -> Option<Bytes>, download: string -> Download)
    ensures var calls := NormalOutcome(round, objclass, base64, download).calls;
      calls != [] && calls[0] == GetImageDirectories && GetInferenceResults(1) !in calls
  {
  }

  /** The fast path decodes the first inference carrying data in the first
      record, draws it on the black image and takes its labels. */
  lemma FastDecodesFirst(records: seq<InferenceRecord>, objclass: seq<string>, base64: string -> Option<Bytes>,
                         inf: Inference, buf: Bytes)
    requires records != [] && records[0].inferences.Some?
    requires First(records[0].inferences.value, CarriesData()) == Some(inf)
    requires base64(inf.o.value) == Some(buf)
    ensures var out := FastOutcome(Answer(Some(records)), objclass, base64);
      && out.labels == Some(ReturnedLabels(Decode(buf), objclass, SCORE_FORMAT))
      && ShowImage(Drawn(BLACK, Decode(buf), objclass)) in out.events
      && out.pause == 1
  {
    var out := FastOutcome(Answer(Some(records)), objclass, base64);
    var events := DecoderEvents(DecodeNotices(buf)) + [Status(BlackImage), ShowImage(Drawn(BLACK, Decode(buf), objclass)), ShowDetections(ReturnedLabels(Decode(buf), objclass, SCORE_FORMAT))];
    assert out.events == [Status(StreamingMode)] + events;
    assert events[|events| - 2] == ShowImage(Drawn(BLACK, Decode(buf), objclass));
  }

  /** An image without a matching inference is shown with the placeholder
      labels, unless its contents are not base64; an image with one takes the
      labels of that inference's decoded detections once both decode. */
  lemma ImageLabels(image: ImageEntry, records: seq<InferenceRecord>, objclass: seq<string>,
                    base64: string -> Option<Bytes>, download: string -> Download)
    ensures var out := ImageOutcome(image, Answer(Some(records)), objclass, base64, download);
      var matching := First(Candidates(records), HasTimestamp(Timestamp(image.name)));
      && (matching.None? ==> (out.labels == Some([NO_RESULTS]) <==> !download(image.contents).BadBase64?))
      && (matching.None? && download(image.contents).BadBase64? ==> out.labels.None?)
      && (matching.Some? && matching.value.o.Some? && base64(matching.value.o.value).Some?
          && download(image.contents).Decoded? ==>
            out.labels == Some(ReturnedLabels(Decode(base64(matching.value.o.value).value), objclass, SCORE_FORMAT)))
      && (matching.Some? && !download(image.contents).Decoded? ==> out.labels.None?)
  {
  }

  /** A matching inference carries the image's timestamp, and no earlier
      candidate does. */
  lemma MatchIsEarliest(image: ImageEntry, records: seq<InferenceRecord>)
    ensures var ts, cs := Timestamp(image.name), Candidates(records);
      var matching := First(cs, HasTimestamp(ts));
      && (matching.None? <==> forall k :: 0 <= k < |cs| ==> cs[k].t != Some(ts))
      && (matching.Some? ==>
            exists k :: 0 <= k < |cs| && cs[k] == matching.value && cs[k].t == Some(ts) && forall j :: 0 <= j < k ==> cs[j].t != Some(ts))
  {
    FirstIsEarliest(Candidates(records), HasTimestamp(Timestamp(image.name)));
  }

  lemma {:induction false} LastLabelsAppend(log: seq<Outcome>, out: Outcome, labels: seq<string>)
    ensures LastLabels(log + [out], labels)
         == if out.labels.Some? then out.labels.value else LastLabels(log, labels)
  {
    if log != [] {
      assert (log + [out])[1..] == log[1..] + [out];
      LastLabelsAppend(log[1..], out, if log[0].labels.Some? then log[0].labels.value else labels);
    }
  }
}
