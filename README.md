# KumaDesktop core in Dafny

KumaDesktop ("Kumakita - AI Detection Monitor") is a desktop monitor for an
AITRIOS edge camera. This project models its core:

- **The detection processor.** It decodes the FlatBuffers inference records
  the camera sends into 2D detections. It correlates the newest image with
  the inference that carries its timestamp, and draws each detection's box
  and label onto the image.
- **The settings manager.** It reads the settings module with defaults and
  writes changed settings back into the settings file by rewriting the
  assignments.
- **The settings tab.** Its class list can be edited and is fitted to the
  class count.
- **The monitoring tab.** It holds the buttons, the device-state labels, the
  log, the detection list and the image canvas.
- **The main window.** It guards the remote start and stop of inference by
  the device state, owns the running flag of the processing worker, writes
  status messages, and routes the processor's callbacks to the tab.

Modules, one per file:

- `FlatTable` (`flat_table.dfy`): the FlatBuffers runtime reads the decoder
  uses, as total functions over an immutable byte sequence. These are
  `encode.Get`, and `Table` with its `Offset`, `Indirect`, `VectorLen`,
  `Vector`, `Union` and `Get`. Every read either fails, as the runtime raises,
  or returns a value of its kind. It also has little-endian encoders and a
  32-byte table-block layout, with read-back lemmas.
- `GeneralObject` (`general_object.dfy`): the generated accessor class. The
  builder helpers become `BuilderSlots`, with the lemma that every accessor
  reads back what the builder wrote.
- `DetectionDecoder` (`detection_decoder.dfy`): `deserialize_flatbuffers`.
  It gives the result list and the status messages as functions of the
  buffer, and proves the loop against them.
- `RecordLayout` (`record_layout.dfy`): an encoder for whole inference
  records, and the round trip `Decode(Encode(objs)) == ExpectedList(objs)`.
- `Decimal` (`decimal.dfy`): `str` of integers and the `{:.2f}` format of a
  `float32` score, rounded half to even.
- `ImageUtils` (`image_utils.dfy`): `draw_bounding_boxes` on an `Image` class
  whose strokes are drawn in place, and `resize_for_display`.
- `DetectionProcessor` (`detection_processor.dfy`): `process_images`. Each pass
  of the loop is a function of the remote answers, and the `Processor` class
  keeps the class list and the detected labels.
- `SettingsManager` (`settings_manager.dfy`): `load_settings`, `get_setting`
  and `save_settings`. The settings file is a field and `re.sub` is an oracle.
- `SettingsTab` (`settings_tab.dfy`): the class-list editor, as a class over
  its rows and form variables.
- `MainTab` (`main_tab.dfy`): the monitoring tab, as a class over what its
  widgets show.
- `MainWindow` (`main_window.dfy`): the window, as a class owning its tab.

Remote answers (the AITRIOS client), base64 decoding, image decoding and the
wall-clock time are parameters: `Remote<T>` answers, oracle functions and a
`now` string. The float32 score is kept as its 32-bit pattern; `Decimal`
interprets it only to format it.

Where the FlatBuffers runtime is concerned, the model follows the runtime's
own `Table` and `encode` code. That runtime is not part of this model's
sources, so the `FlatTable` rows below cite the lines of the decoder and of
`GeneralObject.py` that call each read.

## Model

| member | source | states |
|---|---|---|
| FlatTable.Raw | kumaMac/core/detection_processor.py:140 | an unchecked `encode.Get` read succeeds exactly when its bytes lie inside the buffer, and then yields a value in the range of its kind |
| FlatTable.CheckUOffset | kumaMac/core/detection_processor.py:141 | `enforce_number` for a `uoffset_t` accepts exactly 0..2^32-1 and passes the number through |
| FlatTable.NewTable | kumaMac/core/detection_processor.py:141 | `Table(buf, pos)` is built exactly when `pos` is a valid `uoffset_t`, over the same buffer and position |
| FlatTable.Get | kumaMac/core/detection_processor.py:174 | `Table.Get` succeeds exactly when the offset is a valid `uoffset_t` and the bytes lie in the buffer; the value fits its kind |
| FlatTable.Offset | kumaMac/core/detection_processor.py:144 | a vtable lookup yields a 16-bit table-relative position; a non-zero one is the `uint16` entry at that slot of the vtable found through the table's `soffset`, and the slot lies before the vtable's end (0 when absent) |
| FlatTable.Indirect | kumaMac/core/detection_processor.py:149 | following a `uoffset_t` only moves forward from a valid offset, by exactly the `uint32` stored there |
| FlatTable.VectorLen | kumaMac/core/detection_processor.py:158 | a vector length is the 32-bit unsigned word at the target of the field's `uoffset_t` |
| FlatTable.Vector | kumaMac/core/detection_processor.py:165 | the first element lies 4 bytes past the target of the field's `uoffset_t`, just after the vector's length word |
| FlatTable.Union | GeneralObject.py:45-48 | a union value is a table over the same buffer, at or after the field |
| FlatTable.ScalarOr | GeneralObject.py:28-32 | the accessor pattern: an absent field gives the default, a failed lookup fails, a present field gives a value of its kind |
| FlatTable.FromSigned | kumaMac/core/detection_processor.py:201 | every `int32` edge has a 32-bit pattern that reads back as it |
| FlatTable.Block | GeneralObject.py:58-92 | a 4-field table block has 32 bytes, each given by `BlockByte` |
| FlatTable.ReadWord | kumaMac/core/detection_processor.py:174 | a word laid out little-endian reads back as that word, signed or unsigned as asked |
| FlatTable.ReadHalf | kumaMac/core/detection_processor.py:144 | a half-word laid out little-endian reads back as itself |
| FlatTable.BlockOffset | GeneralObject.py:29 | the vtable lookup of slot k in a laid-out block gives that slot's entry; slots past the fourth are absent |
| FlatTable.BlockWord | GeneralObject.py:31 | a present slot's word reads back through `Table.Get` |
| FlatTable.BlockScalar | GeneralObject.py:28-32 | the accessor pattern on a laid-out block returns the stored value of a present slot and the default of an absent one |
| GeneralObject.GetRootAs | GeneralObject.py:12-17 | succeeds exactly when the root offset is readable and the table position is a valid `uoffset_t`; the table is at offset plus the stored value |
| GeneralObject.GetRootAsGeneralObject | GeneralObject.py:19-22 | the deprecated alias behaves as `GetRootAs` |
| GeneralObject.ClassId | GeneralObject.py:28-32 | 0 when the field is absent, a failure when the lookup fails, otherwise a `uint32` |
| GeneralObject.BoundingBoxType | GeneralObject.py:35-39 | 0 when absent, a failure when the lookup fails, otherwise a `uint8` |
| GeneralObject.BoundingBox | GeneralObject.py:42-49 | `None` when absent, a failure when the lookup fails, otherwise a table over the same buffer after the object |
| GeneralObject.Score | GeneralObject.py:52-56 | bit pattern 0 (0.0) when absent, a failure when the lookup fails, otherwise a 32-bit pattern |
| GeneralObject.BuilderSlots | GeneralObject.py:58-92 | the builder fills slots 0-3 in vtable order and leaves out each value equal to its default |
| GeneralObject.BuiltObjectReadsBack | GeneralObject.py:28-92 | every accessor reads back what the builder helpers wrote; a -0.0 score, left out by the builder, reads back as 0.0 |
| GeneralObject.RootReadsBack | GeneralObject.py:12-17 | a root offset written at `offset` leads `GetRootAs` to the table it names |
| DetectionDecoder.ReadHeader | kumaMac/core/detection_processor.py:140-158 | the walk to the object vector: an absent Perception field on a readable root gives exactly the `NoPerception` notice, and an absent object field on a reached Perception table exactly the `NoObjects` notice, each in both directions |
| DetectionDecoder.MissingFieldDecodesEmpty | kumaMac/core/detection_processor.py:144-156 | a record without a Perception field, or whose Perception table has no object field, decodes to an empty list and reports only the matching notice |
| DetectionDecoder.ObjectTable | kumaMac/core/detection_processor.py:165-168 | element i's table lies in the same buffer |
| DetectionDecoder.BoxTable | kumaMac/core/detection_processor.py:190-193 | no box table when the field is absent; a failed lookup fails |
| DetectionDecoder.DecodeObject | kumaMac/core/detection_processor.py:170-226 | an entry only for box type 1 with a present box, carrying the object's class id, score and the box table's four `int32` edges (slots 4, 6, 8, 10, each 0 when absent); any other type, or an absent box, gives no entry; a failed class-id, score or box-type read fails the object, and so does, for type 1, a failed box lookup or a failed edge read on a present box; with every read succeeding, a type-1 object with a box always gives an entry |
| DetectionDecoder.Entries | kumaMac/core/detection_processor.py:162-168 | one result per vector element, in index order |
| DetectionDecoder.Failures | kumaMac/core/detection_processor.py:227-228 | every failure notice names an element of the vector |
| DetectionDecoder.Decode | kumaMac/core/detection_processor.py:124-239 | an empty list when the walk fails or a field is missing; never more entries than the vector has elements |
| DetectionDecoder.DecodeNotices | kumaMac/core/detection_processor.py:144-238 | a failed walk reports the error and the traceback; a missing field reports only itself; otherwise the count comes first, and "no results" is reported exactly when the list is empty |
| DetectionDecoder.KeptInOrder | kumaMac/core/detection_processor.py:161-228 | the list holds exactly the entries of the contributing elements, in index order; a failing element drops only itself |
| DetectionDecoder.FailureNotices | kumaMac/core/detection_processor.py:227-228 | an element is reported as failed exactly when its reads fail, with its index and error |
| DetectionDecoder.DecodeElements | kumaMac/core/detection_processor.py:161-228 | the object loop yields `Kept` and `Failures` of the entries |
| DetectionDecoder.DeserializeFlatbuffers | kumaMac/core/detection_processor.py:114-239 | the method returns `Decode(buf)` and sends `DecodeNotices(buf)` |
| RecordLayout.Encode | GeneralObject.py:58-92 | an encoded record of n objects has 72 + 68n bytes and fits the `uoffset_t` range |
| RecordLayout.DecodeEncode | kumaMac/core/detection_processor.py:114-239 | decoding an encoded record gives, in order, exactly the objects with a present 2D box, absent fields read as 0 |
| RecordLayout.HeaderReadsBack | kumaMac/core/detection_processor.py:140-158 | the walk to the object vector of an encoded record finds the Perception table and n elements |
| RecordLayout.EntryReadsBack | kumaMac/core/detection_processor.py:162-226 | element i of an encoded record decodes to object i's expected entry |
| RecordLayout.ObjectReadsBack | kumaMac/core/detection_processor.py:170-226 | an object laid out as a chunk decodes to its expected entry |
| RecordLayout.KeptExpected | kumaMac/core/detection_processor.py:219-226 | entries that each decode to their expectation are kept as the expected list |
| Decimal.NatToString | kumaMac/ui/settings_tab.py:250 | `str(n)` is a non-empty digit string without a leading zero |
| Decimal.IntToString | kumaMac/core/settings_manager.py:97 | `str(i)` starts with `-` exactly for a negative number, followed by the digits of its magnitude |
| Decimal.ParseNatToString | kumaMac/ui/settings_tab.py:250 | the digits `str(n)` writes read back as n |
| Decimal.NatToStringInjective | kumaMac/ui/main_tab.py:312 | different numbers are written differently |
| Decimal.Classify | kumaMac/core/detection_processor.py:180 | a finite float32 is a 24-bit mantissa times a power of two between -149 and 104 |
| Decimal.Hundredths | kumaMac/utils/image_utils.py:67 | the hundredths of `m * 2^e`: exact for e >= 0, otherwise the nearest integer, even on a tie |
| Decimal.RoundHalfEven | kumaMac/utils/image_utils.py:67 | the result is v/d rounded to the nearest integer, to the even one on a tie |
| Decimal.Fixed2Value | kumaMac/utils/image_utils.py:67 | two-decimal text reads back as the number of hundredths |
| Decimal.FormatScore | kumaMac/utils/image_utils.py:67 | `{:.2f}` writes `nan`, `inf` and `-inf` for the special values, and a minus sign exactly for a negative finite score |
| Decimal.FormatScoreRounds | kumaMac/utils/image_utils.py:67 | for a finite score the text is the sign and the hundredths n with n within one half of 100 times the magnitude |
| ImageUtils.Image.Copy | kumaMac/utils/image_utils.py:42 | `image.copy()` is a fresh image with the same size and contents |
| ImageUtils.Image.Draw | kumaMac/utils/image_utils.py:64 | a drawing call adds its stroke on top of the image |
| ImageUtils.ScaledTruncates | kumaMac/utils/image_utils.py:54 | `int(v * scale)` truncates the exact product toward zero; a scale of 1 leaves v unchanged |
| ImageUtils.ClassNameLookup | kumaMac/utils/image_utils.py:57-61 | a configured id shows its name; any other id shows `Unknown-<id>`, from which the id reads back |
| ImageUtils.LabelsInOrder | kumaMac/utils/image_utils.py:53-68 | exactly one label per detection, in detection order |
| ImageUtils.StrokesInOrder | kumaMac/utils/image_utils.py:53-71 | detection i is drawn as a box with its scaled corners, then its caption 2 right of and 20 below the top-left corner |
| ImageUtils.DrawBoundingBoxes | kumaMac/utils/image_utils.py:27-73 | the result is a fresh copy with the boxes and captions drawn on top; the labels are one per detection, or the placeholder when there are none |
| ImageUtils.DrawDetection | kumaMac/utils/image_utils.py:54-71 | one detection's box and caption are drawn and its label returned |
| ImageUtils.DrawStep | kumaMac/utils/image_utils.py:53-71 | one more detection appends its label and its two strokes |
| ImageUtils.ResizeForDisplay | kumaMac/utils/image_utils.py:75-98 | the image is unchanged exactly when it fits both bounds; an image with a zero side that needs resizing raises |
| ImageUtils.ResizeFits | kumaMac/utils/image_utils.py:94-96 | a resized image fits both bounds and reaches at least one of them |
| DetectionProcessor.Timestamp | kumaMac/core/detection_processor.py:383 | `name.split('.')[0]` is the prefix of the name up to, and without, its first `.` |
| DetectionProcessor.FirstIsEarliest | kumaMac/core/detection_processor.py:396-405 | the search finds the earliest inference passing the test, and nothing exactly when none passes |
| DetectionProcessor.FirstOfConcat | kumaMac/core/detection_processor.py:396-405 | searching records one after another finds what one search over all of them finds |
| DetectionProcessor.FindFirst | kumaMac/core/detection_processor.py:322-323 | the inner scan returns the first inference passing the test |
| DetectionProcessor.FindMatching | kumaMac/core/detection_processor.py:394-405 | the nested search returns the first inference, over records then inferences, whose `T` equals the timestamp |
| DetectionProcessor.MatchIsEarliest | kumaMac/core/detection_processor.py:394-409 | a match carries the image's timestamp and no earlier candidate does; no match exactly when no candidate carries it |
| DetectionProcessor.PassCalls | kumaMac/core/detection_processor.py:304-363 | a pass asks for the single latest record exactly when the device is connected and streaming, and then calls nothing else; otherwise it lists the image directories next |
| DetectionProcessor.NormalCalls | kumaMac/core/detection_processor.py:357-462 | the normal path lists the directories first and never asks for the single latest record |
| DetectionProcessor.FastDecodesFirst | kumaMac/core/detection_processor.py:317-355 | the fast path draws the first inference with data of the latest record on the black image, takes its labels, and pauses 1 second |
| DetectionProcessor.ImageLabels | kumaMac/core/detection_processor.py:408-459 | an unmatched image shows the placeholder unless its contents are not base64; a matched image takes its decoded inference's labels once both decode |
| DetectionProcessor.LastLabelsAppend | kumaMac/core/detection_processor.py:337 | the labels after one more pass are that pass's labels if it set any, otherwise those before it |
| DetectionProcessor.Processor.constructor | kumaMac/core/detection_processor.py:43-55 | the processor keeps the class list, with no detected labels |
| DetectionProcessor.Processor.SetObjclass | kumaMac/core/detection_processor.py:71-78 | the class list is replaced and nothing else changes |
| DetectionProcessor.Processor.Show | kumaMac/core/detection_processor.py:334 | drawing the decoded detections gives the drawn copy and the returned labels |
| DetectionProcessor.Processor.FastPath | kumaMac/core/detection_processor.py:313-355 | the fast path does `FastOutcome` and stores its labels, if any |
| DetectionProcessor.Processor.CorrelateImage | kumaMac/core/detection_processor.py:376-459 | showing the newest image does `ImageOutcome` and stores its labels, if any |
| DetectionProcessor.Processor.ShowUnmatched | kumaMac/core/detection_processor.py:408-431 | an unmatched image does `UnmatchedOutcome` and stores its labels, if any |
| DetectionProcessor.Processor.ShowMatched | kumaMac/core/detection_processor.py:434-459 | a matched image does `MatchedOutcome` and stores its labels, if any |
| DetectionProcessor.Processor.NormalPath | kumaMac/core/detection_processor.py:357-462 | the normal path does `NormalOutcome` and stores its labels, if any |
| DetectionProcessor.Processor.ProcessOnce | kumaMac/core/detection_processor.py:302-466 | one pass does `Pass` from the last known state and leaves the refreshed state |
| DetectionProcessor.Processor.ProcessImages | kumaMac/core/detection_processor.py:297-466 | the loop does `Run` from the unknown state; the detected labels are those of the last pass that set them; the class list is untouched |
| SettingsManager.Loaded | kumaMac/core/settings_manager.py:49-55 | the loaded configuration has exactly the five settings |
| SettingsManager.LoadedDefaults | kumaMac/core/settings_manager.py:49-55 | a setting the module lacks takes its default ("", 3, CLASS0-2); one it has is taken as it is |
| SettingsManager.FormatObjclass | kumaMac/core/settings_manager.py:110-115 | the loop builds `[` + the quoted names joined by `", "` + `]` |
| SettingsManager.ObjclassRoundTrip | kumaMac/core/settings_manager.py:110-115 | the written class list reads back as the same names when no name contains a single quote; no names are written as `[]` |
| SettingsManager.JoinedRoundTrip | kumaMac/core/settings_manager.py:110-115 | joined names at the front of a text read back as those names |
| SettingsManager.NothingToRewrite | kumaMac/core/settings_manager.py:83-130 | settings with none of the five keys leave the file content as it is |
| SettingsManager.RewriteTextsStops | kumaMac/core/settings_manager.py:83-91 | once a rewrite raises, the later keys are not rewritten |
| SettingsManager.RewriteTextKeys | kumaMac/core/settings_manager.py:83-91 | the loop rewrites DEVICE_ID, CLIENT_ID and CLIENT_SECRET in order and stops at the first failure |
| SettingsManager.Rewrite | kumaMac/core/settings_manager.py:80-122 | the text keys, then the class count, then the class list are rewritten; the first failure ends the rewriting |
| SettingsManager.SettingsManager.constructor | kumaMac/core/settings_manager.py:16-40 | a new manager has loaded the module's settings |
| SettingsManager.SettingsManager.LoadSettings | kumaMac/core/settings_manager.py:42-56 | the configuration is reloaded from the module's attributes and returned; the module and file are untouched |
| SettingsManager.SettingsManager.GetSetting | kumaMac/core/settings_manager.py:151-162 | the configured value, or the default when the key is missing |
| SettingsManager.SettingsManager.SaveSettings | kumaMac/core/settings_manager.py:58-149 | a missing file or a failing rewrite returns false and changes nothing; unchanged content returns true and changes nothing; otherwise the file is rewritten, the module takes the new values and the configuration becomes the new settings |
| SettingsTab.Prefix | kumaMac/ui/settings_tab.py:246 | `names[:n]` keeps a prefix of length n, or drops -n names from the end for a negative n |
| SettingsTab.Padding | kumaMac/ui/settings_tab.py:249-250 | the padding names the positions from `from` up to n as `CLASS<i>` |
| SettingsTab.Fitted | kumaMac/ui/settings_tab.py:314-321 | the fitted list has n entries: the existing names first, then `CLASS<i>` at each missing position i |
| SettingsTab.FittedIdempotent | kumaMac/ui/settings_tab.py:314-321 | fitting a fitted list to the same count changes nothing |
| SettingsTab.Clamped | kumaMac/ui/settings_tab.py:240-243 | the count is at most 256 and unchanged when within it |
| SettingsTab.Rows | kumaMac/ui/settings_tab.py:190-191 | row i carries index i and the i-th name |
| SettingsTab.RowNames | kumaMac/ui/settings_tab.py:309-312 | the names of the rows, in order |
| SettingsTab.RowNamesOfRows | kumaMac/ui/settings_tab.py:190-191 | filling the list and reading the names back yields the names |
| SettingsTab.AdjustClasses | kumaMac/ui/settings_tab.py:246-250 | truncating then padding gives the fitted list |
| SettingsTab.SettingsTab.constructor | kumaMac/ui/settings_tab.py:16-40 | the form shows the loaded settings and the class list, with the first row selected and shown in the editor |
| SettingsTab.SettingsTab.LoadConfigToUi | kumaMac/ui/settings_tab.py:167-176 | the form variables take the configuration and the rows its class list; the first row is selected and shown in the editor, and an empty list leaves no selection and the editor as it was |
| SettingsTab.SettingsTab.ReadNames | kumaMac/ui/settings_tab.py:309-312 | the loop reads the names of the rows in order |
| SettingsTab.SettingsTab.FillClassList | kumaMac/ui/settings_tab.py:178-201 | the rows are replaced; the first row is selected and shown in the editor, or nothing is selected for no classes |
| SettingsTab.SettingsTab.OnClassSelected | kumaMac/ui/settings_tab.py:203-215 | the selected row's index and name go to the editor; no selection changes nothing |
| SettingsTab.SettingsTab.UpdateSelectedClass | kumaMac/ui/settings_tab.py:217-226 | only the selected row changes: it takes the edited name and keeps its index |
| SettingsTab.SettingsTab.UpdateClassEditorRows | kumaMac/ui/settings_tab.py:228-256 | the count is clamped to 256 with a warning when it was larger, the list is fitted to it, its first row is selected and shown in the editor, and the adjustment is announced |
| SettingsTab.SettingsTab.GetCurrentSettings | kumaMac/ui/settings_tab.py:301-330 | the settings are the form's values with the class list fitted to the class count |
| SettingsTab.PaddingStep | kumaMac/ui/settings_tab.py:249-250 | padding one position further appends that position's name |
| MainTab.InferenceButtonsExclusive | kumaMac/ui/main_tab.py:192-214 | the inference buttons are never both enabled; a connected device has exactly one enabled, any other neither |
| MainTab.DetectionLines | kumaMac/ui/main_tab.py:296-312 | the placeholder for no labels, otherwise one line per label numbered from 1 |
| MainTab.NumberedLineParts | kumaMac/ui/main_tab.py:312 | a numbered line gives back its number and its label |
| MainTab.CanvasSize | kumaMac/ui/main_tab.py:270-274 | a measured size of at most 1 falls back to 320 |
| MainTab.FitToCanvasFits | kumaMac/ui/main_tab.py:276-280 | the scaled image fits the canvas and fills it in one dimension |
| MainTab.Placed | kumaMac/ui/main_tab.py:291-292 | the image's corner is never left of or above the canvas |
| MainTab.PlacedCentred | kumaMac/ui/main_tab.py:266-292 | the image lies within the canvas and its margins differ by at most one pixel on each axis |
| MainTab.MainTab.constructor | kumaMac/ui/main_tab.py:27-79 | start and inference start are enabled, both stop buttons disabled, the states unknown |
| MainTab.MainTab.SetStartState | kumaMac/ui/main_tab.py:178-190 | exactly one display button is enabled: stop while running, start otherwise |
| MainTab.MainTab.SetInferenceState | kumaMac/ui/main_tab.py:192-214 | the inference buttons follow the device state; the running argument is not consulted |
| MainTab.MainTab.UpdateLog | kumaMac/ui/main_tab.py:216-226 | the message is appended to the log as a line |
| MainTab.StateColour | kumaMac/ui/main_tab.py:242-247 | the label is green exactly when connected, red exactly when disconnected, and orange otherwise |
| MainTab.MainTab.UpdateDeviceState | kumaMac/ui/main_tab.py:228-254 | the labels show the state and time; the colour is green when connected, red when disconnected, orange otherwise; the inference buttons follow |
| MainTab.ElongatedNotDisplayable | kumaMac/ui/main_tab.py:277-282 | a 1000x1 image on a canvas not yet laid out fits to a zero height, so the resize rejects it although neither of its own sides is zero |
| MainTab.MainTab.UpdateImage | kumaMac/ui/main_tab.py:256-294 | an image with a zero side, or whose fitted size truncates a side to zero, raises and leaves the canvas; any other is placed centred and scaled to fit |
| MainTab.MainTab.UpdateDetectionInfo | kumaMac/ui/main_tab.py:296-312 | the list shows `DetectionLines` of the labels |
| MainWindow.RouteExactlyOne | kumaMac/ui/main_window.py:239-247 | each of the four tags goes to its own handler and every other tag is ignored |
| MainWindow.LogLines | kumaMac/ui/main_window.py:257-263 | each message gives one stamped log line, in order |
| MainWindow.StartInferenceCalls | kumaMac/ui/main_window.py:163-172 | the state is always queried first; the remote start is called exactly for a connected, idle device; the remote stop never |
| MainWindow.StopInferenceCalls | kumaMac/ui/main_window.py:189-198 | the state is always queried first; the remote stop is called exactly for a connected, non-idle device; the remote start never |
| MainWindow.InferenceGuardsExclusive | kumaMac/ui/main_window.py:170 | start and stop are never both reachable from one device state; for a connected device exactly one is; a failed query reaches neither |
| MainWindow.StartReplyMessages | kumaMac/ui/main_window.py:173-183 | a success announces the start first, and two messages appear exactly when it also starts processing |
| MainWindow.StartInferenceMessages | kumaMac/ui/main_window.py:163-187 | there is always a message; a success announces the start first; two messages appear exactly when processing was not yet running |
| MainWindow.StopInferenceMessage | kumaMac/ui/main_window.py:189-210 | the stop is announced exactly when the remote stop was called and answered `SUCCESS` |
| MainWindow.StopErrorText | kumaMac/ui/main_window.py:206 | an error message is never the success message |
| MainWindow.KumakitaApp.constructor | kumaMac/ui/main_window.py:25-104 | the flag is clear and no worker is started; after the first `check_device_status` the status bar and the single log line carry its message; an answered query puts the state, its colour, the time and the allowed inference buttons on the tab, and a failed one leaves the tab as set up |
| MainWindow.KumakitaApp.UpdateStatus | kumaMac/ui/main_window.py:249-270 | the status bar shows the message and the log gains its stamped line |
| MainWindow.KumakitaApp.StartProcessing | kumaMac/ui/main_window.py:272-284 | with the flag clear, it is set, one worker is started, the buttons switch and the start is announced; with it set, nothing changes |
| MainWindow.KumakitaApp.StopProcessing | kumaMac/ui/main_window.py:286-294 | with the flag set, it is cleared, the buttons switch and the stop is announced; with it clear, nothing changes |
| MainWindow.KumakitaApp.StartInference | kumaMac/ui/main_window.py:163-187 | the calls are the guarded ones; processing runs afterwards exactly when it ran before or the start succeeded; a worker is added and the display buttons switch only for a new run; the status and log carry the messages in order |
| MainWindow.KumakitaApp.HandleStartReply | kumaMac/ui/main_window.py:173-183 | a `SUCCESS` reply is announced and starts processing, switching the display buttons when it was not running; any other reply is reported as an error and leaves the buttons |
| MainWindow.KumakitaApp.StopInference | kumaMac/ui/main_window.py:189-210 | the calls are the guarded ones and the one status message is logged; the worker is left running |
| MainWindow.KumakitaApp.CheckDeviceStatus | kumaMac/ui/main_window.py:146-161 | an answered query shows the state, its colour and the time on the tab, with its buttons, and says whether the device is connected; a failed one only writes the error, leaving the tab's labels, colour and buttons |
| MainWindow.KumakitaApp.HandleProcessorCallback | kumaMac/ui/main_window.py:231-247 | the data goes to the one handler its tag names and only that handler's part of the window changes (a device state also sets the colour and the inference buttons); an image that the tab cannot show (a zero side, or a fitted side truncated to zero) reports failure |

## Left out

- The AITRIOS client (`kumaMac/api/aitrios_client.py`) is not part of this model. Its answers are `Remote<T>` parameters, one per call.
- Threads are left out: the processing worker, the device-monitor thread of `process_images` (`monitor_device_state`), `join`, `after()` timers, and the hand-off of `update_status` to the Tk main thread. The model runs one pass at a time. The window counts started workers instead of running them.
- Time is left out: the `time.sleep` pauses are recorded as a number of seconds, and timestamps are a `now` parameter.
- `cv2`, `numpy`, `PIL` and `base64` are oracles. `download_image` and `decode_base64` return a decoded image, an undecodable image, or a base64 error. `convert_cv_to_pil`, `cv2.imwrite`, `cv2.resize` and the pixels themselves are not modelled; an image is its size and the list of strokes drawn on it.
- Floating point is left out. The `{:.2f}` score is formatted exactly from the float32 bit pattern. Resize ratios use exact rationals instead of doubles, so a ratio that a double would round across an integer boundary can give a size one pixel different.
- `re.sub` is an oracle over the content, the key and the replacement text. `re.search` with no match is the oracle returning the content unchanged, and the warnings printed then are not modelled.
- `SettingsManager.Str` writes a class list as `ObjclassString`, not as Python's `repr` of a list. Only the double-quoted keys could receive a list, and only through settings of the wrong type.
- `SettingsManager.ObjclassRoundTrip`: class names containing a single quote are not round-tripped, as the written list is then not valid Python. The lemma requires names without quotes.
- The file system is left out: `settings_file` is an optional content string. `os.path`, the `print` messages and the traceback are not modelled.
- `kumaMac/utils/file_utils.py` is not part of this model. The settings tab's `export_classes`, `import_classes`, `save_settings`, `refresh_settings`, `flash_fields` and dialog commands, which use it or only lay out widgets, are left out.
- Left out from the window: `on_settings_changed` (it rebuilds the client), `on_closing`, `on_tab_changed` and the periodic status update. They are timers and client construction around the modelled operations.
- `GeneralObject.GetRootAs` and `GeneralObject.GetRootAsGeneralObject` take the offset explicitly, as a natural number. Python's default `offset=0` is a caller passing 0. The negative offsets `struct.unpack_from` counts from the end of the buffer are not modelled.
- `SettingsManager.SettingsManager.GetSetting` takes its default explicitly. Python's `default=None` is not modelled, because a setting value here is never `None`, so a missing key without a default has no result.
- The events of `process_images` assume that the window's callback returns. When the window's image handler raises (`MainWindow.KumakitaApp.HandleProcessorCallback` reports this as a `false` result), the source's `try` blocks skip the `"detection"` callback and report an error status; the modelled events still list `ShowDetections` after `ShowImage`.
- Tk layout, fonts, resizing of frames, and the conversions done by `StringVar`/`IntVar` are left out.
- The generated builder helpers of `GeneralObject.py` (`Start`, `Add*`, `End`) are modelled only by the slots they fill, `GeneralObject.BuilderSlots`, not by the builder's own byte layout.
- `MainWindow.KumakitaApp.HandleProcessorCallback` requires that the data fit the tag, as the processor always sends it. A mismatched payload would raise inside a Tk handler.
- `SettingsTab.SettingsTab.constructor` requires a configuration holding the five settings with their types, as `load_settings` returns for a well-formed settings module. A module with a value of another type would make the Tk variables raise or convert.
- `SettingsTab.SettingsTab.LoadConfigToUi` requires the same well-formed configuration, for the same reason.
