/** `DetectionProcessor.deserialize_flatbuffers`: the walk from a FlatBuffers
    inference record to the list of 2D detections. The walk goes from the root
    table to its Perception table (vtable offset 4), to that table's vector of
    object tables (vtable offset 4), and reads each object and, when the object
    carries a 2D bounding box, the box's four edges. A read that fails inside
    one object drops that object only; a read that fails before the object loop
    ends the decode with an empty list. */
module DetectionDecoder {
  import opened FlatTable
  import GeneralObject

  /** One result entry: the dictionary with keys `class_id`, `score`, `left`,
      `top`, `right` and `bottom`. The score is the bit pattern of the float. */
  datatype Detection = Detection(classId: Bits32, score: Bits32, left: int, top: int, right: int, bottom: int)

  /** The status messages the decoder reports through the processor's callback. */
  datatype Notice =
    | NoPerception                         // "パーセプションデータなし"
    | NoObjects                            // "検出オブジェクトなし"
    | ObjectCount(count: nat)              // "検出オブジェクト数: <count>"
    | ObjectFailed(index: nat, error: Error)  // "オブジェクト <index> の処理中にエラー: <error>"
    | NoResults                            // "推論結果なし"
    | DecodeFailed(error: Error)           // "デシリアライズエラー: <error>"
    | Traceback                            // the formatted traceback sent after it

  /** Where the walk stands before the object loop: a missing field ends it
      with a notice, otherwise the Perception table, the table-relative
      position of its object-vector field and the vector's length. */
  datatype Header = Missing(notice: Notice) | Objects(perception: Table, field: nat, count: nat)

  /** The root table: at the position the `uoffset_t` at byte 0 names. */
  function RootTable(buf: Bytes): Result<Table> {
    var rootPos :- Raw(buf, U32, 0);
    NewTable(buf, rootPos)
  }

  /** The Perception table the root's field (vtable offset 4) refers to,
      `None` when that field is absent. */
  function PerceptionTable(buf: Bytes): Result<Option<Table>> {
    var root :- RootTable(buf);
    var o :- Offset(root, 4);
    if o == 0 then Ok(None)
    else
      var perceptionPos :- Indirect(root, o + root.pos);
      var perception :- NewTable(buf, perceptionPos);
      Ok(Some(perception))
  }

  /** Whether the record has a Perception table whose object field is absent. */
  predicate NoObjectField(buf: Bytes) {
    PerceptionTable(buf).Ok? && PerceptionTable(buf).value.Some? && Offset(PerceptionTable(buf).value.value, 4) == Ok(0)
  }

  function ReadHeader(buf: Bytes): (r: Result<Header>)
    ensures r.Ok? && r.value.Objects? ==>
      r.value.perception.bytes == buf && r.value.field != 0 && r.value.count <= UOFFSET_MAX
    ensures r.Ok? && r.value.Missing? ==> r.value.notice == NoPerception || r.value.notice == NoObjects
    ensures RootTable(buf).Ok? && Offset(RootTable(buf).value, 4) == Ok(0) ==> r == Ok(Missing(NoPerception))
    ensures r == Ok(Missing(NoPerception)) ==> RootTable(buf).Ok? && Offset(RootTable(buf).value, 4) == Ok(0)
    ensures NoObjectField(buf) ==> r == Ok(Missing(NoObjects))
    ensures r == Ok(Missing(NoObjects)) ==> NoObjectField(buf)
  {
    var rootPos :- Raw(buf, U32, 0);
    var root :- NewTable(buf, rootPos);
    var o :- Offset(root, 4);
    if o == 0 then Ok(Missing(NoPerception))
    else
      var perceptionPos :- Indirect(root, o + root.pos);
      var perception :- NewTable(buf, perceptionPos);
      var list :- Offset(perception, 4);
      if list == 0 then Ok(Missing(NoObjects))
      else
        var count :- VectorLen(perception, list);
        Ok(Objects(perception, list, count))
  }

  /** The table of element `i` of the object vector. */
  function ObjectTable(perception: Table, field: nat, i: nat): (r: Result<Table>)
    ensures r.Ok? ==> r.value.bytes == perception.bytes
  {
    var start :- Vector(perception, field);
    var pos :- Indirect(perception, start + 4 * i);
    NewTable(perception.bytes, pos)
  }

  /** The bounding-box table of an object, reached as the decoder does it:
      `Indirect` on the field, then a new `Table`. */
  function BoxTable(t: Table): (r: Result<Option<Table>>)
    ensures Offset(t, 8) == Ok(0) ==> r == Ok(None)
    ensures Offset(t, 8).Fail? ==> r.Fail?
    ensures r.Ok? && r.value.Some? ==> r.value.value.bytes == t.bytes
  {
    var o :- Offset(t, 8);
    if o == 0 then Ok(None)
    else
      var pos :- Indirect(t, o + t.pos);
      var box :- NewTable(t.bytes, pos);
      Ok(Some(box))
  }

  /** The entry an object table yields: `None` unless its box type is 1 (a 2D
      box) and its box field is present, in which case it carries the four
      edges read from the box table. Absent scalars read as their defaults. */
  function DecodeObject(t: Table): (r: Result<Option<Detection>>)
    ensures r.Ok? && r.value.Some? ==>
      && GeneralObject.BoundingBoxType(t) == Ok(1)
      && BoxTable(t).Ok? && BoxTable(t).value.Some?
      && GeneralObject.ClassId(t) == Ok(r.value.value.classId)
      && GeneralObject.Score(t) == Ok(r.value.value.score)
    ensures r.Ok? && r.value.Some? ==>
      var box := BoxTable(t).value.value;
      && ScalarOr(box, 4, I32, 0) == Ok(r.value.value.left)
      && ScalarOr(box, 6, I32, 0) == Ok(r.value.value.top)
      && ScalarOr(box, 8, I32, 0) == Ok(r.value.value.right)
      && ScalarOr(box, 10, I32, 0) == Ok(r.value.value.bottom)
    ensures GeneralObject.ClassId(t).Fail? || GeneralObject.Score(t).Fail? ==> r.Fail?
    ensures GeneralObject.BoundingBoxType(t).Fail? ==> r.Fail?
    ensures GeneralObject.BoundingBoxType(t) == Ok(1) && BoxTable(t).Fail? ==> r.Fail?
    ensures GeneralObject.BoundingBoxType(t) == Ok(1) && BoxTable(t).Ok? && BoxTable(t).value.Some? ==>
      var box := BoxTable(t).value.value;
      (ScalarOr(box, 4, I32, 0).Fail? || ScalarOr(box, 6, I32, 0).Fail? ||
       ScalarOr(box, 8, I32, 0).Fail? || ScalarOr(box, 10, I32, 0).Fail?) ==> r.Fail?
    ensures
      && GeneralObject.ClassId(t).Ok? && GeneralObject.Score(t).Ok?
      && GeneralObject.BoundingBoxType(t) == Ok(1) && BoxTable(t).Ok? && BoxTable(t).value.Some?
      && ScalarOr(BoxTable(t).value.value, 4, I32, 0).Ok? && ScalarOr(BoxTable(t).value.value, 6, I32, 0).Ok?
      && ScalarOr(BoxTable(t).value.value, 8, I32, 0).Ok? && ScalarOr(BoxTable(t).value.value, 10, I32, 0).Ok?
      ==> r.Ok? && r.value.Some?
    ensures GeneralObject.ClassId(t).Ok? && GeneralObject.Score(t).Ok? ==>
      && (GeneralObject.BoundingBoxType(t).Ok? && GeneralObject.BoundingBoxType(t).value != 1 ==> r == Ok(None))
      && (GeneralObject.BoundingBoxType(t) == Ok(1) && BoxTable(t) == Ok(None) ==> r == Ok(None))
  {
    var classId :- GeneralObject.ClassId(t);
    var score :- GeneralObject.Score(t);
    var boxType :- GeneralObject.BoundingBoxType(t);
    if boxType != 1 then Ok(None)
    else
      var box :- BoxTable(t);
      if box.None? then Ok(None)
      else
        var left :- ScalarOr(box.value, 4, I32, 0);
        var top :- ScalarOr(box.value, 6, I32, 0);
        var right :- ScalarOr(box.value, 8, I32, 0);
        var bottom :- ScalarOr(box.value, 10, I32, 0);
        Ok(Some(Detection(classId, score, left, top, right, bottom)))
  }

  /** What element `i` of the object vector contributes, or why it failed. */
  function DecodeEntry(perception: Table, field: nat, i: nat): Result<Option<Detection>> {
    var t :- ObjectTable(perception, field, i);
    DecodeObject(t)
  }

  /** What the elements `0 .. k-1` of the object vector yield, in index order. */
  function Entries(perception: Table, field: nat, k: nat): (es: seq<Result<Option<Detection>>>)
    ensures |es| == k
    ensures forall i :: 0 <= i < k ==> es[i] == DecodeEntry(perception, field, i)
  {
    seq(k, i requires 0 <= i < k => DecodeEntry(perception, field, i))
  }

  predicate Contributes(e: Result<Option<Detection>>) {
    e.Ok? && e.value.Some?
  }

  /** The entries the elements contribute, in index order. */
  function Kept(es: seq<Result<Option<Detection>>>): seq<Detection> {
    if es == [] then []
    else
      var last := es[|es| - 1];
      Kept(es[..|es| - 1]) + (if Contributes(last) then [last.value.value] else [])
  }

  /** One failure notice per failing element, carrying its index, in index order. */
  function Failures(es: seq<Result<Option<Detection>>>): (r: seq<Notice>)
    ensures forall n :: n in r ==> n.ObjectFailed? && n.index < |es|
  {
    if es == [] then []
    else
      var last := es[|es| - 1];
      Failures(es[..|es| - 1]) + (if last.Fail? then [ObjectFailed(|es| - 1, last.error)] else [])
  }

  /** The list `deserialize_flatbuffers` returns. */
  function Decode(buf: Bytes): (r: seq<Detection>)
    ensures ReadHeader(buf).Fail? ==> r == []
    ensures ReadHeader(buf).Ok? && ReadHeader(buf).value.Missing? ==> r == []
    ensures ReadHeader(buf).Ok? && ReadHeader(buf).value.Objects? ==> |r| <= ReadHeader(buf).value.count
  {
    match ReadHeader(buf)
    case Fail(_) => []
    case Ok(Missing(_)) => []
    case Ok(Objects(perception, field, count)) =>
      var es := Entries(perception, field, count);
      KeptInOrder(es);
      Kept(es)
  }

  /** The status messages `deserialize_flatbuffers` sends, in order. */
  function DecodeNotices(buf: Bytes): (r: seq<Notice>)
    ensures |r| >= 1
    ensures ReadHeader(buf).Fail? ==> r == [DecodeFailed(ReadHeader(buf).error), Traceback]
    ensures ReadHeader(buf).Ok? && ReadHeader(buf).value.Missing? ==> r == [ReadHeader(buf).value.notice]
    ensures ReadHeader(buf).Ok? && ReadHeader(buf).value.Objects? ==>
      && r[0] == ObjectCount(ReadHeader(buf).value.count)
      && (NoResults in r <==> Decode(buf) == [])
  {
    match ReadHeader(buf)
    case Fail(e) => [DecodeFailed(e), Traceback]
    case Ok(Missing(notice)) => [notice]
    case Ok(Objects(perception, field, count)) =>
      var es := Entries(perception, field, count);
      [ObjectCount(count)] + Failures(es) + (if Kept(es) == [] then [NoResults] else [])
  }

  /** A record without a Perception field decodes to no detections and
      reports only that; one whose Perception table has no object field
      decodes to no detections and reports only that. */
  lemma MissingFieldDecodesEmpty(buf: Bytes)
    ensures RootTable(buf).Ok? && Offset(RootTable(buf).value, 4) == Ok(0) ==>
      Decode(buf) == [] && DecodeNotices(buf) == [NoPerception]
    ensures NoObjectField(buf) ==> Decode(buf) == [] && DecodeNotices(buf) == [NoObjects]
  {
  }

  /** The indices of the elements that contribute an entry. */
  function KeptIndices(es: seq<Result<Option<Detection>>>): seq<nat> {
    if es == [] then []
    else KeptIndices(es[..|es| - 1]) + (if Contributes(es[|es| - 1]) then [|es| - 1] else [])
  }

  /** The decoded list holds exactly the entries of the contributing elements,
      in increasing element-index order: at most one entry per element, none
      for an element that fails or has no 2D box, and an element's failure
      does not affect any other element. */
  lemma {:induction false} KeptInOrder(es: seq<Result<Option<Detection>>>)
    ensures var ix, ds := KeptIndices(es), Kept(es);
      && |ix| == |ds| <= |es|
      && (forall j :: 0 <= j < |ix| ==> ix[j] < |es| && Contributes(es[ix[j]]) && ds[j] == es[ix[j]].value.value)
      && (forall j1, j2 :: 0 <= j1 < j2 < |ix| ==> ix[j1] < ix[j2])
      && (forall i :: 0 <= i < |es| && Contributes(es[i]) ==> i in ix)
  {
    if es != [] {
      var init := es[..|es| - 1];
      KeptInOrder(init);
      forall i | 0 <= i < |init| ensures init[i] == es[i] {
      }
    }
  }

  /** An element is reported as failed exactly when its reads fail, and the
      report carries its index and the error. */
  lemma {:induction false} FailureNotices(es: seq<Result<Option<Detection>>>, i: nat)
    requires i < |es|
    ensures es[i].Fail? <==> exists e :: ObjectFailed(i, e) in Failures(es)
    ensures es[i].Fail? ==> ObjectFailed(i, es[i].error) in Failures(es)
  {
    var init := es[..|es| - 1];
    if i < |es| - 1 {
      FailureNotices(init, i);
      assert init[i] == es[i];
    }
  }

  /** Extending the prefix of elements by one adds that element's entry and
      failure notice at the end. */
  lemma PrefixStep(es: seq<Result<Option<Detection>>>, i: nat)
    requires i < |es|
    ensures Kept(es[..i + 1]) == Kept(es[..i]) + (if Contributes(es[i]) then [es[i].value.value] else [])
    ensures Failures(es[..i + 1]) == Failures(es[..i]) + (if es[i].Fail? then [ObjectFailed(i, es[i].error)] else [])
  {
    assert es[..i + 1][..i] == es[..i];
  }

  /** The object loop of `deserialize_flatbuffers`: every element in index
      order, keeping its entry or reporting its failure. */
  method DecodeElements(perception: Table, field: nat, count: nat) returns (results: seq<Detection>, failures: seq<Notice>)
    ensures results == Kept(Entries(perception, field, count))
    ensures failures == Failures(Entries(perception, field, count))
  {
    ghost var es := Entries(perception, field, count);
    results, failures := [], [];
    var i := 0;
    while i < count
      invariant i <= count
      invariant results == Kept(es[..i])
      invariant failures == Failures(es[..i])
    {
      var entry := DecodeEntry(perception, field, i);
      PrefixStep(es, i);
      match entry {
        case Fail(e) => failures := failures + [ObjectFailed(i, e)];
        case Ok(None) =>
        case Ok(Some(d)) => results := results + [d];
      }
      i := i + 1;
    }
    assert es[..count] == es;
  }

  /** `deserialize_flatbuffers(buf)`: the result list and the status messages. */
  method DeserializeFlatbuffers(buf: Bytes) returns (results: seq<Detection>, notices: seq<Notice>)
    ensures results == Decode(buf) && notices == DecodeNotices(buf)
  {
    var header := ReadHeader(buf);
    if header.Fail? {
      return [], [DecodeFailed(header.error), Traceback];
    }
    match header.value {
      case Missing(notice) =>
        return [], [notice];
      case Objects(perception, field, count) =>
        var failures;
        results, failures := DecodeElements(perception, field, count);
        notices := [ObjectCount(count)] + failures;
        if |results| == 0 {
          notices := notices + [NoResults];
        }
    }
  }
}
