/** The generated FlatBuffers accessor class `GeneralObject`: a view of one
    detected-object table (`ClassId`, `BoundingBoxType`, `BoundingBox`,
    `Score`), the root lookup `GetRootAs`, and the slot numbering and default
    values of the matching builder helpers. */
module GeneralObject {
  import opened FlatTable

  /** `GetRootAs(buf, offset)`: the `uoffset_t` stored at `offset` says how far
      past `offset` the root table starts. */
  function GetRootAs(buf: Bytes, offset: nat): (r: Result<Table>)
    ensures r.Ok? <==> Raw(buf, U32, offset).Ok? && IsUOffset(Raw(buf, U32, offset).value + offset)
    ensures r.Ok? ==> r.value == Table(buf, Raw(buf, U32, offset).value + offset)
  {
    var n :- Raw(buf, U32, offset);
    NewTable(buf, n + offset)
  }

  /** The deprecated alias of `GetRootAs`. */
  function GetRootAsGeneralObject(buf: Bytes, offset: nat): (r: Result<Table>)
    ensures r == GetRootAs(buf, offset)
  {
    GetRootAs(buf, offset)
  }

  /** Field `class_id`: a `uint32` in vtable slot 4, 0 when absent. */
  function ClassId(t: Table): (r: Result<int>)
    ensures Offset(t, 4) == Ok(0) ==> r == Ok(0)
    ensures Offset(t, 4).Fail? ==> r.Fail?
    ensures r.Ok? ==> InRange(U32, r.value)
  {
    ScalarOr(t, 4, U32, 0)
  }

  /** Field `bounding_box_type`: the `uint8` union tag in vtable slot 6, 0
      (no box) when absent. */
  function BoundingBoxType(t: Table): (r: Result<int>)
    ensures Offset(t, 6) == Ok(0) ==> r == Ok(0)
    ensures Offset(t, 6).Fail? ==> r.Fail?
    ensures r.Ok? ==> InRange(U8, r.value)
  {
    ScalarOr(t, 6, U8, 0)
  }

  /** Field `bounding_box`: the union value in vtable slot 8, a table reached
      through the stored offset, or `None` when absent. */
  function BoundingBox(t: Table): (r: Result<Option<Table>>)
    ensures Offset(t, 8) == Ok(0) ==> r == Ok(None)
    ensures Offset(t, 8).Fail? ==> r.Fail?
    ensures r.Ok? && r.value.Some? ==> r.value.value.bytes == t.bytes && t.pos < r.value.value.pos
  {
    var o :- Offset(t, 8);
    if o != 0 then
      var u :- Union(t, o);
      Ok(Some(u))
    else
      Ok(None)
  }

  /** Field `score`: a `float32` in vtable slot 10 (kept as its bit pattern),
      0.0 (bit pattern 0) when absent. */
  function Score(t: Table): (r: Result<int>)
    ensures Offset(t, 10) == Ok(0) ==> r == Ok(0)
    ensures Offset(t, 10).Fail? ==> r.Fail?
    ensures r.Ok? ==> IsWord(r.value)
  {
    ScalarOr(t, 10, F32, 0)
  }

  /** The values handed to the builder helpers `AddClassId`, `AddBoundingBoxType`,
      `AddBoundingBox` and `AddScore`. `boundingBox` is the relative offset the
      builder stores for the box table (0 when no box was added) and `score` is
      the bit pattern of the float. */
  datatype Built = Built(classId: nat, boundingBoxType: nat, boundingBox: nat, score: nat)

  predicate ValidBuilt(b: Built) {
    IsWord(b.classId) && b.boundingBoxType < 0x100 && IsWord(b.boundingBox) && IsWord(b.score)
  }

  /** A float bit pattern that compares equal to 0.0: +0.0 or -0.0. */
  predicate IsFloatZero(bits: nat) {
    bits == 0 || bits == 0x8000_0000
  }

  /** What the builder writes: `AddClassId` fills slot 0, `AddBoundingBoxType`
      slot 1, `AddBoundingBox` slot 2 and `AddScore` slot 3, and each `Prepend*Slot`
      call leaves its slot out when the value equals the default it is given
      (0, 0, 0 and 0.0). */
  function BuilderSlots(b: Built): (f: seq<Slot>)
    requires ValidBuilt(b)
    ensures WellFormedFields(f)
    ensures forall k :: 0 <= k < 4 && f[k].Present? ==> f[k].word != 0
  {
    [if b.classId == 0 then Absent else Present(b.classId),
     if b.boundingBoxType == 0 then Absent else Present(b.boundingBoxType),
     if b.boundingBox == 0 then Absent else Present(b.boundingBox),
     if IsFloatZero(b.score) then Absent else Present(b.score)]
  }

  /** Builder slot `k` is the field the accessor finds at vtable offset 4+2k,
      and the builder's defaults are the accessors' defaults: every accessor
      reads back what was built. A score of -0.0 is left out by the builder
      and so reads back as +0.0. */
  lemma {:induction false} BuiltObjectReadsBack(buf: Bytes, s: int, b: Built)
    requires ValidBuilt(b) && BlockAt(buf, s, BuilderSlots(b)) && |buf| <= UOFFSET_MAX
    ensures var t := Table(buf, s + TABLE_START);
      && ClassId(t) == Ok(b.classId)
      && BoundingBoxType(t) == Ok(b.boundingBoxType)
      && Score(t) == Ok(if IsFloatZero(b.score) then 0 else b.score)
      && BoundingBox(t) == Ok(if b.boundingBox == 0 then None
                              else Some(Table(buf, s + TABLE_START + 12 + b.boundingBox)))
  {
    BuiltScalarsReadBack(buf, s, b);
    BuiltBoxReadsBack(buf, s, b);
  }

  lemma BuiltScalarsReadBack(buf: Bytes, s: int, b: Built)
    requires ValidBuilt(b) && BlockAt(buf, s, BuilderSlots(b)) && |buf| <= UOFFSET_MAX
    ensures var t := Table(buf, s + TABLE_START);
      && ClassId(t) == Ok(b.classId)
      && BoundingBoxType(t) == Ok(b.boundingBoxType)
      && Score(t) == Ok(if IsFloatZero(b.score) then 0 else b.score)
  {
    BuiltClassId(buf, s, b);
    BuiltBoundingBoxType(buf, s, b);
    BuiltScore(buf, s, b);
  }

  lemma BuiltClassId(buf: Bytes, s: int, b: Built)
    requires ValidBuilt(b) && BlockAt(buf, s, BuilderSlots(b)) && |buf| <= UOFFSET_MAX
    ensures ClassId(Table(buf, s + TABLE_START)) == Ok(b.classId)
  {
    BuiltSlot(buf, s, b, 0, U32);
  }

  lemma BuiltBoundingBoxType(buf: Bytes, s: int, b: Built)
    requires ValidBuilt(b) && BlockAt(buf, s, BuilderSlots(b)) && |buf| <= UOFFSET_MAX
    ensures BoundingBoxType(Table(buf, s + TABLE_START)) == Ok(b.boundingBoxType)
  {
    BuiltSlot(buf, s, b, 1, U8);
  }

  lemma BuiltScore(buf: Bytes, s: int, b: Built)
    requires ValidBuilt(b) && BlockAt(buf, s, BuilderSlots(b)) && |buf| <= UOFFSET_MAX
    ensures Score(Table(buf, s + TABLE_START)) == Ok(if IsFloatZero(b.score) then 0 else b.score)
  {
    BuiltSlot(buf, s, b, 3, F32);
  }

  lemma BuiltSlot(buf: Bytes, s: int, b: Built, k: nat, kind: Kind)
    requires ValidBuilt(b) && BlockAt(buf, s, BuilderSlots(b)) && |buf| <= UOFFSET_MAX
    requires k < 4 && kind != U16
    ensures var f := BuilderSlots(b);
      ScalarOr(Table(buf, s + TABLE_START), 4 + 2 * k, kind, 0) == Ok(if f[k].Present? then WordAs(kind, f[k].word) else 0)
  {
    BlockScalar(buf, s, BuilderSlots(b), k, kind, 0);
  }

  lemma BuiltBoxReadsBack(buf: Bytes, s: int, b: Built)
    requires ValidBuilt(b) && BlockAt(buf, s, BuilderSlots(b)) && |buf| <= UOFFSET_MAX
    ensures BoundingBox(Table(buf, s + TABLE_START))
         == Ok(if b.boundingBox == 0 then None else Some(Table(buf, s + TABLE_START + 12 + b.boundingBox)))
  {
    var f := BuilderSlots(b);
    var t := Table(buf, s + TABLE_START);
    BlockOffset(buf, s, f, 2);
    if b.boundingBox != 0 {
      BlockWord(buf, s, f, 2, U32);
      assert Union(t, 12) == Ok(Table(buf, s + TABLE_START + 12 + b.boundingBox));
    }
  }

  /** The root offset written at `offset` leads `GetRootAs` to the table. */
  lemma {:induction false} RootReadsBack(pre: Bytes, v: nat, post: Bytes)
    requires IsWord(v) && |pre| + v <= UOFFSET_MAX
    ensures GetRootAs(pre + Le32(v) + post, |pre|) == Ok(Table(pre + Le32(v) + post, |pre| + v))
  {
    var buf := pre + Le32(v) + post;
    var p := |pre|;
    assert buf[p] == Le32(v)[0] && buf[p + 1] == Le32(v)[1];
    assert buf[p + 2] == Le32(v)[2] && buf[p + 3] == Le32(v)[3];
    ReadWord(buf, p, v, U32);
  }
}
