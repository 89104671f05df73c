/** An encoder for the inference records `deserialize_flatbuffers` reads, and
    the round trip: decoding an encoded record gives back, in order, exactly
    the objects that carry a 2D bounding box, with every absent field read as
    its default.

    The encoded record is laid out as:
      0      root `uoffset_t` (16)
      4      root block: vtable, then the root table at 16 whose slot 0 points
             to the Perception table at 48
      36     Perception block: vtable, then the table at 48 whose slot 0 points
             to the object vector at 68
      68     vector length `n`
      72     `n` offsets, the i-th leading to the table of object `i`
      72+4n  one 64-byte chunk per object: its object block, then its box block
    Every table uses the 32-byte block shape of `FlatTable.Block`. */
module RecordLayout {
  import opened FlatTable
  import opened DetectionDecoder
  import GeneralObject

  /** A 2D bounding box whose edges may each be absent. */
  datatype BoxSpec = BoxSpec(left: Option<int>, top: Option<int>, right: Option<int>, bottom: Option<int>)

  /** An object table whose fields may each be absent; `boxType` is the union
      tag and `box` the union value. */
  datatype ObjectSpec = ObjectSpec(classId: Option<Bits32>, score: Option<Bits32>, boxType: Option<Bits32>, box: Option<BoxSpec>)

  function Or<T>(o: Option<T>, default: T): T {
    if o.Some? then o.value else default
  }

  predicate ValidEdge(e: Option<int>) {
    e.Some? ==> InRange(I32, e.value)
  }

  predicate ValidObject(o: ObjectSpec) {
    && (o.boxType.Some? ==> o.boxType.value < 0x100)
    && (o.box.Some? ==> ValidEdge(o.box.value.left) && ValidEdge(o.box.value.top)
                        && ValidEdge(o.box.value.right) && ValidEdge(o.box.value.bottom))
  }

  /** A record of `n` objects fits in the `uoffset_t` range. */
  predicate Fits(n: nat) {
    72 + 68 * n <= UOFFSET_MAX
  }

  predicate ValidRecord(objs: seq<ObjectSpec>) {
    Fits(|objs|) && forall i :: 0 <= i < |objs| ==> ValidObject(objs[i])
  }

  /** What the decoder is meant to produce for one object: an entry only for a
      box of type 1 that is present, with 0 for every absent scalar. */
  function Expected(o: ObjectSpec): Option<Detection> {
    if Or(o.boxType, 0) == 1 && o.box.Some? then
      var b := o.box.value;
      Some(Detection(Or(o.classId, 0), Or(o.score, 0), Or(b.left, 0), Or(b.top, 0), Or(b.right, 0), Or(b.bottom, 0)))
    else None
  }

  function ExpectedList(objs: seq<ObjectSpec>): seq<Detection> {
    if objs == [] then []
    else
      var last := Expected(objs[|objs| - 1]);
      ExpectedList(objs[..|objs| - 1]) + (if last.Some? then [last.value] else [])
  }

  // ---------------------------------------------------------------------
  // The encoder.
  // ---------------------------------------------------------------------

  function WordSlot(v: Option<Bits32>): Slot {
    if v.Some? then Present(v.value) else Absent
  }

  function EdgeSlot(e: Option<int>): Slot
    requires ValidEdge(e)
  {
    if e.Some? then Present(FromSigned(e.value)) else Absent
  }

  /** The object table: class id, box type, the offset from the box field to
      the box table (20 bytes, when there is a box) and the score. */
  function ObjectSlots(o: ObjectSpec): (f: seq<Slot>)
    requires ValidObject(o)
    ensures WellFormedFields(f)
  {
    [WordSlot(o.classId), WordSlot(o.boxType), if o.box.Some? then Present(20) else Absent, WordSlot(o.score)]
  }

  /** The box table: left, top, right and bottom; all absent when there is no box. */
  function BoxSlots(o: ObjectSpec): (f: seq<Slot>)
    requires ValidObject(o)
    ensures WellFormedFields(f)
  {
    if o.box.None? then [Absent, Absent, Absent, Absent]
    else
      var b := o.box.value;
      [EdgeSlot(b.left), EdgeSlot(b.top), EdgeSlot(b.right), EdgeSlot(b.bottom)]
  }

  const ROOT_SLOTS: seq<Slot> := [Present(28), Absent, Absent, Absent]
  const PERCEPTION_SLOTS: seq<Slot> := [Present(16), Absent, Absent, Absent]

  function Chunk(o: ObjectSpec): (b: Bytes)
    requires ValidObject(o)
    ensures |b| == 2 * BLOCK_SIZE
  {
    Block(ObjectSlots(o)) + Block(BoxSlots(o))
  }

  function Chunks(objs: seq<ObjectSpec>): (b: Bytes)
    requires forall i :: 0 <= i < |objs| ==> ValidObject(objs[i])
    ensures |b| == 64 * |objs|
  {
    if objs == [] then [] else Chunks(objs[..|objs| - 1]) + Chunk(objs[|objs| - 1])
  }

  /** The offset stored for object `i` of `n`: from its own position to the
      object's table. */
  function RefWord(n: nat, i: nat): nat {
    4 * n + 60 * i + 12
  }

  function Refs(n: nat, k: nat): (b: Bytes)
    requires k <= n && Fits(n)
    ensures |b| == 4 * k
  {
    if k == 0 then [] else Refs(n, k - 1) + Le32(RefWord(n, k - 1))
  }

  function HeaderBytes(n: nat): (b: Bytes)
    requires Fits(n)
    ensures |b| == 72
  {
    Le32(16) + Block(ROOT_SLOTS) + Block(PERCEPTION_SLOTS) + Le32(n)
  }

  /** The encoded record. */
  function Encode(objs: seq<ObjectSpec>): (b: Bytes)
    requires ValidRecord(objs)
    ensures |b| == 72 + 68 * |objs| <= UOFFSET_MAX
  {
    HeaderBytes(|objs|) + Refs(|objs|, |objs|) + Chunks(objs)
  }

  /** Where chunk `i` starts. */
  function ChunkStart(n: nat, i: nat): nat {
    72 + 4 * n + 64 * i
  }

  // ---------------------------------------------------------------------
  // The round trip.
  // ---------------------------------------------------------------------

  /** Decoding an encoded record gives the expected entries in order. */
  lemma {:induction false} DecodeEncode(objs: seq<ObjectSpec>)
    requires ValidRecord(objs)
    ensures Decode(Encode(objs)) == ExpectedList(objs)
  {
    var buf, n := Encode(objs), |objs|;
    var perception := Table(buf, 48);
    HeaderReadsBack(objs);
    var es := Entries(perception, 4, n);
    forall i | 0 <= i < n
      ensures es[i] == Ok(Expected(objs[i]))
    {
      EntryReadsBack(objs, i);
    }
    KeptExpected(es, objs);
  }

  lemma {:induction false} KeptExpected(es: seq<Result<Option<Detection>>>, objs: seq<ObjectSpec>)
    requires |es| == |objs|
    requires forall i :: 0 <= i < |es| ==> es[i] == Ok(Expected(objs[i]))
    ensures Kept(es) == ExpectedList(objs)
  {
    if es != [] {
      var k := |es| - 1;
      KeptExpected(es[..k], objs[..k]);
    }
  }

  lemma HeaderReadsBack(objs: seq<ObjectSpec>)
    requires ValidRecord(objs)
    ensures ReadHeader(Encode(objs)) == Ok(Objects(Table(Encode(objs), 48), 4, |objs|))
  {
    HeaderReads(objs);
    HeaderFromReads(Encode(objs), |objs|);
  }

  lemma HeaderFromReads(buf: Bytes, n: nat)
    requires Raw(buf, U32, 0) == Ok(16)
    requires Offset(Table(buf, 16), 4) == Ok(4)
    requires Indirect(Table(buf, 16), 20) == Ok(48)
    requires Offset(Table(buf, 48), 4) == Ok(4)
    requires VectorLen(Table(buf, 48), 4) == Ok(n)
    ensures ReadHeader(buf) == Ok(Objects(Table(buf, 48), 4, n))
  {
    assert NewTable(buf, 16) == Ok(Table(buf, 16));
    assert NewTable(buf, 48) == Ok(Table(buf, 48));
  }

  /** Every read the decoder makes before the object loop. */
  lemma HeaderReads(objs: seq<ObjectSpec>)
    requires ValidRecord(objs)
    ensures var buf := Encode(objs);
      && Raw(buf, U32, 0) == Ok(16)
      && Offset(Table(buf, 16), 4) == Ok(4)
      && Indirect(Table(buf, 16), 20) == Ok(48)
      && Offset(Table(buf, 48), 4) == Ok(4)
      && VectorLen(Table(buf, 48), 4) == Ok(|objs|)
      && Vector(Table(buf, 48), 4) == Ok(72)
  {
    var buf := Encode(objs);
    HeaderBytesAt(objs);
    RootReadsBack(buf);
    PerceptionReadsBack(buf, |objs|);
  }

  /** The root offset leads to the root table, whose Perception field leads to
      the table at 48. */
  lemma RootReadsBack(buf: Bytes)
    requires |buf| <= UOFFSET_MAX && BlockAt(buf, 4, ROOT_SLOTS)
    requires var w := Le32(16); buf[0] == w[0] && buf[1] == w[1] && buf[2] == w[2] && buf[3] == w[3]
    ensures Raw(buf, U32, 0) == Ok(16)
    ensures Offset(Table(buf, 16), 4) == Ok(4)
    ensures Indirect(Table(buf, 16), 20) == Ok(48)
  {
    ReadWord(buf, 0, 16, U32);
    BlockOffset(buf, 4, ROOT_SLOTS, 0);
    BlockRaw(buf, 4, ROOT_SLOTS, 0, U32);
  }

  /** The Perception table's object field leads to a vector of length `n`. */
  lemma PerceptionReadsBack(buf: Bytes, n: nat)
    requires |buf| <= UOFFSET_MAX && 72 <= |buf| && BlockAt(buf, 36, PERCEPTION_SLOTS) && IsWord(n)
    requires var c := Le32(n); buf[68] == c[0] && buf[69] == c[1] && buf[70] == c[2] && buf[71] == c[3]
    ensures Offset(Table(buf, 48), 4) == Ok(4)
    ensures VectorLen(Table(buf, 48), 4) == Ok(n)
    ensures Vector(Table(buf, 48), 4) == Ok(72)
  {
    BlockOffset(buf, 36, PERCEPTION_SLOTS, 0);
    BlockRaw(buf, 36, PERCEPTION_SLOTS, 0, U32);
    ReadWord(buf, 68, n, U32);
  }

  /** The header bytes sit at the start of the record. */
  lemma HeaderBytesAt(objs: seq<ObjectSpec>)
    requires ValidRecord(objs)
    ensures var buf, w, c := Encode(objs), Le32(16), Le32(|objs|);
      && buf[0] == w[0] && buf[1] == w[1] && buf[2] == w[2] && buf[3] == w[3]
      && BlockAt(buf, 4, ROOT_SLOTS) && BlockAt(buf, 36, PERCEPTION_SLOTS)
      && buf[68] == c[0] && buf[69] == c[1] && buf[70] == c[2] && buf[71] == c[3]
  {
    var n := |objs|;
    var buf, h := Encode(objs), HeaderBytes(n);
    assert forall j :: 0 <= j < 72 ==> buf[j] == h[j];
    var w, r, p, c := Le32(16), Block(ROOT_SLOTS), Block(PERCEPTION_SLOTS), Le32(n);
    assert forall j :: 0 <= j < 32 ==> h[4 + j] == r[j];
    assert forall j :: 0 <= j < 32 ==> h[36 + j] == p[j];
  }

  /** Element `i` of the object vector decodes to the expected entry. */
  lemma EntryReadsBack(objs: seq<ObjectSpec>, i: nat)
    requires ValidRecord(objs) && i < |objs|
    ensures DecodeEntry(Table(Encode(objs), 48), 4, i) == Ok(Expected(objs[i]))
  {
    HeaderReads(objs);
    RefAt(objs, i);
    ChunkAt(objs, i);
    EntryAt(Encode(objs), |objs|, i, objs[i]);
  }

  /** An element whose offset leads to an object chunk decodes to the chunk's
      expected entry. */
  lemma EntryAt(buf: Bytes, n: nat, i: nat, o: ObjectSpec)
    requires ValidObject(o) && |buf| <= UOFFSET_MAX
    requires Vector(Table(buf, 48), 4) == Ok(72)
    requires Raw(buf, U32, 72 + 4 * i) == Ok(RefWord(n, i))
    requires BlockAt(buf, ChunkStart(n, i), ObjectSlots(o))
    requires BlockAt(buf, ChunkStart(n, i) + BLOCK_SIZE, BoxSlots(o))
    ensures DecodeEntry(Table(buf, 48), 4, i) == Ok(Expected(o))
  {
    var s := ChunkStart(n, i);
    assert ObjectTable(Table(buf, 48), 4, i) == Ok(Table(buf, s + TABLE_START));
    ObjectReadsBack(buf, s, o);
  }

  /** The offset of object `i` sits in the offset table. */
  lemma RefAt(objs: seq<ObjectSpec>, i: nat)
    requires ValidRecord(objs) && i < |objs|
    ensures Raw(Encode(objs), U32, 72 + 4 * i) == Ok(RefWord(|objs|, i))
  {
    var buf, n := Encode(objs), |objs|;
    var w := Le32(RefWord(n, i));
    RefsAt(n, n, i);
    var refs := Refs(n, n);
    assert buf[72 + 4 * i] == refs[4 * i] && buf[73 + 4 * i] == refs[4 * i + 1];
    assert buf[74 + 4 * i] == refs[4 * i + 2] && buf[75 + 4 * i] == refs[4 * i + 3];
    ReadWord(buf, 72 + 4 * i, RefWord(n, i), U32);
  }

  lemma {:induction false} RefsAt(n: nat, k: nat, i: nat)
    requires k <= n && Fits(n) && i < k
    ensures var refs, w := Refs(n, k), Le32(RefWord(n, i));
      refs[4 * i] == w[0] && refs[4 * i + 1] == w[1] && refs[4 * i + 2] == w[2] && refs[4 * i + 3] == w[3]
  {
    if i < k - 1 {
      RefsAt(n, k - 1, i);
    }
  }

  /** Chunk `i` (the object block and the box block of object `i`) sits at
      `ChunkStart(n, i)`. */
  lemma ChunkAt(objs: seq<ObjectSpec>, i: nat)
    requires ValidRecord(objs) && i < |objs|
    ensures BlockAt(Encode(objs), ChunkStart(|objs|, i), ObjectSlots(objs[i]))
    ensures BlockAt(Encode(objs), ChunkStart(|objs|, i) + BLOCK_SIZE, BoxSlots(objs[i]))
  {
    ChunkBytes(objs, i);
    ChunkBlocks(Encode(objs), ChunkStart(|objs|, i), objs[i]);
  }

  lemma ChunkBytes(objs: seq<ObjectSpec>, i: nat)
    requires ValidRecord(objs) && i < |objs|
    ensures ChunkStart(|objs|, i) + 64 <= |Encode(objs)|
    ensures forall j :: 0 <= j < 64 ==> Encode(objs)[ChunkStart(|objs|, i) + j] == Chunk(objs[i])[j]
  {
    var n := |objs|;
    var prefix, chunks := HeaderBytes(n) + Refs(n, n), Chunks(objs);
    forall j | 0 <= j < 64
      ensures chunks[64 * i + j] == Chunk(objs[i])[j]
    {
      ChunksAt(objs, i, j);
    }
    ConcatShift(prefix, chunks, 64 * i, Chunk(objs[i]), ChunkStart(n, i));
  }

  /** A run of bytes at `k` in `b` sits at `|a| + k` in `a + b`. */
  lemma ConcatShift(a: Bytes, b: Bytes, k: nat, c: Bytes, at: nat)
    requires k + |c| <= |b| && at == |a| + k
    requires forall j :: 0 <= j < |c| ==> b[k + j] == c[j]
    ensures forall j :: 0 <= j < |c| ==> (a + b)[at + j] == c[j]
  {
    forall j | 0 <= j < |c| ensures (a + b)[at + j] == c[j] {
      assert (a + b)[at + j] == b[k + j];
    }
  }

  lemma ChunkBlocks(buf: Bytes, s: int, o: ObjectSpec)
    requires ValidObject(o) && 0 <= s && s + 64 <= |buf|
    requires forall j :: 0 <= j < 64 ==> buf[s + j] == Chunk(o)[j]
    ensures BlockAt(buf, s, ObjectSlots(o)) && BlockAt(buf, s + BLOCK_SIZE, BoxSlots(o))
  {
    assert Chunk(o) == Block(ObjectSlots(o)) + Block(BoxSlots(o));
    SplitRun(buf, s, Block(ObjectSlots(o)), Block(BoxSlots(o)));
  }

  /** Bytes equal to `x + y` at `s` hold `x` at `s` and `y` right after it. */
  lemma SplitRun(buf: Bytes, s: int, x: Bytes, y: Bytes)
    requires 0 <= s && s + |x| + |y| <= |buf|
    requires forall j :: 0 <= j < |x| + |y| ==> buf[s + j] == (x + y)[j]
    ensures forall j :: 0 <= j < |x| ==> buf[s + j] == x[j]
    ensures forall j :: 0 <= j < |y| ==> buf[s + |x| + j] == y[j]
  {
    forall j | 0 <= j < |x|
      ensures buf[s + j] == x[j]
    {
      assert buf[s + j] == (x + y)[j];
    }
    forall j | 0 <= j < |y|
      ensures buf[s + |x| + j] == y[j]
    {
      assert buf[s + (|x| + j)] == (x + y)[|x| + j];
    }
  }

  lemma {:induction false} ChunksAt(objs: seq<ObjectSpec>, i: nat, j: nat)
    requires forall k :: 0 <= k < |objs| ==> ValidObject(objs[k])
    requires i < |objs| && j < 64
    ensures Chunks(objs)[64 * i + j] == Chunk(objs[i])[j]
  {
    var init := objs[..|objs| - 1];
    if i < |objs| - 1 {
      ChunksAt(init, i, j);
      assert init[i] == objs[i];
    }
  }

  /** An object laid out as a chunk at `s` decodes to its expected entry. */
  lemma {:induction false} ObjectReadsBack(buf: Bytes, s: int, o: ObjectSpec)
    requires ValidObject(o) && |buf| <= UOFFSET_MAX
    requires BlockAt(buf, s, ObjectSlots(o)) && BlockAt(buf, s + BLOCK_SIZE, BoxSlots(o))
    ensures DecodeObject(Table(buf, s + TABLE_START)) == Ok(Expected(o))
  {
    var t := Table(buf, s + TABLE_START);
    ObjectScalars(buf, s, o);
    if Or(o.boxType, 0) == 1 {
      ObjectBox(buf, s, o);
      if o.box.Some? {
        BoxEdges(buf, s + BLOCK_SIZE, o);
      }
    }
  }

  lemma ObjectScalars(buf: Bytes, s: int, o: ObjectSpec)
    requires ValidObject(o) && |buf| <= UOFFSET_MAX && BlockAt(buf, s, ObjectSlots(o))
    ensures var t := Table(buf, s + TABLE_START);
      && GeneralObject.ClassId(t) == Ok(Or(o.classId, 0))
      && GeneralObject.Score(t) == Ok(Or(o.score, 0))
      && GeneralObject.BoundingBoxType(t) == Ok(Or(o.boxType, 0))
  {
    ObjectClassId(buf, s, o);
    ObjectScore(buf, s, o);
    ObjectBoxType(buf, s, o);
  }

  lemma ObjectClassId(buf: Bytes, s: int, o: ObjectSpec)
    requires ValidObject(o) && |buf| <= UOFFSET_MAX && BlockAt(buf, s, ObjectSlots(o))
    ensures GeneralObject.ClassId(Table(buf, s + TABLE_START)) == Ok(Or(o.classId, 0))
  {
    BlockScalar(buf, s, ObjectSlots(o), 0, U32, 0);
  }

  lemma ObjectScore(buf: Bytes, s: int, o: ObjectSpec)
    requires ValidObject(o) && |buf| <= UOFFSET_MAX && BlockAt(buf, s, ObjectSlots(o))
    ensures GeneralObject.Score(Table(buf, s + TABLE_START)) == Ok(Or(o.score, 0))
  {
    BlockScalar(buf, s, ObjectSlots(o), 3, F32, 0);
  }

  lemma ObjectBoxType(buf: Bytes, s: int, o: ObjectSpec)
    requires ValidObject(o) && |buf| <= UOFFSET_MAX && BlockAt(buf, s, ObjectSlots(o))
    ensures GeneralObject.BoundingBoxType(Table(buf, s + TABLE_START)) == Ok(Or(o.boxType, 0))
  {
    BlockScalar(buf, s, ObjectSlots(o), 1, U8, 0);
  }

  lemma ObjectBox(buf: Bytes, s: int, o: ObjectSpec)
    requires ValidObject(o) && |buf| <= UOFFSET_MAX && BlockAt(buf, s, ObjectSlots(o))
    requires s + 2 * BLOCK_SIZE <= |buf|
    ensures BoxTable(Table(buf, s + TABLE_START))
         == Ok(if o.box.Some? then Some(Table(buf, s + BLOCK_SIZE + TABLE_START)) else None)
  {
    var f := ObjectSlots(o);
    BlockOffset(buf, s, f, 2);
    if o.box.Some? {
      BlockRaw(buf, s, f, 2, U32);
    }
  }

  lemma BoxEdges(buf: Bytes, s: int, o: ObjectSpec)
    requires ValidObject(o) && o.box.Some? && |buf| <= UOFFSET_MAX && BlockAt(buf, s, BoxSlots(o))
    ensures var t, b := Table(buf, s + TABLE_START), o.box.value;
      && ScalarOr(t, 4, I32, 0) == Ok(Or(b.left, 0))
      && ScalarOr(t, 6, I32, 0) == Ok(Or(b.top, 0))
      && ScalarOr(t, 8, I32, 0) == Ok(Or(b.right, 0))
      && ScalarOr(t, 10, I32, 0) == Ok(Or(b.bottom, 0))
  {
    var f := BoxSlots(o);
    BlockScalar(buf, s, f, 0, I32, 0);
    BlockScalar(buf, s, f, 1, I32, 0);
    BlockScalar(buf, s, f, 2, I32, 0);
    BlockScalar(buf, s, f, 3, I32, 0);
  }
}
