/** The FlatBuffers binary table reader used by the detection decoder: the
    Python runtime's `encode.Get` and `Table` class (`Offset`, `Indirect`,
    `VectorLen`, `Vector`, `Union`, `Get`) as functions over an immutable byte
    sequence. Scalars are little-endian; a `uoffset_t` is an unsigned 32-bit
    value, an `soffset_t` a signed 32-bit value and a `voffset_t` an unsigned
    16-bit value. Every read is bounds-checked and fails instead of reading
    outside the buffer.

    The second half gives little-endian encoders and a 4-field table layout,
    with lemmas that reading back what was laid out returns it. */
module FlatTable {

  /** One byte of a buffer. */
  newtype Byte = b: int | 0 <= b < 0x100

  type Bytes = seq<Byte>

  /** Largest value the runtime's `enforce_number` accepts for a `uoffset_t`. */
  const UOFFSET_MAX: int := 0xFFFF_FFFF

  /** Why a read failed: `struct.error` from a read past the end of the buffer,
      or the `TypeError` that `enforce_number` raises for an offset outside the
      `uoffset_t` range. */
  datatype Error = OutOfRange(pos: int, width: nat) | BadNumber(n: int)

  datatype Result<T> = Ok(value: T) | Fail(error: Error) {
    predicate IsFailure() { Fail? }
    function PropagateFailure<U>(): Result<U> requires Fail? { Fail(error) }
    function Extract(): T requires Ok? { value }
  }

  datatype Option<T> = None | Some(value: T)

  /** The scalar types read by the decoder. `voffset_t` is `U16`, `uoffset_t`
      is `U32` and `soffset_t` is `I32`; an `F32` read yields the float's
      32-bit pattern, which the model keeps uninterpreted. */
  datatype Kind = U8 | U16 | U32 | I32 | F32

  function Width(k: Kind): (w: nat)
    ensures w == 1 || w == 2 || w == 4
  {
    match k
    case U8 => 1
    case U16 => 2
    case _ => 4
  }

  /** The values a read of kind `k` can produce. */
  predicate InRange(k: Kind, v: int) {
    match k
    case U8 => 0 <= v < 0x100
    case U16 => 0 <= v < 0x1_0000
    case I32 => -0x8000_0000 <= v < 0x8000_0000
    case _ => 0 <= v < 0x1_0000_0000
  }

  predicate InBuffer(buf: Bytes, p: int, width: nat) {
    0 <= p && p + width <= |buf|
  }

  function Word(buf: Bytes, p: nat): int
    requires p + 4 <= |buf|
  {
    buf[p] as int + 0x100 * buf[p + 1] as int + 0x1_0000 * buf[p + 2] as int + 0x100_0000 * buf[p + 3] as int
  }

  /** Two's-complement reading of a 32-bit pattern. */
  function ToSigned(w: int): int {
    if w < 0x8000_0000 then w else w - 0x1_0000_0000
  }

  /** `encode.Get(packer, buf, p)`: an unchecked read (only the end of the
      buffer is checked, as `struct.unpack_from` does). */
  function Raw(buf: Bytes, k: Kind, p: int): (r: Result<int>)
    ensures r.Ok? <==> InBuffer(buf, p, Width(k))
    ensures r.Ok? ==> InRange(k, r.value)
  {
    if !InBuffer(buf, p, Width(k)) then Fail(OutOfRange(p, Width(k)))
    else
      match k
      case U8 => Ok(buf[p] as int)
      case U16 => Ok(buf[p] as int + 0x100 * buf[p + 1] as int)
      case I32 => Ok(ToSigned(Word(buf, p)))
      case _ => Ok(Word(buf, p))
  }

  predicate IsUOffset(n: int) { 0 <= n <= UOFFSET_MAX }

  /** `enforce_number(n, UOffsetTFlags)`. */
  function CheckUOffset(n: int): (r: Result<nat>)
    ensures r.Ok? <==> IsUOffset(n)
    ensures r.Ok? ==> r.value == n
  {
    if IsUOffset(n) then Ok(n) else Fail(BadNumber(n))
  }

  /** A view of a table inside a buffer (`Table.Bytes`, `Table.Pos`). */
  datatype Table = Table(bytes: Bytes, pos: nat)

  /** `Table(buf, pos)`: the constructor enforces that `pos` is a `uoffset_t`. */
  function NewTable(buf: Bytes, pos: int): (r: Result<Table>)
    ensures r.Ok? <==> IsUOffset(pos)
    ensures r.Ok? ==> r.value.bytes == buf && r.value.pos == pos
  {
    var p :- CheckUOffset(pos);
    Ok(Table(buf, p))
  }

  /** `Table.Get(flags, off)`: enforces `off`, then reads. */
  function Get(t: Table, k: Kind, off: int): (r: Result<int>)
    ensures r.Ok? <==> IsUOffset(off) && InBuffer(t.bytes, off, Width(k))
    ensures r.Ok? ==> InRange(k, r.value)
  {
    var p :- CheckUOffset(off);
    Raw(t.bytes, k, p)
  }

  /** `Table.Offset(vtableOffset)`: the table-relative position of the field
      whose vtable entry sits `vtableOffset` bytes into the vtable, or 0 when
      the vtable is too short to hold that entry. */
  function Offset(t: Table, vtableOffset: nat): (r: Result<nat>)
    ensures r.Ok? ==> r.value < 0x1_0000
    ensures r.Ok? ==> Get(t, I32, t.pos).Ok? && Get(t, U16, t.pos - Get(t, I32, t.pos).value).Ok?
    ensures r.Ok? && r.value != 0 ==>
      var vtable := t.pos - Get(t, I32, t.pos).value;
      vtableOffset < Get(t, U16, vtable).value && Get(t, U16, vtable + vtableOffset) == Ok(r.value)
  {
    var soff :- Get(t, I32, t.pos);
    var vtable := t.pos - soff;
    var vtableEnd :- Get(t, U16, vtable);
    if vtableOffset < vtableEnd then
      var o :- Get(t, U16, vtable + vtableOffset);
      Ok(o as nat)
    else
      Ok(0)
  }

  /** `Table.Indirect(off)`: follows the `uoffset_t` stored at `off`. */
  function Indirect(t: Table, off: int): (r: Result<nat>)
    ensures r.Ok? ==> IsUOffset(off) && off <= r.value
    ensures r.Ok? ==> Raw(t.bytes, U32, off) == Ok(r.value - off)
  {
    var p :- CheckUOffset(off);
    var rel :- Raw(t.bytes, U32, p);
    Ok(p + rel)
  }

  /** `Table.VectorLen(off)`: the element count of the vector referenced by the
      field at table-relative position `off`. */
  function VectorLen(t: Table, off: int): (r: Result<nat>)
    ensures r.Ok? ==> r.value <= UOFFSET_MAX
    ensures r.Ok? ==> IsUOffset(off) && Raw(t.bytes, U32, off + t.pos).Ok?
    ensures r.Ok? ==> Raw(t.bytes, U32, off + t.pos + Raw(t.bytes, U32, off + t.pos).value) == Ok(r.value)
  {
    var o :- CheckUOffset(off);
    var p := o + t.pos;
    var rel :- Raw(t.bytes, U32, p);
    var n :- Raw(t.bytes, U32, p + rel);
    Ok(n)
  }

  /** `Table.Vector(off)`: the position of the first element of the vector
      referenced by the field at table-relative position `off` (just past its
      length word). */
  function Vector(t: Table, off: int): (r: Result<nat>)
    ensures r.Ok? ==> IsUOffset(off) && off + t.pos + 4 <= r.value
    ensures r.Ok? ==> Get(t, U32, off + t.pos) == Ok(r.value - (off + t.pos) - 4)
  {
    var o :- CheckUOffset(off);
    var p := o + t.pos;
    var rel :- Get(t, U32, p);
    Ok(p + rel + 4)
  }

  /** `Table.Union(t2, off)`: the table referenced by the field at table-relative
      position `off`; unlike the `Table` constructor it does not enforce the
      resulting position. */
  function Union(t: Table, off: int): (r: Result<Table>)
    ensures r.Ok? ==> r.value.bytes == t.bytes && t.pos + off <= r.value.pos
  {
    var o :- CheckUOffset(off);
    var p := o + t.pos;
    var rel :- Get(t, U32, p);
    Ok(Table(t.bytes, p + rel))
  }

  /** The pattern every generated scalar accessor follows: look the field up in
      the vtable and read it, or return `default` when it is absent. */
  function ScalarOr(t: Table, vtableOffset: nat, k: Kind, default: int): (r: Result<int>)
    ensures Offset(t, vtableOffset) == Ok(0) ==> r == Ok(default)
    ensures Offset(t, vtableOffset).Fail? ==> r.Fail?
    ensures r.Ok? && r.value != default ==> InRange(k, r.value)
  {
    var o :- Offset(t, vtableOffset);
    if o != 0 then Get(t, k, o + t.pos) else Ok(default)
  }

  // ---------------------------------------------------------------------
  // Little-endian encoders and a table layout, for stating round trips.
  // ---------------------------------------------------------------------

  predicate IsWord(v: int) { 0 <= v < 0x1_0000_0000 }

  /** An unsigned 32-bit value, such as a `uint32` field or a float's bit pattern. */
  type Bits32 = v: nat | v < 0x1_0000_0000

  function Le16(v: nat): (b: Bytes)
    requires v < 0x1_0000
    ensures |b| == 2
  {
    [(v % 0x100) as Byte, (v / 0x100) as Byte]
  }

  function Le32(v: nat): (b: Bytes)
    requires IsWord(v)
    ensures |b| == 4
  {
    var q1 := v / 0x100;
    var q2 := q1 / 0x100;
    [(v % 0x100) as Byte, (q1 % 0x100) as Byte, (q2 % 0x100) as Byte, (q2 / 0x100) as Byte]
  }

  /** The 32-bit pattern that stores the signed value `v`. */
  function FromSigned(v: int): (w: nat)
    requires InRange(I32, v)
    ensures IsWord(w) && ToSigned(w) == v
  {
    if v < 0 then v + 0x1_0000_0000 else v
  }

  /** What a read of kind `k` yields when the word `w` is stored there. */
  function WordAs(k: Kind, w: int): int
    requires k != U16
  {
    match k
    case U8 => w % 0x100
    case I32 => ToSigned(w)
    case _ => w
  }

  lemma Le32Value(v: nat)
    requires IsWord(v)
    ensures var b := Le32(v);
      b[0] as int + 0x100 * b[1] as int + 0x1_0000 * b[2] as int + 0x100_0000 * b[3] as int == v
  {
    var q1 := v / 0x100;
    var q2 := q1 / 0x100;
    assert v == 0x100 * q1 + v % 0x100;
    assert q1 == 0x100 * q2 + q1 % 0x100;
    assert q2 == 0x100 * (q2 / 0x100) + q2 % 0x100;
  }

  /** Reading a word that was laid out with `Le32` returns it. */
  lemma {:induction false} ReadWord(buf: Bytes, p: int, v: nat, k: Kind)
    requires IsWord(v) && k != U16
    requires InBuffer(buf, p, 4)
    requires buf[p] == Le32(v)[0] && buf[p + 1] == Le32(v)[1]
    requires buf[p + 2] == Le32(v)[2] && buf[p + 3] == Le32(v)[3]
    ensures Raw(buf, k, p) == Ok(WordAs(k, v))
  {
    Le32Value(v);
    assert Word(buf, p) == v;
  }

  /** Reading a half-word that was laid out with `Le16` returns it. */
  lemma ReadHalf(buf: Bytes, p: int, v: nat)
    requires v < 0x1_0000
    requires InBuffer(buf, p, 2)
    requires buf[p] == Le16(v)[0] && buf[p + 1] == Le16(v)[1]
    ensures Raw(buf, U16, p) == Ok(v)
  {
  }

  /** Four optional 32-bit fields, the shape of every table the decoder walks. */
  predicate WellFormedFields(f: seq<Slot>) {
    |f| == 4 && forall k :: 0 <= k < 4 && f[k].Present? ==> IsWord(f[k].word)
  }

  datatype Slot = Absent | Present(word: nat)

  /** The vtable entry of slot `k`: the table-relative position of the field, or
      0 for an absent field. */
  function Entry(f: seq<Slot>, k: nat): nat
    requires k < |f|
  {
    if f[k].Present? then 4 + 4 * k else 0
  }

  function Stored(f: seq<Slot>, k: nat): nat
    requires WellFormedFields(f) && k < 4
  {
    if f[k].Present? then f[k].word else 0
  }

  /** The six half-words of a block's vtable: its own size (12 bytes), the
      table's size (20 bytes) and the four field entries. */
  function VtableHalf(f: seq<Slot>, h: nat): (v: nat)
    requires WellFormedFields(f) && h < 6
    ensures v < 0x1_0000
  {
    if h == 0 then 12 else if h == 1 then 20 else Entry(f, h - 2)
  }

  /** The five words of a block's table: the `soffset_t` back to the vtable
      (12 bytes) and the four field slots. */
  function TableWord(f: seq<Slot>, w: nat): (v: nat)
    requires WellFormedFields(f) && w < 5
    ensures IsWord(v)
  {
    if w == 0 then 12 else Stored(f, w - 1)
  }

  function BlockByte(f: seq<Slot>, j: nat): Byte
    requires WellFormedFields(f) && j < BLOCK_SIZE
  {
    if j < TABLE_START then Le16(VtableHalf(f, j / 2))[j % 2]
    else Le32(TableWord(f, (j - TABLE_START) / 4))[(j - TABLE_START) % 4]
  }

  /** A 32-byte block: a 12-byte vtable (vtable size, table size, four entries)
      followed by the 20-byte table (its `soffset_t` back to the vtable and four
      4-byte field slots). The table starts 12 bytes into the block. */
  function Block(f: seq<Slot>): (b: Bytes)
    requires WellFormedFields(f)
    ensures |b| == BLOCK_SIZE
    ensures forall j :: 0 <= j < BLOCK_SIZE ==> b[j] == BlockByte(f, j)
  {
    seq(BLOCK_SIZE, j requires 0 <= j < BLOCK_SIZE => BlockByte(f, j))
  }

  const BLOCK_SIZE: nat := 32
  /** Where the table starts inside a block. */
  const TABLE_START: nat := 12

  /** `buf` holds the block for `f` at position `s`. */
  ghost predicate BlockAt(buf: Bytes, s: int, f: seq<Slot>)
    requires WellFormedFields(f)
  {
    0 <= s && s + BLOCK_SIZE <= |buf| && forall j :: 0 <= j < BLOCK_SIZE ==> buf[s + j] == Block(f)[j]
  }

  lemma BlockAtConcat(pre: Bytes, f: seq<Slot>, post: Bytes)
    requires WellFormedFields(f)
    ensures BlockAt(pre + Block(f) + post, |pre|, f)
  {
  }

  lemma BlockSOffset(buf: Bytes, s: int, f: seq<Slot>)
    requires WellFormedFields(f) && BlockAt(buf, s, f)
    ensures Raw(buf, I32, s + TABLE_START) == Ok(12) && Raw(buf, U16, s) == Ok(12)
  {
    var h, w := Le16(12), Le32(12);
    BlockHeaderBytes(f);
    assert buf[s + 12] == w[0] && buf[s + 13] == w[1] && buf[s + 14] == w[2] && buf[s + 15] == w[3];
    ReadWord(buf, s + 12, 12, I32);
    assert buf[s] == h[0] && buf[s + 1] == h[1];
    ReadHalf(buf, s, 12);
  }

  lemma BlockHeaderBytes(f: seq<Slot>)
    requires WellFormedFields(f)
    ensures var b, h, w := Block(f), Le16(12), Le32(12);
      b[0] == h[0] && b[1] == h[1] && b[12] == w[0] && b[13] == w[1] && b[14] == w[2] && b[15] == w[3]
  {
    var h, w := Le16(12), Le32(12);
    assert BlockByte(f, 0) == h[0] && BlockByte(f, 1) == h[1];
    assert BlockByte(f, 12) == w[0] && BlockByte(f, 13) == w[1] && BlockByte(f, 14) == w[2] && BlockByte(f, 15) == w[3];
  }

  lemma BlockEntry(buf: Bytes, s: int, f: seq<Slot>, k: nat)
    requires WellFormedFields(f) && BlockAt(buf, s, f) && k < 4
    ensures Raw(buf, U16, s + 4 + 2 * k) == Ok(Entry(f, k))
  {
    var h := Le16(Entry(f, k));
    BlockEntryBytes(f, k);
    assert buf[s + 4 + 2 * k] == h[0] && buf[s + 5 + 2 * k] == h[1];
    ReadHalf(buf, s + 4 + 2 * k, Entry(f, k));
  }

  lemma BlockEntryBytes(f: seq<Slot>, k: nat)
    requires WellFormedFields(f) && k < 4
    ensures var b, h := Block(f), Le16(Entry(f, k));
      b[4 + 2 * k] == h[0] && b[5 + 2 * k] == h[1]
  {
    var h := Le16(Entry(f, k));
    assert BlockByte(f, 4 + 2 * k) == h[0] && BlockByte(f, 5 + 2 * k) == h[1];
  }

  /** Looking up slot `k` of a laid-out block through its vtable gives the
      slot's entry; slots past the fourth are absent. */
  lemma {:induction false} BlockOffset(buf: Bytes, s: int, f: seq<Slot>, k: nat)
    requires WellFormedFields(f) && BlockAt(buf, s, f) && |buf| <= UOFFSET_MAX
    ensures Offset(Table(buf, s + TABLE_START), 4 + 2 * k) == Ok(if k < 4 then Entry(f, k) else 0)
  {
    var t := Table(buf, s + TABLE_START);
    BlockSOffset(buf, s, f);
    assert Get(t, I32, t.pos) == Ok(12);
    assert Get(t, U16, s) == Ok(12);
    if k < 4 {
      BlockEntry(buf, s, f, k);
      assert Get(t, U16, s + 4 + 2 * k) == Ok(Entry(f, k));
    }
  }

  /** The word stored in present slot `k` of a laid-out block reads back. */
  lemma {:induction false} BlockWord(buf: Bytes, s: int, f: seq<Slot>, k: nat, kind: Kind)
    requires WellFormedFields(f) && k < 4 && f[k].Present? && kind != U16
    requires BlockAt(buf, s, f) && |buf| <= UOFFSET_MAX
    ensures Get(Table(buf, s + TABLE_START), kind, s + TABLE_START + 4 + 4 * k) == Ok(WordAs(kind, f[k].word))
  {
    BlockRaw(buf, s, f, k, kind);
  }

  lemma BlockRaw(buf: Bytes, s: int, f: seq<Slot>, k: nat, kind: Kind)
    requires WellFormedFields(f) && k < 4 && f[k].Present? && kind != U16
    requires BlockAt(buf, s, f)
    ensures Raw(buf, kind, s + TABLE_START + 4 + 4 * k) == Ok(WordAs(kind, f[k].word))
  {
    var p := 16 + 4 * k;
    var w := Le32(Stored(f, k));
    BlockWordBytes(f, k);
    assert buf[s + p] == w[0] && buf[s + p + 1] == w[1] && buf[s + p + 2] == w[2] && buf[s + p + 3] == w[3];
    ReadWord(buf, s + p, Stored(f, k), kind);
  }

  lemma BlockWordBytes(f: seq<Slot>, k: nat)
    requires WellFormedFields(f) && k < 4
    ensures var b, w := Block(f), Le32(Stored(f, k));
      b[16 + 4 * k] == w[0] && b[17 + 4 * k] == w[1] && b[18 + 4 * k] == w[2] && b[19 + 4 * k] == w[3]
  {
    var w := Le32(TableWord(f, k + 1));
    forall c | 0 <= c < 4 ensures BlockByte(f, 16 + 4 * k + c) == w[c] {
      var j := 16 + 4 * k + c;
      assert j - TABLE_START == 4 * (k + 1) + c;
      assert (j - TABLE_START) / 4 == k + 1 && (j - TABLE_START) % 4 == c;
    }
    assert 17 + 4 * k == 16 + 4 * k + 1 && 18 + 4 * k == 16 + 4 * k + 2 && 19 + 4 * k == 16 + 4 * k + 3;
  }

  /** The accessor pattern on a laid-out block returns the stored value of a
      present slot and the default of an absent one. */
  lemma {:induction false} BlockScalar(buf: Bytes, s: int, f: seq<Slot>, k: nat, kind: Kind, default: int)
    requires WellFormedFields(f) && k < 4 && kind != U16
    requires BlockAt(buf, s, f) && |buf| <= UOFFSET_MAX
    ensures ScalarOr(Table(buf, s + TABLE_START), 4 + 2 * k, kind, default)
         == Ok(if f[k].Present? then WordAs(kind, f[k].word) else default)
  {
    BlockOffset(buf, s, f, k);
    if f[k].Present? {
      BlockWord(buf, s, f, k, kind);
    }
  }
}
