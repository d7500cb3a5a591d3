/**
 * The RIFF/WAVE chunk lookup of the off-line driver (findChunk in
 * dev/molymain.c).  A file is a byte sequence; 32-bit fields are read
 * little-endian.  The C code reads through a pointer without checking the
 * end of the buffer: a read past the end is undefined behaviour there and
 * the explicit outcome OutOfBounds here.
 */
module Riff {

  /** A byte of the file. */
  type byte = x: int | 0 <= x < 0x100

  const U32_MOD: int := 0x1_0000_0000
  const I32_LIMIT: int := 0x8000_0000

  /**
   * x reduced into 0 .. 2^32 - 1: what a 32-bit unsigned addition or
   * subtraction of two 32-bit operands leaves, which wraps at most once.
   */
  function Wrap32(x: int): (r: nat)
    requires -U32_MOD <= x < 2 * U32_MOD
    ensures r < U32_MOD
  {
    if x < 0 then x + U32_MOD else if x >= U32_MOD then x - U32_MOD else x
  }

  /** Wrap32 is reduction modulo 2^32. */
  lemma Wrap32IsMod(x: int)
    requires -U32_MOD <= x < 2 * U32_MOD
    ensures Wrap32(x) == x % U32_MOD
  {
  }

  /** Chunk ids as the C multi-character constants spell them ('FFIR' is the bytes "RIFF"). */
  const RIFF_ID: nat := 0x4646_4952
  const WAVE_ID: nat := 0x4556_4157
  const FMT_ID: nat := 0x2074_6D66
  const DATA_ID: nat := 0x6174_6164

  const RIFF_BYTES: seq<byte> := [0x52, 0x49, 0x46, 0x46]  // "RIFF"
  const WAVE_BYTES: seq<byte> := [0x57, 0x41, 0x56, 0x45]  // "WAVE"
  const FMT_BYTES: seq<byte> := [0x66, 0x6D, 0x74, 0x20]   // "fmt "
  const DATA_BYTES: seq<byte> := [0x64, 0x61, 0x74, 0x61]  // "data"

  /** The unsigned 32-bit little-endian value at offset i. */
  function U32At(buf: seq<byte>, i: nat): (v: nat)
    requires i + 4 <= |buf|
    ensures v < U32_MOD
  {
    buf[i] as int + 0x100 * buf[i + 1] as int + 0x1_0000 * buf[i + 2] as int
      + 0x100_0000 * buf[i + 3] as int
  }

  /** The four little-endian bytes of a 32-bit value. */
  function LeBytes(v: nat): (b: seq<byte>)
    requires v < U32_MOD
    ensures |b| == 4
  {
    [v % 0x100, v / 0x100 % 0x100, v / 0x100 / 0x100 % 0x100, v / 0x100 / 0x100 / 0x100]
  }

  /** Reading back what LeBytes wrote gives the value. */
  lemma DecodeEncode(v: nat)
    requires v < U32_MOD
    ensures U32At(LeBytes(v), 0) == v
  {
    var v1 := v / 0x100;
    var v2 := v1 / 0x100;
    assert v == v % 0x100 + 0x100 * v1;
    assert v1 == v1 % 0x100 + 0x100 * v2;
    assert v2 == v2 % 0x100 + 0x100 * (v2 / 0x100);
  }

  /** Splitting off the low byte of a + 0x100 * b. */
  lemma LowByte(a: int, b: nat)
    requires 0 <= a < 0x100
    ensures (a + 0x100 * b) % 0x100 == a && (a + 0x100 * b) / 0x100 == b
  {
  }

  /** A 32-bit field determines its four bytes. */
  lemma EncodeDecode(buf: seq<byte>, i: nat)
    requires i + 4 <= |buf|
    ensures LeBytes(U32At(buf, i)) == buf[i..i + 4]
  {
    var v := U32At(buf, i);
    var b0, b1, b2, b3 := buf[i] as int, buf[i + 1] as int, buf[i + 2] as int, buf[i + 3] as int;
    var hi2 := b2 + 0x100 * b3;
    var hi1 := b1 + 0x100 * hi2;
    assert v == b0 + 0x100 * hi1;
    LowByte(b0, hi1);
    LowByte(b1, hi2);
    LowByte(b2, b3);
  }

  /** The four id constants are the ASCII bytes their comments name. */
  lemma IdsSpellNames()
    ensures LeBytes(RIFF_ID) == RIFF_BYTES && LeBytes(WAVE_ID) == WAVE_BYTES
    ensures LeBytes(FMT_ID) == FMT_BYTES && LeBytes(DATA_ID) == DATA_BYTES
  {
  }

  /**
   * `int32_t m = 8 + p->size`: the sum is taken in 32-bit unsigned arithmetic
   * and the result read as a two's-complement 32-bit integer.
   */
  function StepLength(size: nat): int
    requires size < U32_MOD
  {
    var u := Wrap32(8 + size);
    if u < I32_LIMIT then u else u - U32_MOD
  }

  /** StepLength is the int32 value congruent to 8 + size modulo 2^32. */
  lemma StepLengthIsInt32Sum(size: nat)
    requires size < U32_MOD
    ensures -I32_LIMIT <= StepLength(size) < I32_LIMIT
    ensures (StepLength(size) - 8 - size) % U32_MOD == 0
    ensures size < I32_LIMIT - 8 ==> StepLength(size) == 8 + size
  {
    Wrap32IsMod(8 + size);
  }

  datatype Lookup = Found(offset: nat) | NotFound | OutOfBounds

  /** What one pass of findChunk's while body does: return, or move on to (p, n). */
  datatype Iteration = Return(result: Lookup) | Next(p: int, n: nat)

  /**
   * One pass of the loop body exactly as written: `p` moves by the signed
   * `m` and `n -= m` wraps modulo 2^32 (m converted to uint32 is congruent
   * to m, so Wrap32(n - m) is that difference).
   */
  function LoopBody(buf: seq<byte>, id: nat, p: int, n: nat): (it: Iteration)
    requires n < U32_MOD
    ensures it.Next? ==> it.n < U32_MOD
    ensures it.Return? && it.result.Found? ==>
      it.result.offset == p && p + 4 <= |buf| && U32At(buf, p) == id
  {
    if p < 0 || p + 4 > |buf| then Return(OutOfBounds)
    else if U32At(buf, p) == id then Return(Found(p))
    else if p + 8 > |buf| then Return(OutOfBounds)
    else
      var m := StepLength(U32At(buf, p + 4));
      if m % 4 != 0 then Return(NotFound)   // `if (m & 3) return NULL;`
      else Next(p + m, Wrap32(n - m))
  }

  /**
   * The chunk walk from offset p with n declared bytes left.  It follows
   * LoopBody, except that a step that does not move forward (m <= 0, which
   * the C code takes) ends the search with NotFound.
   */
  function Walk(buf: seq<byte>, id: nat, p: nat, n: nat): Lookup
    requires n < U32_MOD
    decreases |buf| - p
  {
    if n < 12 then NotFound
    else
      match LoopBody(buf, id, p, n)
      case Return(r) => r
      case Next(q, n') => if q <= p then NotFound else Walk(buf, id, q, n')
  }

  /** findChunk: check the RIFF/WAVE header, then walk the chunks from offset 12. */
  function ChunkLookup(buf: seq<byte>, id: nat): Lookup
  {
    if |buf| < 4 then OutOfBounds
    else if U32At(buf, 0) != RIFF_ID then NotFound
    else if |buf| < 12 then OutOfBounds
    else if U32At(buf, 8) != WAVE_ID then NotFound
    else Walk(buf, id, 12, Wrap32(U32At(buf, 4) - 4))
  }

  /** A walk that finds something finds a chunk at or after its start that carries the id. */
  lemma {:induction false} WalkFoundIsChunk(buf: seq<byte>, id: nat, p: nat, n: nat)
    requires n < U32_MOD && Walk(buf, id, p, n).Found?
    ensures var off := Walk(buf, id, p, n).offset; p <= off && off + 4 <= |buf| && U32At(buf, off) == id
    decreases |buf| - p
  {
    if LoopBody(buf, id, p, n).Next? {
      var it := LoopBody(buf, id, p, n);
      if it.p > p { WalkFoundIsChunk(buf, id, it.p, it.n); }
    }
  }

  /** A chunk that findChunk returns lies after the header and carries the requested id. */
  lemma FoundIsChunk(buf: seq<byte>, id: nat)
    requires ChunkLookup(buf, id).Found?
    ensures var off := ChunkLookup(buf, id).offset; 12 <= off && off + 4 <= |buf| && U32At(buf, off) == id
  {
    WalkFoundIsChunk(buf, id, 12, Wrap32(U32At(buf, 4) - 4));
  }

  /**
   * findChunk as an imperative loop: the header checks and the loop of the C
   * code, except that a step that does not move forward (m <= 0) stops the
   * loop with NotFound.  WrittenLoop below is the loop exactly as written.
   */
  method FindChunk(buf: seq<byte>, id: nat) returns (r: Lookup)
    ensures r == ChunkLookup(buf, id)
  {
    if |buf| < 4 { return OutOfBounds; }
    if U32At(buf, 0) != RIFF_ID { return NotFound; }
    if |buf| < 12 { return OutOfBounds; }
    if U32At(buf, 8) != WAVE_ID { return NotFound; }
    var n: nat := Wrap32(U32At(buf, 4) - 4);
    var p: nat := 12;
    while n >= 12
      invariant n < U32_MOD
      invariant Walk(buf, id, p, n) == ChunkLookup(buf, id)
      decreases |buf| - p
    {
      if p + 4 > |buf| { return OutOfBounds; }
      if U32At(buf, p) == id { return Found(p); }
      if p + 8 > |buf| { return OutOfBounds; }
      var m := StepLength(U32At(buf, p + 4));
      if m % 4 != 0 || m <= 0 { return NotFound; }
      p := p + m;
      n := Wrap32(n - m);
    }
    return NotFound;
  }

  // ---------------------------------------------------------------------------
  // The walk order, stated without the loop: chunk 0 starts at offset 12, and
  // chunk k + 1 starts StepLength(size of chunk k) bytes after chunk k.

  /** A 32-bit field, or 0 where it would lie outside the buffer. */
  function Field(buf: seq<byte>, i: int): (v: nat)
    ensures v < U32_MOD
  {
    if 0 <= i && i + 4 <= |buf| then U32At(buf, i) else 0
  }

  /** The bytes left after the header, as findChunk computes `n -= 4`. */
  function Declared(buf: seq<byte>): (n: nat)
    ensures n < U32_MOD
  {
    Wrap32(Field(buf, 4) - 4)
  }

  /** Where the walk stands: the offset of a chunk and the declared bytes left. */
  datatype Cursor = Cursor(p: int, n: nat)

  /** Moving past the chunk at c.p: `p += m; n -= m`. */
  function Advance(buf: seq<byte>, c: Cursor): (d: Cursor)
    requires c.n < U32_MOD
    ensures d.n < U32_MOD
  {
    var m := StepLength(Field(buf, c.p + 4));
    Cursor(c.p + m, Wrap32(c.n - m))
  }

  /** The cursor at the k-th chunk of the walk. */
  function ChunkAt(buf: seq<byte>, k: nat): (c: Cursor)
    ensures c.n < U32_MOD
  {
    if k == 0 then Cursor(12, Declared(buf)) else Advance(buf, ChunkAt(buf, k - 1))
  }

  /** The chunk at c is inspected, is not the one sought, and the walk moves forward past it. */
  predicate Passes(buf: seq<byte>, id: nat, c: Cursor)
    requires c.n < U32_MOD
  {
    var m := StepLength(Field(buf, c.p + 4));
    c.n >= 12 && 0 <= c.p && c.p + 8 <= |buf| && Field(buf, c.p) != id && m % 4 == 0 && m > 0
  }

  predicate Skips(buf: seq<byte>, id: nat, k: nat)
  {
    Passes(buf, id, ChunkAt(buf, k))
  }

  /** The walk gets as far as chunk k. */
  predicate Reaches(buf: seq<byte>, id: nat, k: nat)
  {
    k == 0 || (Reaches(buf, id, k - 1) && Skips(buf, id, k - 1))
  }

  /** Chunk k is inspected and carries the id sought. */
  predicate Hits(buf: seq<byte>, id: nat, k: nat)
  {
    var c := ChunkAt(buf, k);
    c.n >= 12 && 0 <= c.p && c.p + 4 <= |buf| && Field(buf, c.p) == id
  }

  predicate WellHeaded(buf: seq<byte>)
  {
    12 <= |buf| && U32At(buf, 0) == RIFF_ID && U32At(buf, 8) == WAVE_ID
  }

  /** Past a chunk that Passes, the walk goes on from the next chunk. */
  lemma WalkPasses(buf: seq<byte>, id: nat, c: Cursor)
    requires c.n < U32_MOD && Passes(buf, id, c)
    ensures Advance(buf, c).p > c.p
    ensures Walk(buf, id, c.p, c.n) == Walk(buf, id, Advance(buf, c).p, Advance(buf, c).n)
  {
    assert Field(buf, c.p) == U32At(buf, c.p) && Field(buf, c.p + 4) == U32At(buf, c.p + 4);
    assert LoopBody(buf, id, c.p, c.n) == Next(Advance(buf, c).p, Advance(buf, c).n);
  }

  /** Chunks the walk reaches lie at or after offset 12. */
  lemma {:induction false} ReachesForward(buf: seq<byte>, id: nat, k: nat)
    requires Reaches(buf, id, k)
    ensures ChunkAt(buf, k).p >= 12
  {
    if k > 0 {
      ReachesForward(buf, id, k - 1);
      assert Skips(buf, id, k - 1);
    }
  }

  /** The walk reaches chunk k exactly when it passes every chunk before k. */
  lemma {:induction false} ReachesAll(buf: seq<byte>, id: nat, k: nat)
    ensures Reaches(buf, id, k) <==> forall j :: 0 <= j < k ==> Skips(buf, id, j)
  {
    if k > 0 {
      ReachesAll(buf, id, k - 1);
    }
  }

  /** With a RIFF/WAVE header, findChunk is the walk from chunk 0. */
  lemma LookupIsWalk(buf: seq<byte>, id: nat)
    requires WellHeaded(buf)
    ensures ChunkLookup(buf, id) == Walk(buf, id, 12, Declared(buf))
  {
    assert Field(buf, 4) == U32At(buf, 4);
  }

  /** Once the walk has reached chunk k, it is the walk from chunk k. */
  lemma {:induction false} WalkReaches(buf: seq<byte>, id: nat, k: nat)
    requires Reaches(buf, id, k)
    ensures ChunkAt(buf, k).p >= 12
    ensures Walk(buf, id, 12, Declared(buf)) == Walk(buf, id, ChunkAt(buf, k).p, ChunkAt(buf, k).n)
  {
    if k > 0 {
      WalkReaches(buf, id, k - 1);
      var c := ChunkAt(buf, k - 1);
      WalkPasses(buf, id, c);
      assert ChunkAt(buf, k) == Advance(buf, c);
    }
  }

  lemma {:induction false} FoundFrom(buf: seq<byte>, id: nat, k: nat, off: nat) returns (j: nat)
    requires Reaches(buf, id, k) && ChunkAt(buf, k).p >= 0
    requires Walk(buf, id, ChunkAt(buf, k).p, ChunkAt(buf, k).n) == Found(off)
    ensures Reaches(buf, id, j) && Hits(buf, id, j) && ChunkAt(buf, j).p == off
    decreases |buf| - ChunkAt(buf, k).p
  {
    var c := ChunkAt(buf, k);
    if Hits(buf, id, k) {
      j := k;
    } else {
      assert Field(buf, c.p) == U32At(buf, c.p) by {
        assert c.p + 4 <= |buf|;
      }
      assert Passes(buf, id, c) by {
        assert Field(buf, c.p + 4) == U32At(buf, c.p + 4);
      }
      WalkPasses(buf, id, c);
      j := FoundFrom(buf, id, k + 1, off);
    }
  }

  /**
   * findChunk finds offset off exactly when the header is RIFF/WAVE and off
   * is the first chunk in walk order that carries the id, every chunk before
   * it being inside the declared length, 4-aligned and moving forward.
   */
  lemma FoundIff(buf: seq<byte>, id: nat, off: nat)
    ensures ChunkLookup(buf, id) == Found(off) <==>
      WellHeaded(buf) &&
      exists k :: Reaches(buf, id, k) && Hits(buf, id, k) && ChunkAt(buf, k).p == off
  {
    if ChunkLookup(buf, id) == Found(off) {
      assert WellHeaded(buf);
      LookupIsWalk(buf, id);
      assert Reaches(buf, id, 0);
      var k := FoundFrom(buf, id, 0, off);
    }
    if WellHeaded(buf) && exists k :: Reaches(buf, id, k) && Hits(buf, id, k) && ChunkAt(buf, k).p == off {
      var k :| Reaches(buf, id, k) && Hits(buf, id, k) && ChunkAt(buf, k).p == off;
      LookupIsWalk(buf, id);
      WalkReaches(buf, id, k);
      var c := ChunkAt(buf, k);
      assert Field(buf, c.p) == U32At(buf, c.p);
    }
  }

  /** A found chunk is the first with its id: no chunk skipped before it has that id. */
  lemma FoundIsFirst(buf: seq<byte>, id: nat, off: nat) returns (k: nat)
    requires ChunkLookup(buf, id) == Found(off)
    ensures ChunkAt(buf, k).p == off && Field(buf, off) == id
    ensures forall j :: 0 <= j < k ==> Field(buf, ChunkAt(buf, j).p) != id
  {
    FoundIff(buf, id, off);
    k :| Reaches(buf, id, k) && Hits(buf, id, k) && ChunkAt(buf, k).p == off;
    ReachesAll(buf, id, k);
    forall j | 0 <= j < k ensures Field(buf, ChunkAt(buf, j).p) != id {
      assert Skips(buf, id, j);
    }
  }

  /** Nothing is found unless bytes 0..3 are "RIFF" and bytes 8..11 are "WAVE". */
  lemma FoundNeedsHeader(buf: seq<byte>, id: nat)
    requires ChunkLookup(buf, id).Found?
    ensures buf[0..4] == RIFF_BYTES && buf[8..12] == WAVE_BYTES
  {
    EncodeDecode(buf, 0);
    EncodeDecode(buf, 8);
    IdsSpellNames();
  }

  /** The search stops with NotFound at the first reached chunk whose step is not 4-aligned. */
  lemma MisalignedStops(buf: seq<byte>, id: nat, k: nat)
    requires WellHeaded(buf) && Reaches(buf, id, k)
    requires ChunkAt(buf, k).n >= 12
    requires ChunkAt(buf, k).p + 8 <= |buf| && Field(buf, ChunkAt(buf, k).p) != id
    requires StepLength(Field(buf, ChunkAt(buf, k).p + 4)) % 4 != 0
    ensures ChunkLookup(buf, id) == NotFound
  {
    WalkReaches(buf, id, k);
    MisalignedAt(buf, id, ChunkAt(buf, k));
    LookupIsWalk(buf, id);
  }

  lemma MisalignedAt(buf: seq<byte>, id: nat, c: Cursor)
    requires 12 <= c.n < U32_MOD && 0 <= c.p
    requires c.p + 8 <= |buf| && Field(buf, c.p) != id
    requires StepLength(Field(buf, c.p + 4)) % 4 != 0
    ensures Walk(buf, id, c.p, c.n) == NotFound
  {
    assert Field(buf, c.p) == U32At(buf, c.p) && Field(buf, c.p + 4) == U32At(buf, c.p + 4);
  }

  /** The search stops with NotFound once fewer than 12 declared bytes remain. */
  lemma ShortRemainderStops(buf: seq<byte>, id: nat, k: nat)
    requires WellHeaded(buf) && Reaches(buf, id, k)
    requires ChunkAt(buf, k).n < 12
    ensures ChunkLookup(buf, id) == NotFound
  {
    WalkReaches(buf, id, k);
    LookupIsWalk(buf, id);
  }

  // ---------------------------------------------------------------------------
  // A chunk whose size is 0xFFFFFFF8 has m == 0: 4-aligned, so the C loop
  // stays at the same p with the same n and never returns.

  /** "JUNK", the id of a chunk to skip. */
  const JUNK_BYTES: seq<byte> := [0x4A, 0x55, 0x4E, 0x4B]

  const SPIN_FILE: seq<byte> :=
    RIFF_BYTES + [16, 0, 0, 0] + WAVE_BYTES
    + JUNK_BYTES
    + [0xF8, 0xFF, 0xFF, 0xFF]            // size 0xFFFFFFF8
    + [0, 0, 0, 0]

  /** As written, the loop body maps the state at the JUNK chunk to itself. */
  lemma SpinAsWritten()
    ensures |SPIN_FILE| == 24 && WellHeaded(SPIN_FILE) && Declared(SPIN_FILE) == 12
    ensures LoopBody(SPIN_FILE, DATA_ID, 12, 12) == Next(12, 12)
  {
    assert U32At(SPIN_FILE, 16) == 0xFFFF_FFF8;
    assert StepLength(0xFFFF_FFF8) == 0;
  }

  /** With the forward-step guard the same file is answered: the chunk is absent. */
  lemma SpinCorrected()
    ensures ChunkLookup(SPIN_FILE, DATA_ID) == NotFound
  {
    SpinAsWritten();
  }

  // ---------------------------------------------------------------------------
  // The loop exactly as written, run for a bounded number of passes: Next(p, n)
  // is where it stands when the passes run out.

  function WrittenLoop(buf: seq<byte>, id: nat, p: int, n: nat, passes: nat): (it: Iteration)
    requires n < U32_MOD
    ensures it.Next? ==> it.n < U32_MOD
    decreases passes
  {
    if n < 12 then Return(NotFound)
    else if passes == 0 then Next(p, n)
    else match LoopBody(buf, id, p, n)
      case Return(r) => Return(r)
      case Next(q, n') => WrittenLoop(buf, id, q, n', passes - 1)
  }

  /** findChunk as written: the header checks, then the loop from offset 12. */
  function WrittenLookup(buf: seq<byte>, id: nat, passes: nat): Iteration
  {
    if WellHeaded(buf) then WrittenLoop(buf, id, 12, Declared(buf), passes)
    else Return(ChunkLookup(buf, id))
  }

  /** Every pass among the first ones that steps on moves forward. */
  predicate StepsForward(buf: seq<byte>, id: nat, p: int, n: nat, passes: nat)
    requires n < U32_MOD
    decreases passes
  {
    n < 12 || passes == 0 ||
    match LoopBody(buf, id, p, n)
      case Return(_) => true
      case Next(q, n') => q > p && StepsForward(buf, id, q, n', passes - 1)
  }

  /** Where every step moves forward, the loop as written answers what the walk answers. */
  lemma {:induction false} WrittenIsWalk(buf: seq<byte>, id: nat, p: nat, n: nat, passes: nat)
    requires n < U32_MOD && StepsForward(buf, id, p, n, passes)
    requires WrittenLoop(buf, id, p, n, passes).Return?
    ensures WrittenLoop(buf, id, p, n, passes).result == Walk(buf, id, p, n)
    decreases passes
  {
    if n >= 12 {
      match LoopBody(buf, id, p, n)
      case Return(r) =>
      case Next(q, n') =>
        WrittenIsWalk(buf, id, q, n', passes - 1);
    }
  }

  /** A loop whose steps move forward leaves the buffer, and so returns, within the passes left. */
  lemma {:induction false} ForwardEnds(buf: seq<byte>, id: nat, p: nat, n: nat, passes: nat)
    requires n < U32_MOD && 1 <= passes && |buf| < p + passes
    requires StepsForward(buf, id, p, n, passes)
    ensures WrittenLoop(buf, id, p, n, passes).Return?
    decreases passes
  {
    if n >= 12 {
      match LoopBody(buf, id, p, n)
      case Return(r) =>
      case Next(q, n') =>
        ForwardEnds(buf, id, q, n', passes - 1);
    }
  }

  /**
   * On a file whose chunk steps all move forward, findChunk as written
   * returns within |buf| passes, with the answer of ChunkLookup.
   */
  lemma WrittenAgrees(buf: seq<byte>, id: nat)
    requires WellHeaded(buf) && StepsForward(buf, id, 12, Declared(buf), |buf|)
    ensures WrittenLookup(buf, id, |buf|) == Return(ChunkLookup(buf, id))
  {
    ForwardEnds(buf, id, 12, Declared(buf), |buf|);
    WrittenIsWalk(buf, id, 12, Declared(buf), |buf|);
    LookupIsWalk(buf, id);
  }

  /** As written, findChunk never returns on SPIN_FILE, however many passes it runs. */
  lemma {:induction false} SpinForever(passes: nat)
    ensures WrittenLookup(SPIN_FILE, DATA_ID, passes) == Next(12, 12)
  {
    SpinAsWritten();
    SpinLoops(passes);
  }

  lemma {:induction false} SpinLoops(passes: nat)
    ensures WrittenLoop(SPIN_FILE, DATA_ID, 12, 12, passes) == Next(12, 12)
    decreases passes
  {
    if passes > 0 {
      SpinAsWritten();
      SpinLoops(passes - 1);
    }
  }

  // ---------------------------------------------------------------------------
  // A size that makes m negative moves the C loop backwards, into the payload
  // of an earlier chunk, where a false match can be found.

  const BACK_FILE: seq<byte> :=
    RIFF_BYTES + [32, 0, 0, 0] + WAVE_BYTES
    + JUNK_BYTES + [8, 0, 0, 0] + DATA_BYTES + [0, 0, 0, 0]   // 8 bytes of JUNK payload
    + JUNK_BYTES + [0xF0, 0xFF, 0xFF, 0xFF]                   // size 0xFFFFFFF0: m == -8
    + [0, 0, 0, 0]

  /**
   * As written, the loop goes from the chunk at 12 to the chunk at 28, steps
   * back to 20 and returns 20, which is the payload of the chunk at 12.
   */
  lemma BackwardAsWritten()
    ensures |BACK_FILE| == 40 && WellHeaded(BACK_FILE) && Declared(BACK_FILE) == 28
    ensures LoopBody(BACK_FILE, DATA_ID, 12, 28) == Next(28, 12)
    ensures LoopBody(BACK_FILE, DATA_ID, 28, 12) == Next(20, 20)
    ensures WrittenLookup(BACK_FILE, DATA_ID, 3) == Return(Found(20))
    ensures 12 + 8 <= 20 < 12 + 8 + U32At(BACK_FILE, 16)
  {
    assert U32At(BACK_FILE, 12) != DATA_ID && U32At(BACK_FILE, 16) == 8;
    assert StepLength(8) == 16;
    assert U32At(BACK_FILE, 28) != DATA_ID && U32At(BACK_FILE, 32) == 0xFFFF_FFF0;
    assert StepLength(0xFFFF_FFF0) == -8;
    assert U32At(BACK_FILE, 20) == DATA_ID;
  }

  /** The corrected lookup stops at the backward step: the file has no data chunk. */
  lemma BackwardCorrected()
    ensures ChunkLookup(BACK_FILE, DATA_ID) == NotFound
  {
    BackwardAsWritten();
    LookupIsWalk(BACK_FILE, DATA_ID);
  }
}
