/**
 * The output file of the off-line driver (dev/molymain.c, main): a fixed
 * 44-byte PCM header whose two size fields hold placeholders, then the
 * samples, then the two sizes patched in when the file is closed.  The file
 * is modelled as the byte sequence it ends up holding.
 */
module WavOut {
  import opened Riff

  /** `d`: the number of bytes written before the first sample. */
  const HEADER_LENGTH: nat := 44

  /** The '.' placeholder of the two size fields, "....". */
  const PLACEHOLDER: seq<byte> := [0x2E, 0x2E, 0x2E, 0x2E]

  /** The fmt payload: PCM, 1 channel, 44100 Hz, 88200 B/s, block 2, 16 bits. */
  const FMT_PAYLOAD: seq<byte> :=
    [0x01, 0, 0x01, 0, 0x44, 0xAC, 0, 0, 0x88, 0x58, 0x01, 0, 0x02, 0, 0x10, 0]

  /** The unsigned 16-bit little-endian value at offset i. */
  function U16At(buf: seq<byte>, i: nat): nat
    requires i + 2 <= |buf|
  {
    buf[i] as int + 0x100 * buf[i + 1] as int
  }

  /** "RIFF....WAVE", a 24-byte "fmt " chunk, then "data....". */
  function Header(): (h: seq<byte>)
    ensures |h| == HEADER_LENGTH
  {
    RIFF_BYTES + PLACEHOLDER + WAVE_BYTES + FMT_BYTES + [0x10, 0, 0, 0] + FMT_PAYLOAD
    + DATA_BYTES + PLACEHOLDER
  }

  /** Where the parts of the header lie. */
  lemma HeaderLayout()
    ensures var h := Header();
      h[0..4] == RIFF_BYTES && h[4..8] == PLACEHOLDER && h[8..12] == WAVE_BYTES
      && h[12..16] == FMT_BYTES && h[16..20] == [0x10, 0, 0, 0] && h[20..36] == FMT_PAYLOAD
      && h[36..40] == DATA_BYTES && h[40..44] == PLACEHOLDER
  {
    var riff := RIFF_BYTES + PLACEHOLDER + WAVE_BYTES;
    var fmt := FMT_BYTES + [0x10, 0, 0, 0] + FMT_PAYLOAD;
    var data := DATA_BYTES + PLACEHOLDER;
    var h := Header();
    assert h == riff + fmt + data;
    assert h[..12] == riff && h[12..36] == fmt && h[36..] == data;
  }

  /**
   * The header's fields: the RIFF and WAVE ids, an "fmt " chunk of 16 bytes
   * declaring PCM, 1 channel, 44100 Hz, 88200 bytes per second, 2-byte
   * blocks of 16 bits, and the "data" id; both size fields hold "....".
   */
  lemma HeaderFields()
    ensures var h := Header();
      U32At(h, 0) == RIFF_ID && U32At(h, 8) == WAVE_ID
      && U32At(h, 12) == FMT_ID && U32At(h, 16) == 16
      && U16At(h, 20) == 1 && U16At(h, 22) == 1
      && U32At(h, 24) == 44100 && U32At(h, 28) == 88200
      && U16At(h, 32) == 2 && U16At(h, 34) == 16
      && U32At(h, 36) == DATA_ID
      && h[4..8] == PLACEHOLDER && h[40..44] == PLACEHOLDER
      // bytes per second is rate times block size; block size is channels times bytes per sample
      && U32At(h, 28) == U32At(h, 24) * U16At(h, 32)
      && U16At(h, 32) == U16At(h, 22) * (U16At(h, 34) / 8)
  {
    var h := Header();
    HeaderLayout();
    FieldShift(h, RIFF_BYTES, 0, 0);
    FieldShift(h, WAVE_BYTES, 8, 0);
    FieldShift(h, FMT_BYTES, 12, 0);
    FieldShift(h, DATA_BYTES, 36, 0);
    FieldShift(h, [0x10, 0, 0, 0], 16, 0);
    FieldShift(h, FMT_PAYLOAD, 20, 4);
    FieldShift(h, FMT_PAYLOAD, 20, 8);
    Field16Shift(h, FMT_PAYLOAD, 20, 0);
    Field16Shift(h, FMT_PAYLOAD, 20, 2);
    Field16Shift(h, FMT_PAYLOAD, 20, 12);
    Field16Shift(h, FMT_PAYLOAD, 20, 14);
  }

  /** A field inside a part of buf is that field of the part. */
  lemma FieldShift(buf: seq<byte>, part: seq<byte>, off: nat, i: nat)
    requires off + |part| <= |buf| && buf[off..off + |part|] == part && i + 4 <= |part|
    ensures U32At(buf, off + i) == U32At(part, i)
  {
    assert buf[off + i] == part[i] && buf[off + i + 1] == part[i + 1];
    assert buf[off + i + 2] == part[i + 2] && buf[off + i + 3] == part[i + 3];
  }

  lemma Field16Shift(buf: seq<byte>, part: seq<byte>, off: nat, i: nat)
    requires off + |part| <= |buf| && buf[off..off + |part|] == part && i + 2 <= |part|
    ensures U16At(buf, off + i) == U16At(part, i)
  {
    assert buf[off + i] == part[i] && buf[off + i + 1] == part[i + 1];
  }

  /** Overwriting four bytes at offset i with the little-endian value v. */
  function PutU32(buf: seq<byte>, i: nat, v: nat): (r: seq<byte>)
    requires i + 4 <= |buf| && v < U32_MOD
    ensures |r| == |buf| && U32At(r, i) == v
    ensures forall j :: 0 <= j < |buf| && (j < i || i + 4 <= j) ==> r[j] == buf[j]
  {
    DecodeEncode(v);
    assert (buf[..i] + LeBytes(v) + buf[i + 4..])[i..i + 4] == LeBytes(v);
    buf[..i] + LeBytes(v) + buf[i + 4..]
  }

  /**
   * Closing the output: the data size (file length minus d) goes to offset
   * d - 4 and the RIFF size (file length minus 8) to offset 4, both as
   * 32-bit unsigned values.
   */
  function Close(file: seq<byte>): (r: seq<byte>)
    requires |file| >= HEADER_LENGTH
    ensures |r| == |file|
    ensures U32At(r, HEADER_LENGTH - 4) == (|file| - HEADER_LENGTH) % U32_MOD
    ensures U32At(r, 4) == (|file| - 8) % U32_MOD
    ensures forall j :: 0 <= j < |file| && !(4 <= j < 8) && !(HEADER_LENGTH - 4 <= j < HEADER_LENGTH) ==>
      r[j] == file[j]
  {
    var filesize := |file| % U32_MOD;                       // (uint32_t)ftell(f)
    var datasize := (|file| - HEADER_LENGTH) % U32_MOD;     // (uint32_t)(ftell(f) - d)
    var patched := PutU32(file, HEADER_LENGTH - 4, datasize);
    SizeLessEight(|file|);
    PutU32(patched, 4, Wrap32(filesize - 8))                // filesize -= 8
  }

  /** Subtracting 8 from the 32-bit file size is subtracting it modulo 2^32. */
  lemma SizeLessEight(len: nat)
    requires 8 <= len
    ensures Wrap32(len % U32_MOD - 8) == (len - 8) % U32_MOD
  {
    var q := len / U32_MOD;
    var r := len % U32_MOD;
    assert len == q * U32_MOD + r;
    Wrap32IsMod(r - 8);
    if r < 8 {
      assert 1 <= q;
      assert len - 8 == (q - 1) * U32_MOD + (r - 8 + U32_MOD);
    } else {
      assert len - 8 == q * U32_MOD + (r - 8);
    }
  }

  /** Equal bytes give equal 32-bit fields. */
  lemma SameField(a: seq<byte>, b: seq<byte>, i: nat)
    requires i + 4 <= |a| && i + 4 <= |b| && a[i..i + 4] == b[i..i + 4]
    ensures U32At(a, i) == U32At(b, i)
  {
    assert a[i] == a[i..i + 4][0] && a[i + 1] == a[i..i + 4][1];
    assert a[i + 2] == a[i..i + 4][2] && a[i + 3] == a[i..i + 4][3];
  }

  /**
   * The driver reads back what it writes: in a closed output with at least
   * four data bytes, findChunk finds "fmt " at offset 12 and "data" at
   * offset 36, whose size field is the number of data bytes.
   */
  lemma OutputIsReadable(data: seq<byte>)
    requires 4 <= |data| && HEADER_LENGTH + |data| < U32_MOD
    ensures var f := Close(Header() + data);
      ChunkLookup(f, FMT_ID) == Found(12) && ChunkLookup(f, DATA_ID) == Found(36)
      && U32At(f, 40) == |data| && f[HEADER_LENGTH..] == data
  {
    var h := Header();
    var f := Close(h + data);
    ClosedHeader(data);
    LookupIsWalk(f, FMT_ID);
    LookupIsWalk(f, DATA_ID);
    assert Declared(f) == 32 + |data|;
    assert LoopBody(f, DATA_ID, 12, 32 + |data|) == Next(36, 8 + |data|);
    assert Walk(f, DATA_ID, 36, 8 + |data|) == Found(36);
    assert f[HEADER_LENGTH..] == data by {
      forall j | 0 <= j < |data| ensures f[HEADER_LENGTH + j] == data[j] {
        assert (h + data)[HEADER_LENGTH + j] == data[j];
      }
    }
  }

  /** The fields of a closed output that the walk reads. */
  lemma ClosedHeader(data: seq<byte>)
    requires HEADER_LENGTH + |data| < U32_MOD
    ensures var f := Close(Header() + data);
      WellHeaded(f) && U32At(f, 4) == 36 + |data| && U32At(f, 12) == FMT_ID
      && U32At(f, 16) == 16 && U32At(f, 36) == DATA_ID && U32At(f, 40) == |data|
  {
    var h := Header();
    var f := Close(h + data);
    HeaderFields();
    ClosedSizes(data);
    HeaderFieldKept(data, 0);
    HeaderFieldKept(data, 8);
    HeaderFieldKept(data, 12);
    HeaderFieldKept(data, 16);
    HeaderFieldKept(data, 36);
  }

  /** The two sizes of a closed output below 4 GiB. */
  lemma ClosedSizes(data: seq<byte>)
    requires HEADER_LENGTH + |data| < U32_MOD
    ensures var f := Close(Header() + data);
      U32At(f, 4) == 36 + |data| && U32At(f, 40) == |data|
  {
    var file := Header() + data;
    assert (|file| - 8) % U32_MOD == 36 + |data|;
    assert (|file| - HEADER_LENGTH) % U32_MOD == |data|;
  }

  /** Closing leaves every header field other than the two sizes as written. */
  lemma HeaderFieldKept(data: seq<byte>, i: nat)
    requires HEADER_LENGTH + |data| < U32_MOD
    requires i + 4 <= 4 || (8 <= i && i + 4 <= HEADER_LENGTH - 4)
    ensures U32At(Close(Header() + data), i) == U32At(Header(), i)
  {
    var h := Header();
    var hd := h + data;
    var f := Close(hd);
    assert f[i..i + 4] == hd[i..i + 4];
    assert hd[i..i + 4] == h[i..i + 4];
    SameField(f, h, i);
  }

  /**
   * An output with fewer than four data bytes (no block processed) cannot be
   * read back: after the fmt chunk only 8 + |data| < 12 declared bytes remain.
   */
  lemma ShortOutputUnreadable(data: seq<byte>)
    requires |data| < 4
    ensures ChunkLookup(Close(Header() + data), DATA_ID) == NotFound
  {
    var f := Close(Header() + data);
    ClosedHeader(data);
    LookupIsWalk(f, DATA_ID);
    assert LoopBody(f, DATA_ID, 12, 32 + |data|) == Next(36, 8 + |data|);
  }
}
