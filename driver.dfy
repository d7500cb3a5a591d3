/**
 * The off-line driver of dev/molymain.c around the engine: the samples of
 * the input file's data chunk, the engine configured from the scanned
 * options, and the block loop that feeds the left channel to moly_callback
 * and calls moly_analyze after every tenth block.
 */
module Driver {
  import opened Riff
  import opened WavOut
  import opened Options
  import opened Molysynth

  /** BSZ: frames per block. */
  const BSZ: nat := 48

  /** Interleaved int16 values per block: a left and a right sample per frame. */
  const BLOCK_SAMPLES: nat := 96

  /** moly_analyze runs when the block counter reaches this. */
  const ANALYZE_EVERY: int := 10

  // ---------------------------------------------------------------------
  // The samples of the data chunk

  /** The signed 16-bit little-endian value at byte offset i. */
  function Int16At(buf: seq<byte>, i: nat): (x: int)
    requires i + 2 <= |buf|
    ensures -0x8000 <= x < 0x8000
  {
    var u := buf[i] as int + 0x100 * buf[i + 1] as int;
    if u < 0x8000 then u else u - 0x1_0000
  }

  /** The payload as the int16 values o->p walks through up to p_end. */
  function Samples(payload: seq<byte>): (xs: seq<int>)
    ensures |xs| == |payload| / 2
  {
    seq(|payload| / 2, k requires 0 <= k < |payload| / 2 => Int16At(payload, 2 * k))
  }

  predicate Pcm16(xs: seq<int>)
  {
    forall k :: 0 <= k < |xs| ==> -0x8000 <= xs[k] < 0x8000
  }

  /** The two bytes fwrite puts out for an int16_t on a little-endian machine. */
  function Int16Bytes(x: int): (b: seq<byte>)
    requires -0x8000 <= x < 0x8000
    ensures |b| == 2 && Int16At(b, 0) == x
  {
    var u := if x < 0 then x + 0x1_0000 else x;
    [u % 0x100, u / 0x100]
  }

  function Encode16(xs: seq<int>): (b: seq<byte>)
    requires Pcm16(xs)
    ensures |b| == 2 * |xs|
    decreases |xs|
  {
    if xs == [] then [] else Encode16(xs[..|xs| - 1]) + Int16Bytes(xs[|xs| - 1])
  }

  /** Decoding the encoded values gives them back. */
  lemma {:induction false} SamplesEncode(xs: seq<int>)
    requires Pcm16(xs)
    ensures Samples(Encode16(xs)) == xs
    decreases |xs|
  {
    if xs != [] {
      var init := xs[..|xs| - 1];
      var e := Encode16(init);
      var last := Int16Bytes(xs[|xs| - 1]);
      var b := e + last;
      SamplesEncode(init);
      forall k | 0 <= k < |xs| ensures Samples(b)[k] == xs[k] {
        if k < |init| {
          assert b[2 * k] == e[2 * k] && b[2 * k + 1] == e[2 * k + 1];
          assert Samples(e)[k] == init[k];
        } else {
          assert b[2 * k] == last[0] && b[2 * k + 1] == last[1];
        }
      }
    }
  }

  /**
   * newSession and wavInit: the fmt and the data chunk must both be found
   * (the two asserts), and the data chunk's size and payload must lie in the
   * file.  None is the driver stopping there.
   */
  function Open(file: seq<byte>): Option<seq<int>>
  {
    if !ChunkLookup(file, FMT_ID).Found? then None
    else match ChunkLookup(file, DATA_ID)
      case Found(off) =>
        if off + 8 > |file| then None
        else
          var size := U32At(file, off + 4);
          if off + 8 + size > |file| then None
          else Some(Samples(file[off + 8..off + 8 + size]))
      case _ => None
  }

  /** The closed output holding the int16 samples main writes. */
  function OutputFile(xs: seq<int>): seq<byte>
    requires Pcm16(xs)
  {
    Close(Header() + Encode16(xs))
  }

  /** The driver reads its own output back: an output holding at least two
      samples opens to exactly those samples. */
  lemma ReadBack(xs: seq<int>)
    requires Pcm16(xs) && 2 <= |xs| && HEADER_LENGTH + 2 * |xs| < U32_MOD
    ensures Open(OutputFile(xs)) == Some(xs)
  {
    var data := Encode16(xs);
    OutputIsReadable(data);
    var f := Close(Header() + data);
    assert f[HEADER_LENGTH..HEADER_LENGTH + |data|] == data;
    SamplesEncode(xs);
  }

  // ---------------------------------------------------------------------
  // Configuring the engine

  /** main's six calls of moly_set, in order. */
  function Configured(s: Molysynth.Settings, o: Options.Settings): Molysynth.Settings
    requires 0 <= 6 + o.r <= 30
  {
    var s1 := ApplySetting(s, 'w', o.w);
    var s2 := ApplySetting(s1, 'z', o.z);
    var s3 := ApplySetting(s2, 't', o.t);
    var s4 := ApplySetting(s3, 'y', o.y);
    var s5 := ApplySetting(s4, 'r', o.r);
    ApplySetting(s5, 'v', o.v)
  }

  /** -w, -y, -v and -r reach their settings; -z and -t reach none, and the
      autotune setting is left as it was. */
  lemma ConfiguredFields(s: Molysynth.Settings, o: Options.Settings)
    requires 0 <= 6 + o.r <= 30
    ensures var c := Configured(s, o);
      c.waveform == o.w && c.volsens == o.y && c.verbose == o.v
      && c.triggerLevel == Pow2(6 + o.r) && c.autotune == s.autotune
  {
    OtherLettersIgnored(ApplySetting(s, 'w', o.w), 'z', o.z);
    OtherLettersIgnored(ApplySetting(s, 'w', o.w), 't', o.t);
  }

  method Configure(e: Engine, o: Options.Settings)
    requires 0 <= 6 + o.r <= 30
    modifies e`settings
    ensures e.settings == Configured(old(e.settings), o)
  {
    e.Set('w', o.w);
    e.Set('z', o.z);
    e.Set('t', o.t);
    e.Set('y', o.y);
    e.Set('r', o.r);
    e.Set('v', o.v);
  }

  // ---------------------------------------------------------------------
  // The block loop

  /** The block from o->p: every other value (the left channel), scaled. */
  function LeftChannel(pcm: seq<int>, p: nat): (inp: seq<real>)
    requires p + BLOCK_SAMPLES <= |pcm|
    ensures |inp| == BSZ
  {
    seq(BSZ, i requires 0 <= i < BSZ => pcm[p + 2 * i] as real / 32768.0)
  }

  /** `++acount == 10`: the counter after a block, reset when it reaches ten. */
  function NextCount(acount: int): int
  {
    if acount + 1 == ANALYZE_EVERY then 0 else acount + 1
  }

  /** The state after a block's analyze step: moly_analyze runs when the
      counter reaches ten. */
  function AfterCount(st: State, acount: int): State
  {
    if acount + 1 == ANALYZE_EVERY then Analyzed(st) else st
  }

  /** What the loop produces from position p with the counter at acount:
      the output samples, the final state, the counter and the number of
      analyses. */
  datatype Outcome = Outcome(out: seq<real>, st: State, acount: int, analyses: nat)

  /** The loop from o->p = p: a block is processed while 96 values remain. */
  function Session(st: State, pcm: seq<int>, p: nat, acount: int): (r: Outcome)
    requires Good(st)
    ensures Good(r.st)
    decreases |pcm| - p
  {
    if p + BLOCK_SAMPLES > |pcm| then Outcome([], st, acount, 0)
    else
      var inp := LeftChannel(pcm, p);
      CallbackGood(st, inp);
      var b := RunCallback(st, inp);
      AnalyzedGood(b.st);
      var rest := Session(AfterCount(b.st, acount), pcm, p + BLOCK_SAMPLES, NextCount(acount));
      Outcome(b.out + rest.out, rest.st, rest.acount,
              if acount + 1 == ANALYZE_EVERY then rest.analyses + 1 else rest.analyses)
  }

  /** One block of the loop, then the rest. */
  lemma SessionStep(st: State, pcm: seq<int>, p: nat, a: int)
    requires Good(st) && p + BLOCK_SAMPLES <= |pcm|
    ensures var b := RunCallback(st, LeftChannel(pcm, p));
      Good(AfterCount(b.st, a))
      && var rest := Session(AfterCount(b.st, a), pcm, p + BLOCK_SAMPLES, NextCount(a));
      Session(st, pcm, p, a) ==
        Outcome(b.out + rest.out, rest.st, rest.acount,
                if a + 1 == ANALYZE_EVERY then rest.analyses + 1 else rest.analyses)
  {
    CallbackGood(st, LeftChannel(pcm, p));
    AnalyzedGood(RunCallback(st, LeftChannel(pcm, p)).st);
  }

  /** n blocks give 48 output samples each.  (The block counts below are
      written out: 96 values in, 48 samples out and 12 ring slots per block.) */
  lemma {:induction false} SessionLength(st: State, pcm: seq<int>, p: nat, a: int, n: nat)
    requires Good(st)
    requires p + 96 * n <= |pcm| < p + 96 * (n + 1)
    ensures |Session(st, pcm, p, a).out| == 48 * n
    decreases n
  {
    if n > 0 {
      var b := RunCallback(st, LeftChannel(pcm, p));
      CallbackGood(st, LeftChannel(pcm, p));
      AnalyzedGood(b.st);
      SessionLength(AfterCount(b.st, a), pcm, p + BLOCK_SAMPLES, NextCount(a), n - 1);
    }
  }

  /** From a counter a in 0..9, n blocks leave the counter at (a + n) mod 10
      after (a + n) div 10 analyses. */
  lemma {:induction false} SessionCounter(st: State, pcm: seq<int>, p: nat, a: int, n: nat)
    requires Good(st) && 0 <= a < ANALYZE_EVERY
    requires p + 96 * n <= |pcm| < p + 96 * (n + 1)
    ensures var r := Session(st, pcm, p, a);
      0 <= r.acount < ANALYZE_EVERY && a + n == 10 * r.analyses + r.acount
    decreases n
  {
    if n > 0 {
      var b := RunCallback(st, LeftChannel(pcm, p));
      CallbackGood(st, LeftChannel(pcm, p));
      AnalyzedGood(b.st);
      SessionCounter(AfterCount(b.st, a), pcm, p + BLOCK_SAMPLES, NextCount(a), n - 1);
    }
  }

  /** n blocks move the ring cursor by 12 n slots, modulo the ring size. */
  lemma {:induction false} SessionCursor(st: State, pcm: seq<int>, p: nat, a: int, n: nat)
    requires Good(st)
    requires p + 96 * n <= |pcm| < p + 96 * (n + 1)
    ensures Session(st, pcm, p, a).st.iWrite == (st.iWrite + 12 * n) % RING_SIZE
    decreases n
  {
    if n > 0 {
      var b := RunCallback(st, LeftChannel(pcm, p));
      CallbackGood(st, LeftChannel(pcm, p));
      AnalyzedGood(b.st);
      SessionStep(st, pcm, p, a);
      var next := AfterCount(b.st, a);
      SessionCursor(next, pcm, p + BLOCK_SAMPLES, NextCount(a), n - 1);
      assert next.iWrite == b.st.iWrite == (st.iWrite + 12) % RING_SIZE;
      var rest := Session(next, pcm, p + BLOCK_SAMPLES, NextCount(a));
      assert Session(st, pcm, p, a).st == rest.st;
      SlotAdd(st.iWrite + 12, next.iWrite, 12 * (n - 1));
      assert rest.st.iWrite == (st.iWrite + 12 + 12 * (n - 1)) % RING_SIZE;
      assert 12 + 12 * (n - 1) == 12 * n;
    }
  }

  /** The wavelength counts down once per analysis and the settings stay;
      the blocks themselves leave the wavelength alone. */
  lemma {:induction false} SessionKeeps(st: State, pcm: seq<int>, p: nat, a: int)
    requires Good(st)
    ensures var r := Session(st, pcm, p, a);
      r.st.message.lambda == Countdown(st.message.lambda, r.analyses) && r.st.settings == st.settings
    decreases |pcm| - p
  {
    if p + BLOCK_SAMPLES <= |pcm| {
      var b := RunCallback(st, LeftChannel(pcm, p));
      CallbackGood(st, LeftChannel(pcm, p));
      AnalyzedGood(b.st);
      SessionKeeps(AfterCount(b.st, a), pcm, p + BLOCK_SAMPLES, NextCount(a));
      if a + 1 == ANALYZE_EVERY {
        CountdownShift(st.message.lambda, Session(Analyzed(b.st), pcm, p + BLOCK_SAMPLES, 0).analyses);
      }
    }
  }

  /**
   * A whole input of |pcm| values: |pcm| / 96 blocks, 48 samples out per
   * block, one analysis per ten blocks, the counter left at the remainder,
   * the wavelength counted down once per analysis and the cursor moved 12
   * slots per block.
   */
  lemma SessionTotals(st: State, pcm: seq<int>)
    requires Good(st)
    ensures var r := Session(st, pcm, 0, 0); var blocks := |pcm| / 96;
      |r.out| == 48 * blocks
      && r.acount == blocks % 10 && r.analyses == blocks / 10
      && r.st.message.lambda == Countdown(st.message.lambda, blocks / 10)
      && r.st.iWrite == (st.iWrite + 12 * blocks) % RING_SIZE
      && r.st.settings == st.settings
  {
    var blocks := Blocks(|pcm|);
    SessionLength(st, pcm, 0, 0, blocks);
    SessionCounter(st, pcm, 0, 0, blocks);
    SessionCursor(st, pcm, 0, 0, blocks);
    SessionKeeps(st, pcm, 0, 0);
    var r := Session(st, pcm, 0, 0);
    Tens(blocks, r.analyses, r.acount);
  }

  lemma AppendAssoc<T>(a: seq<T>, b: seq<T>, c: seq<T>)
    ensures (a + b) + c == a + (b + c)
  {
  }

  /** The number of whole blocks in len values. */
  lemma Blocks(len: nat) returns (n: nat)
    ensures n == len / 96 && 96 * n <= len < 96 * (n + 1)
  {
    n := len / 96;
  }

  lemma Tens(n: nat, q: nat, r: int)
    requires n == 10 * q + r && 0 <= r < 10
    ensures q == n / 10 && r == n % 10
  {
  }

  /** The inner for loop: the left channel of the next block into inbuf. */
  method FillBlock(inbuf: array<real>, pcm: seq<int>, p: nat) returns (q: nat)
    requires inbuf.Length == BSZ && p + BLOCK_SAMPLES <= |pcm|
    modifies inbuf
    ensures inbuf[..] == LeftChannel(pcm, p) && q == p + BLOCK_SAMPLES
  {
    q := p;
    for i := 0 to BSZ
      invariant q == p + 2 * i
      invariant inbuf[..i] == LeftChannel(pcm, p)[..i]
    {
      inbuf[i] := pcm[q] as real / 32768.0;
      q := q + 2;   // skip the other channel
    }
    assert inbuf[..] == inbuf[..BSZ];
  }

  /** main's while loop over o->p, with inbuf, outbuf and acount. */
  method Process(e: Engine, pcm: seq<int>) returns (written: seq<real>, acount: int)
    requires e.Valid()
    modifies e, e.ring
    ensures e.Valid()
    ensures var r := Session(old(e.Snapshot()), pcm, 0, 0);
      written == r.out && e.Snapshot() == r.st && acount == r.acount
  {
    ghost var cur := e.Snapshot();
    ghost var goal := Session(cur, pcm, 0, 0);
    var inbuf := new real[BSZ];
    var outbuf := new real[BSZ];
    var p := 0;
    acount := 0;
    written := [];
    while p + BLOCK_SAMPLES <= |pcm|
      invariant e.Valid() && e.Snapshot() == cur
      invariant inbuf != e.ring && outbuf != e.ring && inbuf != outbuf
      invariant Good(cur)
      invariant var r := Session(cur, pcm, p, acount);
        written + r.out == goal.out && r.st == goal.st && r.acount == goal.acount
      decreases |pcm| - p
    {
      ghost var b := RunCallback(cur, LeftChannel(pcm, p));
      ghost var a0, w0 := acount, written;
      SessionStep(cur, pcm, p, acount);
      ghost var rest := Session(AfterCount(b.st, a0), pcm, p + BLOCK_SAMPLES, NextCount(a0));
      AppendAssoc(w0, b.out, rest.out);
      p := FillBlock(inbuf, pcm, p);
      e.Callback(inbuf[..], outbuf);
      written := written + outbuf[..];
      acount := acount + 1;
      if acount == ANALYZE_EVERY {
        acount := 0;
        e.Analyze();
      }
      assert acount == NextCount(a0) && written == w0 + b.out;
      cur := AfterCount(b.st, a0);
    }
  }

  // ---------------------------------------------------------------------
  // main

  /** How main ends: an exit code, a failed assert, or the processed output
      and the engine's final state. */
  datatype MainResult = Exited(code: int) | Aborted | Processed(out: seq<real>, st: State)

  /** main on the arguments and the contents of the named file. */
  function Drive(argv: seq<string>, file: seq<byte>): MainResult
  {
    match ScanSpec(argv)
    case Exit(code) => Exited(code)
    case Abort => Aborted
    case Run(o, _) =>
      RunIff(argv);
      match Open(file)
      case None => Aborted
      case Some(pcm) =>
        var st := Initial().(settings := Configured(Initial().settings, o));
        var r := Session(st, pcm, 0, 0);
        Processed(r.out, r.st)
  }

  method RunMain(argv: seq<string>, file: seq<byte>) returns (result: MainResult)
    ensures result == Drive(argv, file)
  {
    var scan := ScanArgs(argv);
    match scan {
      case Exit(code) =>
        return Exited(code);
      case Abort =>
        return Aborted;
      case Run(o, _) =>
        RunIff(argv);
        var pcm := Open(file);
        if pcm.None? {
          return Aborted;
        }
        var e := new Engine();
        var _ := e.Init(44100);
        Configure(e, o);
        var written, acount := Process(e, pcm.value);
        return Processed(written, e.Snapshot());
    }
  }
}
