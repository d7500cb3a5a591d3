/**
 * The synthesizer engine of src/molysynth.c: the global state `g` is an
 * Engine object, its operations are methods that update it in place.  Each
 * method is proved against a function on a State value, a snapshot of all
 * fields, and the properties of the engine are lemmas about those functions.
 * Floats are modelled as exact reals.
 */
module Molysynth {

  /** The ring buffer holds 2 << 15 decimated samples. */
  const RING_SIZE: nat := 0x1_0000

  /** moly_analyze restarts its count-down at this wavelength. */
  const LAMBDA_MAX: int := 400

  datatype Settings = Settings(waveform: int, autotune: int, volsens: int, verbose: int, triggerLevel: int)

  /** lambda: wavelength in samples (0: silent); phi: phase in [0, 1). */
  datatype SynthState = SynthState(lambda: int, phi: real, volume: real)

  /** The two delayed values of the decimation filter. */
  datatype FilterState = FilterState(x1: real, x2: real)

  /** The tracker's message: state 2 after moly_analyze, 0 once read. */
  datatype Message = Message(state: int, lambda: int, volume: real)

  /** All of g; the ring buffer as its contents. */
  datatype State = State(settings: Settings, synth: SynthState, filter: FilterState,
                         message: Message, ring: seq<real>, iWrite: nat)

  /** The engine invariant: a full ring, a cursor inside it, the wavelengths
      moly_analyze can produce, and a phase in [0, 1). */
  predicate Good(st: State)
  {
    |st.ring| == RING_SIZE && st.iWrite < RING_SIZE
    && 0 <= st.message.lambda <= LAMBDA_MAX && 0 <= st.synth.lambda <= LAMBDA_MAX
    && 0.0 <= st.synth.phi < 1.0 && 0.0 <= st.message.volume
  }

  /** g is a static object: everything starts at zero. */
  function Initial(): (st: State)
    ensures Good(st)
  {
    State(Settings(0, 0, 0, 0, 0), SynthState(0, 0.0, 0.0), FilterState(0.0, 0.0),
          Message(0, 0, 0.0), seq(RING_SIZE, _ => 0.0), 0)
  }

  // ---------------------------------------------------------------------
  // The decimating ring-buffer writer

  /** The filter's recursion y = x + 1.8 x1 - 0.82 x2. */
  function Feedback(f: FilterState, x: real): real
  {
    x + 1.8 * f.x1 - 0.82 * f.x2
  }

  /** lpfilter's state update: x2 := x1, x1 := y. */
  function FilterNext(f: FilterState, x: real): FilterState
  {
    FilterState(Feedback(f, x), f.x1)
  }

  /** lpfilter's result, the scaled y. */
  function FilterOut(f: FilterState, x: real): real
  {
    0.02 * Feedback(f, x)
  }

  /** The filter state after feeding it xs. */
  function FilterAfter(f: FilterState, xs: seq<real>): FilterState
    decreases |xs|
  {
    if xs == [] then f else FilterNext(FilterAfter(f, xs[..|xs| - 1]), xs[|xs| - 1])
  }

  /** lpfilter's result for every element of xs. */
  function FilterOutputs(f: FilterState, xs: seq<real>): (ys: seq<real>)
    ensures |ys| == |xs|
    decreases |xs|
  {
    if xs == [] then []
    else FilterOutputs(f, xs[..|xs| - 1]) + [FilterOut(FilterAfter(f, xs[..|xs| - 1]), xs[|xs| - 1])]
  }

  /** The last of every group of four. */
  function Decimate(s: seq<real>): seq<real>
    decreases |s|
  {
    if |s| < 4 then [] else Decimate(s[..|s| - 4]) + [s[|s| - 1]]
  }

  /** Writing vals to consecutive slots from w, wrapping at the ring size. */
  function RingWrites(buf: seq<real>, w: nat, vals: seq<real>): (r: seq<real>)
    requires |buf| == RING_SIZE
    ensures |r| == RING_SIZE
    decreases |vals|
  {
    if vals == [] then buf
    else RingWrites(buf, w, vals[..|vals| - 1])[(w + |vals| - 1) % RING_SIZE := vals[|vals| - 1]]
  }

  /** ringbuffer_write: every input goes through the filter; each fourth
      output goes to the ring at the cursor, which then advances. */
  function WriteRing(st: State, inp: seq<real>): State
    requires |st.ring| == RING_SIZE
  {
    st.(filter := FilterAfter(st.filter, inp),
        ring := RingWrites(st.ring, st.iWrite, Decimate(FilterOutputs(st.filter, inp))),
        iWrite := (st.iWrite + |inp| / 4) % RING_SIZE)
  }

  /** One pass of ringbuffer_write's loop: four inputs through the filter,
      the fourth output into the slot at the cursor, which advances and is
      masked. */
  function WriteFour(st: State, a: real, b: real, c: real, d: real): (r: State)
    requires |st.ring| == RING_SIZE && st.iWrite < RING_SIZE
    ensures |r.ring| == RING_SIZE && r.iWrite < RING_SIZE
  {
    var f3 := FilterNext(FilterNext(FilterNext(st.filter, a), b), c);
    st.(filter := FilterNext(f3, d),
        ring := st.ring[st.iWrite := FilterOut(f3, d)],
        iWrite := (st.iWrite + 1) % RING_SIZE)
  }

  /** ringbuffer_write pass by pass, over inputs whose length is a
      multiple of four. */
  function WriteBlocks(st: State, inp: seq<real>): (r: State)
    requires |st.ring| == RING_SIZE && st.iWrite < RING_SIZE
    ensures |r.ring| == RING_SIZE && r.iWrite < RING_SIZE
    decreases |inp|
  {
    if |inp| < 4 then st
    else
      var n := |inp|;
      WriteFour(WriteBlocks(st, inp[..n - 4]), inp[n - 4], inp[n - 3], inp[n - 2], inp[n - 1])
  }

  /** The passes add up to WriteRing: the filter sees every input, and the
      ring receives every fourth output in order. */
  lemma {:induction false} BlocksAreWriteRing(st: State, inp: seq<real>, k: nat)
    requires |st.ring| == RING_SIZE && st.iWrite < RING_SIZE && |inp| == 4 * k
    ensures WriteBlocks(st, inp) == WriteRing(st, inp)
    decreases k
  {
    if k != 0 {
      var i := 4 * (k - 1);
      var init := inp[..i];
      assert inp[..i + 4] == inp;
      BlocksAreWriteRing(st, init, k - 1);
      var prev := WriteBlocks(st, init);
      var g3 := FilterNext(FilterNext(FilterNext(prev.filter, inp[i]), inp[i + 1]), inp[i + 2]);
      var y := FilterOut(g3, inp[i + 3]);
      var written := Decimate(FilterOutputs(st.filter, init));
      FourInputs(st.filter, inp, k - 1, i);
      RingWritesSnoc(st.ring, st.iWrite, written, y);
      Quarter(k - 1);
      Quarter(k);
      SlotSucc(st.iWrite + (k - 1), prev.iWrite);
    }
  }

  lemma Quarter(k: nat)
    ensures (4 * k) / 4 == k
  {
  }

  /** Four more inputs extend the passes by one. */
  lemma BlocksSnoc(st: State, inp: seq<real>, i: nat)
    requires |st.ring| == RING_SIZE && st.iWrite < RING_SIZE
    requires i + 4 <= |inp|
    ensures WriteBlocks(st, inp[..i + 4]) ==
      WriteFour(WriteBlocks(st, inp[..i]), inp[i], inp[i + 1], inp[i + 2], inp[i + 3])
  {
    assert inp[..i + 4][..i] == inp[..i];
  }

  /** The filter is a shift register: each output is 0.02 times the new x1,
      and each input moves the old x1 into x2. */
  lemma {:induction false} FilterShifts(f: FilterState, xs: seq<real>, k: nat)
    requires k < |xs|
    ensures FilterOutputs(f, xs)[k] == 0.02 * FilterAfter(f, xs[..k + 1]).x1
    ensures FilterAfter(f, xs[..k + 1]).x2 == FilterAfter(f, xs[..k]).x1
    decreases |xs|
  {
    var init := xs[..|xs| - 1];
    assert xs[..k + 1][..k] == xs[..k];
    if k < |xs| - 1 {
      FilterShifts(f, init, k);
      assert init[..k + 1] == xs[..k + 1] && init[..k] == xs[..k];
    } else {
      assert xs[..k + 1] == xs;
    }
  }

  /** Decimation keeps the element at 4k + 3 of each group of four. */
  lemma {:induction false} DecimateAt(s: seq<real>)
    requires |s| % 4 == 0
    ensures |Decimate(s)| == |s| / 4
    ensures forall k :: 0 <= k < |s| / 4 ==> Decimate(s)[k] == s[4 * k + 3]
    decreases |s|
  {
    if |s| >= 4 {
      var init := s[..|s| - 4];
      DecimateAt(init);
      forall k | 0 <= k < |s| / 4 ensures Decimate(s)[k] == s[4 * k + 3] {
        if k < |init| / 4 {
          assert init[4 * k + 3] == s[4 * k + 3];
        }
      }
    }
  }

  /** Slot arithmetic modulo the ring size. */
  lemma SlotOffset(j: int, w: int, n: int)
    requires 0 <= j < RING_SIZE && 0 <= w < RING_SIZE && 0 <= n < RING_SIZE
    ensures (j - w) % RING_SIZE == n <==> j == (w + n) % RING_SIZE
  {
    if j >= w {
      assert (j - w) % RING_SIZE == j - w;
    } else {
      assert (j - w) % RING_SIZE == j - w + RING_SIZE;
    }
    if w + n < RING_SIZE {
      assert (w + n) % RING_SIZE == w + n;
    } else {
      assert (w + n) % RING_SIZE == w + n - RING_SIZE;
    }
  }

  /** Slot j holds the value written at offset (j - w) mod the ring size,
      if there is one, and its old value otherwise. */
  lemma {:induction false} RingWritesSlots(buf: seq<real>, w: nat, vals: seq<real>, j: nat)
    requires |buf| == RING_SIZE && w < RING_SIZE && |vals| <= RING_SIZE && j < RING_SIZE
    ensures RingWrites(buf, w, vals)[j] ==
      if (j - w) % RING_SIZE < |vals| then vals[(j - w) % RING_SIZE] else buf[j]
    decreases |vals|
  {
    if vals != [] {
      var n := |vals| - 1;
      var init := vals[..n];
      RingWritesSlots(buf, w, init, j);
      SlotOffset(j, w, n);
      if (j - w) % RING_SIZE < n {
        assert init[(j - w) % RING_SIZE] == vals[(j - w) % RING_SIZE];
      }
    }
  }

  /** Four more inputs: four filter steps and one more ring value. */
  lemma {:induction false} FourInputs(f: FilterState, xs: seq<real>, k: nat, i: nat)
    requires i == 4 * k && i + 4 <= |xs|
    ensures var g := FilterAfter(f, xs[..i]);
      var g3 := FilterNext(FilterNext(FilterNext(g, xs[i]), xs[i + 1]), xs[i + 2]);
      FilterAfter(f, xs[..i + 4]) == FilterNext(g3, xs[i + 3])
      && Decimate(FilterOutputs(f, xs[..i + 4])) ==
         Decimate(FilterOutputs(f, xs[..i])) + [FilterOut(g3, xs[i + 3])]
      && |Decimate(FilterOutputs(f, xs[..i]))| == k
  {
    var before := FilterOutputs(f, xs[..i]);
    OutputsExtend(f, xs, i);
    OutputsExtend(f, xs, i + 1);
    OutputsExtend(f, xs, i + 2);
    OutputsExtend(f, xs, i + 3);
    var four := FilterOutputs(f, xs[..i + 4])[i..];
    assert FilterOutputs(f, xs[..i + 4]) == before + four;
    DecimateFour(before, four);
    DecimateAt(before);
  }

  /** One more ring value goes to the slot after the previous ones. */
  lemma RingWritesSnoc(buf: seq<real>, w: nat, vals: seq<real>, v: real)
    requires |buf| == RING_SIZE
    ensures RingWrites(buf, w, vals + [v]) == RingWrites(buf, w, vals)[(w + |vals|) % RING_SIZE := v]
  {
    assert (vals + [v])[..|vals|] == vals;
  }

  lemma OutputsExtend(f: FilterState, xs: seq<real>, k: nat)
    requires k < |xs|
    ensures FilterOutputs(f, xs[..k + 1]) == FilterOutputs(f, xs[..k]) + [FilterOut(FilterAfter(f, xs[..k]), xs[k])]
    ensures FilterAfter(f, xs[..k + 1]) == FilterNext(FilterAfter(f, xs[..k]), xs[k])
  {
    assert xs[..k + 1][..k] == xs[..k];
  }

  lemma DecimateFour(s: seq<real>, t: seq<real>)
    requires |t| == 4
    ensures Decimate(s + t) == Decimate(s) + [t[3]]
  {
    assert (s + t)[..|s + t| - 4] == s;
  }

  /** Advancing a masked cursor by d. */
  lemma SlotAdd(a: nat, c: nat, d: nat)
    requires c == a % RING_SIZE
    ensures (c + d) % RING_SIZE == (a + d) % RING_SIZE
  {
  }

  /** The masked increment of a cursor at a mod the ring size. */
  lemma SlotSucc(a: nat, c: nat)
    requires c == a % RING_SIZE
    ensures (c + 1) % RING_SIZE == (a + 1) % RING_SIZE
  {
  }

  // ---------------------------------------------------------------------
  // The synthesizer

  /** The wavelength after the message has been read. */
  function Heard(s: SynthState, m: Message): int
  {
    if m.state != 0 then m.lambda else s.lambda
  }

  /** The amplitude: the tracker's volume when volume sensing is on. */
  function Loudness(settings: Settings, m: Message): real
  {
    if settings.volsens != 0 then m.volume else 5000.0
  }

  function NextPhase(phi: real, d: real): real
  {
    if phi + d >= 1.0 then phi + d - 1.0 else phi + d
  }

  /** A sample on an edge of the square wave: vol scaled by the part a of
      the step d spent on the high side less the part spent on the low side. */
  function Edge(vol: real, a: real, d: real): real
    requires d != 0.0
  {
    vol * (a / d)
  }

  /** One sample of the square wave, its two edges interpolated. */
  function Wave(phi: real, d: real, vol: real): real
    requires d != 0.0
  {
    var p := phi + d;
    if p < 0.5 then vol
    else if p >= 1.0 then Edge(vol, (p - 1.0) - (1.0 - phi), d)
    else if phi < 0.5 then Edge(vol, (0.5 - phi) - (p - 0.5), d)
    else -vol
  }

  /** The phase after n samples. */
  function Phase(phi: real, d: real, n: nat): real
  {
    if n == 0 then phi else NextPhase(Phase(phi, d, n - 1), d)
  }

  /** n samples of the tone from phase phi. */
  function Tone(phi: real, d: real, vol: real, n: nat): (xs: seq<real>)
    requires d != 0.0
    ensures |xs| == n
  {
    if n == 0 then [] else Tone(phi, d, vol, n - 1) + [Wave(Phase(phi, d, n - 1), d, vol)]
  }

  /** A block of output and the state after it. */
  datatype Block = Block(out: seq<real>, st: State)

  /** synthesizer: read the message, then silence or the tone. */
  function SynthesizeBlock(st: State, n: nat): (b: Block)
    ensures |b.out| == n
  {
    var lam := Heard(st.synth, st.message);
    var m := if st.message.state != 0 then st.message.(state := 0) else st.message;
    if lam == 0 then
      Block(seq(n, _ => 0.0), st.(synth := SynthState(0, 0.0, 0.0), message := m))
    else
      var d := 1.0 / (lam as real);
      Block(Tone(st.synth.phi, d, Loudness(st.settings, m), n),
            st.(synth := st.synth.(lambda := lam, phi := Phase(st.synth.phi, d, n)), message := m))
  }

  /** The message handoff: a pending message's wavelength is taken over and
      the message is marked read; with none pending the wavelength stays.
      Only the synthesizer and the message state change. */
  lemma MessageHandoff(st: State, n: nat)
    ensures var b := SynthesizeBlock(st, n);
      b.st.message == st.message.(state := 0)
      && (st.message.state != 0 ==> b.st.synth.lambda == st.message.lambda)
      && (st.message.state == 0 ==> b.st.synth.lambda == st.synth.lambda)
      && b.st.settings == st.settings && b.st.filter == st.filter
      && b.st.ring == st.ring && b.st.iWrite == st.iWrite
  {
  }

  /** Silence: with no wavelength after the read, the block is all zeros and
      phase and volume are reset. */
  lemma SilencePath(st: State, n: nat)
    requires Heard(st.synth, st.message) == 0
    ensures var b := SynthesizeBlock(st, n);
      (forall i :: 0 <= i < n ==> b.out[i] == 0.0) && b.st.synth == SynthState(0, 0.0, 0.0)
  {
  }

  /** The phase stays in [0, 1) for a step of at most one period. */
  lemma {:induction false} PhaseRange(phi: real, d: real, n: nat)
    requires 0.0 <= phi < 1.0 && 0.0 < d <= 1.0
    ensures 0.0 <= Phase(phi, d, n) < 1.0
  {
    if n > 0 {
      PhaseRange(phi, d, n - 1);
    }
  }

  lemma StepNonzero(lam: int)
    requires lam != 0
    ensures 1.0 / (lam as real) != 0.0
  {
    assert (1.0 / (lam as real)) * (lam as real) == 1.0;
  }

  /** The step 1 / lambda of a wavelength of at least one sample. */
  lemma StepRange(lam: int)
    requires 1 <= lam
    ensures 0.0 < 1.0 / (lam as real) <= 1.0
  {
    var d := 1.0 / (lam as real);
    assert d * (lam as real) == 1.0;
  }

  /** A ratio of magnitude at most one. */
  lemma RatioBound(a: real, d: real)
    requires 0.0 < d && -d <= a <= d
    ensures -1.0 <= a / d <= 1.0
  {
    assert (a / d) * d == a;
  }

  lemma ScaleBound(vol: real, t: real)
    requires 0.0 <= vol && -1.0 <= t <= 1.0
    ensures -vol <= vol * t <= vol
  {
    assert vol * (1.0 - t) >= 0.0;
    assert vol * (t + 1.0) >= 0.0;
  }

  /** An edge sample lies between -vol and vol. */
  lemma EdgeBounded(vol: real, a: real, d: real)
    requires 0.0 < d && -d <= a <= d && 0.0 <= vol
    ensures -vol <= Edge(vol, a, d) <= vol
  {
    RatioBound(a, d);
    ScaleBound(vol, a / d);
  }

  /** Every sample of the tone lies between -vol and vol. */
  lemma WaveBounded(phi: real, d: real, vol: real)
    requires 0.0 <= phi < 1.0 && 0.0 < d <= 1.0 && 0.0 <= vol
    ensures -vol <= Wave(phi, d, vol) <= vol
  {
    var p := phi + d;
    if p >= 1.0 {
      EdgeBounded(vol, (p - 1.0) - (1.0 - phi), d);
    } else if phi < 0.5 && p >= 0.5 {
      EdgeBounded(vol, (0.5 - phi) - (p - 0.5), d);
    }
  }

  /** With the engine invariant, every sample of a block lies within the
      loudness. */
  lemma {:induction false} ToneBounded(phi: real, d: real, vol: real, n: nat, i: nat)
    requires 0.0 <= phi < 1.0 && 0.0 < d <= 1.0 && 0.0 <= vol && i < n
    ensures -vol <= Tone(phi, d, vol, n)[i] <= vol
  {
    if i < n - 1 {
      ToneBounded(phi, d, vol, n - 1, i);
    } else {
      PhaseRange(phi, d, n - 1);
      WaveBounded(Phase(phi, d, n - 1), d, vol);
    }
  }

  lemma BlockBounded(st: State, n: nat, i: nat)
    requires Good(st) && i < n
    ensures var b := SynthesizeBlock(st, n); var m := b.st.message;
      -Loudness(st.settings, m) <= b.out[i] <= Loudness(st.settings, m)
  {
    var lam := Heard(st.synth, st.message);
    if lam != 0 {
      StepRange(lam);
      ToneBounded(st.synth.phi, 1.0 / (lam as real), Loudness(st.settings, st.message.(state := 0)), n, i);
    }
  }

  lemma SynthesizeGood(st: State, n: nat)
    requires Good(st)
    ensures Good(SynthesizeBlock(st, n).st)
  {
    var lam := Heard(st.synth, st.message);
    if lam != 0 {
      StepRange(lam);
      PhaseRange(st.synth.phi, 1.0 / (lam as real), n);
    }
  }

  // ---------------------------------------------------------------------
  // The callback, the analyzer and the settings

  /** moly_callback: the synthesizer first, then the ring buffer. */
  function RunCallback(st: State, inp: seq<real>): Block
    requires |st.ring| == RING_SIZE
  {
    var b := SynthesizeBlock(st, |inp|);
    Block(b.out, WriteRing(b.st, inp))
  }

  /** A block's output never depends on that block's input. */
  lemma OutputIgnoresInput(st: State, inp1: seq<real>, inp2: seq<real>)
    requires |st.ring| == RING_SIZE && |inp1| == |inp2|
    ensures RunCallback(st, inp1).out == RunCallback(st, inp2).out
    ensures RunCallback(st, inp1).out == SynthesizeBlock(st, |inp1|).out
  {
  }

  lemma CallbackGood(st: State, inp: seq<real>)
    requires Good(st)
    ensures Good(RunCallback(st, inp).st)
    ensures RunCallback(st, inp).st.message.lambda == st.message.lambda
    ensures RunCallback(st, inp).st.settings == st.settings
    ensures RunCallback(st, inp).st.iWrite == (st.iWrite + |inp| / 4) % RING_SIZE
  {
    SynthesizeGood(st, |inp|);
  }

  /** The count-down: 0 restarts at LAMBDA_MAX. */
  function NextLambda(l: int): int
  {
    if l == 0 then LAMBDA_MAX else l - 1
  }

  /** moly_analyze: a new message with the next wavelength and volume 6000. */
  function Analyzed(st: State): State
  {
    st.(message := Message(2, NextLambda(st.message.lambda), 6000.0))
  }

  lemma AnalyzedGood(st: State)
    requires Good(st)
    ensures Good(Analyzed(st))
  {
  }

  /** The wavelength after k analyses. */
  function Countdown(l: int, k: nat): int
  {
    if k == 0 then l else NextLambda(Countdown(l, k - 1))
  }

  /** One more analysis at the front is one more at the back. */
  lemma {:induction false} CountdownShift(l: int, k: nat)
    ensures Countdown(NextLambda(l), k) == Countdown(l, k + 1)
    decreases k
  {
    if k > 0 {
      CountdownShift(l, k - 1);
    }
  }

  /** The count-down is subtraction modulo 401: it stays in [0, 400]. */
  lemma {:induction false} CountdownClosedForm(l: int, k: nat)
    requires 0 <= l <= LAMBDA_MAX
    ensures Countdown(l, k) == (l - k) % (LAMBDA_MAX + 1)
  {
    if k > 0 {
      CountdownClosedForm(l, k - 1);
      var prev := (l - (k - 1)) % (LAMBDA_MAX + 1);
      if prev == 0 {
        assert (l - k) % (LAMBDA_MAX + 1) == LAMBDA_MAX;
      } else {
        assert (l - k) % (LAMBDA_MAX + 1) == prev - 1;
      }
    }
  }

  /** ... and returns to its start every 401 analyses. */
  lemma CountdownPeriod(l: int, k: nat)
    requires 0 <= l <= LAMBDA_MAX
    ensures Countdown(l, k + LAMBDA_MAX + 1) == Countdown(l, k)
    ensures 0 <= Countdown(l, k) <= LAMBDA_MAX
  {
    CountdownClosedForm(l, k);
    CountdownClosedForm(l, k + LAMBDA_MAX + 1);
  }

  function Pow2(e: nat): (p: nat)
    ensures 1 <= p
  {
    if e == 0 then 1 else 2 * Pow2(e - 1)
  }

  /** moly_set: 'w', 'a', 'y', 'v' store val; 'r' stores 1 << (6 + val). */
  function ApplySetting(s: Settings, opt: char, val: int): Settings
    requires opt == 'r' ==> 0 <= 6 + val <= 30
  {
    var s1 := if opt == 'w' then s.(waveform := val) else s;
    var s2 := if opt == 'a' then s1.(autotune := val) else s1;
    var s3 := if opt == 'y' then s2.(volsens := val) else s2;
    var s4 := if opt == 'v' then s3.(verbose := val) else s3;
    if opt == 'r' then s4.(triggerLevel := Pow2(6 + val)) else s4
  }

  /** The letters moly_set acts on. */
  const SETTING_LETTERS: string := "wayvr"

  /** Any other letter (such as 't' and 'z', which main sends) changes nothing. */
  lemma OtherLettersIgnored(s: Settings, opt: char, val: int)
    requires opt !in SETTING_LETTERS
    ensures ApplySetting(s, opt, val) == s
  {
  }

  /** Each letter changes its own setting only, and the last value wins. */
  lemma SettingOverwrites(s: Settings, opt: char, v1: int, v2: int)
    requires opt == 'r' ==> 0 <= 6 + v1 <= 30 && 0 <= 6 + v2 <= 30
    ensures ApplySetting(ApplySetting(s, opt, v1), opt, v2) == ApplySetting(s, opt, v2)
  {
  }

  /** Settings of different letters commute. */
  lemma SettingsCommute(s: Settings, o1: char, v1: int, o2: char, v2: int)
    requires o1 != o2
    requires o1 == 'r' ==> 0 <= 6 + v1 <= 30
    requires o2 == 'r' ==> 0 <= 6 + v2 <= 30
    ensures ApplySetting(ApplySetting(s, o1, v1), o2, v2) == ApplySetting(ApplySetting(s, o2, v2), o1, v1)
  {
  }

  lemma {:induction false} Pow2Monotone(a: nat, b: nat)
    requires a <= b
    ensures Pow2(a) <= Pow2(b)
    decreases b
  {
    if a < b {
      Pow2Monotone(a, b - 1);
    }
  }

  /** The digit of -r gives a trigger level from 64 up to 32768. */
  lemma TriggerLevelRange(s: Settings, val: int)
    requires 0 <= val <= 9
    ensures 64 <= ApplySetting(s, 'r', val).triggerLevel <= 32768
  {
    Pow2Monotone(6, 6 + val);
    Pow2Monotone(6 + val, 15);
    assert Pow2(6) == 64;
    assert Pow2(15) == 32768;
  }

  // ---------------------------------------------------------------------
  // The engine object

  class Engine {
    var settings: Settings
    var synth: SynthState
    var filter: FilterState
    var message: Message
    const ring: array<real>
    var iWrite: nat

    function Snapshot(): State
      reads this, ring
    {
      State(settings, synth, filter, message, ring[..], iWrite)
    }

    predicate Valid()
      reads this, ring
    {
      Good(Snapshot())
    }

    constructor ()
      ensures Valid() && fresh(ring)
      ensures Snapshot() == Initial()
    {
      settings := Settings(0, 0, 0, 0, 0);
      synth := SynthState(0, 0.0, 0.0);
      filter := FilterState(0.0, 0.0);
      message := Message(0, 0, 0.0);
      ring := new real[RING_SIZE](_ => 0.0);
      iWrite := 0;
    }

    /** moly_init: nothing to do for any sample frequency. */
    method Init(sampleFrequency: nat) returns (r: int)
      ensures r == 0
    {
      r := 0;
    }

    method LpFilter(x: real) returns (y: real)
      modifies this`filter
      ensures filter == FilterNext(old(filter), x) && y == FilterOut(old(filter), x)
    {
      var v := x + 1.8 * filter.x1 - 0.82 * filter.x2;
      filter := FilterState(v, filter.x1);
      y := 0.02 * v;
    }

    /** Four inputs through the filter, keeping the last output only. */
    method FilterFour(a: real, b: real, c: real, d: real) returns (y: real)
      modifies this`filter
      ensures var f3 := FilterNext(FilterNext(FilterNext(old(filter), a), b), c);
        filter == FilterNext(f3, d) && y == FilterOut(f3, d)
    {
      var discarded := LpFilter(a);
      discarded := LpFilter(b);
      discarded := LpFilter(c);
      y := LpFilter(d);
    }

    /** One decimated value into the ring; the cursor advances and is masked. */
    method PutSlot(y: real)
      requires ring.Length == RING_SIZE && iWrite < RING_SIZE
      modifies ring, this`iWrite
      ensures ring[..] == old(ring[..])[old(iWrite) := y]
      ensures iWrite == (old(iWrite) + 1) % RING_SIZE
    {
      ring[iWrite] := y;
      iWrite := (iWrite + 1) % RING_SIZE;   // i_write++, then & RING_MASK
    }

    /** ringbuffer_write; the loop reads four inputs per test of i < size. */
    method RingWrite(inp: seq<real>)
      requires Valid() && |inp| % 4 == 0
      modifies this`filter, this`iWrite, ring
      ensures Valid()
      ensures Snapshot() == WriteRing(old(Snapshot()), inp)
    {
      ghost var st0 := Snapshot();
      ghost var k := 0;
      var i := 0;
      while i < |inp|
        invariant i == 4 * k && i <= |inp|
        invariant ring.Length == RING_SIZE && iWrite < RING_SIZE
        invariant Snapshot() == WriteBlocks(st0, inp[..i])
        decreases |inp| - i
      {
        BlocksSnoc(st0, inp, i);
        var y := FilterFour(inp[i], inp[i + 1], inp[i + 2], inp[i + 3]);
        PutSlot(y);
        i, k := i + 4, k + 1;
      }
      assert inp[..i] == inp;
      BlocksAreWriteRing(st0, inp, k);
    }

    /** The synthesizer: message handoff, then silence or the tone. */
    method Synthesize(out: array<real>)
      requires Valid() && out != ring
      modifies out, this`synth, this`message
      ensures Valid()
      ensures var b := SynthesizeBlock(old(Snapshot()), out.Length); out[..] == b.out && Snapshot() == b.st
    {
      SynthesizeGood(Snapshot(), out.Length);
      ReadMessage();
      if synth.lambda == 0 {
        Silence(out);
        return;
      }
      Run(out);
    }

    /** Read message: a pending wavelength is taken over, the message marked read. */
    method ReadMessage()
      modifies this`synth, this`message
      ensures synth == old(synth).(lambda := Heard(old(synth), old(message)))
      ensures message == old(message).(state := 0)
    {
      if message.state != 0 {
        synth := synth.(lambda := message.lambda);
        message := message.(state := 0);
      }
    }

    /** Silence: zeros out, and the synthesizer state is reset. */
    method Silence(out: array<real>)
      requires out != ring
      modifies out, this`synth
      ensures out[..] == seq(out.Length, _ => 0.0)
      ensures synth == SynthState(0, 0.0, 0.0)
    {
      for i := 0 to out.Length
        invariant forall k :: 0 <= k < i ==> out[k] == 0.0
      {
        out[i] := 0.0;
      }
      synth := SynthState(0, 0.0, 0.0);
    }

    /** Run: the tone at step 1 / lambda, from the current phase. */
    method Run(out: array<real>)
      requires out != ring && synth.lambda != 0
      modifies out, this`synth
      ensures var d := 1.0 / (old(synth.lambda) as real);
        out[..] == Tone(old(synth.phi), d, Loudness(settings, message), out.Length)
        && synth == old(synth).(phi := Phase(old(synth.phi), d, out.Length))
    {
      StepNonzero(synth.lambda);
      var phidelta := 1.0 / (synth.lambda as real);
      var vol := 5000.0;
      if settings.volsens != 0 {
        vol := message.volume;
      }
      ghost var s0 := synth;
      for i := 0 to out.Length
        invariant out[..i] == Tone(s0.phi, phidelta, vol, i)
        invariant synth == s0.(phi := Phase(s0.phi, phidelta, i))
      {
        ghost var w := Wave(synth.phi, phidelta, vol);
        var phi := synth.phi + phidelta;
        var x: real;
        if phi < 0.5 {
          x := vol;
        } else if phi >= 1.0 {
          x := Edge(vol, (phi - 1.0) - (1.0 - synth.phi), phidelta);
          phi := phi - 1.0;
        } else if synth.phi < 0.5 {
          x := Edge(vol, (0.5 - synth.phi) - (phi - 0.5), phidelta);
        } else {
          x := -vol;
        }
        assert x == w && phi == NextPhase(synth.phi, phidelta);
        out[i] := x;
        synth := synth.(phi := phi);
        assert out[..i + 1] == out[..i] + [w];
      }
      assert out[..] == out[..out.Length];
    }

    /** moly_callback(in, out, size) with size = |in| = out.Length. */
    method Callback(inp: seq<real>, out: array<real>)
      requires Valid() && out != ring && |inp| == out.Length && |inp| % 4 == 0
      modifies this, ring, out
      ensures Valid()
      ensures var b := RunCallback(old(Snapshot()), inp); out[..] == b.out && Snapshot() == b.st
    {
      Synthesize(out);
      RingWrite(inp);
    }

    method Analyze()
      requires Valid()
      modifies this`message
      ensures Valid()
      ensures Snapshot() == Analyzed(old(Snapshot()))
    {
      message := message.(state := 2);
      if message.lambda == 0 {
        message := message.(lambda := LAMBDA_MAX);
      } else {
        message := message.(lambda := message.lambda - 1);
      }
      message := message.(volume := 6000.0);
    }

    /** moly_set; a shift by 31 or more, or by a negative count, is undefined in C. */
    method Set(opt: char, val: int)
      requires opt == 'r' ==> 0 <= 6 + val <= 30
      modifies this`settings
      ensures settings == ApplySetting(old(settings), opt, val)
    {
      if opt == 'w' {
        settings := settings.(waveform := val);
      }
      if opt == 'a' {
        settings := settings.(autotune := val);
      }
      if opt == 'y' {
        settings := settings.(volsens := val);
      }
      if opt == 'v' {
        settings := settings.(verbose := val);
      }
      if opt == 'r' {
        settings := settings.(triggerLevel := Pow2(6 + val));
      }
    }
  }
}
