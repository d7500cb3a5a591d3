# Molysynth: the engine and its off-line driver

Molysynth is a guitar-synthesizer engine in C. Its off-line driver,
`dev/molymain.c`, does the following in order:

- It scans the command-line options.
- It finds the `fmt ` and `data` chunks of a RIFF/WAVE input file (`findChunk`).
- It writes a 44-byte PCM header to the output with placeholder sizes.
- It sets the engine up with `moly_set`.
- It feeds the left channel to `moly_callback` in blocks of 48 frames, and calls `moly_analyze` after every tenth block.
- It patches the two size fields of the output.

The engine is `src/molysynth.c`. Its single global `g` holds the settings, the synthesizer, the decimation filter, the tracker's message and a ring buffer of 65536 samples. `moly_callback` first synthesizes a block of output (a square wave whose wavelength the tracker's message supplies) and then writes the input block to the ring buffer. The write puts every fourth output of a second-order low-pass filter into consecutive slots of the ring, modulo its size. `moly_analyze` stands in for the tracker: each call posts a message with a wavelength one sample shorter than the last, restarting at 400 after 0.

The Dafny project has five modules:

- `Riff` (`riff.dfy`) models `findChunk` over the file as a byte sequence. It models the 32-bit wrap-around of the remaining count `n` and the `int32_t` cast of the step `m` explicitly. The walk is characterised chunk by chunk: the result is found exactly when a reached chunk carries the id, and it is the first such chunk. The lookup the rest of the model uses stops on a step that does not move forward. The loop exactly as written is modelled beside it; the two are proved to agree on every file whose steps move forward, and two files show where they differ (see Findings).
- `WavOut` (`wavout.dfy`) models the output header, the size patching done when the file is closed, and the fact that `findChunk` reads the driver's own output back.
- `Options` (`options.dfy`) models `optarg` and the argument loop as a method proved against a specification function. The lemmas fix what the scan returns in terms of the last value of each option, and they fix which argument ends it.
- `Molysynth` (`engine.dfy`) models `g` as the class `Engine`. Each of its methods is proved against a function on a `State` value (a snapshot of all fields), and the engine's properties are lemmas about those functions.
- `Driver` (`driver.dfy`) models `main`: opening the input, configuring the engine, the block loop (a method proved against the recursive `Session`), and the whole run (`RunMain`).

Where the code and its help text disagree, the model follows the code. Two cases:

- `main` passes `'z'` and `'t'` to `moly_set`, which handles neither (it knows `'a'` for auto-tune). The model keeps this, so those two options have no effect (`Molysynth.OtherLettersIgnored`, `Driver.ConfiguredFields`).
- `src/molysynth.h` is not part of this model. The model follows the implementation in `src/molysynth.c`.

## Model

| member | source | states |
|---|---|---|
| Riff.Wrap32IsMod | dev/molymain.c:94 | the unsigned 32-bit subtraction on `n` is subtraction modulo 2^32 |
| Riff.StepLengthIsInt32Sum | dev/molymain.c:103 | `m` is a signed 32-bit value congruent to 8 + size modulo 2^32, and equal to 8 + size when the size is below 2^31 - 8 |
| Riff.StepLength | dev/molymain.c:103 | the step of one chunk as `int32_t m = 8 + p->size` computes it; StepLengthIsInt32Sum states its range and value |
| Riff.DecodeEncode | dev/molymain.c:91-93 | reading back the four little-endian bytes of a 32-bit value gives that value |
| Riff.EncodeDecode | dev/molymain.c:91-93 | a 32-bit field determines its four bytes |
| Riff.IdsSpellNames | dev/molymain.c:91-93 | the multi-character constants 'FFIR', 'EVAW', ' tmf' and 'atad' are the bytes "RIFF", "WAVE", "fmt " and "data" in file order |
| Riff.LoopBody | dev/molymain.c:98-106 | one pass of the loop as written: a returned chunk is the current one, lies inside the buffer and carries the id; the count stays 32-bit |
| Riff.Walk | dev/molymain.c:98-107 | the corrected chunk walk: LoopBody pass by pass, ending with nothing found when fewer than 12 declared bytes remain or a step does not move forward; WalkFoundIsChunk, WalkPasses and WalkReaches state what it finds and how it moves on |
| Riff.ChunkLookup | dev/molymain.c:87-109 | findChunk with the forward-step stop: the header outcomes, then the walk from offset 12; FoundIff, FoundIsFirst, FoundNeedsHeader, MisalignedStops and ShortRemainderStops characterise its answer |
| Riff.FindChunk | dev/molymain.c:87-109 | the imperative header checks and loop compute exactly the chunk walk `ChunkLookup` |
| Riff.FoundIsChunk | dev/molymain.c:98-102 | a found chunk lies at offset 12 or later, inside the file, and its id field is the one asked for |
| Riff.WalkFoundIsChunk | dev/molymain.c:98-107 | from any position, a chunk the walk finds lies at or after that position and carries the id |
| Riff.WalkPasses | dev/molymain.c:103-106 | stepping over a chunk of another id moves strictly forward, and the walk continues from the next chunk with the count reduced by the step |
| Riff.ReachesForward | dev/molymain.c:95 | every chunk the walk reaches lies at offset 12 or later |
| Riff.ReachesAll | dev/molymain.c:98-107 | chunk k is reached exactly when each earlier chunk is stepped over |
| Riff.LookupIsWalk | dev/molymain.c:90-95 | with a RIFF/WAVE header, the lookup is the walk from offset 12 with the declared size less 4 |
| Riff.WalkReaches | dev/molymain.c:98-107 | the walk from the header gives the same result as the walk from any reached chunk |
| Riff.FoundFrom | dev/molymain.c:98-107 | a walk that finds offset off from a reached chunk passes through a reached chunk at off that carries the id |
| Riff.FoundIff | dev/molymain.c:87-109 | the lookup finds offset off if and only if the header is RIFF/WAVE and some reached chunk at off carries the id |
| Riff.FoundIsFirst | dev/molymain.c:98-102 | the found chunk is the first chunk in the file with that id |
| Riff.FoundNeedsHeader | dev/molymain.c:91-93 | nothing is found unless the file starts with "RIFF" and has "WAVE" at offset 8 |
| Riff.MisalignedStops | dev/molymain.c:104 | a reached chunk of another id whose step is not a multiple of 4 ends the lookup with nothing found |
| Riff.MisalignedAt | dev/molymain.c:104 | the same stop, for the walk from any chunk |
| Riff.ShortRemainderStops | dev/molymain.c:98 | a reached chunk with fewer than 12 declared bytes left ends the lookup with nothing found |
| Riff.SpinAsWritten | dev/molymain.c:103-106 | for a well-headed 24-byte file whose first chunk has size 0xFFFFFFF8, one pass of the loop as written returns to the very same offset and count |
| Riff.SpinCorrected | dev/molymain.c:103-106 | the corrected walk reports nothing found for that file |
| Riff.WrittenLoop | dev/molymain.c:98-107 | the loop exactly as written, with no forward-step stop, run for a bounded number of passes; it returns what a pass returns, or where it stands when the passes run out |
| Riff.WrittenLookup | dev/molymain.c:87-109 | findChunk exactly as written: the header checks, then WrittenLoop from offset 12 |
| Riff.WrittenIsWalk | dev/molymain.c:98-107 | where every step moves forward, the loop as written returns what the corrected walk returns |
| Riff.ForwardEnds | dev/molymain.c:98-107 | a loop whose steps all move forward returns before it has run one pass per byte of the buffer |
| Riff.WrittenAgrees | dev/molymain.c:87-109 | on a file whose steps all move forward, findChunk as written returns within as many passes as the file has bytes, and its answer is ChunkLookup's |
| Riff.SpinForever | dev/molymain.c:103-106 | on the file whose chunk size is 0xFFFFFFF8, findChunk as written never returns: after any number of passes it is still at offset 12 with 12 bytes left |
| Riff.BackwardAsWritten | dev/molymain.c:103-106 | on a 40-byte file whose second chunk has size 0xFFFFFFF0 (m = -8), findChunk as written steps back from 28 to 20 and returns offset 20, which lies inside the payload of the chunk at 12 |
| Riff.BackwardCorrected | dev/molymain.c:103-106 | the corrected lookup reports nothing found for that file, which has no data chunk |
| WavOut.HeaderLayout | dev/molymain.c:202-205 | the header is "RIFF", a placeholder, "WAVE", "fmt ", 16, the 16-byte format, "data" and a placeholder, at offsets 0, 4, 8, 12, 16, 20, 36 and 40 |
| WavOut.HeaderFields | dev/molymain.c:202-205 | the header declares PCM, 1 channel, 44100 Hz, 88200 bytes per second and 2-byte blocks of 16 bits; the byte rate is the sample rate times the block size, and the block size is the channels times the bytes per sample |
| WavOut.Header | dev/molymain.c:200-206 | the bytes written before the first sample; they number d = 44, and HeaderLayout and HeaderFields state what they hold |
| WavOut.PutU32 | dev/molymain.c:243-247 | overwriting a field leaves the length alone, makes the field read the new value and keeps every other byte |
| WavOut.Close | dev/molymain.c:240-247 | the closed file holds the data size (length less 44) at 40 and the RIFF size (length less 8) at 4, both modulo 2^32, and every other byte as written |
| WavOut.SizeLessEight | dev/molymain.c:241-246 | subtracting 8 from the 32-bit file size gives the file length less 8 modulo 2^32, even after wrap-around |
| WavOut.ClosedSizes | dev/molymain.c:240-247 | below 4 GiB the two sizes are exactly 36 + data bytes and the data bytes |
| WavOut.HeaderFieldKept | dev/molymain.c:243-247 | every header field other than the two sizes is left as first written |
| WavOut.ClosedHeader | dev/molymain.c:200-247 | a closed output is well-headed and holds the fmt id, its size 16, the data id and the data size where the walk reads them |
| WavOut.OutputIsReadable | dev/molymain.c:200-247 | in a closed output with at least 4 data bytes, findChunk finds "fmt " at 12 and "data" at 36, whose size is the number of data bytes and whose payload is the samples written |
| WavOut.ShortOutputUnreadable | dev/molymain.c:98 | an output with fewer than 4 data bytes has no findable data chunk, since fewer than 12 declared bytes remain after the fmt chunk |
| Options.CStr | dev/molymain.c:163-187 | an argument as C reads it is its longest NUL-free prefix, followed by a NUL whenever it is shorter than the string |
| Options.OptArg | dev/molymain.c:145-148 | a value is returned exactly for the characters '0' to '9', and it lies in 0..9; any other character is the failing assertion |
| Options.OptArgRoundTrip | dev/molymain.c:145-148 | the digit character of v gives back v, and an accepted character is the digit of its value |
| Options.Classify | dev/molymain.c:163-187 | which branch of the comparison chain an argument takes, in the chain's order: "-h" and "-p" are matched exactly, a digit option by its first two characters, "-v" exactly, any other dash argument is unknown, and the rest are file names |
| Options.StepArg | dev/molymain.c:163-188 | one iteration of the loop: help exits 0, an unknown option exits 1, a non-digit value aborts, and each other kind updates its variable; StepSummary and StepOne state its effect |
| Options.Put | dev/molymain.c:169-178 | setting a digit option changes that option's variable and no other |
| Options.ScanFrom | dev/molymain.c:162-193 | the loop over the remaining arguments, then the file-name test; ScanFromRuns and ScanFromStops state its outcome |
| Options.Finish | dev/molymain.c:190-193 | after the loop, no file name prints the help text and exits 1, otherwise the program goes on with the options collected |
| Options.ScanSpec | dev/molymain.c:156-193 | the scan of main's arguments after the program name, from the defaults 0, 0, 0, 0, 5 and 0; ScanRuns, ScanStops and RunIff characterise it |
| Options.ScanArgs | dev/molymain.c:156-193 | the imperative argument loop returns exactly the scan `ScanSpec` |
| Options.StepSummary | dev/molymain.c:162-189 | an argument that does not end the loop contributes exactly its own effect to the options collected so far |
| Options.ScanFromRuns | dev/molymain.c:162-193 | when no argument ends the loop, the scan finishes with the effect of all arguments in order |
| Options.ScanFromStops | dev/molymain.c:162-184 | the first argument that ends the loop (help, a bad digit, an unknown option) decides the outcome |
| Options.ScanRuns | dev/molymain.c:156-193 | with no stopping argument, each digit option holds its last value (defaults 0, 0, 0, 0 and 5 for r), -v and -p are set if they appear anywhere, and the file name is the last non-option argument |
| Options.ScanStops | dev/molymain.c:162-184 | with a stopping argument, the earliest one decides: "-h" exits 0, an unknown option exits 1, a non-digit after a digit option aborts |
| Options.LastValueRange | dev/molymain.c:156-178 | a digit option's final value lies in 0..9 |
| Options.LastFileSome | dev/molymain.c:186-192 | a file name is set exactly when some argument does not start with '-' |
| Options.RunIff | dev/molymain.c:156-193 | the driver goes on to run if and only if no argument ends the loop and a file name was given; then the digit options lie in 0..9 and -v gives 0 or 1 |
| Molysynth.Initial | src/molysynth.c:12-54 | the zero-initialised global satisfies the engine invariant |
| Molysynth.FilterNext | src/molysynth.c:61-63 | the filter's new delays, y = x + 1.8 x1 - 0.82 x2 and then x1; FilterShifts states the shift |
| Molysynth.FilterOut | src/molysynth.c:61-64 | the filter's output 0.02 y; FilterShifts relates it to the new first delay |
| Molysynth.RingWrites | src/molysynth.c:74-75 | writing values into consecutive slots modulo the ring size, keeping 65536 slots; RingWritesSlots states which slot holds what |
| Molysynth.WriteRing | src/molysynth.c:68-77 | ringbuffer_write as a specification: all inputs go through the filter, and the decimated outputs go into the ring from the cursor, which moves on by their number modulo 65536; BlocksAreWriteRing, DecimateAt and RingWritesSlots state this |
| Molysynth.FilterShifts | src/molysynth.c:60-65 | each filter output is 0.02 times the new first delay, and the second delay takes the old first delay |
| Molysynth.DecimateAt | src/molysynth.c:70-75 | keeping one output in four keeps a quarter as many values as inputs, the k-th being output 4k+3 |
| Molysynth.RingWritesSlots | src/molysynth.c:74-75 | writing n values from slot w changes the slots w..w+n-1 modulo the ring size, slot (w + i) mod 65536 receiving value i, and no other slot |
| Molysynth.FourInputs | src/molysynth.c:70-75 | one pass of the loop feeds four inputs to the filter and adds exactly the last output to the decimated sequence |
| Molysynth.WriteBlocks | src/molysynth.c:70-76 | after every pass the ring keeps 65536 slots and the cursor stays below 65536 |
| Molysynth.BlocksAreWriteRing | src/molysynth.c:68-77 | the pass-by-pass write is the specification: the filter sees every input in order, the ring receives the decimated outputs in consecutive slots from the cursor, and the cursor moves on by their number modulo 65536 |
| Molysynth.Heard | src/molysynth.c:86-89 | the wavelength in force for a block; MessageHandoff states that it is the message's when one is pending and the old one otherwise |
| Molysynth.Loudness | src/molysynth.c:104-107 | the amplitude: 5000, or the message's volume when volume sensing is on; BlockBounded bounds every sample by it |
| Molysynth.NextPhase | src/molysynth.c:109-115 | the phase after one step, wrapped back by one period when it reaches 1; PhaseRange keeps it in [0, 1) |
| Molysynth.Wave | src/molysynth.c:109-121 | one sample of the square wave, high below half a period, low above it, with both edges interpolated; WaveBounded bounds it by the amplitude |
| Molysynth.Tone | src/molysynth.c:108-123 | the samples of the run loop, one Wave per step from the running phase; ToneBounded bounds each by the amplitude |
| Molysynth.SynthesizeBlock | src/molysynth.c:83-124 | the synthesizer: a block of exactly n samples and the state after it; MessageHandoff, SilencePath, BlockBounded and SynthesizeGood state its meaning |
| Molysynth.MessageHandoff | src/molysynth.c:86-89 | a pending message hands its wavelength to the synthesizer and is marked read; with none pending the wavelength stays; settings, filter, ring and cursor are untouched |
| Molysynth.SilencePath | src/molysynth.c:92-100 | with no wavelength after the read, the block is all zeros and the synthesizer is reset to zero wavelength, phase and volume |
| Molysynth.PhaseRange | src/molysynth.c:108-123 | for a step of at most one period, the phase stays in [0, 1) after any number of samples |
| Molysynth.StepNonzero | src/molysynth.c:103 | a nonzero wavelength gives a nonzero phase step, so the edge divisions are defined |
| Molysynth.StepRange | src/molysynth.c:103 | a wavelength of at least one sample gives a step in (0, 1] |
| Molysynth.EdgeBounded | src/molysynth.c:114-117 | an interpolated edge sample lies between -vol and vol |
| Molysynth.WaveBounded | src/molysynth.c:109-121 | every sample of the square wave lies between -vol and vol |
| Molysynth.ToneBounded | src/molysynth.c:108-123 | every sample of a run of the tone lies between -vol and vol |
| Molysynth.BlockBounded | src/molysynth.c:83-124 | every sample of a block lies within the loudness in force: 5000, or the message's volume when volume sensing is on |
| Molysynth.SynthesizeGood | src/molysynth.c:83-124 | the synthesizer keeps the engine invariant |
| Molysynth.RunCallback | src/molysynth.c:135-138 | the callback: the synthesizer, then the ring write of the input; OutputIgnoresInput and CallbackGood state its effect |
| Molysynth.OutputIgnoresInput | src/molysynth.c:135-138 | since the synthesizer runs before the write, a block's output depends only on the state and the block length, never on the block's input |
| Molysynth.CallbackGood | src/molysynth.c:135-138 | the callback keeps the engine invariant, the message's wavelength and the settings, and moves the cursor on by a quarter of the block length modulo 65536 |
| Molysynth.NextLambda | src/molysynth.c:143-147 | the analyzer's next wavelength: 400 after 0, otherwise one less; CountdownClosedForm gives its iterates |
| Molysynth.Analyzed | src/molysynth.c:141-149 | the analyzer posts a message with state 2, the next wavelength and volume 6000, and changes nothing else; AnalyzedGood keeps the invariant |
| Molysynth.Countdown | src/molysynth.c:141-149 | the wavelength after k analyses; CountdownClosedForm and CountdownPeriod give its closed form and period |
| Molysynth.AnalyzedGood | src/molysynth.c:141-149 | the analyzer keeps the engine invariant |
| Molysynth.CountdownShift | src/molysynth.c:143-147 | one more analysis first is one more analysis last |
| Molysynth.CountdownClosedForm | src/molysynth.c:143-147 | after k analyses from a wavelength l in 0..400, the wavelength is (l - k) mod 401 |
| Molysynth.CountdownPeriod | src/molysynth.c:143-147 | the wavelength stays in 0..400 and repeats every 401 analyses |
| Molysynth.ApplySetting | src/molysynth.c:152-158 | moly_set's letter table on the settings; OtherLettersIgnored, SettingOverwrites, SettingsCommute and TriggerLevelRange state its behaviour |
| Molysynth.OtherLettersIgnored | src/molysynth.c:152-158 | a letter other than w, a, y, v, r changes no setting |
| Molysynth.SettingOverwrites | src/molysynth.c:152-158 | setting an option twice keeps only the second value |
| Molysynth.SettingsCommute | src/molysynth.c:152-158 | settings of two different letters can be applied in either order |
| Molysynth.Pow2Monotone | src/molysynth.c:157 | a larger shift gives a larger trigger level |
| Molysynth.TriggerLevelRange | src/molysynth.c:157 | an r value in 0..9 gives a trigger level from 64 to 32768 |
| Molysynth.Engine.constructor | src/molysynth.c:12-54 | the new engine is the zero-initialised global with a fresh ring |
| Molysynth.Engine.Init | src/molysynth.c:130-132 | moly_init returns 0 and changes nothing |
| Molysynth.Engine.LpFilter | src/molysynth.c:60-65 | the filter's delays advance by one step and the result is the scaled output |
| Molysynth.Engine.FilterFour | src/molysynth.c:71-74 | four filter steps run in order and the fourth output is returned |
| Molysynth.Engine.PutSlot | src/molysynth.c:74-75 | the slot at the cursor receives the value and the cursor advances modulo 65536 |
| Molysynth.Engine.RingWrite | src/molysynth.c:68-77 | the loop leaves the engine in the state of the ring-write specification, keeping the invariant |
| Molysynth.Engine.ReadMessage | src/molysynth.c:86-89 | the message handoff on the fields |
| Molysynth.Engine.Silence | src/molysynth.c:92-100 | the output array is all zeros and the synthesizer is reset |
| Molysynth.Engine.Run | src/molysynth.c:103-123 | the output array holds the tone from the current phase and the phase advances by the block length |
| Molysynth.Engine.Synthesize | src/molysynth.c:83-124 | the output and the new state are those of the block specification, keeping the invariant |
| Molysynth.Engine.Callback | src/molysynth.c:135-138 | the synthesizer and then the ring write, as in the callback specification |
| Molysynth.Engine.Analyze | src/molysynth.c:141-149 | the message becomes the next count-down step with state 2 and volume 6000 |
| Molysynth.Engine.Set | src/molysynth.c:152-158 | the settings are updated as moly_set's letter table says |
| Driver.Int16Bytes | dev/molymain.c:227-228 | the two bytes written for a sample read back as that sample |
| Driver.Int16At | dev/molymain.c:222 | a stored sample read as a signed 16-bit little-endian value, always in -32768..32767 |
| Driver.Samples | dev/molymain.c:119-120 | the payload between the data chunk's start and its end, read as int16 values: half as many values as bytes |
| Driver.Encode16 | dev/molymain.c:226-229 | the bytes fwrite puts out for a run of int16 samples, two per sample; SamplesEncode inverts it |
| Driver.SamplesEncode | dev/molymain.c:226-229 | decoding the written bytes gives back every sample in order |
| Driver.Open | dev/molymain.c:112-142 | newSession and wavInit: the fmt and the data chunk must both be found, and the data payload must lie in the file, else the driver stops; ReadBack states that it reads back the output |
| Driver.OutputFile | dev/molymain.c:200-247 | the output file: the header, the samples and the two patched sizes |
| Driver.ReadBack | dev/molymain.c:112-120 | opening the driver's own output (at least two samples, below 4 GiB) gives back exactly the samples written |
| Driver.Configured | dev/molymain.c:210-215 | the settings after the six moly_set calls, in main's order; ConfiguredFields states each field |
| Driver.ConfiguredFields | dev/molymain.c:210-215 | the waveform, volume sensing and verbosity take -w, -y and -v; the trigger level is 1 << (6 + r); -z and -t leave auto-tune unchanged |
| Driver.Configure | dev/molymain.c:210-215 | the six moly_set calls leave the settings that the configuration specifies |
| Driver.LeftChannel | dev/molymain.c:221-224 | the block fed to the callback: the 48 left-channel samples from position p, each divided by 32768 |
| Driver.NextCount | dev/molymain.c:234-235 | the block counter after one more block, back to 0 on reaching 10; SessionCounter bounds it |
| Driver.AfterCount | dev/molymain.c:234-237 | the engine state after the counter test, analysed when the counter reaches 10; SessionKeeps and SessionTotals count the analyses |
| Driver.Session | dev/molymain.c:217-238 | the block loop keeps the engine invariant |
| Driver.SessionLength | dev/molymain.c:220-229 | n complete blocks of input produce 48n output samples |
| Driver.SessionCounter | dev/molymain.c:234-237 | the counter stays in 0..9, and the blocks processed equal ten per analysis plus the final counter |
| Driver.SessionCursor | dev/molymain.c:220-225 | n blocks move the ring cursor on by 12n modulo 65536 |
| Driver.SessionKeeps | dev/molymain.c:225-237 | the final wavelength is the count-down after the analyses made, and the settings are never changed |
| Driver.SessionTotals | dev/molymain.c:217-238 | with b = number of samples / 96: 48b output samples, b mod 10 left on the counter, b / 10 analyses and their count-down, the cursor moved by 12b, and the settings kept |
| Driver.FillBlock | dev/molymain.c:221-224 | the input block holds the next 48 left-channel samples scaled by 1/32768, and the input position moves on 96 values |
| Driver.Process | dev/molymain.c:217-238 | the imperative loop over the engine object writes exactly the output of the session specification and leaves the engine in its final state |
| Driver.Drive | dev/molymain.c:151-238 | main as a specification: exit or abort on the scan's outcome or a failed open, otherwise the session of the configured engine over the input's samples; RunMain is proved to compute it |
| Driver.RunMain | dev/molymain.c:151-238 | main: it exits or aborts as the scan and the input decide, and otherwise configures a fresh engine and processes the samples as the specification `Drive` says |

## Left out

- Floating point: every `float` is an exact `real`. The filter coefficients 1.8, 0.82 and 0.02 are kept, but rounding is not modelled. Because the arithmetic is exact, the edge sample `vol * a / d` is written as `vol * (a / d)`.
- The wavelengths `synth.lambda` and `message.lambda` are `float` in the source. They are modelled as integers because only the integers 0..400 ever reach them.
- The `float` to `int16_t` output conversion (`dev/molymain.c:227`) is left out. The cast is undefined in C for a value outside the int16 range. The synthesizer's amplitude is 5000, or 6000 with volume sensing. Scaled by 32768, every tone sample lies far outside that range, except the few edge samples of magnitude below 1. So the conversion is defined only for the silent blocks and for those edge samples. `Driver.OutputFile` takes the int16 samples as its parameter.
- The processed output itself is not turned into bytes. `Driver.Process` returns the real samples.
- File and console I/O are parameters or outcomes:
  - `fmmap`, `fopen`, `fwrite`, `fseek` and `fclose` are not modelled. The input file is a byte sequence given as a parameter, and a missing file or a failed allocation is not modelled.
  - `printf` and the `-p` info print (`dev/molymain.c:122-129`) are left out; `-p` is only recorded.
  - `exit` and a failing `assert` become the outcomes `Exited` and `Aborted`.
- Riff.FindChunk / Riff.ChunkLookup: a chunk step `m` that is zero or negative ends the lookup with nothing found. The C loop takes such a step: at m = 0 it never returns, and at m < 0 it moves back into earlier bytes, where it can return a chunk that is not one. `Riff.WrittenLookup` is the loop as written. `Riff.WrittenAgrees` proves that the two agree on every file whose steps move forward. The rest of the model uses the corrected lookup.
- Reads past the end of the buffer are undefined behaviour in C. In `Riff` they are the explicit outcome `OutOfBounds`. `Driver.Open` aborts when the data chunk's header or payload extends past the file.
- Driver.Open: an odd data size yields its floor in samples; C's `p_end` would point into the middle of a sample.
- Driver.Process: the loop test `p <= p_end - 2 * BSZ` is modelled as "96 more int16 values remain". Pointer arithmetic before the start of the payload is not modelled.
- Molysynth.Engine.RingWrite: requires the block length to be a multiple of 4. For other lengths the C loop reads past the input. The driver always passes 48.
- Molysynth.Engine.Set: requires `6 + val` to lie in 0..30 for `'r'`, so that `1 << (6 + val)` is defined on a 32-bit `int`. `main` only passes 0..9.
- `ring.i_read` (`src/molysynth.c:51`) is never used and is not modelled. The empty `tracker` struct is not modelled either.
- Concurrency is not modelled. A real system would run the callback on an audio thread and the analyzer on another; here the driver calls both from one thread, in order.
- `molysynth.cpp` and `src/molysynth.h` are not part of this model.

## Findings

| source | as written | input that shows it | evidently intended | confidence | as-written member | corrected member |
|---|---|---|---|---|---|---|
| dev/molymain.c:103-106 | a chunk size that makes `m = 8 + size` wrap to 0 passes the alignment test, so the pointer and the count stay put and the loop never ends | "RIFF", size 16, "WAVE", then a "JUNK" chunk of size 0xFFFFFFF8, looking for "data" | the lookup stops with nothing found when a step does not move forward | not executed | Riff.SpinForever | Riff.SpinCorrected |
| dev/molymain.c:103-106 | a chunk size that makes `m` negative passes the alignment test and moves the pointer back into an earlier chunk's payload, where bytes that spell the id are returned as a chunk | "RIFF", size 32, "WAVE", "JUNK" of size 8 whose payload is "data" and 0, then "JUNK" of size 0xFFFFFFF0 (m = -8), looking for "data": offset 20 is returned | the lookup stops with nothing found when a step does not move forward | not executed | Riff.BackwardAsWritten | Riff.BackwardCorrected |
