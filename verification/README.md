# Chord harmonizer and WAV writer, modelled in Dafny

This project models the core of a small chord harmonizer:

- **Notes.** A note is built from a pitch-class name (`"C"` … `"B"`), an int or a digit string, plus an octave.
  Its MIDI-style number is `number + 12 * octave`, and notes compare by name, number and octave.
- **Harmonizer.** It turns a list of note tokens into a scale.
  For every note of the scale it stacks a chord by taking every other scale note, wrapping round at the end.
  Each chord gets six voicings:
  - close position;
  - drop 2;
  - drop top;
  - raise bottom;
  - minimal intervals;
  - spread.
- **Voicer.** This is the catalogue of voicing transforms.
  Also included are the octave shift and the interval-total scoring used by "minimal intervals".
- **Audio bookkeeping.** Two parts:
  - the byte layout of the 16-bit mono PCM WAV file that `generate_wav_file` writes into a `BytesIO` buffer, size backpatch included;
  - the bar bookkeeping of `concatenate_chord_audio`: trailing rests popped from the caller's list, `None` when nothing is left, and one fixed-length bar per remaining slot.

Layout, one module per file:

- `wrappers.dfy`:
  - `Wrappers` holds `Option` and `Result`;
  - `Lists` holds `FirstIndex`, which is Python's `list.index`, plus `Distinct`.
- `notes.dfy` (`Notes`) models the `Note` class.
  A note never changes after construction, so it is a datatype `Note(number, octave)`.
  Its `name` is always `NOTES[number]` (`Name`).
  The constructor, which may raise, is the function `NewNote`, returning a `Result`.
- `voicer.dfy` (`Voicer`) holds every voicing transform as a specification function.
  - `close_position`, `spread` and `minimal_intervals` (with `calculate_total_intervals`) loop in the source.
  - Those loops are also methods (`ClosePosition`, `Spread`, `MinimalIntervals`/`ScanOctaveMoves`, `CalculateTotalIntervals`).
  - Each method is proved to compute its function.
- `harmony.dfy` (`Harmony`) covers the `Harmonizer` constructor, `_build_chord`, `_generate_voicings` and `harmonize`.
  - Each is a specification function.
  - Each loop of the source is a method proved against its function (`BuildChord`, `GenerateVoicings`, `Harmonize`).
- `wav.dfy` (`Wav`) contains:
  - little-endian packing and `struct.error` range errors;
  - the file as a byte sequence (`WavFile`) and a reader for it (`ParseWav`) with the round trip between them;
  - a `ByteBuffer` class with `write`/`tell`/`seek`/`read`;
  - `GenerateWavFile`, which writes field by field, backpatches the size and is proved to produce `WavFile`.
- `sequencer.dfy` (`Sequencer`) covers `concatenate_chord_audio`.
  The caller's list is a `SlotList` object whose `slots` the method shortens in place.

Assumptions and abstractions:

- Integers are unbounded, as in Python.
- A chord's audio rendering is a function parameter `render` that always yields exactly `samplesPerBar` samples; the cases where the source's renderer raises instead are listed under "## Left out".
- The float-to-int16 conversion is a function parameter `toPcm`.

## Model

| member | source | states |
|---|---|---|
| Lists.FirstIndex | harmonizer.py:74 | `notes.index(root)`: the result holds `root`, and no earlier position does |
| Lists.FirstIndexDistinct | harmonizer.py:74 | in a list without repeats, the index of `xs[i]` is `i` |
| Notes.Name | harmonizer.py:15 | the `name` attribute is always one of the twelve `NOTES` |
| Notes.PitchOf | harmonizer.py:21 | `NOTES.index(name)` is a pitch class whose entry in `NOTES` is `name` |
| Notes.IsDigits | harmonizer.py:8 | `str.isdigit()` on ASCII digits; no string it accepts is a note name, so the digit branch and the name branch never overlap |
| Notes.DigitsValue | harmonizer.py:9 | `int(s)` on a digit string: its units digit is the last character of `s` |
| Notes.NewNote | harmonizer.py:5-24 | Succeeds exactly for an int, a digit string or a name in `NOTES`. The octave is kept. An int gives `i % 12`, a digit string `int(s) % 12`, and a name a note whose name is that name. Any other string fails with `InvalidName(s)`, and a non-string non-int fails with `NotNameOrNumber`. |
| Notes.DecimalRoundTrip | harmonizer.py:8-9 | the decimal numeral of `n` passes `isdigit()` and `int()` reads it back as `n` |
| Notes.DigitStringAsInt | harmonizer.py:8-13 | a digit string builds the same note as the int it spells |
| Notes.NotesDistinct | harmonizer.py:3 | the twelve names are pairwise different |
| Notes.NameRoundTrip | harmonizer.py:11-21 | building from `NOTES[pc]` gives `Note(pc, octave)`, the same as building from the int `pc` |
| Notes.IntRoundTrip | harmonizer.py:11-15 | an int already in 0..11 is kept as the pitch class |
| Notes.NamesStartWithLetter | harmonizer.py:3 | every name starts with a letter `A`–`G` |
| Notes.NameNotDigits | harmonizer.py:8-18 | no note name passes `isdigit()`, so names take the name branch |
| Notes.NameIndex | harmonizer.py:21 | `NOTES.index(NOTES[pc]) == pc` |
| Notes.LowerCaseRefused | harmonizer.py:18-19 | `"c"` and `"f#"` are refused with `InvalidName`, because matching is case-sensitive |
| Notes.MidiNumber | harmonizer.py:26-28 | `get_midi_number()` lies in the twelve semitones `12 * octave` up to `12 * octave + 11` |
| Notes.MidiNumberDecomposes | harmonizer.py:26-28 | the MIDI number divided by 12 gives the octave and leaves the pitch class as remainder |
| Notes.Equals | harmonizer.py:33-38 | `__eq__` holds iff the two notes are equal, iff their MIDI numbers are equal |
| Harmony.StyleNamesDistinct | harmonizer.py:85-108 | the six display names are pairwise different |
| Harmony.MakeNotes | harmonizer.py:46 | Succeeds iff every token builds a note in octave 0. The result has one note per token, each the note its token builds. |
| Harmony.MakeNotesFirstError | harmonizer.py:46 | on failure, the error is that of the first token refused, and all earlier tokens were accepted |
| Harmony.NewHarmonizer | harmonizer.py:43-47 | An empty list gives `EmptyNotes`. Otherwise it succeeds iff every token is a note, with one note per token, and a refused token gives `BadNote` carrying that token's error. |
| Harmony.HarmonizerNotesInOctaveZero | harmonizer.py:46 | every note of a harmonizer is in octave 0 |
| Harmony.NamesAndNumbersAgree | harmonizer.py:43-47 | name tokens and their pitch-class numbers build the same harmonizer |
| Harmony.MakeNotesAgree | harmonizer.py:46 | token lists that build the same notes position by position build the same list |
| Harmony.Stack | harmonizer.py:72-77 | the stacked chord has `size` notes, starts with `root`, and takes every note from the scale |
| Harmony.BasicChord | harmonizer.py:67-83 | An empty list or a size below 1 gives `[]`. Otherwise it succeeds iff the root is in the list, with `size` notes starting at the root. Failure is `RootNotFound(root)`. |
| Harmony.BuildChord | harmonizer.py:67-83 | the source's `while` loop with `index += 2` computes `BasicChord` |
| Harmony.StackFrom | harmonizer.py:74-77 | from a first occurrence at `i`, member `j` of the chord is `notes[(i + 2j) % n]` |
| Harmony.StackOnDistinct | harmonizer.py:74-77 | the same for every position of a list without repeats |
| Harmony.TriadFrom | harmonizer.py:74-77 | a triad is `notes[i]`, `notes[(i+2) % n]`, `notes[(i+4) % n]` |
| Harmony.TriadOnC | harmonizer.py:72-77 | over C major, the triad on C is C, E, G |
| Harmony.TriadOnB | harmonizer.py:72-77 | over C major, the triad on B wraps round to B, D, F |
| Harmony.RepeatedRootsShareChords | harmonizer.py:74 | a repeated note gets the chord of its first occurrence |
| Harmony.VoicingsOf | harmonizer.py:85-108 | six voicings in the fixed order close position, drop 2, drop top, raise bottom, minimal intervals, spread, each with the chord's pitch classes in order |
| Harmony.GenerateVoicings | harmonizer.py:85-108 | appending the six voicings, with the loop-based voicers run as methods, yields `VoicingsOf` |
| Harmony.Harmonization | harmonizer.py:49-65 | Size below 2 gives `ChordSizeTooSmall`. Size above the number of notes gives `ChordSizeTooLarge`. Otherwise it succeeds with one chord set per note. |
| Harmony.ChordSetOn | harmonizer.py:57-62 | one loop pass: `_build_chord` then `_generate_voicings` on note `i` yields chord set `i` |
| Harmony.AppendChordSet | harmonizer.py:57-63 | appending chord set `i` extends the result prefix by one |
| Harmony.Harmonize | harmonizer.py:49-65 | the source's checks and `for root in self.notes` loop compute `Harmonization` |
| Harmony.HarmonizationShape | harmonizer.py:49-108 | Every chord set holds six voicings of `chordSize` notes. Each voicing's bottom note has the root's pitch class, and its pitch classes are those of the stacked chord. |
| Harmony.ChordSizeBoundary | harmonizer.py:51-54 | three notes harmonize in triads, and four-note chords fail with `ChordSizeTooLarge(4, 3)` |
| Voicer.Descents | harmonizer.py:124-128 | the octave counter after `i` notes is at most `i` |
| Voicer.CloseVoicing | harmonizer.py:115-133 | keeps the pitch classes, puts the root in octave 0, and each note rises from the previous by 0 to 11 semitones |
| Voicer.CloseOctaveStep | harmonizer.py:124-131 | each later note keeps the running octave, one higher when its pitch class is below the previous one |
| Voicer.ClosePosition | harmonizer.py:115-133 | the source's loop with `current_note` computes `CloseVoicing` |
| Voicer.CloseNonDecreasing | harmonizer.py:115-133 | absolute pitch never falls along a close voicing |
| Voicer.CloseUnique | harmonizer.py:115-133 | any voicing with the chord's pitch classes, root in octave 0 and rises within an octave is the close voicing |
| Voicer.CloseUniqueAt | harmonizer.py:115-133 | the same, position by position |
| Voicer.Drop2 | harmonizer.py:136-149 | Below 3 notes it gives close position. Otherwise it is close position with only the second-from-top note lowered one octave, which then sits below its lower neighbour. Pitch classes are kept. |
| Voicer.DropTop | harmonizer.py:167-176 | Below 2 notes it gives close position. Otherwise only the top note is lowered one octave, ending below the note before it. Pitch classes are kept. |
| Voicer.RaiseBottom | harmonizer.py:179-188 | Below 2 notes it gives close position. Otherwise only the bottom note is raised one octave, ending above the second note. Pitch classes are kept. |
| Voicer.Drop2Example | harmonizer.py:136-149 | C E G B gives C E G(octave −1) B |
| Voicer.SpreadVoicing | harmonizer.py:152-164 | keeps the pitch classes, puts note `i` in octave `i`, and each step rises by 1 to 23 semitones |
| Voicer.Spread | harmonizer.py:152-164 | the source's `enumerate` loop computes `SpreadVoicing` |
| Voicer.ShiftOctave | harmonizer.py:230-232 | keeps the pitch classes, adds `k` to every octave and `12k` to every MIDI number |
| Voicer.ShiftOctaveRoundTrip | harmonizer.py:230-232 | `shift_octave(shift_octave(v, k), -k) == v` |
| Voicer.ShiftOctaveCompose | harmonizer.py:230-232 | shifting by `j` then `k` is shifting by `j + k` |
| Voicer.IntervalSum | harmonizer.py:196-201 | the running total after `n` neighbour pairs is at least the distance from the first note to note `n` |
| Voicer.IntervalTotal | harmonizer.py:196-201 | `calculate_total_intervals` is at least the distance between the first and the last note |
| Voicer.CalculateTotalIntervals | harmonizer.py:196-201 | the accumulating loop computes the sum of absolute neighbour distances |
| Voicer.IntervalTotalOfRising | harmonizer.py:196-201 | along a voicing that never falls, the total is top minus bottom |
| Voicer.IntervalSumOfRising | harmonizer.py:196-201 | the same for every prefix of the sum |
| Voicer.IntervalTotalShift | harmonizer.py:196-232 | an octave shift leaves the interval total unchanged |
| Voicer.IntervalSumShift | harmonizer.py:196-232 | the same for every prefix of the sum |
| Voicer.Keep | harmonizer.py:215-225 | A candidate replaces the best exactly when there is none yet or its total is strictly smaller. The kept total never exceeds the candidate's or the previous best's. |
| Voicer.MinScan | harmonizer.py:211-225 | after `m > 0` notes a best is held, at a position below `2m`, with as many notes as the base |
| Voicer.CandidateOfRaised | harmonizer.py:212-215 | scoring step `2i` tries note `i` one octave up |
| Voicer.CandidateOfLowered | harmonizer.py:220-222 | scoring step `2i + 1` lowers the raised copy again, so it is the base voicing |
| Voicer.MinScanHoldsCandidate | harmonizer.py:211-225 | the held voicing is the candidate at its recorded position, with its true total |
| Voicer.MinScanIsMinimum | harmonizer.py:211-225 | no candidate scored so far has a smaller total than the held one |
| Voicer.MinScanIsFirst | harmonizer.py:216-225 | every candidate scored before the held one has a strictly larger total, so ties keep the earliest |
| Voicer.MinScanKeepsPitchClasses | harmonizer.py:211-225 | the held voicing has the base's pitch classes |
| Voicer.MinScanStep | harmonizer.py:211-225 | one outer iteration scores the raised copy and then the lowered copy |
| Voicer.BestOctaveMove | harmonizer.py:204-227 | the voicing returned keeps the base's pitch classes |
| Voicer.MinimalVoicing | harmonizer.py:191-227 | keeps the chord's pitch classes, and is close position for fewer than two notes |
| Voicer.MinimalIntervals | harmonizer.py:191-227 | the method computes `MinimalVoicing` |
| Voicer.ScanOctaveMoves | harmonizer.py:204-227 | the loop with `best_voicing`/`min_total` (with `None` for infinity) computes `BestOctaveMove` |
| Voicer.CandidateCases | harmonizer.py:211-222 | every scored candidate is the base or the base with one note raised |
| Voicer.MinimalIsCloseOrOneRaised | harmonizer.py:191-227 | the result is close position, or close position with exactly one note raised an octave |
| Voicer.MinimalNoWorse | harmonizer.py:191-227 | the result's total is at most that of close position and at most that of every single-note raise |
| Voicer.BestMoveFirstOnTies | harmonizer.py:216-225 | the result is some candidate `j`, and every earlier candidate has a strictly larger total |
| Voicer.MinimalFirstOnTies | harmonizer.py:216-225 | the same for `minimal_intervals` |
| Voicer.BestMoveKeepsBaseOnlyIfStrictlyBetter | harmonizer.py:216-227 | the unmoved voicing is returned only if it strictly beats raising the bottom note |
| Voicer.MinimalKeepsCloseOnlyIfStrictlyBetter | harmonizer.py:216-227 | close position is returned only if it strictly beats raising the root |
| Voicer.DescentsSamePitchClasses | harmonizer.py:124-128 | the octave counter depends only on pitch classes |
| Voicer.VoicingsIgnoreInputOctaves | harmonizer.py:115-188 | all six voicings depend only on the chord's pitch classes, not on its octaves |
| Wav.U16LE | audio_utils.py:31-32 | `struct.pack('<H', x)` is two bytes |
| Wav.U16RoundTrip | audio_utils.py:31-32 | packing then reading back a 16-bit value gives it back |
| Wav.U32LE | audio_utils.py:25-34 | `struct.pack('<I', x)` is four bytes |
| Wav.U32RoundTrip | audio_utils.py:25-34 | packing then reading back a 32-bit value gives it back |
| Wav.PackU32 | audio_utils.py:33-47 | `struct.pack('<I', v)` succeeds iff `0 <= v < 2^32`, giving four bytes, and otherwise fails with `OutOfRange(v)` |
| Wav.S16LE | audio_utils.py:42 | an int16 sample is two bytes |
| Wav.S16RoundTrip | audio_utils.py:42 | two's-complement packing of an int16 reads back as the same sample |
| Wav.SamplesLE | audio_utils.py:42 | `tobytes()` of `n` samples is `2n` bytes |
| Wav.ParseSamples | audio_utils.py:42 | reading pairs of bytes yields `floor(len / 2)` samples |
| Wav.SampleBytes | audio_utils.py:42 | sample `k` sits at bytes `2k` and `2k + 1`, little-endian |
| Wav.SamplesRoundTrip | audio_utils.py:42 | reading the sample bytes back gives every sample, in order |
| Wav.FmtChunk | audio_utils.py:29-36 | the `fmt ` chunk is 24 bytes |
| Wav.DataChunk | audio_utils.py:39-42 | the `data` chunk is `8 + 2n` bytes |
| Wav.WavFile | audio_utils.py:21-51 | It succeeds iff rate, byte rate, data size and file size all fit in 32 bits, and the file is `44 + 2n` bytes. A negative or oversized rate fails with `OutOfRange(rate)`. |
| Wav.FmtLayout | audio_utils.py:29-36 | The chunk holds, in order: the tag, size 16, format 1, 1 channel, the rate, byte rate `2 * rate`, block align 2 and 16 bits per sample. Each field is at its fixed offset. |
| Wav.DataLayout | audio_utils.py:39-42 | the data chunk is the tag, the size `2n`, then the samples |
| Wav.WavLayout | audio_utils.py:24-47 | Bytes 0–3 are `RIFF`, 4–7 the size `36 + 2n`, and 8–11 `WAVE`. Bytes 12–35 hold the `fmt ` chunk, and the data chunk starts at byte 36. |
| Wav.ChunkLayout | audio_utils.py:24-42 | the five parts are recovered by slicing at 4, 8, 12 and 36 |
| Wav.ParseFmt | audio_utils.py:29-36 | an accepted `fmt ` chunk gives a rate whose byte rate fits in 32 bits |
| Wav.FmtRoundTrip | audio_utils.py:29-36 | reading the written `fmt ` chunk gives back the rate |
| Wav.ParseData | audio_utils.py:39-42 | an accepted data chunk is `8 + 2n` bytes for its `n` samples |
| Wav.DataRoundTrip | audio_utils.py:39-42 | reading the written data chunk gives back the samples |
| Wav.ParseWav | audio_utils.py:21-51 | an accepted file is `44 + 2n` bytes for its `n` samples |
| Wav.WavRoundTrip | audio_utils.py:21-51 | reading the written file gives back the sample rate and every sample |
| Wav.Zeros | audio_utils.py:46-47 | `n` zero bytes, which fill a gap when writing past the end |
| Wav.Put | audio_utils.py:46-47 | Writing one byte at `p` sets byte `p`, leaves every other existing byte, and zero-fills any gap. The length becomes `max(len, p + 1)`. |
| Wav.Overwrite | audio_utils.py:46-47 | `BytesIO.write(d)` at position `p`: the length is unchanged when `d` is empty or ends inside the buffer, and `p + len(d)` otherwise |
| Wav.OverwriteBytes | audio_utils.py:46-47 | Writing `d` at `p` gives a buffer of length `max(len, p + len(d))`. It holds `d` at `p` up to `p + len(d)`, keeps the old bytes elsewhere, and is zero in any gap. |
| Wav.OverwriteAtEnd | audio_utils.py:24-42 | writing at the end appends |
| Wav.OverwriteWithin | audio_utils.py:46-47 | writing inside the buffer replaces exactly those bytes |
| Wav.ByteBuffer.constructor | audio_utils.py:21 | a new buffer is empty, at position 0 |
| Wav.ByteBuffer.Write | audio_utils.py:24-47 | Writing overwrites from the position and moves the position past the data. At the end, that is an append. |
| Wav.ByteBuffer.Tell | audio_utils.py:45 | returns the position |
| Wav.ByteBuffer.Seek | audio_utils.py:46-50 | moves the position and keeps the bytes |
| Wav.ByteBuffer.Read | audio_utils.py:51 | returns the bytes from the position to the end, and moves the position to the end |
| Wav.Backpatch | audio_utils.py:44-47 | writing the real size over the zero placeholder at offset 4 leaves every other byte |
| Wav.WriteFormatChunk | audio_utils.py:28-36 | It appends exactly the `fmt ` chunk when the rate and byte rate fit in 32 bits. Otherwise it fails with the first out-of-range value. |
| Wav.WriteDataChunk | audio_utils.py:38-42 | It appends exactly the data chunk when `2n` fits in 32 bits. Otherwise it fails with `OutOfRange(2n)`. |
| Wav.GenerateWavFile | audio_utils.py:20-51 | the sequence of writes, the backpatch and the final `read()` yield exactly `WavFile` |
| Sequencer.SlotList.constructor | audio_utils.py:113 | the list holds the caller's slots |
| Sequencer.StripRests | audio_utils.py:125-126 | The result is a prefix of the list that is empty or ends in a chord. Every slot removed is a rest. |
| Sequencer.StripRestsUnique | audio_utils.py:125-126 | those three properties determine the trimmed list |
| Sequencer.StripRestsIdempotent | audio_utils.py:125-126 | trimming twice is trimming once |
| Sequencer.StripRestsAppend | audio_utils.py:125-126 | an appended rest is trimmed away, and an appended chord ends the trimmed list |
| Sequencer.StripRestsEmpty | audio_utils.py:125-129 | the list trims to nothing iff every slot is a rest |
| Sequencer.TrimTrailingRests | audio_utils.py:125-126 | the `while ... pop()` loop shortens the caller's list to `StripRests` of it |
| Sequencer.Silence | audio_utils.py:142 | `np.zeros(n)`: `n` samples, all `0.0` |
| Sequencer.Bar | audio_utils.py:140-174 | every bar has `samplesPerBar` samples |
| Sequencer.Bars | audio_utils.py:139-176 | one bar per slot |
| Sequencer.Concat | audio_utils.py:179 | `np.concatenate`: bars of equal width `w` join into `w * count` samples |
| Sequencer.ConcatSlice | audio_utils.py:179 | bar `k` sits at samples `k*w` up to `(k+1)*w` of the joined audio |
| Sequencer.ChordAudio | audio_utils.py:124-179 | The samples `concatenate_chord_audio` converts. There are none exactly when trimming the rests leaves nothing; otherwise `b` kept slots give `samplesPerBar * b` samples. |
| Sequencer.ChordAudioNone | audio_utils.py:125-129 | there is no audio (`None`) iff every slot is a rest |
| Sequencer.ChordAudioBar | audio_utils.py:139-179 | kept slot `k` fills samples `k*spb` up to `(k+1)*spb`, with silence for a rest and the rendered chord otherwise |
| Sequencer.Quantize | audio_utils.py:18 | one int16 sample per float sample, in order |
| Sequencer.RenderBar | audio_utils.py:140-174 | one pass of the bar loop yields `Bar` of the slot |
| Sequencer.ConcatenateChordAudio | audio_utils.py:113-181 | It trims the caller's list in place. It returns `None` when only rests were given. Otherwise it returns the WAV file of the joined bars. |

## Left out

- `app.py`, the Flask front end: routing, JSON and templates. Its token normalisation is not part of this model; tokens reach `NewNote` as they are.
- `Note.__repr__` and `Voicer.get_available_voicings`: the first is display-only and the second is a constant list of names nothing in the core consults.
- The `__main__` demonstration at the end of `harmonizer.py`.
- `Note(...)` called with a `bool`: Python treats it as an int. `NoteArg` has no bool case, so such a call is modelled as `IntArg(0)` or `IntArg(1)`.
- `str.isdigit()` also accepts non-ASCII digits, such as Arabic-Indic ones; the model accepts ASCII `0`–`9` only.
- `__eq__` against a value that is not a `Note` (it returns `False`): `Equals` compares two notes only.
- `_build_chord`'s `except Exception` branch: the only error the loop can raise is the missing root, which is modelled as `RootNotFound`.
- Harmony.Labelled: each voicing's display name is a `Style` value. The source's string is `StyleName(style)`, and `StyleNamesDistinct` proves the names are pairwise different.
- Harmony.ChordSetOn and Harmony.AppendChordSet are the body of the loop in `harmonize`, and Voicer.ScanOctaveMoves is the loop of `minimal_intervals`. Wav.WriteFormatChunk and Wav.WriteDataChunk are the "format chunk" and "data chunk" blocks of `generate_wav_file`. These are written as separate methods, but the source has them inline.
- Waveform synthesis, mixing, normalisation, envelopes and frequency computation, as well as `generate_chord_audio`: all floating point. `render` and `toPcm` stand in for them.
- `samples_per_bar = int(sample_rate * bar_duration)`: float arithmetic on the tempo. `samplesPerBar` is a parameter.
- Sequencer.ConcatenateChordAudio: the renderer is assumed never to fail. In the source a chord slot raises `ValueError` when `samples_per_bar` is 0 (`np.max` of an empty array, audio_utils.py:164) or shorter than the 10 ms envelope `int(0.01 * sample_rate)` (audio_utils.py:170-173); the tempo that sets `samples_per_bar` is not checked. There the model returns a WAV file where the source raises.
- Sequencer.Quantize: `np.int16(samples * 32767)` truncates and wraps. The model takes that conversion as the parameter `toPcm`.
- Base64 encoding of the WAV bytes, and `buffer.close()`: the model stops at the raw bytes `read()` returns.
- `np.int16.tobytes()` uses the host's byte order. The model assumes a little-endian host.
- Wav.ByteBuffer.Seek: takes a natural position. A negative `seek` raises `ValueError` in `BytesIO`, and `generate_wav_file` never issues one.
- Wav.GenerateWavFile: on a `struct.error` it returns the error, and the partly written buffer is discarded, as the exception discards it.

### Behaviour of the code worth knowing

- `app.py:34-35` upper-cases a name before it reaches `Note`, but `Note` itself matches names case-sensitively (harmonizer.py:18): `"c"` is refused (`LowerCaseRefused`).
- `app.py:30-31` refuses numbers outside 0–11, but `Note` itself wraps any int modulo 12 (harmonizer.py:13, `NewNote`).
- `harmonize` compares the chord size with `len(self.notes)`, repeats included (harmonizer.py:53, `ChordSizeBoundary`), so a list with repeated notes admits a chord size larger than the number of distinct notes.
- `concatenate_chord_audio` returns `None` when only rests remain (audio_utils.py:128-129, `ChordAudioNone`).
- In `minimal_intervals` the "move down" step (harmonizer.py:221) lowers the copy that was just raised, so it rescores the close voicing itself (`CandidateOfLowered`). No voicing with a lowered note is ever considered (`MinimalIsCloseOrOneRaised`).
