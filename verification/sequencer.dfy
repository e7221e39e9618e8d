// The bar bookkeeping of `concatenate_chord_audio`: trailing rests are popped
// from the caller's list, an empty list yields no audio, and every remaining
// slot becomes one bar of `samplesPerBar` samples, silent for a rest.

module Sequencer {
  import opened Wrappers
  import Notes
  import Wav

  /** One slot of a chord sequence: a rest (`None`) or the notes of a chord. */
  datatype Slot = Rest | Chord(notes: seq<Notes.Note>)

  /** The caller's list of slots, which `concatenate_chord_audio` shortens in place. */
  class SlotList {
    var slots: seq<Slot>

    constructor (slots: seq<Slot>)
      ensures this.slots == slots
    {
      this.slots := slots;
    }
  }

  // ---------------------------------------------------------------------------
  // Trailing rests
  // ---------------------------------------------------------------------------

  /**
   * The list with its trailing rests removed: a prefix of the list that is
   * empty or ends in a chord, and everything cut off is a rest.
   */
  function StripRests(s: seq<Slot>): (r: seq<Slot>)
    ensures |r| <= |s| && r == s[..|r|]
    ensures r == [] || r[|r| - 1].Chord?
    ensures forall i :: |r| <= i < |s| ==> s[i] == Rest
  {
    if s == [] || s[|s| - 1].Chord? then s else StripRests(s[..|s| - 1])
  }

  /** The three properties of `StripRests` single it out: no other prefix has them. */
  lemma {:induction false} StripRestsUnique(s: seq<Slot>, r: seq<Slot>)
    requires |r| <= |s| && r == s[..|r|]
    requires r == [] || r[|r| - 1].Chord?
    requires forall i :: |r| <= i < |s| ==> s[i] == Rest
    ensures r == StripRests(s)
  {
  }

  /** Trimming a trimmed list changes nothing. */
  lemma {:induction false} StripRestsIdempotent(s: seq<Slot>)
    ensures StripRests(StripRests(s)) == StripRests(s)
  {
    var t := StripRests(s);
    StripRestsUnique(t, t);
  }

  /** A rest appended at the end is trimmed away; a chord appended at the end ends the trimmed list. */
  lemma {:induction false} StripRestsAppend(s: seq<Slot>, x: Slot)
    ensures x == Rest ==> StripRests(s + [x]) == StripRests(s)
    ensures x.Chord? ==> StripRests(s + [x]) == s + [x]
  {
    assert (s + [x])[..|s + [x]| - 1] == s;
  }

  /** The list is trimmed to nothing exactly when every slot is a rest. */
  lemma {:induction false} StripRestsEmpty(s: seq<Slot>)
    ensures StripRests(s) == [] <==> forall i :: 0 <= i < |s| ==> s[i] == Rest
  {
    if StripRests(s) != [] {
      var t := StripRests(s);
      assert s[|t| - 1] == t[|t| - 1];
    }
  }

  /** `while chords and chords[-1] is None: chords.pop()` on the caller's list. */
  method TrimTrailingRests(chords: SlotList)
    modifies chords
    ensures chords.slots == StripRests(old(chords.slots))
  {
    while |chords.slots| > 0 && chords.slots[|chords.slots| - 1] == Rest
      invariant StripRests(chords.slots) == StripRests(old(chords.slots))
      decreases |chords.slots|
    {
      chords.slots := chords.slots[..|chords.slots| - 1];
    }
  }

  // ---------------------------------------------------------------------------
  // Bars
  // ---------------------------------------------------------------------------

  /** `np.zeros(samples_per_bar)`. */
  function Silence(n: nat): (z: seq<real>)
    ensures |z| == n && forall i :: 0 <= i < n ==> z[i] == 0.0
  {
    seq(n, i => 0.0)
  }

  /** The synthesiser always renders a chord as exactly one bar of samples. */
  ghost predicate RendersBars(render: seq<Notes.Note> -> seq<real>, samplesPerBar: nat)
  {
    forall c :: |render(c)| == samplesPerBar
  }

  /** The samples of one slot: silence for a rest, the rendered chord otherwise. */
  function Bar(slot: Slot, samplesPerBar: nat, render: seq<Notes.Note> -> seq<real>): (b: seq<real>)
    requires RendersBars(render, samplesPerBar)
    ensures |b| == samplesPerBar
  {
    match slot
    case Rest => Silence(samplesPerBar)
    case Chord(notes) => render(notes)
  }

  /** `all_samples`: one bar per slot, in order. */
  function Bars(s: seq<Slot>, samplesPerBar: nat, render: seq<Notes.Note> -> seq<real>): (bars: seq<seq<real>>)
    requires RendersBars(render, samplesPerBar)
    ensures |bars| == |s|
  {
    seq(|s|, k requires 0 <= k < |s| => Bar(s[k], samplesPerBar, render))
  }

  /** `np.concatenate`: the bars joined end to end; bars of equal width give width samples per bar. */
  function Concat(bars: seq<seq<real>>): (c: seq<real>)
    ensures bars != [] && (forall k :: 0 <= k < |bars| ==> |bars[k]| == |bars[0]|) ==> |c| == |bars[0]| * |bars|
  {
    if bars == [] then [] else bars[0] + Concat(bars[1..])
  }

  /** Bar `k` of equal-width bars occupies samples `k * width` up to `(k + 1) * width`. */
  lemma {:induction false} ConcatSlice(bars: seq<seq<real>>, width: nat, k: nat)
    requires forall k :: 0 <= k < |bars| ==> |bars[k]| == width
    requires k < |bars|
    ensures |Concat(bars)| == width * |bars|
    ensures k * width <= (k + 1) * width <= |Concat(bars)|
    ensures Concat(bars)[k * width..(k + 1) * width] == bars[k]
  {
    if k > 0 {
      var rest := Concat(bars[1..]);
      ConcatSlice(bars[1..], width, k - 1);
      ShiftByOneBar(k, width);
      AppendSlice(bars[0], rest, (k - 1) * width, k * width);
    } else {
      assert Concat(bars)[..width] == bars[0];
    }
  }

  lemma ShiftByOneBar(k: nat, width: nat)
    requires k > 0
    ensures k * width == width + (k - 1) * width && (k + 1) * width == width + k * width
  {
  }

  lemma AppendSlice(a: seq<real>, b: seq<real>, x: nat, y: nat)
    requires x <= y <= |b|
    ensures (a + b)[|a| + x..|a| + y] == b[x..y]
  {
  }

  // ---------------------------------------------------------------------------
  // The audio of a chord sequence
  // ---------------------------------------------------------------------------

  /**
   * The samples before conversion to int16: none when only rests remain,
   * otherwise `samplesPerBar` samples for every kept slot.
   */
  function ChordAudio(s: seq<Slot>, samplesPerBar: nat, render: seq<Notes.Note> -> seq<real>): (r: Option<seq<real>>)
    requires RendersBars(render, samplesPerBar)
    ensures r.None? <==> StripRests(s) == []
    ensures r.Some? ==> |r.value| == samplesPerBar * |StripRests(s)|
  {
    var kept := StripRests(s);
    if kept == [] then None else Some(Concat(Bars(kept, samplesPerBar, render)))
  }

  /** No audio exactly when every slot is a rest (or there are none). */
  lemma {:induction false} ChordAudioNone(s: seq<Slot>, samplesPerBar: nat, render: seq<Notes.Note> -> seq<real>)
    requires RendersBars(render, samplesPerBar)
    ensures ChordAudio(s, samplesPerBar, render).None? <==> forall i :: 0 <= i < |s| ==> s[i] == Rest
  {
    StripRestsEmpty(s);
  }

  /**
   * Kept slot `k` occupies samples `k * samplesPerBar` up to
   * `(k + 1) * samplesPerBar`: silence for a rest, the rendered chord otherwise.
   */
  lemma {:induction false} ChordAudioBar(s: seq<Slot>, samplesPerBar: nat, render: seq<Notes.Note> -> seq<real>, k: nat)
    requires RendersBars(render, samplesPerBar)
    requires k < |StripRests(s)|
    ensures ChordAudio(s, samplesPerBar, render).Some?
    ensures k * samplesPerBar <= (k + 1) * samplesPerBar <= |ChordAudio(s, samplesPerBar, render).value|
    ensures s[k] == Rest ==>
      ChordAudio(s, samplesPerBar, render).value[k * samplesPerBar..(k + 1) * samplesPerBar] == Silence(samplesPerBar)
    ensures s[k].Chord? ==>
      ChordAudio(s, samplesPerBar, render).value[k * samplesPerBar..(k + 1) * samplesPerBar] == render(s[k].notes)
  {
    var kept := StripRests(s);
    var bars := Bars(kept, samplesPerBar, render);
    assert kept[k] == s[k];
    assert bars[k] == Bar(s[k], samplesPerBar, render);
    ConcatSlice(bars, samplesPerBar, k);
  }

  /** `np.int16(samples * 32767)`, given as a function from a sample to its int16 value. */
  function Quantize(audio: seq<real>, toPcm: real -> Wav.Int16): (pcm: seq<Wav.Int16>)
    ensures |pcm| == |audio| && forall i :: 0 <= i < |audio| ==> pcm[i] == toPcm(audio[i])
  {
    seq(|audio|, i requires 0 <= i < |audio| => toPcm(audio[i]))
  }

  /** One bar of the loop over `chords`. */
  method RenderBar(slot: Slot, samplesPerBar: nat, render: seq<Notes.Note> -> seq<real>) returns (bar: seq<real>)
    requires RendersBars(render, samplesPerBar)
    ensures bar == Bar(slot, samplesPerBar, render)
  {
    if slot == Rest {
      bar := Silence(samplesPerBar);
    } else {
      bar := render(slot.notes);
    }
  }

  /**
   * `concatenate_chord_audio`: pops the trailing rests off the caller's list,
   * returns `None` when nothing is left, and otherwise writes the WAV file of
   * the bars joined in order.
   */
  method ConcatenateChordAudio(chords: SlotList, samplesPerBar: nat, sampleRate: int,
                               render: seq<Notes.Note> -> seq<real>, toPcm: real -> Wav.Int16)
    returns (wav: Option<Result<seq<Wav.Byte>, Wav.PackError>>)
    requires RendersBars(render, samplesPerBar)
    modifies chords
    ensures chords.slots == StripRests(old(chords.slots))
    ensures var audio := ChordAudio(old(chords.slots), samplesPerBar, render);
      wav == if audio.None? then None else Some(Wav.WavFile(Quantize(audio.value, toPcm), sampleRate))
  {
    TrimTrailingRests(chords);
    if chords.slots == [] {
      return None;
    }
    var kept := chords.slots;
    var allSamples: seq<seq<real>> := [];
    for i := 0 to |kept|
      invariant chords.slots == kept
      invariant allSamples == Bars(kept[..i], samplesPerBar, render)
    {
      var bar := RenderBar(kept[i], samplesPerBar, render);
      allSamples := allSamples + [bar];
    }
    assert kept[..|kept|] == kept;
    var finalAudio := Concat(allSamples);
    assert ChordAudio(old(chords.slots), samplesPerBar, render) == Some(finalAudio);
    var bytes := Wav.GenerateWavFile(Quantize(finalAudio, toPcm), sampleRate);
    return Some(bytes);
  }
}
