/**
 * The `Harmonizer` of harmonizer.py: it reads a list of pitch tokens into
 * notes, builds one basic chord per note by stacking every other note of the
 * list (read as a cyclic scale), and asks the voicer for the six named
 * voicings of each chord.
 */
module Harmony {
  import opened Wrappers
  import opened Lists
  import opened Notes
  import opened Voicer

  /** A harmonizer holds the notes it was built from; they never change afterwards. */
  datatype Harmonizer = Harmonizer(notes: seq<Note>)

  /** The `ValueError`s the harmonizer raises. */
  datatype HarmonyError =
    | EmptyNotes
    | BadNote(cause: NoteError)
    | ChordSizeTooSmall(size: int)
    | ChordSizeTooLarge(size: int, count: nat)
    | RootNotFound(root: Note)

  /** The six voicing styles of `_generate_voicings`, in catalogue order. */
  datatype Style = ClosePositionStyle | Drop2Style | DropTopStyle | RaiseBottomStyle | MinimalIntervalsStyle | SpreadStyle

  /** The display name paired with each style's voicing. */
  function StyleName(style: Style): string
  {
    match style
    case ClosePositionStyle => "Close Position"
    case Drop2Style => "Drop 2"
    case DropTopStyle => "Drop Top"
    case RaiseBottomStyle => "Raise Bottom"
    case MinimalIntervalsStyle => "Minimal Intervals"
    case SpreadStyle => "Spread"
  }

  /** Each display name belongs to one style only, so a name identifies its voicing. */
  lemma StyleNamesDistinct(a: Style, b: Style)
    ensures StyleName(a) == StyleName(b) ==> a == b
  {
  }

  /** One entry of a chord set: a voicing and its style, whose display name is `StyleName(style)`. */
  datatype Labelled = Labelled(style: Style, voicing: Voicing)

  type ChordSet = seq<Labelled>

  // ---------------------------------------------------------------------------
  // Construction
  // ---------------------------------------------------------------------------

  /**
   * `[Note(note) for note in notes]`: every token read as a note in octave 0;
   * the first token the note constructor refuses raises its error.
   */
  function MakeNotes(args: seq<NoteArg>): (r: Result<seq<Note>, NoteError>)
    ensures r.Success? <==> forall i :: 0 <= i < |args| ==> NewNote(args[i], 0).Success?
    ensures r.Success? ==> (|r.value| == |args|
      && forall i :: 0 <= i < |args| ==> NewNote(args[i], 0) == Success(r.value[i]))
  {
    if args == [] then Success([])
    else
      match NewNote(args[0], 0)
      case Failure(e) => Failure(e)
      case Success(n) =>
        match MakeNotes(args[1..])
        case Failure(e) => Failure(e)
        case Success(rest) => Success([n] + rest)
  }

  /** The error raised is that of the first token the note constructor refuses. */
  lemma {:induction false} MakeNotesFirstError(args: seq<NoteArg>)
    requires MakeNotes(args).Failure?
    ensures exists i :: (0 <= i < |args| && NewNote(args[i], 0) == Failure(MakeNotes(args).error)
      && forall k :: 0 <= k < i ==> NewNote(args[k], 0).Success?)
  {
    if NewNote(args[0], 0).Success? {
      MakeNotesFirstError(args[1..]);
      var i :| 0 <= i < |args| - 1 && NewNote(args[1..][i], 0) == Failure(MakeNotes(args[1..]).error)
        && forall k :: 0 <= k < i ==> NewNote(args[1..][k], 0).Success?;
      assert NewNote(args[i + 1], 0) == Failure(MakeNotes(args).error);
      assert forall k :: 0 <= k < i + 1 ==> NewNote(args[k], 0).Success? by {
        forall k | 0 <= k < i + 1 ensures NewNote(args[k], 0).Success? {
          if k > 0 {
            assert args[k] == args[1..][k - 1];
          }
        }
      }
    } else {
      assert NewNote(args[0], 0) == Failure(MakeNotes(args).error);
    }
  }

  /** `Harmonizer(notes)`: an empty list is refused, and so is any token that is not a note. */
  function NewHarmonizer(args: seq<NoteArg>): (r: Result<Harmonizer, HarmonyError>)
    ensures args == [] ==> r == Failure(EmptyNotes)
    ensures args != [] ==> (r.Success? <==> MakeNotes(args).Success?)
    ensures r.Success? ==> |r.value.notes| == |args| > 0
    ensures r.Failure? && args != [] ==> r.error == BadNote(MakeNotes(args).error)
  {
    if args == [] then Failure(EmptyNotes)
    else
      match MakeNotes(args)
      case Failure(e) => Failure(BadNote(e))
      case Success(notes) => Success(Harmonizer(notes))
  }

  /** Every note of a harmonizer sits in octave 0, whatever the tokens were. */
  lemma HarmonizerNotesInOctaveZero(args: seq<NoteArg>)
    requires NewHarmonizer(args).Success?
    ensures forall i :: 0 <= i < |args| ==> NewHarmonizer(args).value.notes[i].octave == 0
  {
    var notes := NewHarmonizer(args).value.notes;
    forall i | 0 <= i < |args| ensures notes[i].octave == 0 {
      assert NewNote(args[i], 0) == Success(notes[i]);
    }
  }

  /** A name token and the pitch-class number it names give the same harmonizer. */
  lemma NamesAndNumbersAgree(names: seq<PitchClass>)
    ensures NewHarmonizer(seq(|names|, i requires 0 <= i < |names| => StrArg(NOTES[names[i]])))
         == NewHarmonizer(seq(|names|, i requires 0 <= i < |names| => IntArg(names[i])))
  {
    var byName := seq(|names|, i requires 0 <= i < |names| => StrArg(NOTES[names[i]]));
    var byNumber := seq(|names|, i requires 0 <= i < |names| => IntArg(names[i]));
    forall i | 0 <= i < |names| ensures NewNote(byName[i], 0) == NewNote(byNumber[i], 0) {
      NameRoundTrip(names[i], 0);
    }
    MakeNotesAgree(byName, byNumber);
  }

  lemma {:induction false} MakeNotesAgree(a: seq<NoteArg>, b: seq<NoteArg>)
    requires |a| == |b|
    requires forall i :: 0 <= i < |a| ==> NewNote(a[i], 0) == NewNote(b[i], 0)
    ensures MakeNotes(a) == MakeNotes(b)
  {
    if a != [] {
      MakeNotesAgree(a[1..], b[1..]);
    }
  }

  // ---------------------------------------------------------------------------
  // Basic chords
  // ---------------------------------------------------------------------------

  /**
   * The chord stacked on `root`: from the first position of `root` in the list,
   * every other note, wrapping around the end of the list, until `size` notes.
   */
  function Stack(notes: seq<Note>, root: Note, size: nat): (chord: seq<Note>)
    requires root in notes
    ensures |chord| == size
    ensures size > 0 ==> chord[0] == root
    ensures forall j :: 0 <= j < size ==> chord[j] in notes
  {
    var start, n := FirstIndex(notes, root), |notes|;
    assert (start + 2 * 0) % n == start;
    seq(size, j requires 0 <= j < size => notes[(start + 2 * j) % n])
  }

  /**
   * `_build_chord`: no chord from an empty list or for a size below 1; a root
   * not in the list is refused; otherwise the stacked chord.
   */
  function BasicChord(notes: seq<Note>, root: Note, size: int): (r: Result<seq<Note>, HarmonyError>)
    ensures notes == [] || size < 1 ==> r == Success([])
    ensures notes != [] && size >= 1 ==> (r.Success? <==> root in notes)
    ensures r.Failure? ==> r.error == RootNotFound(root)
    ensures r.Success? && notes != [] && size >= 1 ==> |r.value| == size && r.value[0] == root
  {
    if notes == [] || size < 1 then Success([])
    else if root !in notes then Failure(RootNotFound(root))
    else Success(Stack(notes, root, size))
  }

  /** `_build_chord`, as the source computes it: an index advanced by two per chord member. */
  method BuildChord(h: Harmonizer, root: Note, size: int) returns (r: Result<seq<Note>, HarmonyError>)
    ensures r == BasicChord(h.notes, root, size)
  {
    if h.notes == [] || size < 1 {
      return Success([]);
    }
    if root !in h.notes {
      return Failure(RootNotFound(root));
    }
    var chord: seq<Note> := [];
    var start := FirstIndex(h.notes, root);
    var index := start;
    while |chord| < size
      invariant |chord| <= size
      invariant index == start + 2 * |chord|
      invariant chord == Stack(h.notes, root, size)[..|chord|]
      decreases size - |chord|
    {
      chord := chord + [h.notes[index % |h.notes|]];
      index := index + 2;
    }
    ghost var whole := Stack(h.notes, root, size);
    assert chord == whole[..size] == whole;
    return Success(chord);
  }

  /** When `notes[i]` has no earlier occurrence, member `j` of the chord on it is `notes[(i + 2j) % n]`. */
  lemma StackFrom(notes: seq<Note>, i: nat, size: nat)
    requires i < |notes| && forall k :: 0 <= k < i ==> notes[k] != notes[i]
    ensures forall j :: 0 <= j < size ==> Stack(notes, notes[i], size)[j] == notes[(i + 2 * j) % |notes|]
  {
    assert FirstIndex(notes, notes[i]) == i;
  }

  /** In a list without repeated notes, every note is its own first occurrence. */
  lemma StackOnDistinct(notes: seq<Note>, i: nat, size: nat)
    requires Distinct(notes) && i < |notes|
    ensures forall j :: 0 <= j < size ==> Stack(notes, notes[i], size)[j] == notes[(i + 2 * j) % |notes|]
  {
    StackFrom(notes, i, size);
  }

  /** A triad skips one note of the list between consecutive members, wrapping round at the end. */
  lemma TriadFrom(notes: seq<Note>, i: nat)
    requires i < |notes| && forall k :: 0 <= k < i ==> notes[k] != notes[i]
    ensures Stack(notes, notes[i], 3) == [notes[i], notes[(i + 2) % |notes|], notes[(i + 4) % |notes|]]
  {
    StackFrom(notes, i, 3);
  }

  /** The C major scale, octave 0, as `Harmonizer(["C", "D", "E", "F", "G", "A", "B"])` builds it. */
  const C_MAJOR: seq<Note> := [Note(0, 0), Note(2, 0), Note(4, 0), Note(5, 0), Note(7, 0), Note(9, 0), Note(11, 0)]

  /** Over the C major scale the triad on C is C, E, G. */
  lemma TriadOnC()
    ensures Stack(C_MAJOR, Note(0, 0), 3) == [Note(0, 0), Note(4, 0), Note(7, 0)]
  {
    TriadFrom(C_MAJOR, 0);
    assert C_MAJOR[(0 + 2) % |C_MAJOR|] == C_MAJOR[2] && C_MAJOR[(0 + 4) % |C_MAJOR|] == C_MAJOR[4];
  }

  /** Over the C major scale the triad on B wraps round to B, D, F. */
  lemma TriadOnB()
    ensures Stack(C_MAJOR, Note(11, 0), 3) == [Note(11, 0), Note(2, 0), Note(5, 0)]
  {
    TriadFrom(C_MAJOR, 6);
  }

  /**
   * With a repeated note the chord starts from its first occurrence, so
   * repeated roots give repeated chords.
   */
  lemma RepeatedRootsShareChords(notes: seq<Note>, i: nat, k: nat, size: nat)
    requires i < k < |notes| && notes[i] == notes[k]
    ensures Stack(notes, notes[k], size) == Stack(notes, notes[i], size)
  {
  }

  // ---------------------------------------------------------------------------
  // Voicings and harmonization
  // ---------------------------------------------------------------------------

  /** `_generate_voicings`: the six named voicings of a chord, in catalogue order. */
  function VoicingsOf(c: seq<Note>): (vs: ChordSet)
    ensures |vs| == 6
    ensures vs[0].style == ClosePositionStyle && vs[1].style == Drop2Style && vs[2].style == DropTopStyle
    ensures vs[3].style == RaiseBottomStyle && vs[4].style == MinimalIntervalsStyle && vs[5].style == SpreadStyle
    ensures forall k :: 0 <= k < 6 ==> SamePitchClasses(c, vs[k].voicing)
  {
    var close, drop2, dropTop := CloseVoicing(c), Drop2(c), DropTop(c);
    var raiseBottom, minimal, spread := RaiseBottom(c), MinimalVoicing(c), SpreadVoicing(c);
    [ Labelled(ClosePositionStyle, close),
      Labelled(Drop2Style, drop2),
      Labelled(DropTopStyle, dropTop),
      Labelled(RaiseBottomStyle, raiseBottom),
      Labelled(MinimalIntervalsStyle, minimal),
      Labelled(SpreadStyle, spread) ]
  }

  /** `_generate_voicings`, as the source computes it: the loop-based voicings run as methods. */
  method GenerateVoicings(c: seq<Note>) returns (vs: ChordSet)
    ensures vs == VoicingsOf(c)
  {
    var close := ClosePosition(c);
    var minimal := MinimalIntervals(c);
    var spread := Spread(c);
    vs := [ Labelled(ClosePositionStyle, close),
            Labelled(Drop2Style, Drop2(c)),
            Labelled(DropTopStyle, DropTop(c)),
            Labelled(RaiseBottomStyle, RaiseBottom(c)),
            Labelled(MinimalIntervalsStyle, minimal),
            Labelled(SpreadStyle, spread) ];
  }

  /**
   * `harmonize`: a chord size below 2, or above the number of notes (counted
   * with repeats), is refused; otherwise one chord set per note, in input
   * order, each the voicings of the chord stacked on that note.
   */
  function Harmonization(h: Harmonizer, chordSize: int): (r: Result<seq<ChordSet>, HarmonyError>)
    ensures chordSize < 2 ==> r == Failure(ChordSizeTooSmall(chordSize))
    ensures 2 <= chordSize && chordSize > |h.notes| ==> r == Failure(ChordSizeTooLarge(chordSize, |h.notes|))
    ensures r.Success? <==> 2 <= chordSize <= |h.notes|
    ensures r.Success? ==> |r.value| == |h.notes|
  {
    if chordSize < 2 then Failure(ChordSizeTooSmall(chordSize))
    else if chordSize > |h.notes| then Failure(ChordSizeTooLarge(chordSize, |h.notes|))
    else Success(seq(|h.notes|, i requires 0 <= i < |h.notes| => VoicingsOf(Stack(h.notes, h.notes[i], chordSize))))
  }

  /** The chord on the `i`-th note of the harmonizer, then its voicings. */
  method ChordSetOn(h: Harmonizer, i: nat, chordSize: int) returns (vs: ChordSet)
    requires i < |h.notes| && 2 <= chordSize <= |h.notes|
    ensures vs == Harmonization(h, chordSize).value[i]
  {
    var root := h.notes[i];
    var basic := BuildChord(h, root, chordSize);
    assert basic == Success(Stack(h.notes, root, chordSize));
    vs := GenerateVoicings(basic.value);
  }

  /** One pass of the loop in `harmonize`: the chord set on the `i`-th note, appended. */
  method AppendChordSet(h: Harmonizer, chordSets: seq<ChordSet>, i: nat, chordSize: int) returns (next: seq<ChordSet>)
    requires i < |h.notes| && 2 <= chordSize <= |h.notes|
    requires chordSets == Harmonization(h, chordSize).value[..i]
    ensures next == Harmonization(h, chordSize).value[..i + 1]
  {
    var vs := ChordSetOn(h, i, chordSize);
    PrefixExtend(Harmonization(h, chordSize).value, i);
    next := chordSets + [vs];
  }

  /** `harmonize`, as the source computes it: one `_build_chord` and `_generate_voicings` per root. */
  method Harmonize(h: Harmonizer, chordSize: int) returns (r: Result<seq<ChordSet>, HarmonyError>)
    ensures r == Harmonization(h, chordSize)
  {
    if chordSize < 2 {
      return Failure(ChordSizeTooSmall(chordSize));
    }
    if chordSize > |h.notes| {
      return Failure(ChordSizeTooLarge(chordSize, |h.notes|));
    }
    ghost var expected := Harmonization(h, chordSize).value;
    var chordSets: seq<ChordSet> := [];
    for i := 0 to |h.notes|
      invariant chordSets == expected[..i]
    {
      chordSets := AppendChordSet(h, chordSets, i, chordSize);
    }
    assert chordSets == expected;
    return Success(chordSets);
  }

  /**
   * Every chord set holds six voicings of `chordSize` notes whose bottom note
   * has the pitch class of its root, and whose pitch classes are those of the
   * chord stacked on that root.
   */
  lemma HarmonizationShape(h: Harmonizer, chordSize: int, i: nat)
    requires Harmonization(h, chordSize).Success? && i < |h.notes|
    ensures var chordSet := Harmonization(h, chordSize).value[i];
      |chordSet| == 6
      && forall k :: 0 <= k < 6 ==>
           |chordSet[k].voicing| == chordSize && chordSet[k].voicing[0].number == h.notes[i].number
           && SamePitchClasses(Stack(h.notes, h.notes[i], chordSize), chordSet[k].voicing)
  {
    var chord := Stack(h.notes, h.notes[i], chordSize);
    assert chord[0] == h.notes[i];
  }

  /** Three notes can be harmonized in triads, but not in four-note chords. */
  lemma ChordSizeBoundary(h: Harmonizer)
    requires |h.notes| == 3
    ensures Harmonization(h, 3).Success?
    ensures Harmonization(h, 4) == Failure(ChordSizeTooLarge(4, 3))
  {
  }
}
