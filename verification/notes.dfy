/**
 * The `Note` class of harmonizer.py: a pitch class 0..11 with a signed octave.
 * A note's fields are fixed when it is built, so it is a value here; its name
 * is not stored but derived from the pitch class.
 */
module Notes {
  import opened Wrappers
  import opened Lists

  /** Canonical pitch-class names (sharps only), indexed by pitch class. */
  const NOTES: seq<string> := ["C", "C#", "D", "D#", "E", "F", "F#", "G", "G#", "A", "A#", "B"]

  type PitchClass = n: int | 0 <= n < 12

  datatype Note = Note(number: PitchClass, octave: int)

  /** What may be passed to the constructor: an int, a str, or any other Python value. */
  datatype NoteArg = IntArg(i: int) | StrArg(s: string) | OtherArg

  /** The two `ValueError`s the constructor raises. */
  datatype NoteError = InvalidName(name: string) | NotNameOrNumber

  /** The `name` attribute, always `NOTES[number]`. */
  function Name(n: Note): (s: string)
    ensures s in NOTES
  {
    NOTES[n.number]
  }

  /** `str.isdigit()`, restricted to ASCII digits: non-empty and all digits. */
  predicate IsDigits(s: string): (d: bool)
    ensures d ==> s !in NOTES
  {
    NamesStartWithLetter();
    |s| > 0 && forall k :: 0 <= k < |s| ==> '0' <= s[k] <= '9'
  }

  /** `int(s)` for a string of ASCII digits (leading zeros allowed). */
  function DigitsValue(s: string): (v: nat)
    requires forall k :: 0 <= k < |s| ==> '0' <= s[k] <= '9'
    ensures |s| > 0 ==> v % 10 == s[|s| - 1] as int - '0' as int
  {
    if s == [] then 0
    else 10 * DigitsValue(s[..|s| - 1]) + (s[|s| - 1] as int - '0' as int)
  }

  /** `str(n)` for a natural number: its decimal numeral without leading zeros. */
  function Decimal(n: nat): (s: string)
    ensures |s| > 0
    ensures forall k :: 0 <= k < |s| ==> '0' <= s[k] <= '9'
  {
    if n < 10 then [('0' as int + n) as char]
    else Decimal(n / 10) + [('0' as int + n % 10) as char]
  }

  /** Reading back a numeral gives the number it was written from. */
  lemma {:induction false} DecimalRoundTrip(n: nat)
    ensures IsDigits(Decimal(n)) && DigitsValue(Decimal(n)) == n
  {
    if n >= 10 {
      DecimalRoundTrip(n / 10);
      var s := Decimal(n);
      assert s[..|s| - 1] == Decimal(n / 10);
    }
  }

  /** `NOTES.index(s)`: the pitch class a note name stands for. */
  function PitchOf(s: string): (pc: PitchClass)
    requires s in NOTES
    ensures NOTES[pc] == s
  {
    FirstIndex(NOTES, s)
  }

  /**
   * `Note(name_or_number, octave)`. An int is wrapped modulo 12 (Python's `%`,
   * which agrees with Dafny's for the positive divisor 12); a digit string is
   * read as its int first; any other string must be one of `NOTES`, matched
   * case-sensitively; every other value is refused.
   */
  function NewNote(arg: NoteArg, octave: int): (r: Result<Note, NoteError>)
    ensures r.Success? <==> arg.IntArg? || (arg.StrArg? && (IsDigits(arg.s) || arg.s in NOTES))
    ensures r.Success? ==> r.value.octave == octave
    ensures arg.IntArg? ==> r.Success? && r.value.number == arg.i % 12
    ensures arg.StrArg? && IsDigits(arg.s) ==> r.Success? && r.value.number == DigitsValue(arg.s) % 12
    ensures arg.StrArg? && arg.s in NOTES ==> r.Success? && Name(r.value) == arg.s
    ensures r.Failure? && arg.StrArg? ==> r.error == InvalidName(arg.s)
    ensures r.Failure? && !arg.StrArg? ==> r.error == NotNameOrNumber
  {
    match arg
    case IntArg(i) => Success(Note(i % 12, octave))
    case StrArg(s) =>
      if IsDigits(s) then Success(Note(DigitsValue(s) % 12, octave))
      else if s in NOTES then Success(Note(PitchOf(s), octave))
      else Failure(InvalidName(s))
    case OtherArg => Failure(NotNameOrNumber)
  }

  /** A digit string builds the same note as the int it spells. */
  lemma DigitStringAsInt(n: nat, octave: int)
    ensures NewNote(StrArg(Decimal(n)), octave) == NewNote(IntArg(n), octave)
  {
    DecimalRoundTrip(n);
  }

  lemma NotesDistinct()
    ensures Distinct(NOTES)
  {
    forall i, j | 0 <= i < j < |NOTES| ensures NOTES[i] != NOTES[j] {
      if |NOTES[i]| == |NOTES[j]| {
        assert NOTES[i][0] != NOTES[j][0];
      }
    }
  }

  /**
   * Building from a pitch class's canonical name and from the pitch class itself
   * give the same note: name and number determine each other.
   */
  lemma {:induction false} NameRoundTrip(pc: PitchClass, octave: int)
    ensures NewNote(StrArg(NOTES[pc]), octave) == Success(Note(pc, octave))
    ensures NewNote(StrArg(NOTES[pc]), octave) == NewNote(IntArg(pc), octave)
  {
    IntRoundTrip(pc, octave);
    NameNotDigits(pc);
    NameIndex(pc);
    var name := NOTES[pc];
    var r := NewNote(StrArg(name), octave);
    assert r == Success(Note(PitchOf(name), octave));
  }

  lemma IntRoundTrip(pc: PitchClass, octave: int)
    ensures NewNote(IntArg(pc), octave) == Success(Note(pc, octave))
  {
  }

  lemma NamesStartWithLetter()
    ensures forall k :: 0 <= k < |NOTES| ==> |NOTES[k]| > 0 && 'A' <= NOTES[k][0] <= 'G'
  {
  }

  lemma NameNotDigits(pc: PitchClass)
    ensures !IsDigits(NOTES[pc])
  {
    NamesStartWithLetter();
    assert !('0' <= NOTES[pc][0] <= '9');
  }

  lemma NameIndex(pc: PitchClass)
    ensures FirstIndex(NOTES, NOTES[pc]) == pc
  {
    NotesDistinct();
    FirstIndexDistinct(NOTES, pc);
  }

  /** Lower-case names are refused: the match is case-sensitive. */
  lemma LowerCaseRefused(octave: int)
    ensures NewNote(StrArg("c"), octave) == Failure(InvalidName("c"))
    ensures NewNote(StrArg("f#"), octave) == Failure(InvalidName("f#"))
  {
    assert !IsDigits("c") by { assert !('0' <= "c"[0] <= '9'); }
    assert !IsDigits("f#") by { assert !('0' <= "f#"[0] <= '9'); }
    assert "c" !in NOTES by {
      forall k | 0 <= k < |NOTES| ensures NOTES[k] != "c" { assert NOTES[k][0] != 'c'; }
    }
    assert "f#" !in NOTES by {
      forall k | 0 <= k < |NOTES| ensures NOTES[k] != "f#" { assert NOTES[k][0] != 'f'; }
    }
  }

  /** `get_midi_number()`: semitones above pitch class 0 of octave 0. */
  function MidiNumber(n: Note): (m: int)
    ensures 12 * n.octave <= m < 12 * n.octave + 12
  {
    n.number + n.octave * 12
  }

  /**
   * The pitch class and the octave are recovered from the MIDI number by
   * Euclidean division, so distinct notes have distinct MIDI numbers.
   */
  lemma MidiNumberDecomposes(n: Note)
    ensures MidiNumber(n) / 12 == n.octave && MidiNumber(n) % 12 == n.number
  {
    var m := MidiNumber(n);
    assert m == n.octave * 12 + n.number;
  }

  /** `__eq__` between two notes: name, number and octave all agree. */
  predicate Equals(a: Note, b: Note): (eq: bool)
    ensures eq <==> a == b
    ensures eq <==> MidiNumber(a) == MidiNumber(b)
  {
    MidiNumberDecomposes(a);
    MidiNumberDecomposes(b);
    Name(a) == Name(b) && a.number == b.number && a.octave == b.octave
  }
}
