/**
 * The `Voicer` of harmonizer.py: octave re-arrangements of a chord. Each
 * transform is given by a specification function on sequences of notes; the
 * three transforms the source writes as loops (close position, spread and
 * minimal intervals, with its interval total) are also given as methods that
 * follow the source's loops and are proved to compute those functions.
 */
module Voicer {
  import opened Wrappers
  import opened Notes

  type Voicing = seq<Note>

  /** Two note lists of the same length whose pitch classes agree position by position. */
  predicate SamePitchClasses(a: seq<Note>, b: seq<Note>)
  {
    |a| == |b| && forall i :: 0 <= i < |a| ==> a[i].number == b[i].number
  }

  function Abs(x: int): nat
  {
    if x < 0 then -x else x
  }

  // ---------------------------------------------------------------------------
  // Close position
  // ---------------------------------------------------------------------------

  /** The interval, in semitones, from note i - 1 up to note i. */
  function Rise(v: Voicing, i: nat): int
    requires 0 < i < |v|
  {
    MidiNumber(v[i]) - MidiNumber(v[i - 1])
  }

  /** Each note is at or above the one before it, by less than an octave. */
  ghost predicate RisesWithinOctave(v: Voicing)
  {
    forall i :: 0 < i < |v| ==> 0 <= Rise(v, i) < 12
  }

  /** The number of positions k in 1..i where the pitch class falls below its predecessor's. */
  function Descents(c: seq<Note>, i: nat): (d: nat)
    requires i < |c|
    ensures d <= i
  {
    if i == 0 then 0
    else Descents(c, i - 1) + (if c[i].number < c[i - 1].number then 1 else 0)
  }

  /**
   * `close_position`, in closed form: note i sits in the octave given by the
   * number of pitch-class descents up to i. Its contract is the source's loop:
   * the root goes to octave 0 and each later note keeps the running octave,
   * one higher when its pitch class is below the previous one, so every step
   * rises by less than an octave.
   */
  function CloseVoicing(c: seq<Note>): (v: Voicing)
    ensures SamePitchClasses(c, v)
    ensures |v| > 0 ==> v[0].octave == 0
    ensures RisesWithinOctave(v)
  {
    seq(|c|, i requires 0 <= i < |c| => Note(c[i].number, Descents(c, i)))
  }

  /**
   * The running octave of the source's loop: each note after the root keeps the
   * previous note's octave, one higher when its pitch class is below the previous one.
   */
  lemma CloseOctaveStep(c: seq<Note>, i: nat)
    requires 0 < i < |c|
    ensures CloseVoicing(c)[i].octave ==
      CloseVoicing(c)[i - 1].octave + (if c[i].number < c[i - 1].number then 1 else 0)
  {
  }

  /** `close_position`, as the source computes it: a running current note and an append per chord member. */
  method ClosePosition(c: seq<Note>) returns (v: Voicing)
    ensures v == CloseVoicing(c)
  {
    if c == [] {
      return [];
    }
    ghost var w := CloseVoicing(c);
    v := [Note(c[0].number, 0)];
    var current := v[0];
    for k := 1 to |c|
      invariant |v| == k && v == w[..k]
      invariant current == v[k - 1]
    {
      CloseOctaveStep(c, k);
      assert w[..k + 1] == w[..k] + [w[k]];
      var newOctave := current.octave;
      if c[k].number < current.number {
        newOctave := newOctave + 1;
      }
      var newNote := Note(c[k].number, newOctave);
      current := newNote;
      v := v + [newNote];
    }
  }

  /** Absolute pitch never falls along a close-position voicing. */
  lemma {:induction false} CloseNonDecreasing(c: seq<Note>, i: nat, j: nat)
    requires i <= j < |c|
    ensures MidiNumber(CloseVoicing(c)[i]) <= MidiNumber(CloseVoicing(c)[j])
  {
    if i < j {
      CloseNonDecreasing(c, i, j - 1);
    }
  }

  /**
   * Close position is the only voicing of the chord's pitch classes that puts the
   * root in octave 0 and rises by less than an octave at every step.
   */
  lemma {:induction false} CloseUnique(c: seq<Note>, v: Voicing)
    requires SamePitchClasses(c, v)
    requires |v| > 0 ==> v[0].octave == 0
    requires RisesWithinOctave(v)
    ensures v == CloseVoicing(c)
  {
    var w := CloseVoicing(c);
    forall i | 0 <= i < |v| ensures v[i] == w[i] {
      CloseUniqueAt(c, v, i);
    }
  }

  lemma {:induction false} CloseUniqueAt(c: seq<Note>, v: Voicing, i: nat)
    requires SamePitchClasses(c, v)
    requires |v| > 0 ==> v[0].octave == 0
    requires RisesWithinOctave(v)
    requires i < |v|
    ensures v[i] == CloseVoicing(c)[i]
  {
    var w := CloseVoicing(c);
    if i > 0 {
      CloseUniqueAt(c, v, i - 1);
      assert 0 <= Rise(v, i) < 12;
      assert 0 <= Rise(w, i) < 12;
    }
  }

  // ---------------------------------------------------------------------------
  // Single-note octave moves: drop 2, drop top, raise bottom
  // ---------------------------------------------------------------------------

  /** `v` is `base` with only the note at `idx` moved by `delta` octaves. */
  predicate OctaveMovedAt(base: Voicing, v: Voicing, idx: nat, delta: int)
  {
    |v| == |base| && idx < |base|
    && v[idx] == Note(base[idx].number, base[idx].octave + delta)
    && forall k :: 0 <= k < |base| && k != idx ==> v[k] == base[k]
  }

  /**
   * `drop_2`: the close voicing with the second-highest voice an octave lower,
   * which lands it below its lower neighbour; close position itself for fewer
   * than three notes.
   */
  function Drop2(c: seq<Note>): (v: Voicing)
    ensures |c| < 3 ==> v == CloseVoicing(c)
    ensures |c| >= 3 ==> OctaveMovedAt(CloseVoicing(c), v, |c| - 2, -1)
    ensures |c| >= 3 ==> MidiNumber(v[|c| - 2]) < MidiNumber(v[|c| - 3])
    ensures SamePitchClasses(c, v)
  {
    var close := CloseVoicing(c);
    if |c| < 3 then close
    else close[|c| - 2 := Note(close[|c| - 2].number, close[|c| - 2].octave - 1)]
  }

  /**
   * `drop_top`: the close voicing with the top voice an octave lower, which lands
   * it below the voice under it; close position itself for fewer than two notes.
   */
  function DropTop(c: seq<Note>): (v: Voicing)
    ensures |c| < 2 ==> v == CloseVoicing(c)
    ensures |c| >= 2 ==> OctaveMovedAt(CloseVoicing(c), v, |c| - 1, -1)
    ensures |c| >= 2 ==> MidiNumber(v[|c| - 1]) < MidiNumber(v[|c| - 2])
    ensures SamePitchClasses(c, v)
  {
    var close := CloseVoicing(c);
    if |c| < 2 then close
    else close[|c| - 1 := Note(close[|c| - 1].number, close[|c| - 1].octave - 1)]
  }

  /**
   * `raise_bottom`: the close voicing with the root an octave higher, which lands
   * it above the second voice; close position itself for fewer than two notes.
   */
  function RaiseBottom(c: seq<Note>): (v: Voicing)
    ensures |c| < 2 ==> v == CloseVoicing(c)
    ensures |c| >= 2 ==> OctaveMovedAt(CloseVoicing(c), v, 0, 1)
    ensures |c| >= 2 ==> MidiNumber(v[0]) > MidiNumber(v[1])
    ensures SamePitchClasses(c, v)
  {
    var close := CloseVoicing(c);
    if |c| < 2 then close
    else close[0 := Note(close[0].number, close[0].octave + 1)]
  }

  /** C E G B in close position is 0 4 7 11; drop 2 turns it into 0 4 -5 11. */
  lemma Drop2Example(c: seq<Note>)
    requires c == [Note(0, 0), Note(4, 0), Note(7, 0), Note(11, 0)]
    ensures Drop2(c) == [Note(0, 0), Note(4, 0), Note(7, -1), Note(11, 0)]
  {
    assert Descents(c, 1) == 0;
    assert Descents(c, 2) == 0;
    assert Descents(c, 3) == 0;
    assert CloseVoicing(c) == c;
  }

  // ---------------------------------------------------------------------------
  // Spread and octave shift
  // ---------------------------------------------------------------------------

  /**
   * `spread`: note i placed in octave i whatever its pitch class, so each voice
   * is strictly above the previous one, by less than two octaves.
   */
  function SpreadVoicing(c: seq<Note>): (v: Voicing)
    ensures SamePitchClasses(c, v)
    ensures forall i :: 0 <= i < |v| ==> v[i].octave == i
    ensures forall i :: 0 < i < |v| ==> 0 < Rise(v, i) < 24
  {
    seq(|c|, i requires 0 <= i < |c| => Note(c[i].number, i))
  }

  /** `spread`, as the source computes it: the root, then one append per later note. */
  method Spread(c: seq<Note>) returns (v: Voicing)
    ensures v == SpreadVoicing(c)
  {
    if c == [] {
      return [];
    }
    v := [Note(c[0].number, 0)];
    for i := 1 to |c|
      invariant v == SpreadVoicing(c)[..i]
    {
      v := v + [Note(c[i].number, i)];
    }
  }

  /** `shift_octave(v, k)`: every note moved by `k` octaves, so every absolute pitch by 12k. */
  function ShiftOctave(v: Voicing, k: int): (r: Voicing)
    ensures SamePitchClasses(v, r)
    ensures forall i :: 0 <= i < |r| ==> r[i].octave == v[i].octave + k
    ensures forall i :: 0 <= i < |r| ==> MidiNumber(r[i]) == MidiNumber(v[i]) + 12 * k
  {
    seq(|v|, i requires 0 <= i < |v| => Note(v[i].number, v[i].octave + k))
  }

  /** Shifting back by the opposite amount restores the voicing. */
  lemma ShiftOctaveRoundTrip(v: Voicing, k: int)
    ensures ShiftOctave(ShiftOctave(v, k), -k) == v
  {
  }

  /** Shifts compose by adding their amounts. */
  lemma ShiftOctaveCompose(v: Voicing, j: int, k: int)
    ensures ShiftOctave(ShiftOctave(v, j), k) == ShiftOctave(v, j + k)
  {
  }

  // ---------------------------------------------------------------------------
  // Minimal intervals
  // ---------------------------------------------------------------------------

  /** The sum of the absolute MIDI distances over the first `n` neighbouring pairs of `v`. */
  function IntervalSum(v: Voicing, n: nat): (t: nat)
    requires n < |v|
    ensures t >= Abs(MidiNumber(v[n]) - MidiNumber(v[0]))
  {
    if n == 0 then 0 else IntervalSum(v, n - 1) + Abs(Rise(v, n))
  }

  /** `calculate_total_intervals`: the sum of absolute MIDI distances between neighbours. */
  function IntervalTotal(v: Voicing): (t: nat)
    ensures |v| > 0 ==> t >= Abs(MidiNumber(v[|v| - 1]) - MidiNumber(v[0]))
  {
    if |v| == 0 then 0 else IntervalSum(v, |v| - 1)
  }

  /** `calculate_total_intervals`, as the source computes it: one accumulating pass. */
  method CalculateTotalIntervals(v: Voicing) returns (total: int)
    ensures total == IntervalTotal(v)
  {
    total := 0;
    var i := 0;
    while i + 1 < |v|
      invariant |v| == 0 ==> i == 0 && total == 0
      invariant |v| > 0 ==> i < |v| && total == IntervalSum(v, i)
    {
      var interval := Abs(MidiNumber(v[i + 1]) - MidiNumber(v[i]));
      total := total + interval;
      i := i + 1;
    }
  }

  /** Along a voicing that never falls, the interval total is the distance from bottom to top. */
  lemma IntervalTotalOfRising(v: Voicing)
    requires |v| > 0
    requires forall i :: 0 < i < |v| ==> 0 <= Rise(v, i)
    ensures IntervalTotal(v) == MidiNumber(v[|v| - 1]) - MidiNumber(v[0])
  {
    IntervalSumOfRising(v, |v| - 1);
  }

  lemma {:induction false} IntervalSumOfRising(v: Voicing, n: nat)
    requires n < |v|
    requires forall i :: 0 < i < |v| ==> 0 <= Rise(v, i)
    ensures IntervalSum(v, n) == MidiNumber(v[n]) - MidiNumber(v[0])
  {
    if n > 0 {
      IntervalSumOfRising(v, n - 1);
      assert 0 <= Rise(v, n);
    }
  }

  /** Moving every note by the same number of octaves leaves the interval total unchanged. */
  lemma IntervalTotalShift(v: Voicing, k: int)
    ensures IntervalTotal(ShiftOctave(v, k)) == IntervalTotal(v)
  {
    if |v| > 0 {
      IntervalSumShift(v, k, |v| - 1);
    }
  }

  lemma {:induction false} IntervalSumShift(v: Voicing, k: int, n: nat)
    requires n < |v|
    ensures IntervalSum(ShiftOctave(v, k), n) == IntervalSum(v, n)
  {
    if n > 0 {
      IntervalSumShift(v, k, n - 1);
      assert Rise(ShiftOctave(v, k), n) == Rise(v, n);
    }
  }

  /** The voicing with the note at `i` raised one octave (the source's "move up" step). */
  function RaiseAt(base: Voicing, i: nat): Voicing
    requires i < |base|
  {
    base[i := Note(base[i].number, base[i].octave + 1)]
  }

  /** The voicing with the note at `i` lowered one octave (the source's "move down" step). */
  function LowerAt(base: Voicing, i: nat): Voicing
    requires i < |base|
  {
    base[i := Note(base[i].number, base[i].octave - 1)]
  }

  /**
   * The j-th voicing the source scores: for note j/2, first the raised copy, then
   * the "move down" copy, which the source lowers from the raised copy and so is
   * the base voicing itself.
   */
  function Candidate(base: Voicing, j: nat): Voicing
    requires j < 2 * |base|
  {
    var up := RaiseAt(base, j / 2);
    if j % 2 == 0 then up else LowerAt(up, j / 2)
  }

  /** The best voicing scored so far, its interval total, and its position in scoring order. */
  datatype Scored = Scored(voicing: Voicing, total: nat, index: nat)

  /**
   * One scoring step of the source's loop: the candidate replaces the best so
   * far when there is none yet (`min_total` still infinite) or when its total
   * is strictly smaller.
   */
  function Keep(best: Option<Scored>, cand: Voicing, index: nat): (r: Option<Scored>)
    ensures r == best || r == Some(Scored(cand, IntervalTotal(cand), index))
    ensures r == best <==> best.Some? && best.value.total <= IntervalTotal(cand)
    ensures r.Some? && r.value.total <= IntervalTotal(cand)
    ensures best.Some? ==> r.value.total <= best.value.total
  {
    var t := IntervalTotal(cand);
    if best.None? || t < best.value.total then Some(Scored(cand, t, index)) else best
  }

  /** The state of the source's loop once the candidates of the first `m` notes are scored. */
  function MinScan(base: Voicing, m: nat): (r: Option<Scored>)
    requires m <= |base|
    ensures r.Some? <==> m > 0
    ensures m > 0 ==> r.value.index < 2 * m && |r.value.voicing| == |base|
  {
    if m == 0 then None
    else
      var up := RaiseAt(base, m - 1);
      Keep(Keep(MinScan(base, m - 1), up, 2 * (m - 1)), LowerAt(up, m - 1), 2 * (m - 1) + 1)
  }

  /** The raised copy of note `i` is candidate `2i`. */
  lemma CandidateOfRaised(base: Voicing, i: nat)
    requires i < |base|
    ensures Candidate(base, 2 * i) == RaiseAt(base, i)
  {
    assert (2 * i) / 2 == i && (2 * i) % 2 == 0;
  }

  /** The "move down" copy of note `i` is candidate `2i + 1`, and it is the base voicing itself. */
  lemma CandidateOfLowered(base: Voicing, i: nat)
    requires i < |base|
    ensures Candidate(base, 2 * i + 1) == LowerAt(RaiseAt(base, i), i) == base
  {
    assert (2 * i + 1) / 2 == i && (2 * i + 1) % 2 == 1;
  }

  /** After `m` notes the loop holds candidate number `index`, scored with its true total. */
  lemma {:induction false} MinScanHoldsCandidate(base: Voicing, m: nat)
    requires 0 < m <= |base|
    ensures var s := MinScan(base, m).value;
      s.voicing == Candidate(base, s.index) && s.total == IntervalTotal(s.voicing)
  {
    CandidateOfRaised(base, m - 1);
    CandidateOfLowered(base, m - 1);
    if m > 1 {
      MinScanHoldsCandidate(base, m - 1);
    }
  }

  /** No candidate of the first `m` notes, raised or "moved down", scores below the one the loop holds. */
  lemma {:induction false} MinScanIsMinimum(base: Voicing, m: nat)
    requires 0 < m <= |base|
    ensures var s := MinScan(base, m).value;
      forall i :: 0 <= i < m ==>
        s.total <= IntervalTotal(RaiseAt(base, i)) && s.total <= IntervalTotal(LowerAt(RaiseAt(base, i), i))
  {
    if m > 1 {
      MinScanIsMinimum(base, m - 1);
    }
  }

  /** Ties go to the candidate scored first: every candidate scored before the one held has a strictly larger total. */
  lemma {:induction false} MinScanIsFirst(base: Voicing, m: nat)
    requires 0 < m <= |base|
    ensures var s := MinScan(base, m).value;
      (forall i :: 0 <= i < m && 2 * i < s.index ==> IntervalTotal(RaiseAt(base, i)) > s.total)
      && (forall i :: 0 <= i < m && 2 * i + 1 < s.index ==> IntervalTotal(LowerAt(RaiseAt(base, i), i)) > s.total)
  {
    if m > 1 {
      MinScanIsFirst(base, m - 1);
      MinScanIsMinimum(base, m - 1);
    }
  }

  /** Every candidate keeps the pitch classes of the base voicing, so the one the loop holds does too. */
  lemma {:induction false} MinScanKeepsPitchClasses(base: Voicing, m: nat)
    requires 0 < m <= |base|
    ensures SamePitchClasses(base, MinScan(base, m).value.voicing)
  {
    if m > 1 {
      MinScanKeepsPitchClasses(base, m - 1);
    }
  }

  /** Scoring the candidates of note `i` takes the loop from its state after `i` notes to its state after `i + 1`. */
  lemma MinScanStep(base: Voicing, i: nat)
    requires i < |base|
    ensures MinScan(base, i + 1) ==
      Keep(Keep(MinScan(base, i), RaiseAt(base, i), 2 * i), LowerAt(RaiseAt(base, i), i), 2 * i + 1)
  {
  }

  /**
   * The voicing the scan over all octave moves of `base` returns: the first
   * best-scoring candidate, or `base` itself when nothing was scored.
   */
  function BestOctaveMove(base: Voicing): (v: Voicing)
    ensures SamePitchClasses(base, v)
  {
    if |base| == 0 then base
    else
      MinScanKeepsPitchClasses(base, |base|);
      MinScan(base, |base|).value.voicing
  }

  /**
   * `minimal_intervals`: close position for fewer than two notes, otherwise the
   * best octave move around the close voicing.
   */
  function MinimalVoicing(c: seq<Note>): (v: Voicing)
    ensures SamePitchClasses(c, v)
    ensures |c| < 2 ==> v == CloseVoicing(c)
  {
    var base := CloseVoicing(c);
    if |c| < 2 then base else BestOctaveMove(base)
  }

  /** `minimal_intervals`, as the source computes it. */
  method MinimalIntervals(c: seq<Note>) returns (v: Voicing)
    ensures v == MinimalVoicing(c)
  {
    if |c| < 2 {
      v := ClosePosition(c);
      return;
    }
    var base := ClosePosition(c);
    v := ScanOctaveMoves(base);
  }

  /**
   * The loop of `minimal_intervals` over the close voicing `base`, with `None`
   * standing for an infinite `min_total`: each note is tried one octave up and
   * then "one octave down" from the raised copy, and a candidate replaces the
   * best only when its total is strictly smaller.
   */
  method ScanOctaveMoves(base: Voicing) returns (v: Voicing)
    ensures v == BestOctaveMove(base)
  {
    var best: Option<Voicing> := None;
    var minTotal: Option<int> := None;
    ghost var state: Option<Scored> := None;
    for i := 0 to |base|
      invariant state == MinScan(base, i)
      invariant best.None? == minTotal.None? == state.None?
      invariant state.Some? ==> best.value == state.value.voicing && minTotal.value == state.value.total
    {
      var test := base;
      test := test[i := Note(test[i].number, test[i].octave + 1)];
      assert test == RaiseAt(base, i);
      var total := CalculateTotalIntervals(test);
      if minTotal.None? || total < minTotal.value {
        minTotal := Some(total);
        best := Some(test);
      }
      state := Keep(state, RaiseAt(base, i), 2 * i);
      test := test[i := Note(test[i].number, test[i].octave - 1)];
      assert test == LowerAt(RaiseAt(base, i), i);
      total := CalculateTotalIntervals(test);
      if minTotal.None? || total < minTotal.value {
        minTotal := Some(total);
        best := Some(test);
      }
      state := Keep(state, LowerAt(RaiseAt(base, i), i), 2 * i + 1);
      MinScanStep(base, i);
    }
    v := if best.Some? && best.value != [] then best.value else base;
  }

  /** The candidate the scan holds, read back as a note moved up or left in place. */
  lemma CandidateCases(base: Voicing, j: nat)
    requires j < 2 * |base|
    ensures Candidate(base, j) == base || Candidate(base, j) == RaiseAt(base, j / 2)
  {
    var h := j / 2;
    if j % 2 == 0 {
      assert j == 2 * h;
      CandidateOfRaised(base, h);
    } else {
      assert j == 2 * h + 1;
      CandidateOfLowered(base, h);
    }
  }

  /** The minimal-intervals voicing is the close voicing or the close voicing with one note raised an octave. */
  lemma MinimalIsCloseOrOneRaised(c: seq<Note>)
    ensures var v := MinimalVoicing(c);
      v == CloseVoicing(c) || exists i :: 0 <= i < |c| && v == RaiseAt(CloseVoicing(c), i)
  {
    if |c| >= 2 {
      var base := CloseVoicing(c);
      MinScanHoldsCandidate(base, |base|);
      CandidateCases(base, MinScan(base, |base|).value.index);
    }
  }

  /** No candidate the source scores has a smaller interval total than the voicing it returns. */
  lemma MinimalNoWorse(c: seq<Note>)
    ensures IntervalTotal(MinimalVoicing(c)) <= IntervalTotal(CloseVoicing(c))
    ensures forall i :: 0 <= i < |c| ==>
      IntervalTotal(MinimalVoicing(c)) <= IntervalTotal(RaiseAt(CloseVoicing(c), i))
  {
    var base := CloseVoicing(c);
    if |c| >= 2 {
      MinScanHoldsCandidate(base, |base|);
      MinScanIsMinimum(base, |base|);
      CandidateOfLowered(base, 0);
    } else {
      forall i | 0 <= i < |c| ensures IntervalTotal(RaiseAt(base, i)) == 0 { }
    }
  }

  /**
   * Ties go to the candidate scored first: the best octave move is some
   * candidate `j`, and every candidate scored before it has a strictly larger total.
   */
  lemma BestMoveFirstOnTies(base: Voicing)
    requires |base| > 0
    ensures exists j :: (0 <= j < 2 * |base| && BestOctaveMove(base) == Candidate(base, j)
      && forall k :: 0 <= k < j ==> IntervalTotal(Candidate(base, k)) > IntervalTotal(BestOctaveMove(base)))
  {
    var s := MinScan(base, |base|).value;
    MinScanHoldsCandidate(base, |base|);
    MinScanIsFirst(base, |base|);
    forall k | 0 <= k < s.index
      ensures IntervalTotal(Candidate(base, k)) > s.total
    {
      var h := k / 2;
      if k % 2 == 0 {
        assert k == 2 * h;
        CandidateOfRaised(base, h);
      } else {
        assert k == 2 * h + 1;
        CandidateOfLowered(base, h);
      }
    }
  }

  /** The same for `minimal_intervals`, whose candidates are built around the close voicing. */
  lemma MinimalFirstOnTies(c: seq<Note>)
    requires |c| >= 2
    ensures exists j :: (0 <= j < 2 * |c| && MinimalVoicing(c) == Candidate(CloseVoicing(c), j)
      && forall k :: 0 <= k < j ==>
           IntervalTotal(Candidate(CloseVoicing(c), k)) > IntervalTotal(MinimalVoicing(c)))
  {
    BestMoveFirstOnTies(CloseVoicing(c));
  }

  /**
   * In particular the unmoved voicing is returned only when it beats raising the
   * bottom note: on a tie the raised copy, scored first, wins.
   */
  lemma BestMoveKeepsBaseOnlyIfStrictlyBetter(base: Voicing)
    requires |base| > 0
    requires BestOctaveMove(base) == base
    ensures IntervalTotal(base) < IntervalTotal(RaiseAt(base, 0))
  {
    MinScanHoldsCandidate(base, |base|);
    MinScanIsFirst(base, |base|);
    CandidateOfRaised(base, 0);
    assert Candidate(base, 0)[0] != base[0];
  }

  /** So `minimal_intervals` returns close position only when it strictly beats raising the root. */
  lemma MinimalKeepsCloseOnlyIfStrictlyBetter(c: seq<Note>)
    requires |c| >= 2
    requires MinimalVoicing(c) == CloseVoicing(c)
    ensures IntervalTotal(CloseVoicing(c)) < IntervalTotal(RaiseAt(CloseVoicing(c), 0))
  {
    BestMoveKeepsBaseOnlyIfStrictlyBetter(CloseVoicing(c));
  }

  // ---------------------------------------------------------------------------
  // Input octaves do not matter
  // ---------------------------------------------------------------------------

  lemma {:induction false} DescentsSamePitchClasses(c: seq<Note>, d: seq<Note>, i: nat)
    requires SamePitchClasses(c, d) && i < |c|
    ensures Descents(c, i) == Descents(d, i)
  {
    if i > 0 {
      DescentsSamePitchClasses(c, d, i - 1);
    }
  }

  /**
   * Every voicing depends only on the chord's pitch classes: the octaves the
   * chord's notes carry are discarded.
   */
  lemma VoicingsIgnoreInputOctaves(c: seq<Note>, d: seq<Note>)
    requires SamePitchClasses(c, d)
    ensures CloseVoicing(c) == CloseVoicing(d)
    ensures Drop2(c) == Drop2(d) && DropTop(c) == DropTop(d) && RaiseBottom(c) == RaiseBottom(d)
    ensures MinimalVoicing(c) == MinimalVoicing(d)
    ensures SpreadVoicing(c) == SpreadVoicing(d)
  {
    forall i | 0 <= i < |c| ensures CloseVoicing(c)[i] == CloseVoicing(d)[i] {
      DescentsSamePitchClasses(c, d, i);
    }
  }
}
