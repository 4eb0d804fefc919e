/**
 * The transcription post-processing of the backend (midi_extractor.py):
 * the note range, the hidden-Markov transition matrix and prior table fed
 * to the Viterbi decoder, the decoder that turns the state sequence into
 * notes and a melody wave, and the conversion of those notes to beats.
 *
 * States of the HMM: 0 is silence; 2j+1 is the onset and 2j+2 the sustain
 * of note MidiMin + j, for j < NNotes.
 */
module MidiExtractor {
  import opened Wrappers

  /** The exceptions the modelled Python code can raise. */
  datatype PyError = ValueError | IndexError | ZeroDivisionError

  // ---------------------------------------------------------------------
  // The note map and its range
  // ---------------------------------------------------------------------

  /** The keys of `noteMap`, in insertion order: C2 (36) to C6 (84). */
  function NoteMapKeys(): seq<int> {
    seq(49, i => 36 + i)
  }

  /** `midiMin`, `midiMax` and the note count: the first and last key of the note map. */
  const MidiMin: int := 36
  const MidiMax: int := 84
  const NNotes: nat := 49

  /** The extractor's range is the first and last key of its note map, 49 notes. */
  lemma ExtractorRange()
    ensures |NoteMapKeys()| == NNotes
    ensures NoteMapKeys()[0] == MidiMin && NoteMapKeys()[|NoteMapKeys()| - 1] == MidiMax
    ensures NNotes == MidiMax - MidiMin + 1
    ensures forall k :: MidiMin <= k <= MidiMax <==> k in NoteMapKeys()
  {
    forall k | MidiMin <= k <= MidiMax ensures k in NoteMapKeys() {
      assert NoteMapKeys()[k - 36] == k;
    }
  }

  // ---------------------------------------------------------------------
  // Range conversion
  // ---------------------------------------------------------------------

  /** `__rangeConversion`: the affine map taking [oldLo, oldHi] onto [newLo, newHi]. */
  function RangeConversion(x: real, oldLo: real, oldHi: real, newLo: real, newHi: real): real
    requires oldHi != oldLo
  {
    ((x - oldLo) * (newHi - newLo)) / (oldHi - oldLo) + newLo
  }

  /** The ends of the old range go to the ends of the new one, and the inside to the inside. */
  lemma RangeConversionMapsEnds(x: real, oldLo: real, oldHi: real, newLo: real, newHi: real)
    requires oldLo < oldHi && newLo <= newHi
    ensures RangeConversion(oldLo, oldLo, oldHi, newLo, newHi) == newLo
    ensures RangeConversion(oldHi, oldLo, oldHi, newLo, newHi) == newHi
    ensures oldLo <= x <= oldHi ==> newLo <= RangeConversion(x, oldLo, oldHi, newLo, newHi) <= newHi
  {
    var w, d := newHi - newLo, oldHi - oldLo;
    assert RangeConversion(oldLo, oldLo, oldHi, newLo, newHi) == (0.0 * w) / d + newLo;
    assert RangeConversion(oldHi, oldLo, oldHi, newLo, newHi) == (d * w) / d + newLo;
    DivMul(d, w, d);
    if oldLo <= x <= oldHi {
      var a := x - oldLo;
      assert RangeConversion(x, oldLo, oldHi, newLo, newHi) == (a * w) / d + newLo;
      UnitFraction(a, d);
      DivMul(a, w, d);
      ScaleUnit(a / d, w);
    }
  }

  lemma DivMul(a: real, w: real, b: real)
    requires b != 0.0
    ensures (a * w) / b == (a / b) * w
  {
  }

  lemma UnitFraction(a: real, b: real)
    requires 0.0 <= a <= b && b > 0.0
    ensures 0.0 <= a / b <= 1.0
  {
  }

  lemma ScaleUnit(t: real, w: real)
    requires 0.0 <= t <= 1.0 && w >= 0.0
    ensures 0.0 <= t * w <= w
  {
  }

  /** Python's `int()` on a float: truncation towards zero. */
  function PyInt(x: real): int {
    if x >= 0.0 then x.Floor else -((-x).Floor)
  }

  /** `min` and `max` over a non-empty signal. */
  function SeqMin(s: seq<real>): (m: real)
    requires |s| > 0
    ensures m in s && forall x :: x in s ==> m <= x
  {
    if |s| == 1 then s[0]
    else
      var t := SeqMin(s[1..]);
      assert forall x :: x in s ==> x == s[0] || x in s[1..];
      if s[0] <= t then s[0] else t
  }

  function SeqMax(s: seq<real>): (m: real)
    requires |s| > 0
    ensures m in s && forall x :: x in s ==> x <= m
  {
    if |s| == 1 then s[0]
    else
      var t := SeqMax(s[1..]);
      assert forall x :: x in s ==> x == s[0] || x in s[1..];
      if s[0] >= t then s[0] else t
  }

  /**
   * The velocity of a closed note: `int(rangeConversion(sum/nr, (minRMS,
   * maxRMS), (0, 127)))`. A flat signal divides by zero, and `int()` of the
   * NaN that numpy returns raises a ValueError.
   */
  function Velocity(sum: real, nr: nat, lo: real, hi: real): Result<int, PyError> {
    if nr == 0 then Failure(ZeroDivisionError)
    else if hi == lo then Failure(ValueError)
    else Success(PyInt(RangeConversion(sum / nr as real, lo, hi, 0.0, 127.0)))
  }

  /** A mean of levels inside [lo, hi] gives a MIDI velocity in 0..127. */
  lemma VelocityInRange(sum: real, nr: nat, lo: real, hi: real)
    requires nr >= 1 && lo <= hi
    requires nr as real * lo <= sum <= nr as real * hi
    ensures Velocity(sum, nr, lo, hi).Success? <==> lo != hi
    ensures Velocity(sum, nr, lo, hi).Success? ==> 0 <= Velocity(sum, nr, lo, hi).value <= 127
  {
    if lo != hi {
      var mean := sum / nr as real;
      assert lo <= mean <= hi by {
        assert mean * nr as real == sum;
      }
      RangeConversionMapsEnds(mean, lo, hi, 0.0, 127.0);
    }
  }

  // ---------------------------------------------------------------------
  // Transition matrix
  // ---------------------------------------------------------------------

  /** Entry (r, c) of `__transitionMatrix` for n notes. */
  function TransitionEntry(n: nat, pStayNote: real, pStaySilence: real, r: nat, c: nat): real
    requires n > 0
  {
    var pL := (1.0 - pStaySilence) / n as real;
    var pLL := (1.0 - pStayNote) / (n + 1) as real;
    if r == 0 then (if c == 0 then pStaySilence else if c % 2 == 1 then pL else 0.0)
    else if r % 2 == 1 then (if c == r + 1 then 1.0 else 0.0)
    else (if c == 0 then pLL else if c == r then pStayNote else if c % 2 == 1 then pLL else 0.0)
  }

  /** The sum of the first k entries of row r. */
  function RowSum(n: nat, pStayNote: real, pStaySilence: real, r: nat, k: nat): real
    requires n > 0
  {
    if k == 0 then 0.0 else RowSum(n, pStayNote, pStaySilence, r, k - 1) + TransitionEntry(n, pStayNote, pStaySilence, r, k - 1)
  }

  /**
   * Every row of the (2n+1)×(2n+1) matrix sums to exactly 1: silence stays
   * or starts one of the n onsets, an onset moves to its sustain, and a
   * sustain stays, falls silent or starts one of the n onsets.
   */
  lemma RowStochastic(n: nat, pStayNote: real, pStaySilence: real, r: nat)
    requires n > 0 && r <= 2 * n
    ensures RowSum(n, pStayNote, pStaySilence, r, 2 * n + 1) == 1.0
  {
    var pL := (1.0 - pStaySilence) / n as real;
    var pLL := (1.0 - pStayNote) / (n + 1) as real;
    HalfOfOdd(n);
    if r == 0 {
      SilenceRowPrefix(n, pStayNote, pStaySilence, 2 * n + 1);
      Share(1.0 - pStaySilence, n);
    } else if r % 2 == 1 {
      OnsetRowPrefix(n, pStayNote, pStaySilence, r, 2 * n + 1);
    } else {
      SustainRowPrefix(n, pStayNote, pStaySilence, r, 2 * n + 1);
      Share(1.0 - pStayNote, n + 1);
      assert (n + 1) as real * pLL == n as real * pLL + pLL;
    }
  }

  lemma HalfOfOdd(n: nat)
    ensures (2 * n + 1) / 2 == n
  {
  }

  /** n shares of x/n make x. */
  lemma Share(x: real, n: nat)
    requires n > 0
    ensures n as real * (x / n as real) == x
  {
  }

  /** Counting the odd numbers below k one at a time. */
  lemma Halves(k: nat, p: real)
    requires k > 0
    ensures (k / 2) as real * p == ((k - 1) / 2) as real * p + (if (k - 1) % 2 == 1 then p else 0.0)
  {
    if (k - 1) % 2 == 1 {
      assert k / 2 == (k - 1) / 2 + 1;
      assert ((k - 1) / 2 + 1) as real * p == ((k - 1) / 2) as real * p + p;
    } else {
      assert k / 2 == (k - 1) / 2;
    }
  }

  lemma {:induction false} SilenceRowPrefix(n: nat, pStayNote: real, pStaySilence: real, k: nat)
    requires n > 0
    ensures RowSum(n, pStayNote, pStaySilence, 0, k)
      == (if k > 0 then pStaySilence else 0.0) + (k / 2) as real * ((1.0 - pStaySilence) / n as real)
  {
    var pL := (1.0 - pStaySilence) / n as real;
    if k == 1 {
      assert RowSum(n, pStayNote, pStaySilence, 0, 0) == 0.0;
      assert k / 2 == 0;
      assert 0 as real * pL == 0.0;
    } else if k > 1 {
      SilenceRowPrefix(n, pStayNote, pStaySilence, k - 1);
      var prev := RowSum(n, pStayNote, pStaySilence, 0, k - 1);
      assert prev == pStaySilence + ((k - 1) / 2) as real * pL;
      var e := TransitionEntry(n, pStayNote, pStaySilence, 0, k - 1);
      assert e == if (k - 1) % 2 == 1 then pL else 0.0;
      assert RowSum(n, pStayNote, pStaySilence, 0, k) == prev + e;
      Halves(k, pL);
    }
  }

  lemma {:induction false} OnsetRowPrefix(n: nat, pStayNote: real, pStaySilence: real, r: nat, k: nat)
    requires n > 0 && r % 2 == 1
    ensures RowSum(n, pStayNote, pStaySilence, r, k) == if k > r + 1 then 1.0 else 0.0
  {
    if k > 0 {
      OnsetRowPrefix(n, pStayNote, pStaySilence, r, k - 1);
    }
  }

  lemma {:induction false} SustainRowPrefix(n: nat, pStayNote: real, pStaySilence: real, r: nat, k: nat)
    requires n > 0 && r > 0 && r % 2 == 0
    ensures RowSum(n, pStayNote, pStaySilence, r, k)
      == (if k > 0 then (1.0 - pStayNote) / (n + 1) as real else 0.0)
       + (if k > r then pStayNote else 0.0)
       + (k / 2) as real * ((1.0 - pStayNote) / (n + 1) as real)
  {
    if k > 0 {
      SustainRowPrefix(n, pStayNote, pStaySilence, r, k - 1);
      Halves(k, (1.0 - pStayNote) / (n + 1) as real);
    }
  }

  /** `__transitionMatrix(pStayNote, pStaySilence)`, written entry by entry into a zero matrix. */
  method TransitionMatrix(pStayNote: real, pStaySilence: real) returns (m: array2<real>)
    ensures fresh(m) && m.Length0 == 2 * NNotes + 1 && m.Length1 == 2 * NNotes + 1
    ensures forall r, c :: 0 <= r < m.Length0 && 0 <= c < m.Length1 ==>
      m[r, c] == TransitionEntry(NNotes, pStayNote, pStaySilence, r, c)
  {
    var n := NNotes;
    var pL := (1.0 - pStaySilence) / n as real;
    var pLL := (1.0 - pStayNote) / (n + 1) as real;
    m := new real[2 * n + 1, 2 * n + 1]((r, c) => 0.0);
    m[0, 0] := pStaySilence;
    for i := 0 to n
      invariant forall r, c :: 0 <= r < m.Length0 && 0 <= c < m.Length1 ==>
        m[r, c] == if r == 0 && (c == 0 || (c % 2 == 1 && c < 2 * i + 1)) then TransitionEntry(n, pStayNote, pStaySilence, r, c) else 0.0
    {
      m[0, i * 2 + 1] := pL;
    }
    for i := 0 to n
      invariant forall r, c :: 0 <= r < m.Length0 && 0 <= c < m.Length1 ==>
        m[r, c] == if r == 0 || (r % 2 == 1 && r < 2 * i + 1) then TransitionEntry(n, pStayNote, pStaySilence, r, c) else 0.0
    {
      m[i * 2 + 1, i * 2 + 2] := 1.0;
    }
    for i := 0 to n
      invariant forall r, c :: 0 <= r < m.Length0 && 0 <= c < m.Length1 ==>
        m[r, c] == if r == 0 || r % 2 == 1 || r < 2 * i + 1 then TransitionEntry(n, pStayNote, pStaySilence, r, c) else 0.0
    {
      SustainRow(m, i * 2 + 2, pStayNote, pStaySilence);
    }
  }

  /** The sustain row 2i+2: to silence and to every onset with pLL, to itself with pStayNote. */
  method SustainRow(m: array2<real>, row: nat, pStayNote: real, pStaySilence: real)
    requires m.Length0 == 2 * NNotes + 1 && m.Length1 == 2 * NNotes + 1
    requires 2 <= row < m.Length0 && row % 2 == 0
    requires forall c :: 0 <= c < m.Length1 ==> m[row, c] == 0.0
    modifies m
    ensures forall r, c :: 0 <= r < m.Length0 && 0 <= c < m.Length1 ==>
      m[r, c] == if r == row then TransitionEntry(NNotes, pStayNote, pStaySilence, r, c) else old(m[r, c])
  {
    var n := NNotes;
    var pLL := (1.0 - pStayNote) / (n + 1) as real;
    m[row, 0] := pLL;
    m[row, row] := pStayNote;
    assert TransitionEntry(n, pStayNote, pStaySilence, row, 0) == pLL;
    assert TransitionEntry(n, pStayNote, pStaySilence, row, row) == pStayNote;
    for j := 0 to n
      invariant forall r, c :: 0 <= r < m.Length0 && 0 <= c < m.Length1 ==>
        m[r, c] == if r != row then old(m[r, c])
                   else if c == 0 || c == row || (c % 2 == 1 && c < 2 * j + 1) then TransitionEntry(n, pStayNote, pStaySilence, r, c)
                   else 0.0
    {
      m[row, j * 2 + 1] := pLL;
    }
  }

  // ---------------------------------------------------------------------
  // Prior table
  // ---------------------------------------------------------------------

  /**
   * Entry (r, frame) of the prior table, given the rounded pitch track f0,
   * the voicing flags and the onset frames.
   */
  function PriorEntry(f0: seq<int>, voiced: seq<bool>, onsets: seq<int>,
                      pitchAcc: real, voicedAcc: real, onsetAcc: real, spread: real, r: nat, frame: nat): real
    requires frame < |f0|
  {
    if r == 0 then
      (if (frame < |voiced| && !voiced[frame]) || frame > |voiced| then voicedAcc else 1.0 - voicedAcc)
    else if r % 2 == 1 then
      (if frame in onsets then onsetAcc else 1.0 - onsetAcc)
    else
      var note := (r - 2) / 2 + MidiMin;
      if note == f0[frame] then pitchAcc
      else if note - f0[frame] == 1 || f0[frame] - note == 1 then pitchAcc * spread
      else 1.0 - pitchAcc
  }

  /**
   * With accuracies and spread inside [0, 1] every prior is a probability;
   * every onset row agrees within a frame.
   */
  lemma PriorsAreProbabilities(f0: seq<int>, voiced: seq<bool>, onsets: seq<int>,
                               pitchAcc: real, voicedAcc: real, onsetAcc: real, spread: real, r: nat, frame: nat)
    requires frame < |f0|
    requires 0.0 <= pitchAcc <= 1.0 && 0.0 <= voicedAcc <= 1.0 && 0.0 <= onsetAcc <= 1.0 && 0.0 <= spread <= 1.0
    ensures 0.0 <= PriorEntry(f0, voiced, onsets, pitchAcc, voicedAcc, onsetAcc, spread, r, frame) <= 1.0
    ensures r % 2 == 1 ==>
      PriorEntry(f0, voiced, onsets, pitchAcc, voicedAcc, onsetAcc, spread, r, frame)
        == PriorEntry(f0, voiced, onsets, pitchAcc, voicedAcc, onsetAcc, spread, 1, frame)
  {
    assert 0.0 <= pitchAcc * spread <= pitchAcc;
  }

  /**
   * In a frame whose rounded pitch is a note of the range, that note's
   * sustain row carries the strictly largest prior of all sustain rows,
   * as long as the pitch accuracy exceeds one half and the spread is below 1.
   */
  lemma TrackedPitchIsFavoured(f0: seq<int>, voiced: seq<bool>, onsets: seq<int>,
                               pitchAcc: real, voicedAcc: real, onsetAcc: real, spread: real, frame: nat, j: nat)
    requires frame < |f0| && MidiMin <= f0[frame] <= MidiMax && j < NNotes && j + MidiMin != f0[frame]
    requires 0.5 < pitchAcc <= 1.0 && 0.0 <= spread < 1.0
    ensures var own := 2 * (f0[frame] - MidiMin) + 2;
      PriorEntry(f0, voiced, onsets, pitchAcc, voicedAcc, onsetAcc, spread, 2 * j + 2, frame)
        < PriorEntry(f0, voiced, onsets, pitchAcc, voicedAcc, onsetAcc, spread, own, frame)
  {
    var own := 2 * (f0[frame] - MidiMin) + 2;
    assert (own - 2) / 2 + MidiMin == f0[frame];
    assert (2 * j + 2 - 2) / 2 == j;
    assert pitchAcc * spread < pitchAcc;
  }

  /** `__priorProbabilities`' table fill, over a table of ones with one column per frame. */
  method PriorProbabilities(f0: seq<int>, voiced: seq<bool>, onsets: seq<int>,
                            pitchAcc: real, voicedAcc: real, onsetAcc: real, spread: real)
    returns (priors: array2<real>)
    ensures fresh(priors) && priors.Length0 == 2 * NNotes + 1 && priors.Length1 == |f0|
    ensures forall r, f :: 0 <= r < priors.Length0 && 0 <= f < priors.Length1 ==>
      priors[r, f] == PriorEntry(f0, voiced, onsets, pitchAcc, voicedAcc, onsetAcc, spread, r, f)
  {
    priors := new real[2 * NNotes + 1, |f0|]((r, f) => 1.0);
    for frame := 0 to |f0|
      invariant forall r, f :: 0 <= r < priors.Length0 && 0 <= f < priors.Length1 ==>
        priors[r, f] == if f < frame then PriorEntry(f0, voiced, onsets, pitchAcc, voicedAcc, onsetAcc, spread, r, f) else 1.0
    {
      PriorColumn(priors, f0, voiced, onsets, pitchAcc, voicedAcc, onsetAcc, spread, frame);
    }
  }

  /** One frame of the fill: the silence row, then each note's onset and sustain rows. */
  method PriorColumn(priors: array2<real>, f0: seq<int>, voiced: seq<bool>, onsets: seq<int>,
                     pitchAcc: real, voicedAcc: real, onsetAcc: real, spread: real, frame: nat)
    requires priors.Length0 == 2 * NNotes + 1 && priors.Length1 == |f0| && frame < |f0|
    modifies priors
    ensures forall r, f :: 0 <= r < priors.Length0 && 0 <= f < priors.Length1 ==>
      priors[r, f] == if f == frame then PriorEntry(f0, voiced, onsets, pitchAcc, voicedAcc, onsetAcc, spread, r, f) else old(priors[r, f])
  {
    if (frame < |voiced| && !voiced[frame]) || frame > |voiced| {
      priors[0, frame] := voicedAcc;
    } else {
      priors[0, frame] := 1.0 - voicedAcc;
    }
    for j := 0 to NNotes
      invariant forall r, f :: 0 <= r < priors.Length0 && 0 <= f < priors.Length1 ==>
        priors[r, f] == if f == frame && r < 2 * j + 1 then PriorEntry(f0, voiced, onsets, pitchAcc, voicedAcc, onsetAcc, spread, r, f) else old(priors[r, f])
    {
      if frame in onsets {
        priors[j * 2 + 1, frame] := onsetAcc;
      } else {
        priors[j * 2 + 1, frame] := 1.0 - onsetAcc;
      }
      assert (j * 2 + 2 - 2) / 2 == j;
      if j + MidiMin == f0[frame] {
        priors[j * 2 + 2, frame] := pitchAcc;
      } else if j + MidiMin - f0[frame] == 1 || f0[frame] - (j + MidiMin) == 1 {
        priors[j * 2 + 2, frame] := pitchAcc * spread;
      } else {
        priors[j * 2 + 2, frame] := 1.0 - pitchAcc;
      }
    }
  }

  // ---------------------------------------------------------------------
  // Decoding the state sequence
  // ---------------------------------------------------------------------

  datatype Phase = Silence | Onset | Sustain

  /** A decoded note, by frame index; its row in the piano roll is in seconds. */
  datatype Note = Note(onset: nat, offset: nat, midi: int, velocity: int)

  /** A row of the piano roll: onset and offset in seconds, MIDI note, velocity. */
  datatype Row = Row(onset: real, offset: real, midi: int, velocity: int)

  /** The decoder's variables between two frames. */
  datatype Decoder = Decoder(phase: Phase, output: seq<Note>, wave: seq<real>,
                             lastOnset: nat, lastMidi: int, rmsSum: real, rmsNr: nat)

  const Start: Decoder := Decoder(Silence, [], [], 0, 0, 0.0, 0)

  /** The frame-level RMS energy, its extremes, and `noteMapHz` as a function. */
  datatype Signal = Signal(rms: seq<real>, lo: real, hi: real, noteHz: int -> real)

  /** The note an odd state s opens: (s − 1)/2 + midiMin. */
  function MidiOf(s: int): int {
    (s - 1) / 2 + MidiMin
  }

  /** The melody-wave sample of a note: its frequency if it is a key of the note map, else 0. */
  function WaveSample(midi: int, noteHz: int -> real): real {
    if MidiMin <= midi <= MidiMax then noteHz(midi) else 0.0
  }

  /** What one frame i, in state s, does to the decoder. */
  function Step(d: Decoder, i: nat, s: int, sig: Signal): Result<Decoder, PyError> {
    match d.phase
    case Silence =>
      if s % 2 != 0 then
        if i >= |sig.rms| then Failure(IndexError)
        else Success(d.(phase := Onset, lastOnset := i, lastMidi := MidiOf(s),
                        wave := d.wave + [WaveSample(MidiOf(s), sig.noteHz)],
                        rmsSum := d.rmsSum + sig.rms[i], rmsNr := d.rmsNr + 1))
      else Success(d.(wave := d.wave + [0.0]))
    case Onset =>
      if s % 2 == 0 then
        if i >= |sig.rms| then Failure(IndexError)
        else Success(d.(phase := Sustain, wave := d.wave + [WaveSample(d.lastMidi, sig.noteHz)],
                        rmsSum := d.rmsSum + sig.rms[i], rmsNr := d.rmsNr + 1))
      else Success(d)
    case Sustain =>
      if s % 2 != 0 then
        match Velocity(d.rmsSum, d.rmsNr, sig.lo, sig.hi)
        case Failure(e) => Failure(e)
        case Success(v) =>
          if i >= |sig.rms| then Failure(IndexError)
          else Success(Decoder(Onset, d.output + [Note(d.lastOnset, i, d.lastMidi, v)],
                               d.wave + [WaveSample(d.lastMidi, sig.noteHz)],
                               i, MidiOf(s), sig.rms[i], 1))
      else if s == 0 then
        match Velocity(d.rmsSum, d.rmsNr, sig.lo, sig.hi)
        case Failure(e) => Failure(e)
        case Success(v) =>
          Success(Decoder(Silence, d.output + [Note(d.lastOnset, i, d.lastMidi, v)], d.wave + [0.0],
                          d.lastOnset, d.lastMidi, 0.0, 0))
      else Success(d.(wave := d.wave + [WaveSample(d.lastMidi, sig.noteHz)]))
  }

  /** The decoder after the frames ss, or the first exception. */
  function Run(ss: seq<int>, sig: Signal): Result<Decoder, PyError>
    decreases |ss|
  {
    if ss == [] then Success(Start)
    else
      var i := |ss| - 1;
      match Run(ss[..i], sig)
      case Failure(e) => Failure(e)
      case Success(d) => Step(d, i, ss[i], sig)
  }

  /** The piano-roll rows of the notes, at hopTime seconds per frame. */
  function Rows(notes: seq<Note>, hopTime: real): (rows: seq<Row>)
    ensures |rows| == |notes|
    ensures forall k :: 0 <= k < |notes| ==>
      rows[k] == Row(notes[k].onset as real * hopTime, notes[k].offset as real * hopTime, notes[k].midi, notes[k].velocity)
  {
    seq(|notes|, k requires 0 <= k < |notes| =>
      Row(notes[k].onset as real * hopTime, notes[k].offset as real * hopTime, notes[k].midi, notes[k].velocity))
  }

  /**
   * `__statesToPianoroll`: `min` of an empty RMS track raises; otherwise the
   * states, with a 0 appended, are decoded frame by frame.
   */
  function Decode(states: seq<int>, rms: seq<real>, hopTime: real, noteHz: int -> real): Result<(seq<Row>, seq<real>), PyError> {
    if rms == [] then Failure(ValueError)
    else
      match Run(states + [0], Signal(rms, SeqMin(rms), SeqMax(rms), noteHz))
      case Failure(e) => Failure(e)
      case Success(d) => Success((Rows(d.output, hopTime), d.wave))
  }

  /** After an exception, later frames change nothing. */
  lemma {:induction false} FailureStays(ss: seq<int>, k: nat, sig: Signal)
    requires k <= |ss| && Run(ss[..k], sig).Failure?
    ensures Run(ss, sig) == Run(ss[..k], sig)
    decreases |ss|
  {
    if k < |ss| {
      var i := |ss| - 1;
      assert ss[..i][..k] == ss[..k];
      FailureStays(ss[..i], k, sig);
    } else {
      assert ss[..k] == ss;
    }
  }

  /** `__statesToPianoroll`, loop by loop. */
  method StatesToPianoroll(states: seq<int>, rms: seq<real>, hopTime: real, noteHz: int -> real)
    returns (r: Result<(seq<Row>, seq<real>), PyError>)
    ensures r == Decode(states, rms, hopTime, noteHz)
  {
    var ss := states + [0];
    if rms == [] {
      return Failure(ValueError);
    }
    var sig := Signal(rms, SeqMin(rms), SeqMax(rms), noteHz);
    var phase, output, wave := Silence, [], [];
    var lastOnset, lastMidi := 0, 0;
    var sum, nr := 0.0, 0;
    for i := 0 to |ss|
      invariant Run(ss[..i], sig) == Success(Decoder(phase, output, wave, lastOnset, lastMidi, sum, nr))
    {
      assert ss[..i + 1][..i] == ss[..i];
      var s := ss[i];
      if phase == Silence {
        if s % 2 != 0 {
          if i >= |rms| {
            FailureStays(ss, i + 1, sig);
            return Failure(IndexError);
          }
          lastOnset := i;
          lastMidi := MidiOf(s);
          phase := Onset;
          wave := wave + [WaveSample(lastMidi, noteHz)];
          sum := sum + rms[i];
          nr := nr + 1;
        } else {
          wave := wave + [0.0];
        }
      } else if phase == Onset {
        if s % 2 == 0 {
          if i >= |rms| {
            FailureStays(ss, i + 1, sig);
            return Failure(IndexError);
          }
          phase := Sustain;
          wave := wave + [WaveSample(lastMidi, noteHz)];
          sum := sum + rms[i];
          nr := nr + 1;
        }
      } else if s % 2 != 0 || s == 0 {
        var v := Velocity(sum, nr, sig.lo, sig.hi);
        if v.Failure? {
          FailureStays(ss, i + 1, sig);
          return Failure(v.error);
        }
        if s % 2 != 0 {
          if i >= |rms| {
            FailureStays(ss, i + 1, sig);
            return Failure(IndexError);
          }
          output := output + [Note(lastOnset, i, lastMidi, v.value)];
          wave := wave + [WaveSample(lastMidi, noteHz)];
          lastOnset := i;
          lastMidi := MidiOf(s);
          phase := Onset;
          sum := rms[i];
          nr := 1;
        } else {
          output := output + [Note(lastOnset, i, lastMidi, v.value)];
          wave := wave + [0.0];
          phase := Silence;
          sum := 0.0;
          nr := 0;
        }
      } else {
        wave := wave + [WaveSample(lastMidi, noteHz)];
      }
    }
    assert ss[..|ss|] == ss;
    r := Success((Rows(output, hopTime), wave));
  }

  // ---------------------------------------------------------------------
  // Properties of the decoder
  // ---------------------------------------------------------------------

  /**
   * The timeline after the frames ss: each note was opened by an odd state
   * and takes its pitch from it, lasts at least two frames and closed
   * before the present frame; notes follow each other without overlap; an
   * open note began after the last closed one.
   */
  predicate Timeline(d: Decoder, ss: seq<int>) {
    var out := d.output;
    && NotesSpan(out, ss)
    && NotesInOrder(out)
    && (d.phase != Silence ==>
          d.lastOnset < |ss| && ss[d.lastOnset] % 2 != 0 && d.lastMidi == MidiOf(ss[d.lastOnset])
          && (out != [] ==> out[|out| - 1].offset <= d.lastOnset))
    && (d.phase == Sustain ==> d.lastOnset + 2 <= |ss|)
  }

  /** Each note was opened by an odd state, takes its pitch from it, lasts two frames or more and closed before |ss|. */
  predicate NotesSpan(out: seq<Note>, ss: seq<int>) {
    forall k :: 0 <= k < |out| ==>
      out[k].onset + 2 <= out[k].offset < |ss| && ss[out[k].onset] % 2 != 0 && out[k].midi == MidiOf(ss[out[k].onset])
  }

  /** No note overlaps the next. */
  predicate NotesInOrder(out: seq<Note>) {
    forall k :: 0 <= k < |out| - 1 ==> out[k].offset <= out[k + 1].onset
  }

  lemma StepKeepsTimeline(d: Decoder, ss: seq<int>, s: int, sig: Signal)
    requires Timeline(d, ss) && Step(d, |ss|, s, sig).Success?
    ensures Timeline(Step(d, |ss|, s, sig).value, ss + [s])
  {
    var d' := Step(d, |ss|, s, sig).value;
    var ss' := ss + [s];
    assert forall k :: 0 <= k < |ss| ==> ss'[k] == ss[k];
    if |d'.output| > |d.output| {
      assert d'.output == d.output + [d'.output[|d.output|]];
    }
  }

  lemma {:induction false} RunKeepsTimeline(ss: seq<int>, sig: Signal)
    requires Run(ss, sig).Success?
    ensures Timeline(Run(ss, sig).value, ss)
    decreases |ss|
  {
    if ss != [] {
      var i := |ss| - 1;
      RunKeepsTimeline(ss[..i], sig);
      StepKeepsTimeline(Run(ss[..i], sig).value, ss[..i], ss[i], sig);
      assert ss[..i] + [ss[i]] == ss;
    }
  }

  /** The RMS levels are inside [lo, hi]: true of the signal's own minimum and maximum. */
  predicate Bounded(sig: Signal) {
    sig.lo <= sig.hi && forall x :: x in sig.rms ==> sig.lo <= x <= sig.hi
  }

  /**
   * The energy bookkeeping: every closed note has a velocity in 0..127,
   * and an open note's running sum lies between nr·lo and nr·hi.
   */
  predicate Levels(d: Decoder, sig: Signal) {
    && (forall k :: 0 <= k < |d.output| ==> 0 <= d.output[k].velocity <= 127)
    && (d.phase == Silence ==> d.rmsSum == 0.0 && d.rmsNr == 0)
    && (d.phase != Silence ==> d.rmsNr >= 1 && d.rmsNr as real * sig.lo <= d.rmsSum <= d.rmsNr as real * sig.hi)
  }

  lemma StepKeepsLevels(d: Decoder, i: nat, s: int, sig: Signal)
    requires Bounded(sig) && Levels(d, sig) && Step(d, i, s, sig).Success?
    ensures Levels(Step(d, i, s, sig).value, sig)
  {
    var d' := Step(d, i, s, sig).value;
    match d.phase
    case Silence =>
      if s % 2 != 0 {
        LevelAt(sig, i);
        AddLevel(d.rmsNr, d.rmsSum, sig.rms[i], sig.lo, sig.hi);
      }
    case Onset =>
      if s % 2 == 0 {
        LevelAt(sig, i);
        AddLevel(d.rmsNr, d.rmsSum, sig.rms[i], sig.lo, sig.hi);
      }
    case Sustain =>
      if s % 2 != 0 || s == 0 {
        VelocityInRange(d.rmsSum, d.rmsNr, sig.lo, sig.hi);
        var v := Velocity(d.rmsSum, d.rmsNr, sig.lo, sig.hi).value;
        assert d'.output == d.output + [Note(d.lastOnset, i, d.lastMidi, v)];
        if s % 2 != 0 {
          LevelAt(sig, i);
          AddLevel(0, 0.0, sig.rms[i], sig.lo, sig.hi);
        }
      }
  }

  /** A frame's RMS level lies between the signal's bounds. */
  lemma LevelAt(sig: Signal, i: nat)
    requires Bounded(sig) && i < |sig.rms|
    ensures sig.lo <= sig.rms[i] <= sig.hi
  {
    assert sig.rms[i] in sig.rms;
  }

  /** One more level inside [lo, hi] keeps the running sum between count·lo and count·hi. */
  lemma AddLevel(nr: nat, sum: real, x: real, lo: real, hi: real)
    requires nr as real * lo <= sum <= nr as real * hi && lo <= x <= hi
    ensures (nr + 1) as real * lo <= sum + x <= (nr + 1) as real * hi
    ensures 1 as real * lo <= x <= 1 as real * hi
  {
    assert (nr + 1) as real * lo == nr as real * lo + lo;
    assert (nr + 1) as real * hi == nr as real * hi + hi;
  }

  lemma {:induction false} RunKeepsLevels(ss: seq<int>, sig: Signal)
    requires Bounded(sig) && Run(ss, sig).Success?
    ensures Levels(Run(ss, sig).value, sig)
    decreases |ss|
  {
    if ss != [] {
      var i := |ss| - 1;
      RunKeepsLevels(ss[..i], sig);
      StepKeepsLevels(Run(ss[..i], sig).value, i, ss[i], sig);
    }
  }

  /** A melody-wave sample: silence, or the frequency of a key of the note map. */
  predicate IsWaveSample(x: real, noteHz: int -> real) {
    x == 0.0 || exists m :: MidiMin <= m <= MidiMax && x == noteHz(m)
  }

  /**
   * Each frame adds one sample to the melody wave, except an odd state
   * while a note is in its onset, which adds none.
   */
  lemma StepWaveLength(d: Decoder, i: nat, s: int, sig: Signal)
    requires Step(d, i, s, sig).Success?
    ensures |Step(d, i, s, sig).value.wave| == |d.wave| + (if d.phase == Onset && s % 2 != 0 then 0 else 1)
    ensures forall k :: 0 <= k < |d.wave| ==> Step(d, i, s, sig).value.wave[k] == d.wave[k]
  {
  }

  /** The wave never has more samples than frames, and every sample is silence or a key's frequency. */
  lemma {:induction false} RunWave(ss: seq<int>, sig: Signal)
    requires Run(ss, sig).Success?
    ensures |Run(ss, sig).value.wave| <= |ss|
    ensures forall k :: 0 <= k < |Run(ss, sig).value.wave| ==> IsWaveSample(Run(ss, sig).value.wave[k], sig.noteHz)
    decreases |ss|
  {
    if ss != [] {
      var i := |ss| - 1;
      RunWave(ss[..i], sig);
      var d := Run(ss[..i], sig).value;
      StepWaveLength(d, i, ss[i], sig);
      var w := Run(ss, sig).value.wave;
      forall k | 0 <= k < |w| ensures IsWaveSample(w[k], sig.noteHz) {
        if k >= |d.wave| {
          var m := if d.phase == Silence then MidiOf(ss[i]) else d.lastMidi;
          if MidiMin <= m <= MidiMax {
            assert w[k] == 0.0 || w[k] == sig.noteHz(m);
          }
        }
      }
    }
  }

  /**
   * What the decoder promises about a successful decode: the rows follow
   * each other without overlap, each lasts at least two frames, starts at a
   * frame whose state is odd and carries the note that state opens, and has
   * a velocity in 0..127; the wave has at most one sample per frame.
   */
  lemma DecodedRows(states: seq<int>, rms: seq<real>, hopTime: real, noteHz: int -> real)
    requires hopTime >= 0.0 && Decode(states, rms, hopTime, noteHz).Success?
    ensures var (rows, wave) := Decode(states, rms, hopTime, noteHz).value;
      && (forall k :: 0 <= k < |rows| ==> rows[k].onset + 2.0 * hopTime <= rows[k].offset)
      && (forall k :: 0 <= k < |rows| - 1 ==> rows[k].offset <= rows[k + 1].onset)
      && (forall k :: 0 <= k < |rows| ==> 0 <= rows[k].velocity <= 127)
      && (forall k :: 0 <= k < |rows| ==> OpenedAt(rows[k], states, hopTime))
      && |wave| <= |states| + 1
  {
    var ss := states + [0];
    var sig := Signal(rms, SeqMin(rms), SeqMax(rms), noteHz);
    RunKeepsTimeline(ss, sig);
    RunKeepsLevels(ss, sig);
    RunWave(ss, sig);
    var d := Run(ss, sig).value;
    assert Decode(states, rms, hopTime, noteHz).value == (Rows(d.output, hopTime), d.wave);
    TimelineInSeconds(d, states, hopTime);
  }

  /** Row r starts at a frame whose state is odd, and carries the note that state opens. */
  predicate OpenedAt(r: Row, states: seq<int>, hopTime: real) {
    exists f :: 0 <= f < |states| && states[f] % 2 != 0 && r.onset == f as real * hopTime && r.midi == MidiOf(states[f])
  }

  /** The timeline of the frames states + [0], in seconds. */
  lemma TimelineInSeconds(d: Decoder, states: seq<int>, hopTime: real)
    requires hopTime >= 0.0 && NotesSpan(d.output, states + [0]) && NotesInOrder(d.output)
    ensures var rows := Rows(d.output, hopTime);
      && (forall k :: 0 <= k < |rows| ==> rows[k].onset + 2.0 * hopTime <= rows[k].offset)
      && (forall k :: 0 <= k < |rows| - 1 ==> rows[k].offset <= rows[k + 1].onset)
      && (forall k :: 0 <= k < |rows| ==> OpenedAt(rows[k], states, hopTime))
  {
    RowsLastTwoHops(d.output, hopTime);
    RowsInOrder(d.output, hopTime);
    NotesOpenedAt(d, states, hopTime);
  }

  /** Notes two frames or more long give rows two hops or more long. */
  lemma RowsLastTwoHops(notes: seq<Note>, hopTime: real)
    requires hopTime >= 0.0 && forall k :: 0 <= k < |notes| ==> notes[k].onset + 2 <= notes[k].offset
    ensures forall k :: 0 <= k < |notes| ==> Rows(notes, hopTime)[k].onset + 2.0 * hopTime <= Rows(notes, hopTime)[k].offset
  {
    var rows := Rows(notes, hopTime);
    forall k | 0 <= k < |notes| ensures rows[k].onset + 2.0 * hopTime <= rows[k].offset {
      RowLastsTwoHops(notes[k], rows[k], hopTime);
    }
  }

  /** A note two frames or more long gives a row two hops or more long. */
  lemma RowLastsTwoHops(n: Note, r: Row, h: real)
    requires n.onset + 2 <= n.offset && h >= 0.0
    requires r.onset == n.onset as real * h && r.offset == n.offset as real * h
    ensures r.onset + 2.0 * h <= r.offset
  {
    MulMono(n.onset as real + 2.0, n.offset as real, h);
    assert (n.onset as real + 2.0) * h == n.onset as real * h + 2.0 * h;
  }

  /** Notes that do not overlap in frames give rows that do not overlap in seconds. */
  lemma RowsInOrder(notes: seq<Note>, hopTime: real)
    requires hopTime >= 0.0 && NotesInOrder(notes)
    ensures forall k :: 0 <= k < |notes| - 1 ==> Rows(notes, hopTime)[k].offset <= Rows(notes, hopTime)[k + 1].onset
  {
    var rows := Rows(notes, hopTime);
    forall k | 0 <= k < |notes| - 1 ensures rows[k].offset <= rows[k + 1].onset {
      RowPrecedes(notes[k], notes[k + 1], rows[k], rows[k + 1], hopTime);
    }
  }

  /** A note ending no later than the next starts gives a row ending no later than the next starts. */
  lemma RowPrecedes(n: Note, n': Note, r: Row, r': Row, h: real)
    requires n.offset <= n'.onset && h >= 0.0
    requires r.offset == n.offset as real * h && r'.onset == n'.onset as real * h
    ensures r.offset <= r'.onset
  {
    MulMono(n.offset as real, n'.onset as real, h);
  }

  lemma NotesOpenedAt(d: Decoder, states: seq<int>, hopTime: real)
    requires NotesSpan(d.output, states + [0])
    ensures forall k :: 0 <= k < |d.output| ==> OpenedAt(Rows(d.output, hopTime)[k], states, hopTime)
  {
    var ss := states + [0];
    forall k | 0 <= k < |d.output| ensures OpenedAt(Rows(d.output, hopTime)[k], states, hopTime) {
      var f := d.output[k].onset;
      assert ss[|states|] == 0;
      assert f < |states| && ss[f] == states[f];
    }
  }

  lemma MulMono(a: real, b: real, c: real)
    requires a <= b && c >= 0.0
    ensures a * c <= b * c
  {
  }

  /**
   * The appended 0 closes a note still sustained at the end; a note still in
   * its onset only reaches its sustain and is never emitted.
   */
  lemma LastFrameFlush(states: seq<int>, sig: Signal)
    requires Run(states, sig).Success? && Run(states + [0], sig).Success?
    ensures var d := Run(states, sig).value;
      && (d.phase == Sustain ==>
            |Run(states + [0], sig).value.output| == |d.output| + 1
            && Run(states + [0], sig).value.output[|d.output|].offset == |states|)
      && (d.phase == Onset ==>
            Run(states + [0], sig).value.output == d.output
            && Run(states + [0], sig).value.phase == Sustain)
  {
    assert (states + [0])[..|states|] == states;
  }

  // ---------------------------------------------------------------------
  // Seconds to beats
  // ---------------------------------------------------------------------

  /** A `MIDIFile.addNote` call: pitch, start and duration in beats, velocity. */
  datatype BeatNote = BeatNote(pitch: int, time: real, duration: real, velocity: int)

  /** A one-track MIDI file: its tempo and its notes, in order. */
  datatype MidiFile = MidiFile(tempo: int, notes: seq<BeatNote>)

  /** The notes `__pianorollToMidi` adds: onsets and offsets divided by the quarter-note length 60/bpm. */
  function Beats(rows: seq<Row>, bpm: int): seq<BeatNote>
    requires bpm != 0
  {
    var quarter := 60.0 / bpm as real;
    seq(|rows|, k requires 0 <= k < |rows| =>
      BeatNote(rows[k].midi, rows[k].onset / quarter, rows[k].offset / quarter - rows[k].onset / quarter, rows[k].velocity))
  }

  /** One note per row, in order, starting at onset·bpm/60 beats and lasting (offset − onset)·bpm/60. */
  lemma BeatsScaleByTempo(rows: seq<Row>, bpm: int)
    requires bpm != 0
    ensures |Beats(rows, bpm)| == |rows|
    ensures forall k :: 0 <= k < |rows| ==>
      var b := Beats(rows, bpm)[k];
      && b.pitch == rows[k].midi && b.velocity == rows[k].velocity
      && b.time == rows[k].onset * bpm as real / 60.0
      && b.duration == (rows[k].offset - rows[k].onset) * bpm as real / 60.0
  {
    var quarter := 60.0 / bpm as real;
    forall k | 0 <= k < |rows|
      ensures Beats(rows, bpm)[k].time == rows[k].onset * bpm as real / 60.0
      ensures Beats(rows, bpm)[k].duration == (rows[k].offset - rows[k].onset) * bpm as real / 60.0
    {
      DivByQuarter(rows[k].onset, bpm);
      DivByQuarter(rows[k].offset, bpm);
    }
  }

  lemma DivByQuarter(x: real, bpm: int)
    requires bpm != 0
    ensures x / (60.0 / bpm as real) == x * bpm as real / 60.0
  {
    var q := 60.0 / bpm as real;
    assert q * bpm as real == 60.0;
    assert (x * bpm as real / 60.0) * q == x;
  }

  /** `__pianorollToMidi(bpm, pianoroll)`: a zero tempo divides by zero. */
  method PianorollToMidi(bpm: int, rows: seq<Row>) returns (r: Result<MidiFile, PyError>)
    ensures bpm == 0 ==> r == Failure(ZeroDivisionError)
    ensures bpm != 0 ==> r == Success(MidiFile(bpm, Beats(rows, bpm)))
  {
    if bpm == 0 {
      return Failure(ZeroDivisionError);
    }
    var quarter := 60.0 / bpm as real;
    var notes: seq<BeatNote> := [];
    for i := 0 to |rows|
      invariant notes == Beats(rows[..i], bpm)
    {
      var onset, offset := rows[i].onset / quarter, rows[i].offset / quarter;
      notes := notes + [BeatNote(rows[i].midi, onset, offset - onset, rows[i].velocity)];
    }
    assert rows[..|rows|] == rows;
    r := Success(MidiFile(bpm, notes));
  }

  /**
   * `waveToMidi` after the Viterbi decoding: the states are decoded at
   * hopLength/Fs seconds per frame and the notes converted at the given tempo.
   */
  method WaveToMidi(states: seq<int>, rms: seq<real>, hopLength: int, fs: int, bpm: int, noteHz: int -> real)
    returns (r: Result<(MidiFile, seq<real>), PyError>)
    ensures fs == 0 ==> r == Failure(ZeroDivisionError)
    ensures fs != 0 ==>
      r == match Decode(states, rms, hopLength as real / fs as real, noteHz)
           case Failure(e) => Failure(e)
           case Success((rows, wave)) =>
             if bpm == 0 then Failure(ZeroDivisionError) else Success((MidiFile(bpm, Beats(rows, bpm)), wave))
  {
    if fs == 0 {
      return Failure(ZeroDivisionError);
    }
    var decoded := StatesToPianoroll(states, rms, hopLength as real / fs as real, noteHz);
    if decoded.Failure? {
      return Failure(decoded.error);
    }
    var (rows, wave) := decoded.value;
    var midi := PianorollToMidi(bpm, rows);
    if midi.Failure? {
      return Failure(midi.error);
    }
    r := Success((midi.value, wave));
  }
}
