/**
 * The melody visualisation (components/AudioVisualization.tsx): a vertical
 * strip of note boxes, one row of 20 pixels per melody sample, of which only
 * the rows in the scrolled-to window are rendered; a keyboard of the keys
 * 60..84; and a play button that schedules the melody on a synthesizer.
 */
module AudioVisualization {
  import opened Wrappers
  import opened JsSemantics

  const StartNote: int := 60
  const EndNote: int := 84
  /** Height of one melody row, in pixels. */
  const RowHeight: int := 20
  /** Horizontal distance between two pitches, in pixels. */
  const PitchWidth: int := 48
  /** Seconds between two samples when the melody is played. */
  const NoteLength: real := 0.1

  /** `allNotes`: the keys of the keyboard. */
  function AllNotes(): seq<int> {
    seq(EndNote - StartNote + 1, i => StartNote + i)
  }

  /** `isBlackNote`: the pitch class, by JavaScript's `%`, is C#, D#, F#, G# or A#. */
  predicate IsBlackNote(note: int) {
    Rem(note, 12) in {1, 3, 6, 8, 10}
  }

  /** The keyboard is the 25 consecutive keys 60..84, in ascending order. */
  lemma AllNotesAreTheRange()
    ensures |AllNotes()| == 25
    ensures forall i :: 0 <= i < |AllNotes()| ==> AllNotes()[i] == 60 + i
    ensures forall n :: n in AllNotes() <==> 60 <= n <= 84
  {
    forall n | 60 <= n <= 84 ensures n in AllNotes() {
      assert AllNotes()[n - 60] == n;
    }
  }

  /**
   * On non-negative notes the rule is periodic with period 12 and agrees
   * with the mathematical pitch class; negative notes are never black,
   * because JavaScript's remainder is then negative.
   */
  lemma BlackNotePeriodic(note: int)
    ensures note >= 0 ==> (IsBlackNote(note) <==> note % 12 in {1, 3, 6, 8, 10})
    ensures note >= 0 ==> IsBlackNote(note + 12) == IsBlackNote(note)
    ensures note < 0 ==> !IsBlackNote(note)
  {
    if note >= 0 {
      assert (note + 12) % 12 == note % 12;
    }
  }

  /** Two neighbouring non-negative notes are never both black, and every C is white. */
  lemma BlackNotesAreIsolated(note: int)
    requires note >= 0
    ensures !(IsBlackNote(note) && IsBlackNote(note + 1))
    ensures note % 12 == 0 ==> !IsBlackNote(note)
  {
    if note % 12 == 11 {
      assert (note + 1) % 12 == 0;
    } else {
      assert (note + 1) % 12 == note % 12 + 1;
    }
  }

  /** The window of melody rows to render. */
  datatype Range = Range(start: int, end: int)

  const InitialRange: Range := Range(0, 20)

  /** The arithmetic of `handleScroll`. */
  function Window(scrollTop: real, clientHeight: real): Range {
    var start := Floor(scrollTop / RowHeight as real);
    Range(start, start + Ceil(clientHeight / RowHeight as real))
  }

  /**
   * The window starts at the row under the top edge and never ends before
   * it starts; a 400-pixel container scrolled to the top shows exactly the
   * initial window.
   */
  lemma WindowBounds(scrollTop: real, clientHeight: real)
    requires clientHeight >= 0.0
    ensures var w := Window(scrollTop, clientHeight);
      && w.start as real * 20.0 <= scrollTop < (w.start + 1) as real * 20.0
      && w.start <= w.end
      && (w.end - w.start) as real * 20.0 >= clientHeight
    ensures Window(0.0, 400.0) == InitialRange
  {
    assert Ceil(400.0 / 20.0) == 20;
  }

  /**
   * Every melody row whose box (16 pixels tall, at row·20) overlaps the
   * viewport [scrollTop, scrollTop + clientHeight) lies inside the window.
   */
  lemma {:induction false} OverlappingRowsAreInWindow(scrollTop: real, clientHeight: real, row: int)
    requires clientHeight >= 0.0
    requires row as real * 20.0 < scrollTop + clientHeight
    requires row as real * 20.0 + 16.0 > scrollTop
    ensures Window(scrollTop, clientHeight).start <= row <= Window(scrollTop, clientHeight).end
  {
    var w := Window(scrollTop, clientHeight);
    WindowBounds(scrollTop, clientHeight);
    var c := Ceil(clientHeight / 20.0);
    assert clientHeight <= c as real * 20.0;
    assert row as real < (w.start + 1) as real + c as real;
  }

  /** `visibleNotes`: the samples start..end inclusive, each paired with its absolute index. */
  function VisibleNotes(melody: seq<int>, range: Range): seq<(int, int)> {
    var part := Slice(melody, range.start, range.end + 1);
    seq(|part|, k requires 0 <= k < |part| => (part[k], k + range.start))
  }

  /**
   * For a window that starts at or after row 0, the visible notes are the
   * samples start..end that exist, in order, each with its own index.
   */
  lemma VisibleNotesAreTheWindow(melody: seq<int>, range: Range)
    requires 0 <= range.start
    ensures var v := VisibleNotes(melody, range);
      && (forall k :: 0 <= k < |v| ==> v[k].1 == range.start + k && v[k].1 < |melody| && v[k].0 == melody[v[k].1])
      && (forall i :: range.start <= i <= range.end && i < |melody| ==> (melody[i], i) in v)
      && |v| <= |melody|
  {
    var v := VisibleNotes(melody, range);
    var from, to := SliceBound(range.start, |melody|), SliceBound(range.end + 1, |melody|);
    forall i | range.start <= i <= range.end && i < |melody| ensures (melody[i], i) in v {
      assert v[i - range.start] == (melody[i], i);
    }
  }

  /** A rendered note box: its React key, and its offsets in pixels. */
  datatype NoteBox = NoteBox(key: int, left: int, top: int)

  /** The boxes rendered for the visible notes: a silent sample (0) gets none. */
  function NoteBoxes(visible: seq<(int, int)>): seq<NoteBox> {
    if visible == [] then []
    else
      var (note, index) := visible[0];
      (if note == 0 then [] else [NoteBox(index, (note - StartNote) * PitchWidth, index * RowHeight)])
        + NoteBoxes(visible[1..])
  }

  /**
   * Each box stands for one visible non-zero note, placed at (note − 60)·48
   * from the left and index·20 from the top, and every visible non-zero
   * note gets its box.
   */
  lemma {:induction false} BoxesPlaceTheNotes(visible: seq<(int, int)>)
    ensures forall b :: b in NoteBoxes(visible) ==>
      exists k :: 0 <= k < |visible| && visible[k].0 != 0 && b == NoteBox(visible[k].1, (visible[k].0 - 60) * 48, visible[k].1 * 20)
    ensures forall k :: 0 <= k < |visible| && visible[k].0 != 0 ==>
      NoteBox(visible[k].1, (visible[k].0 - 60) * 48, visible[k].1 * 20) in NoteBoxes(visible)
    ensures |NoteBoxes(visible)| <= |visible|
  {
    BoxesComeFromNotes(visible);
    NotesGetBoxes(visible);
    if visible != [] {
      BoxesPlaceTheNotes(visible[1..]);
    }
  }

  lemma {:induction false} BoxesComeFromNotes(visible: seq<(int, int)>)
    ensures forall b :: b in NoteBoxes(visible) ==>
      exists k :: 0 <= k < |visible| && visible[k].0 != 0 && b == NoteBox(visible[k].1, (visible[k].0 - 60) * 48, visible[k].1 * 20)
  {
    if visible != [] {
      var rest := visible[1..];
      var head := if visible[0].0 == 0 then [] else [NoteBox(visible[0].1, (visible[0].0 - 60) * 48, visible[0].1 * 20)];
      assert NoteBoxes(visible) == head + NoteBoxes(rest);
      BoxesComeFromNotes(rest);
      forall b | b in NoteBoxes(visible)
        ensures exists k :: 0 <= k < |visible| && visible[k].0 != 0 && b == NoteBox(visible[k].1, (visible[k].0 - 60) * 48, visible[k].1 * 20)
      {
        if b !in head {
          var k :| 0 <= k < |rest| && rest[k].0 != 0 && b == NoteBox(rest[k].1, (rest[k].0 - 60) * 48, rest[k].1 * 20);
          assert visible[k + 1] == rest[k];
        }
      }
    }
  }

  lemma {:induction false} NotesGetBoxes(visible: seq<(int, int)>)
    ensures forall k :: 0 <= k < |visible| && visible[k].0 != 0 ==>
      NoteBox(visible[k].1, (visible[k].0 - 60) * 48, visible[k].1 * 20) in NoteBoxes(visible)
  {
    if visible != [] {
      var rest := visible[1..];
      var head := if visible[0].0 == 0 then [] else [NoteBox(visible[0].1, (visible[0].0 - 60) * 48, visible[0].1 * 20)];
      assert NoteBoxes(visible) == head + NoteBoxes(rest);
      NotesGetBoxes(rest);
      forall k | 0 <= k < |visible| && visible[k].0 != 0
        ensures NoteBox(visible[k].1, (visible[k].0 - 60) * 48, visible[k].1 * 20) in NoteBoxes(visible)
      {
        if k > 0 {
          assert visible[k] == rest[k - 1];
        }
      }
    }
  }

  /** One `triggerAttackRelease` call: the MIDI note (Tone converts it to a frequency), its length and its time. */
  datatype Trigger = Trigger(note: int, duration: string, time: real)

  /** The triggers `playMelody` schedules from time `now`: one per positive sample i, at now + i·0.1. */
  function Schedule(melody: seq<int>, now: real): seq<Trigger>
    decreases |melody|
  {
    if melody == [] then []
    else
      var i := |melody| - 1;
      Schedule(melody[..i], now)
        + (if melody[i] > 0 then [Trigger(melody[i], "16n", now + i as real * NoteLength)] else [])
  }

  /** The delay, in milliseconds, after which `playMelody` stops the playback. */
  function StopDelay(length: nat): real {
    length as real * NoteLength * 1000.0
  }

  /** Trigger i of a melody: the one scheduled for its sample i. */
  predicate TriggerOf(melody: seq<int>, now: real, t: Trigger) {
    exists i :: 0 <= i < |melody| && melody[i] > 0 && t == Trigger(melody[i], "16n", now + i as real * 0.1)
  }

  /**
   * The schedule holds exactly one trigger per positive sample, at
   * now + i·0.1, in increasing time order, and all of them start before
   * the stop timer fires.
   */
  lemma ScheduleIsOnePerPositiveSample(melody: seq<int>, now: real)
    ensures var s := Schedule(melody, now);
      && (forall t :: t in s ==> TriggerOf(melody, now, t))
      && (forall i :: 0 <= i < |melody| && melody[i] > 0 ==> Trigger(melody[i], "16n", now + i as real * 0.1) in s)
      && (forall j, k :: 0 <= j < k < |s| ==> s[j].time < s[k].time)
      && (forall t :: t in s ==> now <= t.time && (t.time - now) * 1000.0 < StopDelay(|melody|))
  {
    ScheduleSound(melody, now);
    ScheduleComplete(melody, now);
    ScheduleOrdered(melody, now);
    forall t | t in Schedule(melody, now) ensures now <= t.time && (t.time - now) * 1000.0 < StopDelay(|melody|) {
      var i :| 0 <= i < |melody| && melody[i] > 0 && t == Trigger(melody[i], "16n", now + i as real * 0.1);
    }
  }

  lemma {:induction false} ScheduleSound(melody: seq<int>, now: real)
    ensures forall t :: t in Schedule(melody, now) ==> TriggerOf(melody, now, t)
    decreases |melody|
  {
    if melody != [] {
      var i := |melody| - 1;
      var init := melody[..i];
      ScheduleSound(init, now);
      forall t | t in Schedule(melody, now) ensures TriggerOf(melody, now, t) {
        if t in Schedule(init, now) {
          var j :| 0 <= j < |init| && init[j] > 0 && t == Trigger(init[j], "16n", now + j as real * 0.1);
          assert melody[j] == init[j];
        } else {
          assert melody[i] > 0 && t == Trigger(melody[i], "16n", now + i as real * 0.1);
        }
      }
    }
  }

  lemma {:induction false} ScheduleComplete(melody: seq<int>, now: real)
    ensures forall i :: 0 <= i < |melody| && melody[i] > 0 ==> Trigger(melody[i], "16n", now + i as real * 0.1) in Schedule(melody, now)
    decreases |melody|
  {
    if melody != [] {
      var i := |melody| - 1;
      var init := melody[..i];
      ScheduleComplete(init, now);
      forall j | 0 <= j < |melody| && melody[j] > 0
        ensures Trigger(melody[j], "16n", now + j as real * 0.1) in Schedule(melody, now)
      {
        if j < i {
          assert init[j] == melody[j];
        }
      }
    }
  }

  lemma {:induction false} ScheduleOrdered(melody: seq<int>, now: real)
    ensures forall j, k :: 0 <= j < k < |Schedule(melody, now)| ==> Schedule(melody, now)[j].time < Schedule(melody, now)[k].time
    decreases |melody|
  {
    if melody != [] {
      var i := |melody| - 1;
      var init := melody[..i];
      ScheduleOrdered(init, now);
      ScheduleSound(init, now);
      var s, p := Schedule(melody, now), Schedule(init, now);
      var last := if melody[i] > 0 then [Trigger(melody[i], "16n", now + i as real * NoteLength)] else [];
      assert s == p + last;
      assert forall j, k :: 0 <= j < k < |p| ==> p[j].time < p[k].time;
      forall j, k | 0 <= j < k < |s| ensures s[j].time < s[k].time {
        assert s[j] == p[j] && p[j] in p;
        if k >= |p| {
          var m :| 0 <= m < |init| && init[m] > 0 && p[j] == Trigger(init[m], "16n", now + m as real * 0.1);
          assert s[k].time == now + i as real * 0.1;
          assert m as real * 0.1 < i as real * 0.1;
        } else {
          assert s[k] == p[k];
        }
      }
    }
  }

  /** The component's state and refs, for one `melodyData` prop. */
  class Visualization {
    const melodyData: seq<int>
    var isPlaying: bool
    var scrollPosition: real
    var visibleRange: Range
    /** `synthRef.current`: the live synthesizer and what is scheduled on it; None is null. */
    var synth: Option<seq<Trigger>>
    /** The delays of the `setTimeout` calls still pending, in milliseconds. */
    var timers: seq<real>

    constructor (melodyData: seq<int>)
      ensures this.melodyData == melodyData
      ensures !isPlaying && scrollPosition == 0.0 && visibleRange == InitialRange
      ensures synth == None && timers == []
    {
      this.melodyData := melodyData;
      isPlaying := false;
      scrollPosition := 0.0;
      visibleRange := InitialRange;
      synth := None;
      timers := [];
    }

    /** What the strip renders. */
    function Boxes(): seq<NoteBox>
      reads this
    {
      NoteBoxes(VisibleNotes(melodyData, visibleRange))
    }

    /** `handleScroll`, on the container's `scrollTop` and `clientHeight`. */
    method HandleScroll(scrollTop: real, clientHeight: real)
      modifies this`scrollPosition, this`visibleRange
      ensures scrollPosition == scrollTop && visibleRange == Window(scrollTop, clientHeight)
    {
      scrollPosition := scrollTop;
      var start := Floor(scrollTop / RowHeight as real);
      var end := start + Ceil(clientHeight / RowHeight as real);
      visibleRange := Range(start, end);
    }

    /**
     * `playMelody`, once `Tone.start()` has resolved and `Tone.now()` is
     * `now`: it does nothing while playing; otherwise a new synthesizer gets
     * the melody's schedule and a stop timer is set.
     */
    method PlayMelody(now: real)
      modifies this`isPlaying, this`synth, this`timers
      ensures old(isPlaying) ==> isPlaying && synth == old(synth) && timers == old(timers)
      ensures !old(isPlaying) ==>
        && isPlaying && synth == Some(Schedule(melodyData, now))
        && timers == old(timers) + [StopDelay(|melodyData|)]
    {
      if isPlaying {
        return;
      }
      var scheduled: seq<Trigger> := [];
      synth := Some(scheduled);
      isPlaying := true;
      for i := 0 to |melodyData|
        invariant scheduled == Schedule(melodyData[..i], now)
      {
        assert melodyData[..i + 1][..i] == melodyData[..i];
        if melodyData[i] > 0 {
          scheduled := scheduled + [Trigger(melodyData[i], "16n", now + i as real * NoteLength)];
        }
      }
      assert melodyData[..|melodyData|] == melodyData;
      synth := Some(scheduled);
      timers := timers + [|melodyData| as real * NoteLength * 1000.0];
    }

    /** `stopMelody`: not playing, and the synthesizer disposed with whatever it had scheduled. */
    method StopMelody()
      modifies this`isPlaying, this`synth
      ensures !isPlaying && synth == None
    {
      isPlaying := false;
      if synth.Some? {
        synth := None;
      }
    }

    /** The play button: `isPlaying ? stopMelody : playMelody`. */
    method Click(now: real)
      modifies this`isPlaying, this`synth, this`timers
      ensures old(isPlaying) ==> !isPlaying && synth == None && timers == old(timers)
      ensures !old(isPlaying) ==>
        isPlaying && synth == Some(Schedule(melodyData, now)) && timers == old(timers) + [StopDelay(|melodyData|)]
    {
      if isPlaying {
        StopMelody();
      } else {
        PlayMelody(now);
      }
    }

    /**
     * Pending timer k fires and calls `stopMelody`, whatever happened since
     * it was set: a timer left from an earlier playback also ends a later one.
     */
    method TimerFires(k: nat)
      requires k < |timers|
      modifies this`isPlaying, this`synth, this`timers
      ensures timers == old(timers[..k] + timers[k + 1..])
      ensures !isPlaying && synth == None
    {
      timers := timers[..k] + timers[k + 1..];
      StopMelody();
    }
  }
}
