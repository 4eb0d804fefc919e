/**
 * The piano-roll canvas of the viewer (components/AudioMidiViewer/Pianoroll.js).
 *
 * The roll maps time to x (`BaseWidth` pixels of key strip, then `ZoomFactor`
 * pixels per second) and MIDI keys 36..84 to rows of `NoteHeight` pixels,
 * counted up from the bottom of the canvas. Drawing on the canvases is
 * recorded as a list of `Shape`s; the particle sparks and the polyline of
 * the melody contour are kept as values in the fields of a `Roll`.
 */
module Pianoroll {
  import opened Wrappers
  import opened JsSemantics
  import opened Tone

  // ---------------------------------------------------------------------
  // Layout constants and the pure coordinate formulas
  // ---------------------------------------------------------------------

  const NoteHeight: real := 20.0
  const BaseWidth: real := 100.0
  const ZoomFactor: real := 40.0

  /** The keys of the note table: MIDI 36 (C2) to 84 (C6). */
  const LowestKey: int := 36
  const HighestKey: int := 84
  const KeyCount: nat := 49

  /** One row per key. */
  const CanvasHeight: real := KeyCount as real * NoteHeight

  /** A white key's base height, and the running offset's start value. */
  const WhiteKeyHeight: real := NoteHeight * 3.0 / 2.0

  /** `midiKeys`: the integer keys of the note table, in the order `Object.keys` lists them. */
  function MidiKeys(): (keys: seq<int>)
    ensures |keys| == KeyCount
    ensures forall i :: 0 <= i < KeyCount ==> keys[i] == LowestKey + i
  {
    seq(KeyCount, i => LowestKey + i)
  }

  /** The x coordinate of a transport time. */
  function TimeToX(seconds: real): real {
    seconds * ZoomFactor + BaseWidth
  }

  /** What the scroll listener reports: (estimated seconds, scrollLeft, maxScroll). */
  datatype ScrollReport = ScrollReport(seconds: real, scrollLeft: real, maxScroll: real)

  function OnScroll(scrollLeft: real, maxScroll: real): (r: ScrollReport)
    ensures r.scrollLeft == scrollLeft && r.maxScroll == maxScroll
    ensures TimeToX(r.seconds) == scrollLeft
  {
    ScrollReport((scrollLeft - BaseWidth) / ZoomFactor, scrollLeft, maxScroll)
  }

  /** `timeScrollTo(t)`: the scrollLeft it sets. */
  function ScrollLeftAt(time: real): (r: real)
    ensures r == TimeToX(time) - BaseWidth
  {
    time * ZoomFactor
  }

  /** `midiKeys.indexOf(String(m))`. */
  function KeyIndex(m: int): (r: int)
    ensures -1 <= r < KeyCount
    ensures r >= 0 <==> m in MidiKeys()
    ensures r >= 0 ==> MidiKeys()[r] == m
  {
    if LowestKey <= m <= HighestKey then assert MidiKeys()[m - LowestKey] == m; m - LowestKey else -1
  }

  /** The top of a note's box as `printMidiFile` computes it. */
  function NoteTopAsWritten(m: int): real {
    CanvasHeight - KeyIndex(m) as real * NoteHeight
  }

  /** The top of the key's row: rows are counted up from the bottom edge. */
  function NoteTop(m: int): real {
    CanvasHeight - (KeyIndex(m) + 1) as real * NoteHeight
  }

  // ---------------------------------------------------------------------
  // Key names and the key strip
  // ---------------------------------------------------------------------

  const PitchClassNames: seq<string> := ["C", "C#", "D", "D#", "E", "F", "F#", "G", "G#", "A", "A#", "B"]

  /** The entry of the note table for key m, e.g. "C#2" for 37. */
  function NoteName(m: int): string
    requires LowestKey <= m <= HighestKey
  {
    PitchClassNames[m % 12] + [(48 + m / 12 - 1) as char]
  }

  function CharAt(s: string, i: nat): Option<char> {
    if i < |s| then Some(s[i]) else None
  }

  /** Which branch of the key walk a note name takes. */
  datatype KeyBranch = CBranch | EBranch | FBranch | BBranch | DSharpBranch | SharpBranch | OtherBranch

  /** The tests of the key walk, in their order, on the characters of the name. */
  function BranchOf(name: string): KeyBranch {
    var c0, c1 := CharAt(name, 0), CharAt(name, 1);
    if c0 == Some('C') && c1 != Some('#') then CBranch
    else if c0 == Some('E') && c1 != Some('b') then EBranch
    else if c0 == Some('F') && c1 != Some('#') then FBranch
    else if c0 == Some('B') then BBranch
    else if c0 == Some('D') && c1 == Some('#') then DSharpBranch
    else if c1 == Some('#') || c1 == Some('b') then SharpBranch
    else OtherBranch
  }

  /** How far a branch moves the running offset. */
  function Advance(b: KeyBranch): real {
    match b
    case CBranch => 0.0
    case EBranch => WhiteKeyHeight
    case FBranch => NoteHeight
    case BBranch => WhiteKeyHeight + NoteHeight / 2.0
    case DSharpBranch => NoteHeight / 2.0
    case SharpBranch => NoteHeight
    case OtherBranch => NoteHeight
  }

  /** What is drawn on the layers of the roll. */
  datatype Shape =
    | GridLine(y: real, width: real)
    | WhiteKey(top: real, height: real, keyName: string)
    | BlackKey(top: real, height: real)
    | Playhead(x: real, height: real)
    | NoteBox(left: real, top: real, width: real, height: real, velocity: real)
    | ContourPath(joinedFrom: Option<real>, xs: seq<real>)

  /** The key a branch draws at running offset `span`. */
  function KeyFor(b: KeyBranch, span: real, name: string): Shape {
    match b
    case CBranch => WhiteKey(CanvasHeight - span, WhiteKeyHeight, name)
    case EBranch => WhiteKey(CanvasHeight - span - NoteHeight, WhiteKeyHeight, name)
    case FBranch => WhiteKey(CanvasHeight - span - NoteHeight, WhiteKeyHeight, name)
    case BBranch => WhiteKey(CanvasHeight - span - NoteHeight / 2.0, WhiteKeyHeight, name)
    case DSharpBranch => BlackKey(CanvasHeight - span - NoteHeight / 2.0, NoteHeight)
    case SharpBranch => BlackKey(CanvasHeight - span - NoteHeight / 2.0, NoteHeight)
    case OtherBranch => WhiteKey(CanvasHeight - span - NoteHeight, WhiteKeyHeight + NoteHeight / 2.0, name)
  }

  /** The values of the note table `notes`, in key order: one name per key 36..84. */
  function NoteNames(): (names: seq<string>)
    ensures |names| == KeyCount
    ensures forall i :: 0 <= i < KeyCount ==> names[i] == NoteName(LowestKey + i)
  {
    seq(KeyCount, i requires 0 <= i < KeyCount => NoteName(LowestKey + i))
  }

  /** The running offset `currentSpanY` before the walk over `names` draws key i. */
  function SpanBefore(names: seq<string>, i: nat): real
    requires i <= |names|
  {
    if i == 0 then WhiteKeyHeight else SpanBefore(names, i - 1) + Advance(BranchOf(names[i - 1]))
  }

  /** The key the walk draws for entry i. */
  function KeyAt(names: seq<string>, i: nat): Shape
    requires i < |names|
  {
    KeyFor(BranchOf(names[i]), SpanBefore(names, i), names[i])
  }

  /** The first n keys of the walk, bottom key first. */
  function KeyStrip(names: seq<string>, n: nat): seq<Shape>
    requires n <= |names|
  {
    if n == 0 then [] else KeyStrip(names, n - 1) + [KeyAt(names, n - 1)]
  }

  /** The first n horizontal grid lines, at y = noteHeight · i for i = 1..n. */
  function GridLines(n: nat, width: real): seq<Shape> {
    seq(n, i => GridLine(NoteHeight * (i + 1) as real, width))
  }

  /** Everything `printTemplate` draws for the current canvas width. */
  function TemplateShapes(width: real): seq<Shape> {
    TemplateOf(NoteNames(), width)
  }

  /** The template for a note table `names`: a grid line per row, a key per entry, the playhead. */
  function TemplateOf(names: seq<string>, width: real): seq<Shape> {
    GridLines(|names|, width) + KeyStrip(names, |names|) + [Playhead(BaseWidth, CanvasHeight)]
  }

  /** The branch each pitch class takes (0 = C). */
  function PitchClassBranch(pc: int): KeyBranch {
    if pc == 0 then CBranch
    else if pc == 3 then DSharpBranch
    else if pc == 4 then EBranch
    else if pc == 5 then FBranch
    else if pc == 11 then BBranch
    else if pc in {1, 6, 8, 10} then SharpBranch
    else OtherBranch
  }

  predicate IsBlackPitchClass(pc: int) {
    pc in {1, 3, 6, 8, 10}
  }

  /** Entry i of `names` is named after pitch class i mod 12, as the note table's entries are. */
  predicate FollowsPitchClasses(names: seq<string>) {
    forall i :: 0 <= i < |names| ==> BranchOf(names[i]) == PitchClassBranch(i % 12)
  }

  lemma BranchOfNoteName(m: int)
    requires LowestKey <= m <= HighestKey
    ensures BranchOf(NoteName(m)) == PitchClassBranch(m % 12)
  {
    var d := (48 + m / 12 - 1) as char;
    assert '0' <= d <= '9';
  }

  lemma NoteNamesFollowPitchClasses()
    ensures FollowsPitchClasses(NoteNames())
  {
    forall i | 0 <= i < KeyCount
      ensures BranchOf(NoteNames()[i]) == PitchClassBranch(i % 12)
    {
      BranchOfNoteName(LowestKey + i);
      assert (LowestKey + i) % 12 == i % 12;
    }
  }

  /** How far above row i's bottom edge the running offset lies after walking i keys. */
  function Slack(pc: int): real {
    if pc == 0 then WhiteKeyHeight else if pc == 4 then 0.0 else NoteHeight / 2.0
  }

  lemma SlackStep(pc: int)
    requires 0 <= pc < 12
    ensures Slack(pc) + Advance(PitchClassBranch(pc)) == NoteHeight + Slack((pc + 1) % 12)
  {
  }

  lemma PitchClassStep(i: nat)
    requires i > 0
    ensures ((i - 1) % 12 + 1) % 12 == i % 12
  {
    var q, r := (i - 1) / 12, (i - 1) % 12;
    assert i == 12 * q + r + 1;
    if r < 11 {
      assert i % 12 == r + 1;
    } else {
      assert i == 12 * (q + 1);
    }
  }

  lemma RowStep(i: nat)
    ensures i as real * NoteHeight + NoteHeight == (i + 1) as real * NoteHeight
  {
  }

  /** The running offset in closed form: one note height per key, plus a slack set by the pitch class. */
  lemma {:induction false} SpanClosedForm(names: seq<string>, i: nat)
    requires FollowsPitchClasses(names) && i <= |names|
    ensures SpanBefore(names, i) == i as real * NoteHeight + Slack(i % 12)
  {
    if i > 0 {
      SpanClosedForm(names, i - 1);
      ClosedFormStep(i, SpanBefore(names, i - 1), BranchOf(names[i - 1]));
    }
  }

  /** One key further up, the closed form advances by one row and the next pitch class's slack. */
  lemma ClosedFormStep(i: nat, before: real, b: KeyBranch)
    requires i > 0 && b == PitchClassBranch((i - 1) % 12)
    requires before == (i - 1) as real * NoteHeight + Slack((i - 1) % 12)
    ensures before + Advance(b) == i as real * NoteHeight + Slack(i % 12)
  {
    SlackStep((i - 1) % 12);
    PitchClassStep(i);
    RowStep(i - 1);
  }

  lemma {:induction false} KeyStripProps(names: seq<string>, n: nat)
    requires n <= |names|
    ensures |KeyStrip(names, n)| == n
    ensures forall i :: 0 <= i < n ==> KeyStrip(names, n)[i] == KeyAt(names, i)
  {
    if n > 0 {
      KeyStripProps(names, n - 1);
    }
  }

  /**
   * Key i of the walk: sharps are black keys one note height tall, C/E/F/B
   * white keys of 1.5 note heights and D/G/A white keys of 2, each white key
   * labelled with its name. A black key covers exactly row i, whose bottom
   * edge lies i note heights above the bottom of the canvas.
   */
  lemma KeyGeometry(names: seq<string>, i: nat)
    requires FollowsPitchClasses(names) && i < |names|
    ensures KeyAt(names, i).BlackKey? <==> IsBlackPitchClass(i % 12)
    ensures KeyAt(names, i).BlackKey? ==>
      KeyAt(names, i).height == NoteHeight && KeyAt(names, i).top == CanvasHeight - (i + 1) as real * NoteHeight
    ensures KeyAt(names, i).WhiteKey? ==> KeyAt(names, i).keyName == names[i]
    ensures KeyAt(names, i).WhiteKey? && i % 12 in {0, 4, 5, 11} ==> KeyAt(names, i).height == 1.5 * NoteHeight
    ensures KeyAt(names, i).WhiteKey? && i % 12 in {2, 7, 9} ==> KeyAt(names, i).height == 2.0 * NoteHeight
  {
    SpanClosedForm(names, i);
    RowStep(i);
  }

  /** The white key above white key i. */
  function NextWhite(i: nat): nat {
    if i % 12 in {4, 11} then i + 1 else i + 2
  }

  lemma NextWhiteClass(i: nat)
    requires !IsBlackPitchClass(i % 12)
    ensures NextWhite(i) % 12 == if i % 12 == 11 then 0 else if i % 12 == 4 then 5 else i % 12 + 2
  {
  }

  /** White keys tile the strip: each sits exactly on top of the white key below it. */
  lemma WhiteKeysTile(names: seq<string>, i: nat)
    requires FollowsPitchClasses(names) && NextWhite(i) < |names|
    requires !IsBlackPitchClass(i % 12)
    ensures KeyAt(names, i).WhiteKey? && KeyAt(names, NextWhite(i)).WhiteKey?
    ensures KeyAt(names, NextWhite(i)).top + KeyAt(names, NextWhite(i)).height == KeyAt(names, i).top
  {
    var j := NextWhite(i);
    NextWhiteClass(i);
    WhiteKeyAt(names, i);
    WhiteKeyAt(names, j);
    assert j as real * NoteHeight == i as real * NoteHeight + (j - i) as real * NoteHeight;
    TileStep(i % 12);
  }

  /** How far below the running offset plus i rows a white key of pitch class pc has its top. */
  function WhiteLift(pc: int): real {
    Slack(pc) + (match PitchClassBranch(pc) case CBranch => 0.0 case BBranch => NoteHeight / 2.0 case _ => NoteHeight)
  }

  /** The height of a white key of pitch class pc. */
  function WhiteSize(pc: int): real {
    if PitchClassBranch(pc) == OtherBranch then WhiteKeyHeight + NoteHeight / 2.0 else WhiteKeyHeight
  }

  /** White key i in closed form. */
  lemma WhiteKeyAt(names: seq<string>, i: nat)
    requires FollowsPitchClasses(names) && i < |names| && !IsBlackPitchClass(i % 12)
    ensures KeyAt(names, i) == WhiteKey(CanvasHeight - i as real * NoteHeight - WhiteLift(i % 12), WhiteSize(i % 12), names[i])
  {
    SpanClosedForm(names, i);
  }

  /** The white key above pitch class pc, one or two rows up, lies on top of it. */
  lemma TileStep(pc: int)
    requires 0 <= pc < 12 && !IsBlackPitchClass(pc)
    ensures var next := if pc == 11 then 0 else if pc == 4 then 5 else pc + 2;
      (if pc in {4, 11} then 1.0 else 2.0) * NoteHeight + WhiteLift(next) - WhiteSize(next) == WhiteLift(pc)
  {
  }

  /** The walk over the note table starts with C2 lying on the bottom edge of the canvas. */
  lemma LowestKeySitsOnBottom()
    ensures KeyAt(NoteNames(), 0) == WhiteKey(CanvasHeight - WhiteKeyHeight, WhiteKeyHeight, "C2")
  {
    BranchOfNoteName(LowestKey);
  }

  // ---------------------------------------------------------------------
  // Note geometry
  // ---------------------------------------------------------------------

  /** The box `printMidiFile` draws for a note whose row top is `top`. */
  function NoteBoxOf(n: MidiNote, top: real): Shape {
    NoteBox(TimeToX(n.time), top, n.duration * ZoomFactor, NoteHeight, n.velocity)
  }

  /**
   * A box spans exactly [timeToX(start), timeToX(start + duration)]; for a
   * note at 2.0 s lasting 0.5 s the left edge is 180 and the width 20.
   */
  lemma NoteBoxSpansItsTime(n: MidiNote, top: real)
    ensures NoteBoxOf(n, top).left == TimeToX(n.time)
    ensures NoteBoxOf(n, top).left + NoteBoxOf(n, top).width == TimeToX(n.time + n.duration)
    ensures n.time == 2.0 && n.duration == 0.5 ==> NoteBoxOf(n, top).left == 180.0 && NoteBoxOf(n, top).width == 20.0
  {
  }

  /**
   * As written, pitch p is drawn with top canvasHeight − (p − 36) · noteHeight:
   * one row below its key, so pitch 36 starts at the canvas's bottom edge, and
   * an out-of-range pitch (indexOf −1) starts one row further down.
   */
  lemma NoteTopAsWrittenIsOneRowLow(m: int)
    ensures LowestKey <= m <= HighestKey ==> NoteTopAsWritten(m) == CanvasHeight - (m - LowestKey) as real * NoteHeight
    ensures NoteTopAsWritten(m) == NoteTop(m) + NoteHeight
    ensures NoteTopAsWritten(LowestKey) == CanvasHeight
    ensures !(LowestKey <= m <= HighestKey) ==> NoteTopAsWritten(m) == CanvasHeight + NoteHeight
  {
  }

  /** The as-written box of a low sharp sits below its black key instead of on it. */
  lemma AsWrittenMissesBlackKey()
    ensures KeyAt(NoteNames(), 1).BlackKey? && NoteTopAsWritten(LowestKey + 1) == KeyAt(NoteNames(), 1).top + NoteHeight
  {
    NoteNamesFollowPitchClasses();
    KeyGeometry(NoteNames(), 1);
  }

  /**
   * With rows counted from the bottom edge, every key's box lies inside the
   * canvas and is the row of its black key; other pitches start at the
   * bottom edge and are not visible.
   */
  lemma NoteTopWithinCanvas(m: int)
    ensures LowestKey <= m <= HighestKey ==> 0.0 <= NoteTop(m) && NoteTop(m) + NoteHeight <= CanvasHeight
    ensures LowestKey <= m <= HighestKey ==> NoteTop(m) == CanvasHeight - (m - LowestKey + 1) as real * NoteHeight
    ensures !(LowestKey <= m <= HighestKey) ==> NoteTop(m) == CanvasHeight
  {
    if LowestKey <= m <= HighestKey {
      RowWithinCanvas(m - LowestKey);
    }
  }

  /** A note on a black key gets exactly that key's row. */
  lemma NoteTopOnBlackKey(m: int)
    requires LowestKey <= m <= HighestKey
    ensures KeyAt(NoteNames(), m - LowestKey).BlackKey? ==> NoteTop(m) == KeyAt(NoteNames(), m - LowestKey).top
  {
    NoteNamesFollowPitchClasses();
    BlackKeyRow(NoteNames(), m - LowestKey);
  }

  lemma BlackKeyRow(names: seq<string>, i: nat)
    requires FollowsPitchClasses(names) && i < |names| == KeyCount
    ensures KeyAt(names, i).BlackKey? ==> NoteTop(LowestKey + i) == KeyAt(names, i).top
  {
    KeyGeometry(names, i);
  }

  lemma RowWithinCanvas(k: int)
    requires 0 <= k < KeyCount
    ensures 0.0 <= CanvasHeight - (k + 1) as real * NoteHeight <= CanvasHeight - NoteHeight
  {
  }

  /** The scroll report for scrollLeft 500 is 10 seconds. */
  lemma ScrollReportExample()
    ensures OnScroll(500.0, 0.0).seconds == 10.0
  {
  }

  /**
   * `timeScrollTo` and the scroll listener are not inverses: scrolling to t
   * reports t − baseWidth/zoomFactor = t − 2.5 seconds.
   */
  lemma ScrollToThenReport(t: real, maxScroll: real)
    ensures OnScroll(ScrollLeftAt(t), maxScroll).seconds == t - BaseWidth / ZoomFactor
    ensures OnScroll(ScrollLeftAt(t), maxScroll).seconds != t
  {
  }

  // ---------------------------------------------------------------------
  // Particles
  // ---------------------------------------------------------------------

  /** A spark. `hue` and `lightness` are the numbers in its hsla colour. */
  datatype Particle = Particle(x: real, y: real, vx: real, vy: real, alpha: real, hue: real, lightness: real, life: real)

  predicate Unit(r: real) {
    0.0 <= r < 1.0
  }

  /** `createParticle(x, y)`, given the four `Math.random()` draws it makes, in order. */
  function CreateParticle(x: real, y: real, r1: real, r2: real, r3: real, r4: real): (p: Particle)
    ensures p.x == x && p.y == y && p.alpha == 1.0 && p.life == 1.0
    ensures Unit(r1) ==> -1.5 <= p.vx < 1.5
    ensures Unit(r2) ==> -5.0 < p.vy <= -2.0
    ensures Unit(r3) ==> 200.0 <= p.hue < 230.0
    ensures Unit(r4) ==> 50.0 <= p.lightness < 70.0
  {
    Particle(x, y, (r1 - 0.5) * 3.0, -r2 * 3.0 - 2.0, 1.0, 200.0 + r3 * 30.0, 50.0 + r4 * 20.0, 1.0)
  }

  /** The spark made from the four draws starting at `from`. */
  function SparkAt(y: real, random: nat -> real, from: nat): Particle {
    CreateParticle(BaseWidth, y, random(from), random(from + 1), random(from + 2), random(from + 3))
  }

  /** The k sparks `printSingleNote` pushes, drawing from position `from` of the random stream. */
  function Sparks(y: real, random: nat -> real, from: nat, k: nat): seq<Particle> {
    seq(k, j requires 0 <= j => SparkAt(y, random, from + 4 * j))
  }

  /** The particle-count test of `printSingleNote`: the box straddles the playhead. */
  predicate CrossesPlayhead(startPixel: real, durationPixel: real) {
    startPixel <= BaseWidth && startPixel + durationPixel >= BaseWidth
  }

  /** One frame of motion: x += vx, y += vy, vy += 0.1, life −= 2·dt, alpha = max(0, life). */
  function Advanced(p: Particle, dt: real): Particle {
    var life := p.life - dt * 2.0;
    p.(x := p.x + p.vx, y := p.y + p.vy, vy := p.vy + 0.1, life := life, alpha := if life > 0.0 then life else 0.0)
  }

  /** What one `animate` frame leaves of the particle list. */
  function Survivors(ps: seq<Particle>, dt: real): seq<Particle> {
    if ps == [] then []
    else
      var p := Advanced(ps[0], dt);
      (if p.life <= 0.0 then [] else [p]) + Survivors(ps[1..], dt)
  }

  /** The reference reading of a frame: advance every particle, then keep the live ones. */
  function AllAdvanced(ps: seq<Particle>, dt: real): seq<Particle> {
    seq(|ps|, i requires 0 <= i < |ps| => Advanced(ps[i], dt))
  }

  function Alive(qs: seq<Particle>): seq<Particle> {
    if qs == [] then [] else (if qs[0].life > 0.0 then [qs[0]] else []) + Alive(qs[1..])
  }

  lemma {:induction false} AliveMembers(qs: seq<Particle>)
    ensures forall q :: q in Alive(qs) <==> q in qs && q.life > 0.0
    ensures |Alive(qs)| <= |qs|
  {
    if qs != [] {
      AliveMembers(qs[1..]);
      assert qs == [qs[0]] + qs[1..];
    }
  }

  /** Filtering keeps the relative order: it distributes over concatenation. */
  lemma {:induction false} AliveOfConcat(a: seq<Particle>, b: seq<Particle>)
    ensures Alive(a + b) == Alive(a) + Alive(b)
  {
    if a != [] {
      assert (a + b)[1..] == a[1..] + b;
      AliveOfConcat(a[1..], b);
    } else {
      assert a + b == b;
    }
  }

  lemma {:induction false} SurvivorsAreLiveAdvanced(ps: seq<Particle>, dt: real)
    ensures Survivors(ps, dt) == Alive(AllAdvanced(ps, dt))
    ensures forall q :: q in Survivors(ps, dt) ==> q.life > 0.0 && q.alpha == q.life
    ensures |Survivors(ps, dt)| <= |ps|
  {
    if ps != [] {
      SurvivorsAreLiveAdvanced(ps[1..], dt);
      assert AllAdvanced(ps, dt) == [Advanced(ps[0], dt)] + AllAdvanced(ps[1..], dt);
    }
    AliveMembers(AllAdvanced(ps, dt));
  }

  // ---------------------------------------------------------------------
  // The layout pass as a function of the roll's state
  // ---------------------------------------------------------------------

  /**
   * The abstract value of a `Roll`, apart from the template layers: the
   * note layer `overlay` holds the note boxes and contour strokes.
   */
  datatype RollState = RollState(
    midi: Option<Midi>,
    contour: Option<seq<real>>,
    maxScroll: real,
    canvasWidth: real,
    lastStrokeX: real,
    particles: seq<Particle>,
    lastTime: real,
    drawn: nat,
    overlay: seq<Shape>)

  const InitialRoll: RollState := RollState(None, None, 0.0, BaseWidth, 0.0, [], 0.0, 0, [])

  /** `resize(null, w)`: setting a canvas's width clears what was drawn on it. */
  function AfterResize(s: RollState, width: real): RollState {
    s.(canvasWidth := width, overlay := [])
  }

  /** `printSingleNote(offsetPixels, startPixel, durationPixel, velocity)`. */
  function AfterSingleNote(s: RollState, random: nat -> real, top: real, startPixel: real, durationPixel: real, velocity: real): RollState {
    var box := s.overlay + [NoteBox(startPixel, top, durationPixel, NoteHeight, velocity)];
    if CrossesPlayhead(startPixel, durationPixel) then
      s.(overlay := box, particles := s.particles + Sparks(top + NoteHeight / 2.0, random, s.drawn, 5), drawn := s.drawn + 20)
    else s.(overlay := box)
  }

  /** The x of each of k contour vertices. */
  function ContourXs(offsetX: real, step: real, k: nat): seq<real> {
    seq(k, j => offsetX + j as real * step)
  }

  lemma ContourXsStep(offsetX: real, step: real, k: nat)
    ensures ContourXs(offsetX, step, k + 1) == ContourXs(offsetX, step, k) + [offsetX + k as real * step]
  {
    var l, r := ContourXs(offsetX, step, k + 1), ContourXs(offsetX, step, k) + [offsetX + k as real * step];
    assert |l| == |r|;
    forall j | 0 <= j < |l| ensures l[j] == r[j] {
      if j < k {
        assert r[j] == ContourXs(offsetX, step, k)[j];
      }
    }
  }

  /** Whether the new contour is joined to where the previous one ended. */
  predicate JoinsPrevious(lastStrokeX: real, offsetX: real) {
    lastStrokeX != 0.0 && lastStrokeX + ZoomFactor / 4.0 >= offsetX
  }

  /** `printMelodyContour` for k samples, as far as x goes. */
  function AfterContour(s: RollState, k: nat, step: real, offsetX: real): RollState {
    var joined := if JoinsPrevious(s.lastStrokeX, offsetX) then Some(s.lastStrokeX) else None;
    s.(overlay := s.overlay + [ContourPath(joined, ContourXs(offsetX, step, k))],
       lastStrokeX := offsetX + k as real * step - step)
  }

  /**
   * The contour samples of a note: indices round(time/len) .. round((time + dur)/len),
   * clipped; a zero len makes both bounds non-finite.
   */
  function ContourWindow(json: seq<real>, n: MidiNote, lenSeconds: real): seq<real> {
    RoundedSlice(json, RoundQuotient(n.time, lenSeconds), PlusOne(RoundQuotient(n.time + n.duration, lenSeconds)))
  }

  /** One note of the layout: its box at the top line 369 computes, then its stretch of the contour. */
  function AfterLayoutNote(s: RollState, random: nat -> real, n: MidiNote, json: seq<real>, lenSeconds: real): RollState {
    var top := NoteTopAsWritten(n.midi);
    var boxed := AfterSingleNote(s, random, top, TimeToX(n.time), n.duration * ZoomFactor, n.velocity);
    AfterContour(boxed, |ContourWindow(json, n, lenSeconds)|, lenSeconds * ZoomFactor, TimeToX(n.time))
  }

  function AfterLayoutNotes(s: RollState, random: nat -> real, notes: seq<MidiNote>, json: seq<real>, lenSeconds: real): RollState {
    if notes == [] then s
    else AfterLayoutNote(AfterLayoutNotes(s, random, notes[..|notes| - 1], json, lenSeconds), random, notes[|notes| - 1], json, lenSeconds)
  }

  /** A track's contour step `duration / json.length` is a finite number only for a non-empty contour. */
  predicate LaysOut(t: MidiTrack, json: seq<real>) {
    |json| > 0
  }

  /** The track time one contour sample covers. */
  function LenSeconds(t: MidiTrack, json: seq<real>): (r: real)
    requires |json| > 0
    ensures r * |json| as real == t.duration
    ensures r == 0.0 <==> t.duration == 0.0
  {
    t.duration / |json| as real
  }

  function AfterLayoutTrack(s: RollState, random: nat -> real, t: MidiTrack, json: seq<real>, maxWidth: int): RollState
    requires LaysOut(t, json)
  {
    var scroll := TimeToX(t.duration);
    var sized := AfterResize(s.(maxScroll := scroll), scroll + maxWidth as real);
    if t.notes == [] then sized
    else AfterLayoutNotes(sized, random, t.notes, json, LenSeconds(t, json))
  }

  /** A track with notes: the sized roll, then its notes at the track's contour step. */
  lemma LayoutTrackOfNotes(s: RollState, random: nat -> real, t: MidiTrack, json: seq<real>, maxWidth: int)
    requires LaysOut(t, json) && t.notes != []
    ensures AfterLayoutTrack(s, random, t, json, maxWidth)
      == AfterLayoutNotes(AfterResize(s.(maxScroll := TimeToX(t.duration)), TimeToX(t.duration) + maxWidth as real),
                          random, t.notes, json, LenSeconds(t, json))
  {
  }

  function AfterLayoutTracks(s: RollState, random: nat -> real, tracks: seq<MidiTrack>, json: seq<real>, maxWidth: int): RollState
    requires forall t :: t in tracks ==> LaysOut(t, json)
  {
    if tracks == [] then s
    else AfterLayoutTrack(AfterLayoutTracks(s, random, tracks[..|tracks| - 1], json, maxWidth), random, tracks[|tracks| - 1], json, maxWidth)
  }

  /** Laying out one more track lays it out over what the earlier ones left. */
  lemma LayoutTracksStep(s: RollState, random: nat -> real, tracks: seq<MidiTrack>, t: nat, json: seq<real>, maxWidth: int)
    requires t < |tracks| && forall u :: u in tracks ==> LaysOut(u, json)
    ensures forall u :: u in tracks[..t] ==> LaysOut(u, json)
    ensures AfterLayoutTracks(s, random, tracks[..t + 1], json, maxWidth)
      == AfterLayoutTrack(AfterLayoutTracks(s, random, tracks[..t], json, maxWidth), random, tracks[t], json, maxWidth)
  {
    assert tracks[..t + 1][..t] == tracks[..t];
    assert tracks[t] in tracks;
  }

  /** What the continuation of `printMidiFile` does once the contour has been fetched. */
  function AfterContourLoaded(s: RollState, random: nat -> real, json: seq<real>, maxWidth: int): Result<RollState, JsError>
    requires s.midi.Some? ==> forall t :: t in s.midi.value.tracks ==> LaysOut(t, json)
  {
    var reset := s.(contour := Some(json), lastStrokeX := 0.0);
    if s.midi.None? then Failure(TypeError)
    else Success(AfterLayoutTracks(reset, random, s.midi.value.tracks, json, maxWidth))
  }

  // ---------------------------------------------------------------------
  // Properties of the layout pass
  // ---------------------------------------------------------------------

  /** The template draws every grid line, then every key of the walk once, then the playhead. */
  lemma TemplateDrawsEveryKeyOnce(width: real)
    ensures |TemplateShapes(width)| == 2 * KeyCount + 1
    ensures forall i :: 0 <= i < KeyCount ==> TemplateShapes(width)[i] == GridLine(NoteHeight * (i + 1) as real, width)
    ensures forall i :: 0 <= i < KeyCount ==> TemplateShapes(width)[KeyCount + i] == KeyAt(NoteNames(), i)
    ensures TemplateShapes(width)[2 * KeyCount] == Playhead(BaseWidth, CanvasHeight)
  {
    TemplateLayout(NoteNames(), width);
  }

  lemma TemplateLayout(names: seq<string>, width: real)
    ensures var t, n := TemplateOf(names, width), |names|;
      && |t| == 2 * n + 1
      && (forall i :: 0 <= i < n ==> t[i] == GridLine(NoteHeight * (i + 1) as real, width))
      && (forall i :: 0 <= i < n ==> t[n + i] == KeyAt(names, i))
      && t[2 * n] == Playhead(BaseWidth, CanvasHeight)
  {
    var n := |names|;
    KeyStripProps(names, n);
    assert |TemplateOf(names, width)| == 2 * n + 1;
    TemplateGrid(names, width);
    TemplateKeys(names, width);
  }

  lemma TemplateGrid(names: seq<string>, width: real)
    ensures forall i :: 0 <= i < |names| ==> TemplateOf(names, width)[i] == GridLine(NoteHeight * (i + 1) as real, width)
  {
    var g := GridLines(|names|, width);
    Concat3(g, KeyStrip(names, |names|), [Playhead(BaseWidth, CanvasHeight)]);
    assert forall i :: 0 <= i < |names| ==> g[i] == GridLine(NoteHeight * (i + 1) as real, width);
  }

  lemma TemplateKeys(names: seq<string>, width: real)
    ensures |TemplateOf(names, width)| == 2 * |names| + 1
    ensures forall i :: 0 <= i < |names| ==> TemplateOf(names, width)[|names| + i] == KeyAt(names, i)
    ensures TemplateOf(names, width)[2 * |names|] == Playhead(BaseWidth, CanvasHeight)
  {
    var n := |names|;
    var g, k, p := GridLines(n, width), KeyStrip(names, n), [Playhead(BaseWidth, CanvasHeight)];
    KeyStripProps(names, n);
    var t := TemplateOf(names, width);
    assert t == (g + k) + p;
    forall i | 0 <= i < n ensures t[n + i] == KeyAt(names, i) {
      assert (g + k)[n + i] == k[i];
      assert t[n + i] == (g + k)[n + i];
    }
    assert t[2 * n] == p[0];
  }

  /** Where the parts of a three-part concatenation lie. */
  lemma Concat3<T>(a: seq<T>, b: seq<T>, c: seq<T>)
    ensures |a + b + c| == |a| + |b| + |c|
    ensures forall i :: 0 <= i < |a| ==> (a + b + c)[i] == a[i]
    ensures forall i :: 0 <= i < |b| ==> (a + b + c)[|a| + i] == b[i]
    ensures forall i :: 0 <= i < |c| ==> (a + b + c)[|a| + |b| + i] == c[i]
  {
  }

  /**
   * `printSingleNote` pushes exactly five sparks when the box straddles the
   * playhead, each at (baseWidth, top + noteHeight/2) with life and alpha 1;
   * otherwise the particles are untouched.
   */
  lemma SingleNoteSparks(s: RollState, random: nat -> real, top: real, startPixel: real, durationPixel: real, velocity: real)
    ensures var r := AfterSingleNote(s, random, top, startPixel, durationPixel, velocity);
      && r.overlay == s.overlay + [NoteBox(startPixel, top, durationPixel, NoteHeight, velocity)]
      && (CrossesPlayhead(startPixel, durationPixel) ==>
            |r.particles| == |s.particles| + 5 && r.particles[..|s.particles|] == s.particles
            && forall j :: |s.particles| <= j < |r.particles| ==>
                 r.particles[j].x == BaseWidth && r.particles[j].y == top + NoteHeight / 2.0
                 && r.particles[j].life == 1.0 && r.particles[j].alpha == 1.0)
      && (!CrossesPlayhead(startPixel, durationPixel) ==> r.particles == s.particles)
  {
  }

  /**
   * In the layout pass a note with a non-negative time straddles the
   * playhead only when it starts at time 0: sparks are spawned once, while
   * laying out, not as the playhead reaches a note.
   */
  lemma LayoutSparksOnlyAtTimeZero(n: MidiNote)
    requires n.time >= 0.0 && n.duration >= 0.0
    ensures CrossesPlayhead(TimeToX(n.time), n.duration * ZoomFactor) <==> n.time == 0.0
  {
  }

  /** The contour's vertices start at offsetX and step by `step`; the stroke then ends at the last one. */
  lemma ContourStepping(s: RollState, k: nat, step: real, offsetX: real)
    ensures var r := AfterContour(s, k, step, offsetX);
      && r.overlay[..|s.overlay|] == s.overlay && |r.overlay| == |s.overlay| + 1
      && r.overlay[|s.overlay|].xs == ContourXs(offsetX, step, k)
      && |r.overlay[|s.overlay|].xs| == k
      && (k > 0 ==> r.lastStrokeX == r.overlay[|s.overlay|].xs[k - 1])
      && (forall j :: 0 < j < k ==> r.overlay[|s.overlay|].xs[j] - r.overlay[|s.overlay|].xs[j - 1] == step)
      && (r.overlay[|s.overlay|].joinedFrom.Some? <==> JoinsPrevious(s.lastStrokeX, offsetX))
  {
  }

  /** Laying out notes changes neither the scroll extent nor the canvas width, and draws two shapes per note. */
  lemma {:induction false} LayoutNotesKeepsSize(s: RollState, random: nat -> real, notes: seq<MidiNote>, json: seq<real>, lenSeconds: real)
    ensures AfterLayoutNotes(s, random, notes, json, lenSeconds).maxScroll == s.maxScroll
    ensures AfterLayoutNotes(s, random, notes, json, lenSeconds).canvasWidth == s.canvasWidth
    ensures |AfterLayoutNotes(s, random, notes, json, lenSeconds).overlay| == |s.overlay| + 2 * |notes|
  {
    if notes != [] {
      LayoutNotesKeepsSize(s, random, notes[..|notes| - 1], json, lenSeconds);
    }
  }

  /**
   * The last track decides the scroll extent and the canvas width, and
   * since resizing clears the canvas, only its notes remain drawn: a box
   * and a contour stroke for each.
   */
  lemma LastTrackWins(s: RollState, random: nat -> real, tracks: seq<MidiTrack>, json: seq<real>, maxWidth: int)
    requires forall t :: t in tracks ==> LaysOut(t, json)
    requires tracks != []
    ensures var r := AfterLayoutTracks(s, random, tracks, json, maxWidth);
      && r.maxScroll == tracks[|tracks| - 1].duration * ZoomFactor + BaseWidth
      && r.canvasWidth == r.maxScroll + maxWidth as real
      && |r.overlay| == 2 * |tracks[|tracks| - 1].notes|
  {
    var last := tracks[|tracks| - 1];
    assert last in tracks;
    var before := AfterLayoutTracks(s, random, tracks[..|tracks| - 1], json, maxWidth);
    var scroll := TimeToX(last.duration);
    var sized := AfterResize(before.(maxScroll := scroll), scroll + maxWidth as real);
    if last.notes != [] {
      LayoutNotesKeepsSize(sized, random, last.notes, json, LenSeconds(last, json));
    }
  }

  /** The contour window of a note inside the track covers round(time/len) .. round((time+dur)/len). */
  lemma ContourWindowBounds(json: seq<real>, n: MidiNote, lenSeconds: real)
    requires lenSeconds > 0.0 && n.time >= 0.0 && n.duration >= 0.0
    ensures var init, last := Round(n.time / lenSeconds), Round((n.time + n.duration) / lenSeconds);
      && 0 <= init <= last
      && (last < |json| ==> ContourWindow(json, n, lenSeconds) == json[init..last + 1])
  {
    var a, b := n.time / lenSeconds, (n.time + n.duration) / lenSeconds;
    assert a <= b by {
      assert n.time <= n.time + n.duration;
    }
    assert 0.0 <= a;
  }

  /**
   * A track of zero duration has a zero contour step: both window bounds are
   * then non-finite, and a note gets either the whole contour (starting at
   * or before 0 and ending after it) or nothing, all drawn at one x.
   */
  lemma ZeroLengthWindow(json: seq<real>, n: MidiNote)
    ensures ContourWindow(json, n, 0.0) == if n.time <= 0.0 && n.time + n.duration > 0.0 then json else []
  {
    var a, b := RoundQuotient(n.time, 0.0), PlusOne(RoundQuotient(n.time + n.duration, 0.0));
    if n.time <= 0.0 && n.time + n.duration > 0.0 {
      assert b == PosInfinity;
      assert a == NaN || a == NegInfinity;
    } else if n.time > 0.0 {
      assert a == PosInfinity;
    } else {
      assert b == NaN || b == NegInfinity;
    }
  }

  /**
   * The layout draws a note's box one row below its key's row, so the box
   * of the lowest key lies wholly below the canvas, and then one contour
   * stroke with a vertex per sample of the note's window.
   */
  lemma LayoutNoteBox(s: RollState, random: nat -> real, n: MidiNote, json: seq<real>, lenSeconds: real)
    ensures var r := AfterLayoutNote(s, random, n, json, lenSeconds);
      && |r.overlay| == |s.overlay| + 2 && r.overlay[..|s.overlay|] == s.overlay
      && r.overlay[|s.overlay|] == NoteBox(TimeToX(n.time), NoteTop(n.midi) + NoteHeight, n.duration * ZoomFactor, NoteHeight, n.velocity)
      && (n.midi == LowestKey ==> r.overlay[|s.overlay|].top == CanvasHeight)
      && r.overlay[|s.overlay| + 1].ContourPath?
      && |r.overlay[|s.overlay| + 1].xs| == |ContourWindow(json, n, lenSeconds)|
  {
    NoteTopAsWrittenIsOneRowLow(n.midi);
    var boxed := AfterSingleNote(s, random, NoteTopAsWritten(n.midi), TimeToX(n.time), n.duration * ZoomFactor, n.velocity);
    ContourStepping(boxed, |ContourWindow(json, n, lenSeconds)|, lenSeconds * ZoomFactor, TimeToX(n.time));
  }

  /** If the file was never given, the continuation throws after resetting the stroke. */
  lemma ContourLoadedWithoutMidi(s: RollState, random: nat -> real, json: seq<real>, maxWidth: int)
    requires s.midi.None?
    ensures AfterContourLoaded(s, random, json, maxWidth) == Failure(TypeError)
  {
  }

  /** The continuation starts over the contour stroke: the first note laid out is never joined to an earlier one. */
  lemma FirstContourNotJoined(s: RollState, random: nat -> real, n: MidiNote, json: seq<real>, lenSeconds: real)
    requires s.lastStrokeX == 0.0
    ensures var r := AfterLayoutNote(s, random, n, json, lenSeconds);
      r.overlay[|r.overlay| - 1].ContourPath? && r.overlay[|r.overlay| - 1].joinedFrom == None
  {
  }

  lemma Regroup<T>(a: seq<T>, b: seq<T>, c: seq<T>, d: seq<T>)
    ensures a + b + c + d == a + (b + c + d)
  {
  }

  // ---------------------------------------------------------------------
  // The object
  // ---------------------------------------------------------------------

  class Roll {
    var midi: Option<Midi>
    var contour: Option<seq<real>>
    var maxScroll: real
    var canvasWidth: real
    var lastStrokeX: real
    var particles: seq<Particle>
    var lastTime: real
    /** How many `Math.random()` values have been drawn so far. */
    var drawn: nat
    /** What is drawn on the template, white-key and black-key layers: grid, keys and playhead. */
    var keys: seq<Shape>
    /** What is drawn on the note layer: note boxes and contour strokes. */
    var overlay: seq<Shape>
    /** `scrollLeft` of the scroll container holding the template layer. */
    var scrollLeft: real
    /** The stream of values `Math.random()` returns. */
    const random: nat -> real

    function State(): RollState
      reads this
    {
      RollState(midi, contour, maxScroll, canvasWidth, lastStrokeX, particles, lastTime, drawn, overlay)
    }

    constructor (random: nat -> real)
      ensures State() == InitialRoll && keys == [] && scrollLeft == 0.0 && this.random == random
    {
      scrollLeft := 0.0;
      midi := None;
      contour := None;
      maxScroll := 0.0;
      canvasWidth := BaseWidth;
      lastStrokeX := 0.0;
      particles := [];
      lastTime := 0.0;
      drawn := 0;
      keys := [];
      overlay := [];
      this.random := random;
    }

    /** `timeScrollTo(time)`: moves the view so that `time` is at the left edge of the scrolled content. */
    method TimeScrollTo(time: real)
      modifies this`scrollLeft
      ensures scrollLeft == ScrollLeftAt(time)
    {
      scrollLeft := time * ZoomFactor;
    }

    /** What the scroll listener hands to the callback: seconds, scrollLeft and maxScroll. */
    method ScrollEvent() returns (report: ScrollReport)
      ensures report == OnScroll(scrollLeft, maxScroll)
    {
      report := ScrollReport((scrollLeft - BaseWidth) / ZoomFactor, scrollLeft, maxScroll);
    }

    /** One animation frame at timestamp `time` (milliseconds). */
    method Animate(time: real)
      modifies this`particles, this`lastTime
      ensures particles == Survivors(old(particles), (time - old(lastTime)) / 1000.0)
      ensures lastTime == time
    {
      var dt := (time - lastTime) / 1000.0;
      lastTime := time;
      var i := |particles|;
      while i > 0
        invariant 0 <= i <= |old(particles)| && lastTime == time
        invariant particles == old(particles)[..i] + Survivors(old(particles)[i..], dt)
        decreases i
      {
        i := i - 1;
        assert old(particles)[i..] == [old(particles)[i]] + old(particles)[i + 1..];
        assert particles[i] == old(particles)[i];
        var p := Advanced(particles[i], dt);
        if p.life <= 0.0 {
          particles := particles[..i] + particles[i + 1..];
        } else {
          particles := particles[i := p];
          assert particles == old(particles)[..i] + [p] + Survivors(old(particles)[i + 1..], dt);
        }
      }
    }

    /** `resize(null, w)`. */
    method Resize(width: real)
      modifies this`canvasWidth, this`keys, this`overlay
      ensures State() == AfterResize(old(State()), width) && keys == []
    {
      canvasWidth := width;
      keys := [];
      overlay := [];
    }

    method PrintTemplate()
      modifies this`keys
      ensures keys == old(keys) + TemplateShapes(canvasWidth)
    {
      ghost var before := keys;
      var names := NoteNames();
      DrawGrid(|names|);
      ghost var lined := keys;
      DrawKeys(names);
      ghost var keyed := keys;
      keys := keys + [Playhead(BaseWidth, CanvasHeight)];
      Regroup(before, GridLines(|names|, canvasWidth), KeyStrip(names, |names|), [Playhead(BaseWidth, CanvasHeight)]);
    }

    /** The grid part of `printTemplate`: a horizontal line at the top of every row. */
    method DrawGrid(n: nat)
      modifies this`keys
      ensures keys == old(keys) + GridLines(n, canvasWidth)
    {
      for i := 1 to n + 1
        invariant keys == old(keys) + GridLines(i - 1, canvasWidth)
      {
        assert GridLines(i, canvasWidth) == GridLines(i - 1, canvasWidth) + [GridLine(NoteHeight * i as real, canvasWidth)];
        keys := keys + [GridLine(NoteHeight * i as real, canvasWidth)];
      }
    }

    /** The key walk of `printTemplate` over the entries of the note table. */
    method DrawKeys(names: seq<string>)
      modifies this`keys
      ensures keys == old(keys) + KeyStrip(names, |names|)
    {
      var span := WhiteKeyHeight;
      for k := 0 to |names|
        invariant span == SpanBefore(names, k)
        invariant keys == old(keys) + KeyStrip(names, k)
      {
        var name := names[k];
        var c0, c1 := CharAt(name, 0), CharAt(name, 1);
        if c0 == Some('C') && c1 != Some('#') {
          keys := keys + [WhiteKey(CanvasHeight - span, WhiteKeyHeight, name)];
          span := span + 0.0;
        } else if c0 == Some('E') && c1 != Some('b') {
          keys := keys + [WhiteKey(CanvasHeight - span - NoteHeight, WhiteKeyHeight, name)];
          span := span + WhiteKeyHeight;
        } else if c0 == Some('F') && c1 != Some('#') {
          keys := keys + [WhiteKey(CanvasHeight - span - NoteHeight, WhiteKeyHeight, name)];
          span := span + NoteHeight;
        } else if c0 == Some('B') {
          keys := keys + [WhiteKey(CanvasHeight - span - NoteHeight / 2.0, WhiteKeyHeight, name)];
          span := span + WhiteKeyHeight + NoteHeight / 2.0;
        } else if c0 == Some('D') && c1 == Some('#') {
          keys := keys + [BlackKey(CanvasHeight - span - NoteHeight / 2.0, NoteHeight)];
          span := span + NoteHeight / 2.0;
        } else if c1 == Some('#') || c1 == Some('b') {
          keys := keys + [BlackKey(CanvasHeight - span - NoteHeight / 2.0, NoteHeight)];
          span := span + NoteHeight;
        } else {
          keys := keys + [WhiteKey(CanvasHeight - span - NoteHeight, WhiteKeyHeight + NoteHeight / 2.0, name)];
          span := span + NoteHeight;
        }
      }
    }

    method PrintSingleNote(offsetPixels: real, startPixel: real, durationPixel: real, velocity: real)
      modifies this`overlay, this`particles, this`drawn
      ensures State() == AfterSingleNote(old(State()), random, offsetPixels, startPixel, durationPixel, velocity)
    {
      overlay := overlay + [NoteBox(startPixel, offsetPixels, durationPixel, NoteHeight, velocity)];
      var trackerX := BaseWidth;
      if startPixel <= trackerX && startPixel + durationPixel >= trackerX {
        var y := offsetPixels + NoteHeight / 2.0;
        for i := 0 to 5
          invariant overlay == old(overlay) + [NoteBox(startPixel, offsetPixels, durationPixel, NoteHeight, velocity)]
          invariant particles == old(particles) + Sparks(y, random, old(drawn), i)
          invariant drawn == old(drawn) + 4 * i
        {
          assert Sparks(y, random, old(drawn), i + 1) == Sparks(y, random, old(drawn), i) + [SparkAt(y, random, drawn)];
          particles := particles + [CreateParticle(trackerX, y, random(drawn), random(drawn + 1), random(drawn + 2), random(drawn + 3))];
          drawn := drawn + 4;
        }
      }
    }

    /** `printMelodyContour(contours, …, singleStepDurationPixels, offsetX, …)`, as far as x goes. */
    method PrintMelodyContour(contours: seq<real>, step: real, offsetX: real)
      modifies this`overlay, this`lastStrokeX
      ensures State() == AfterContour(old(State()), |contours|, step, offsetX)
    {
      var joined := if lastStrokeX != 0.0 && lastStrokeX + ZoomFactor / 4.0 >= offsetX then Some(lastStrokeX) else None;
      var currentPosition := offsetX;
      var xs: seq<real> := [];
      for j := 0 to |contours|
        invariant xs == ContourXs(offsetX, step, j)
        invariant currentPosition == offsetX + j as real * step
        invariant overlay == old(overlay) && lastStrokeX == old(lastStrokeX)
      {
        ContourXsStep(offsetX, step, j);
        xs := xs + [currentPosition];
        currentPosition := currentPosition + step;
      }
      assert xs == ContourXs(offsetX, step, |contours|);
      overlay := overlay + [ContourPath(joined, xs)];
      lastStrokeX := currentPosition - step;
    }

    /** `printMidiFile(midiSource, jsonPath)`: keeps the file; the contour fetch completes later. */
    method PrintMidiFile(m: Midi)
      modifies this`midi
      ensures State() == old(State()).(midi := Some(m))
    {
      midi := Some(m);
    }

    /**
     * The `.then` continuation of `printMidiFile`'s fetch, given the fetched
     * contour and the parsed max-width of the scroll container.
     */
    method ContourLoaded(json: seq<real>, maxWidth: int) returns (r: Outcome<JsError>)
      requires midi.Some? ==> forall t :: t in midi.value.tracks ==> LaysOut(t, json)
      modifies this`contour, this`lastStrokeX, this`maxScroll, this`canvasWidth, this`keys, this`overlay, this`particles, this`drawn
      ensures AfterContourLoaded(old(State()), random, json, maxWidth).Success? <==> r.Pass?
      ensures r.Pass? ==> State() == AfterContourLoaded(old(State()), random, json, maxWidth).value
      ensures r.Pass? ==> keys == if old(midi).value.tracks == [] then old(keys) else TemplateShapes(canvasWidth)
      ensures r.Fail? ==> State() == old(State()).(contour := Some(json), lastStrokeX := 0.0) && keys == old(keys)
    {
      contour := Some(json);
      lastStrokeX := 0.0;
      if midi.None? {
        return Fail(TypeError);
      }
      LayoutTracks(midi.value.tracks, json, maxWidth);
      r := Pass;
    }

    /** The per-track loop of the continuation. */
    method LayoutTracks(tracks: seq<MidiTrack>, json: seq<real>, maxWidth: int)
      requires forall t :: t in tracks ==> LaysOut(t, json)
      modifies this`maxScroll, this`canvasWidth, this`keys, this`overlay, this`particles, this`drawn, this`lastStrokeX
      ensures State() == AfterLayoutTracks(old(State()), random, tracks, json, maxWidth)
      ensures keys == if tracks == [] then old(keys) else TemplateShapes(canvasWidth)
    {
      for t := 0 to |tracks|
        invariant State() == AfterLayoutTracks(old(State()), random, tracks[..t], json, maxWidth)
        invariant keys == if t == 0 then old(keys) else TemplateShapes(canvasWidth)
      {
        assert tracks[t] in tracks;
        LayoutTracksStep(old(State()), random, tracks, t, json, maxWidth);
        LayoutTrack(tracks[t], json, maxWidth);
      }
      assert tracks[..|tracks|] == tracks;
    }

    /** The body of the per-track loop of the continuation. */
    method LayoutTrack(track: MidiTrack, json: seq<real>, maxWidth: int)
      requires LaysOut(track, json)
      modifies this`maxScroll, this`canvasWidth, this`keys, this`overlay, this`particles, this`drawn, this`lastStrokeX
      ensures State() == AfterLayoutTrack(old(State()), random, track, json, maxWidth)
      ensures keys == TemplateShapes(canvasWidth)
    {
      ghost var before := State();
      SizeFor(track.duration, maxWidth);
      ghost var sized := State();
      if track.notes == [] {
        assert AfterLayoutTrack(before, random, track, json, maxWidth) == sized;
        return;
      }
      var lenSeconds := track.duration / |json| as real;
      assert lenSeconds == LenSeconds(track, json);
      LayoutTrackOfNotes(before, random, track, json, maxWidth);
      LayoutNotes(track.notes, json, lenSeconds);
    }

    /** The start of the per-track body: the scroll extent, the canvas width and the template. */
    method SizeFor(duration: real, maxWidth: int)
      modifies this`maxScroll, this`canvasWidth, this`keys, this`overlay
      ensures State() == AfterResize(old(State()).(maxScroll := TimeToX(duration)), TimeToX(duration) + maxWidth as real)
      ensures keys == TemplateShapes(canvasWidth)
    {
      maxScroll := duration * ZoomFactor + BaseWidth;
      Resize(maxScroll + maxWidth as real);
      PrintTemplate();
    }

    /** The per-note loop of a track. */
    method LayoutNotes(notes: seq<MidiNote>, json: seq<real>, lenSeconds: real)
      modifies this`overlay, this`particles, this`drawn, this`lastStrokeX
      ensures State() == AfterLayoutNotes(old(State()), random, notes, json, lenSeconds)
    {
      for j := 0 to |notes|
        invariant State() == AfterLayoutNotes(old(State()), random, notes[..j], json, lenSeconds)
      {
        assert notes[..j + 1][..j] == notes[..j];
        LayoutNote(notes[j], json, lenSeconds);
      }
      assert notes[..|notes|] == notes;
    }

    /** The body of the per-note loop: the note's box, then its stretch of the contour. */
    method LayoutNote(n: MidiNote, json: seq<real>, lenSeconds: real)
      modifies this`overlay, this`particles, this`drawn, this`lastStrokeX
      ensures State() == AfterLayoutNote(old(State()), random, n, json, lenSeconds)
    {
      var offsetY := CanvasHeight - KeyIndex(n.midi) as real * NoteHeight;
      PrintSingleNote(offsetY, n.time * ZoomFactor + BaseWidth, n.duration * ZoomFactor, n.velocity);
      var initSegment := RoundQuotient(n.time, lenSeconds);
      var lastSegment := RoundQuotient(n.time + n.duration, lenSeconds);
      PrintMelodyContour(RoundedSlice(json, initSegment, PlusOne(lastSegment)), lenSeconds * ZoomFactor, n.time * ZoomFactor + BaseWidth);
    }
  }
}
