/**
 * The viewer component (components/AudioMidiViewer/AudioMidiViewer.jsx):
 * its mount sequence, which builds an `AudioPlayer` and a `Pianoroll`,
 * the scroll callback that arbitrates between the view and the transport,
 * and the handlers of its buttons and stem controls.
 */
module MidiViewer {
  import opened Wrappers
  import opened JsSemantics
  import opened Tone
  import opened AudioPlayback
  import opened ViewerDom
  import Pianoroll

  /** The buttons as the component renders them: all three carry the class "play". */
  const RenderedButtons: seq<Button> := [Button("play", "Play"), Button("play", "Pause"), Button("play", "Stop")]

  /** The buttons with the classes the setup looks them up by. */
  const IntendedButtons: seq<Button> := [Button("play", "Play"), Button("pause", "Pause"), Button("stop", "Stop")]

  /**
   * The player after the mount sequence over the shared transport `t`,
   * given what `Midi.fromUrl` produced.
   */
  function PlayerAfterMount(urls: Entries, fetched: Result<Midi, JsError>, t: Transport): PlayerState {
    var loaded := AfterLoadAudio(InitialState.(transport := t), urls);
    if fetched.Failure? then loaded else AfterInitialize(AfterLoadMidi(loaded, fetched.value))
  }

  /**
   * The scroll callback: seek to the reported time only while not running,
   * and pause once the view is scrolled to the end.
   */
  function AfterScroll(s: PlayerState, report: Pianoroll.ScrollReport, unlocked: bool): PlayerState {
    var sought := if !s.running then AfterSeek(s, report.seconds, unlocked) else s;
    if report.scrollLeft >= report.maxScroll then AfterPause(sought) else sought
  }

  /** A click on button b runs the handlers attached to it, in the order they were attached. */
  function AfterClick(s: PlayerState, scroll: real, listeners: seq<Listener>, enabled: bool, b: nat, unlocked: bool): (PlayerState, real) {
    if !enabled then (s, scroll)
    else
      var played := if Wired(listeners, b, PlayAction) then AfterPlay(s, true, unlocked) else s;
      var paused := if Wired(listeners, b, PauseAction) then AfterPause(played) else played;
      if Wired(listeners, b, StopAction) then (AfterStop(paused), Pianoroll.ScrollLeftAt(0.0)) else (paused, scroll)
  }

  /** A change of checkbox i: unmute its stem when checked, mute it otherwise; only if a listener is attached. */
  function AfterCheckbox(s: PlayerState, listeners: seq<Listener>, keys: seq<string>, i: nat, checked: bool): PlayerState {
    if ChangeListener(i) in listeners && i < |keys| then AfterSetMute(s, keys[i], !checked) else s
  }

  /** An input on slider i with the number `parseFloat` reads from it. */
  function AfterRange(s: PlayerState, listeners: seq<Listener>, keys: seq<string>, i: nat, value: real): PlayerState {
    if InputListener(i) in listeners && i < |keys| then AfterChangeVolume(s, keys[i], value) else s
  }

  // ---------------------------------------------------------------------
  // Properties
  // ---------------------------------------------------------------------

  /**
   * While the transport runs, scrolling never seeks; while it is paused the
   * transport follows the view; at the end of the scroll range it pauses.
   */
  lemma ScrollArbitration(s: PlayerState, report: Pianoroll.ScrollReport, unlocked: bool)
    ensures s.running && report.scrollLeft < report.maxScroll ==> AfterScroll(s, report, unlocked) == s
    ensures s.running ==> AfterScroll(s, report, unlocked).transport.position == s.transport.position
    ensures !s.running ==> AfterScroll(s, report, unlocked).transport.position == report.seconds
    ensures !s.running && report.scrollLeft < report.maxScroll ==>
      AfterScroll(s, report, unlocked) == s.(transport := s.transport.(position := report.seconds))
    ensures report.scrollLeft >= report.maxScroll ==> !AfterScroll(s, report, unlocked).running
    ensures AfterScroll(s, report, unlocked).players == s.players && AfterScroll(s, report, unlocked).volumes == s.volumes
  {
  }

  /**
   * The mount sequence loads the stems, then the file, and initializes the
   * player once; a failed `Midi.fromUrl` leaves the stems loaded and nothing
   * started. The transport is stopped and rewound but keeps what was already
   * scheduled on it.
   */
  lemma MountedPlayer(urls: Entries, fetched: Result<Midi, JsError>, t: Transport)
    requires DistinctKeys(urls)
    ensures var s := PlayerAfterMount(urls, fetched, t);
      && s.players.Keys == EntryKeys(urls) && KeysAgree(s)
      && !s.running && s.transport.state == Stopped && s.transport.position == 0.0
      && (fetched.Failure? ==> !s.initialized && s.transport.events == t.events && s.midi == None)
      && (fetched.Success? ==>
            s.initialized && s.midi == Some(fetched.value) && s.transport.events == t.events + StartEvents(EntryKeys(urls)))
  {
    LoadAudioRegistersEachUrl(InitialState.(transport := t), urls);
  }

  /**
   * Nothing cancels the shared transport between two mounts, so a second
   * mount leaves the first mount's start events scheduled beside its own.
   */
  lemma RemountKeepsEarlierStarts(urls: Entries, urls': Entries, m: Midi, m': Midi, t: Transport)
    requires DistinctKeys(urls) && DistinctKeys(urls')
    ensures var first := PlayerAfterMount(urls, Success(m), t);
      PlayerAfterMount(urls', Success(m'), first.transport).transport.events
        == t.events + StartEvents(EntryKeys(urls)) + StartEvents(EntryKeys(urls'))
  {
    MountedPlayer(urls, Success(m), t);
    MountedPlayer(urls', Success(m'), PlayerAfterMount(urls, Success(m), t).transport);
  }

  /**
   * As rendered, only the Play button gets a listener: the lookup of
   * ".pause" returns null and the setup stops there, so Pause and Stop do
   * nothing and no checkbox or slider is wired.
   */
  lemma OnlyPlayIsWired(n: nat, s: PlayerState, scroll: real, keys: seq<string>, unlocked: bool)
    ensures Wiring(RenderedButtons, n) == ([ClickListener(0, PlayAction)], Fail(TypeError))
    ensures var l := Wiring(RenderedButtons, n).0;
      && AfterClick(s, scroll, l, true, 0, unlocked) == (AfterPlay(s, true, unlocked), scroll)
      && (forall b: nat :: b != 0 ==> AfterClick(s, scroll, l, true, b, unlocked) == (s, scroll))
      && (forall i: nat, checked :: AfterCheckbox(s, l, keys, i, checked) == s)
      && (forall i: nat, v :: AfterRange(s, l, keys, i, v) == s)
  {
    assert FirstWithClass(RenderedButtons, "play") == Some(0);
    assert FirstWithClass(RenderedButtons, "pause") == None;
  }

  /** With distinct classes the setup gets through: one listener per button, then per checkbox and slider. */
  lemma IntendedWiring(n: nat)
    ensures Wiring(IntendedButtons, n) ==
      ([ClickListener(0, PlayAction), ClickListener(1, PauseAction), ClickListener(2, StopAction)]
         + ChangeListeners(n) + InputListeners(n), Pass)
  {
    assert FirstWithClass(IntendedButtons, "play") == Some(0);
    assert FirstWithClass(IntendedButtons, "pause") == Some(1);
    assert FirstWithClass(IntendedButtons, "stop") == Some(2);
  }

  /**
   * With distinct classes every control works: Play plays with the
   * scroll-follow callback, Pause pauses, Stop stops and scrolls back to 0.
   */
  lemma IntendedButtonsDispatch(s: PlayerState, scroll: real, n: nat, unlocked: bool)
    ensures var l := Wiring(IntendedButtons, n).0;
      && AfterClick(s, scroll, l, true, 0, unlocked) == (AfterPlay(s, true, unlocked), scroll)
      && AfterClick(s, scroll, l, true, 1, unlocked) == (AfterPause(s), scroll)
      && AfterClick(s, scroll, l, true, 2, unlocked) == (AfterStop(s), 0.0)
  {
    IntendedWiring(n);
    var l := Wiring(IntendedButtons, n).0;
    var tail := ChangeListeners(n) + InputListeners(n);
    assert forall a :: ClickListener(0, a) in tail ==> false;
    assert forall a :: ClickListener(1, a) in tail ==> false;
    assert forall a :: ClickListener(2, a) in tail ==> false;
  }

  /** With distinct classes each stem's checkbox and slider act on that stem. */
  lemma IntendedControlsDispatch(s: PlayerState, keys: seq<string>, i: nat, v: real)
    requires i < |keys|
    ensures var l := Wiring(IntendedButtons, |keys|).0;
      && AfterCheckbox(s, l, keys, i, true) == AfterSetMute(s, keys[i], false)
      && AfterCheckbox(s, l, keys, i, false) == AfterSetMute(s, keys[i], true)
      && AfterRange(s, l, keys, i, v) == AfterChangeVolume(s, keys[i], v)
  {
    IntendedWiring(|keys|);
    var l := Wiring(IntendedButtons, |keys|).0;
    var head := [ClickListener(0, PlayAction), ClickListener(1, PauseAction), ClickListener(2, StopAction)];
    assert l == head + ChangeListeners(|keys|) + InputListeners(|keys|);
    assert l[3 + i] == ChangeListener(i);
    assert l[3 + |keys| + i] == InputListener(i);
  }

  /** Disabled buttons deliver no clicks. */
  lemma DisabledButtonsDoNothing(s: PlayerState, scroll: real, listeners: seq<Listener>, b: nat, unlocked: bool)
    ensures AfterClick(s, scroll, listeners, false, b, unlocked) == (s, scroll)
  {
  }

  // ---------------------------------------------------------------------
  // The component
  // ---------------------------------------------------------------------

  class Viewer {
    /** `props.settings.audio`, as its entries. */
    const audioUrls: Entries
    const controls: Controls
    var player: AudioPlayer?
    var roll: Pianoroll.Roll?

    /** Handlers are attached only once the player and the roll exist. */
    predicate Valid()
      reads this, controls
    {
      && controls.stems == |audioUrls|
      && (controls.enabled || controls.listeners != [] ==> player != null && roll != null)
    }

    /** The constructor and the first render. */
    constructor (audioUrls: Entries, buttons: seq<Button>)
      ensures Valid() && fresh(controls)
      ensures this.audioUrls == audioUrls && controls.buttons == buttons
      ensures player == null && roll == null && !controls.enabled && controls.listeners == []
    {
      this.audioUrls := audioUrls;
      controls := new Controls(buttons, |audioUrls|);
      player := null;
      roll := null;
    }

    /**
     * `componentDidMount`, given the outcome of `Midi.fromUrl`, the
     * values `Math.random()` returns and the shared transport. An error thrown on the way is caught,
     * logged and returned here.
     */
    method Mount(fetched: Result<Midi, JsError>, random: nat -> real, transport: Transport) returns (r: Outcome<JsError>)
      requires Valid()
      modifies this, controls
      ensures Valid()
      ensures player != null && fresh(player) && player.State() == PlayerAfterMount(audioUrls, fetched, transport)
      ensures fetched.Failure? ==> r == Fail(fetched.error) && roll == old(roll)
      ensures fetched.Failure? ==> controls.enabled == old(controls.enabled) && controls.listeners == old(controls.listeners)
      ensures fetched.Success? ==> roll != null && fresh(roll) && roll.random == random
      ensures fetched.Success? ==> roll.State() == Pianoroll.InitialRoll.(midi := Some(fetched.value)) && roll.keys == []
      ensures fetched.Success? ==> controls.enabled && r == Wiring(controls.buttons, controls.stems).1
      ensures fetched.Success? ==> controls.listeners == old(controls.listeners) + Wiring(controls.buttons, controls.stems).0
    {
      var p := new AudioPlayer(transport);
      player := p;
      p.LoadAudioFileFromURL(audioUrls);
      if fetched.Failure? {
        return Fail(fetched.error);
      }
      var midi := fetched.value;
      p.LoadMidi(midi);
      var pr := new Pianoroll.Roll(random);
      roll := pr;
      pr.PrintMidiFile(midi);
      p.Initialize();
      controls.Enable();
      r := controls.Attach();
    }

    /** The scroll callback handed to the roll. */
    method OnScroll(report: Pianoroll.ScrollReport, unlocked: bool)
      requires player != null
      modifies player
      ensures player.State() == AfterScroll(old(player.State()), report, unlocked)
    {
      if !player.running {
        player.Seek(report.seconds, unlocked);
      }
      if report.scrollLeft >= report.maxScroll {
        player.Pause();
      }
    }

    /** A click on button b. */
    method Click(b: nat, unlocked: bool)
      requires Valid()
      modifies player, roll
      ensures player == null ==> !controls.enabled
      ensures roll != null ==> roll.State() == old(roll.State()) && roll.keys == old(roll.keys)
      ensures player != null && roll != null ==>
        (player.State(), roll.scrollLeft) == AfterClick(old(player.State()), old(roll.scrollLeft), controls.listeners, controls.enabled, b, unlocked)
    {
      if !controls.enabled {
        return;
      }
      var listeners := controls.listeners;
      if ClickListener(b, PlayAction) in listeners {
        player.Play(true, unlocked);
      }
      if ClickListener(b, PauseAction) in listeners {
        player.Pause();
      }
      if ClickListener(b, StopAction) in listeners {
        player.Stop();
        roll.TimeScrollTo(0.0);
      }
    }

    /** A tick of the player's scroll-follow interval: the Play handler's callback scrolls the roll. */
    method UpdaterTick()
      requires player != null && roll != null
      modifies roll`scrollLeft
      ensures player.updater.Ticking? ==> roll.scrollLeft == Pianoroll.ScrollLeftAt(player.transport.position)
      ensures player.updater.Idle? ==> roll.scrollLeft == old(roll.scrollLeft)
    {
      if player.updater.Ticking? {
        roll.TimeScrollTo(player.transport.position);
      }
    }

    /** A change event on checkbox i, whose `checked` is now `checked`. */
    method CheckboxChanged(i: nat, checked: bool)
      requires Valid()
      modifies player
      ensures player != null ==>
        player.State() == AfterCheckbox(old(player.State()), controls.listeners, Keys(audioUrls), i, checked)
    {
      if ChangeListener(i) in controls.listeners && i < |audioUrls| {
        var name := audioUrls[i].0;
        if checked {
          player.UnmuteTrack(name);
        } else {
          player.MuteTrack(name);
        }
      }
    }

    /** An input event on slider i, whose value `parseFloat` reads as `value`. */
    method RangeInput(i: nat, value: real)
      requires Valid()
      modifies player
      ensures player != null ==>
        player.State() == AfterRange(old(player.State()), controls.listeners, Keys(audioUrls), i, value)
    {
      if InputListener(i) in controls.listeners && i < |audioUrls| {
        player.ChangeVolume(audioUrls[i].0, value);
      }
    }
  }
}
