/**
 * The earlier viewer component (audiomidiplayer/src/AudioMidiViewer.jsx).
 * It fetches the file first, starts the piano roll's drawing without
 * waiting for it, and wires its controls in the continuation of the audio
 * load, initializing the player only if that has not happened yet. Its
 * piano roll (audiomidiplayer/src/Pianoroll.js) is not part of this model:
 * the component records what it hands to it.
 */
module LegacyMidiViewer {
  import opened Wrappers
  import opened JsSemantics
  import opened Tone
  import opened ViewerDom
  import AudioPlayback
  import Legacy = LegacyAudioPlayback

  type PlayerState = AudioPlayback.PlayerState

  /** The buttons as this component renders them, each with its own class. */
  const Buttons: seq<Button> := [Button("play", "Play"), Button("pause", "Pause"), Button("stop", "Stop")]

  /** The scroll callback: seek only while not running, pause at the end of the scroll range. */
  function AfterScroll(s: PlayerState, position: real, currentScroll: real, maxScroll: real): PlayerState {
    var sought := if !s.running then Legacy.AfterSeek(s, position) else s;
    if currentScroll >= maxScroll then AudioPlayback.AfterPause(sought) else sought
  }

  /** The continuation of the audio load: keep and schedule the file, then initialize unless already done. */
  function AfterAudioLoaded(s: PlayerState, midi: Midi): PlayerState {
    var loaded := Legacy.AfterLoadMidi(s, midi);
    if !loaded.initialized then Legacy.AfterInitialize(loaded) else loaded
  }

  /** A click on button b: Play plays with the scroll-follow callback, Pause pauses, Stop only stops. */
  function AfterClick(s: PlayerState, listeners: seq<Listener>, enabled: bool, b: nat): PlayerState {
    if !enabled then s
    else
      var played := if Wired(listeners, b, PlayAction) then Legacy.AfterPlay(s, true) else s;
      var paused := if Wired(listeners, b, PauseAction) then AudioPlayback.AfterPause(played) else played;
      if Wired(listeners, b, StopAction) then AudioPlayback.AfterStop(paused) else paused
  }

  /** A change of checkbox i; the player throws for a name it does not know. */
  function AfterCheckbox(s: PlayerState, listeners: seq<Listener>, keys: seq<string>, i: nat, checked: bool): Result<PlayerState, JsError> {
    if ChangeListener(i) in listeners && i < |keys| then Legacy.TrySetMute(s, keys[i], !checked) else Success(s)
  }

  /** An input on slider i; `value` is the number its `value` text coerces to. */
  function AfterRange(s: PlayerState, listeners: seq<Listener>, keys: seq<string>, i: nat, value: real): Result<PlayerState, JsError> {
    if InputListener(i) in listeners && i < |keys| then Legacy.TryChangeVolume(s, keys[i], value) else Success(s)
  }

  // ---------------------------------------------------------------------
  // Properties
  // ---------------------------------------------------------------------

  /** Scrolling never seeks a running transport, moves a stopped one, and pauses at the end. */
  lemma ScrollArbitration(s: PlayerState, position: real, currentScroll: real, maxScroll: real)
    ensures var r := AfterScroll(s, position, currentScroll, maxScroll);
      && (s.running ==> r.transport.position == s.transport.position)
      && (s.running && currentScroll < maxScroll ==> r == s)
      && (!s.running ==> r == s.(transport := s.transport.(position := position)))
      && (currentScroll >= maxScroll ==> !r.running)
  {
  }

  /**
   * The continuation schedules the file's notes; the players' starts are
   * scheduled only by the first initialization, so they are never doubled.
   */
  lemma AudioLoadedInitializesOnce(s: PlayerState, midi: Midi)
    ensures AfterAudioLoaded(s, midi).initialized
    ensures AfterAudioLoaded(AfterAudioLoaded(s, midi), midi).transport.events ==
      AfterAudioLoaded(s, midi).transport.events + Legacy.MidiEvents(midi.tracks)
    ensures s.initialized ==>
      AfterAudioLoaded(s, midi).transport.events == s.transport.events + Legacy.MidiEvents(midi.tracks)
    ensures !s.initialized ==>
      AfterAudioLoaded(s, midi).transport.events ==
        s.transport.events + Legacy.MidiEvents(midi.tracks) + AudioPlayback.StartEvents(s.players.Keys)
  {
  }

  /** Every control is wired: Play, Pause and Stop each on its own button, and one listener per stem control. */
  lemma EveryControlIsWired(n: nat)
    ensures Wiring(Buttons, n) ==
      ([ClickListener(0, PlayAction), ClickListener(1, PauseAction), ClickListener(2, StopAction)]
         + ChangeListeners(n) + InputListeners(n), Pass)
  {
    assert FirstWithClass(Buttons, "play") == Some(0);
    assert FirstWithClass(Buttons, "pause") == Some(1);
    assert FirstWithClass(Buttons, "stop") == Some(2);
  }

  /** The three buttons do what their labels say; Stop leaves the view where it is. */
  lemma ButtonsDispatch(s: PlayerState, n: nat)
    ensures var l := Wiring(Buttons, n).0;
      && AfterClick(s, l, true, 0) == Legacy.AfterPlay(s, true)
      && AfterClick(s, l, true, 1) == AudioPlayback.AfterPause(s)
      && AfterClick(s, l, true, 2) == AudioPlayback.AfterStop(s)
      && (forall b: nat :: b > 2 ==> AfterClick(s, l, true, b) == s)
  {
    EveryControlIsWired(n);
    var tail := ChangeListeners(n) + InputListeners(n);
    assert forall b: nat, a :: ClickListener(b, a) in tail ==> false;
  }

  /** Each stem's checkbox and slider act on that stem; as every stem has a player, they never throw. */
  lemma StemControlsDispatch(s: PlayerState, urls: AudioPlayback.Entries, i: nat, v: real)
    requires i < |urls|
    requires AudioPlayback.EntryKeys(urls) <= s.players.Keys && AudioPlayback.EntryKeys(urls) <= s.volumes.Keys
    ensures var l, keys := Wiring(Buttons, |urls|).0, Keys(urls);
      && AfterCheckbox(s, l, keys, i, true) == Success(AudioPlayback.AfterSetMute(s, urls[i].0, false))
      && AfterCheckbox(s, l, keys, i, false) == Success(AudioPlayback.AfterSetMute(s, urls[i].0, true))
      && AfterRange(s, l, keys, i, v) == Success(AudioPlayback.AfterChangeVolume(s, urls[i].0, v))
  {
    EveryControlIsWired(|urls|);
    var l := Wiring(Buttons, |urls|).0;
    var head := [ClickListener(0, PlayAction), ClickListener(1, PauseAction), ClickListener(2, StopAction)];
    assert l == head + ChangeListeners(|urls|) + InputListeners(|urls|);
    assert l[3 + i] == ChangeListener(i);
    assert l[3 + |urls| + i] == InputListener(i);
    assert urls[i].0 in AudioPlayback.EntryKeys(urls);
  }

  // ---------------------------------------------------------------------
  // The component
  // ---------------------------------------------------------------------

  class Viewer {
    const audioUrls: AudioPlayback.Entries
    const controls: Controls
    var player: Legacy.AudioPlayer?
    /** The file handed to the piano roll's `printMidiFile`. */
    var printed: Option<Midi>
    /** The file the audio-load continuation closes over. */
    var pending: Option<Midi>
    /** The last time handed to the piano roll's `timeScrollTo`. */
    var scrolledTo: Option<real>

    predicate Valid()
      reads this, controls
    {
      && controls.stems == |audioUrls|
      && controls.buttons == Buttons
      && (pending.Some? || controls.enabled || controls.listeners != [] ==> player != null)
    }

    /** The constructor and the first render. */
    constructor (audioUrls: AudioPlayback.Entries)
      ensures Valid() && fresh(controls) && this.audioUrls == audioUrls
      ensures player == null && printed == None && pending == None && scrolledTo == None
      ensures !controls.enabled && controls.listeners == []
    {
      this.audioUrls := audioUrls;
      controls := new Controls(Buttons, |audioUrls|);
      player := null;
      printed := None;
      pending := None;
      scrolledTo := None;
    }

    /**
     * `componentDidMount` up to the audio load: given the outcome of
     * `Midi.fromUrl` and Tone's global transport. A failed fetch rejects
     * the mount's promise before anything is built.
     */
    method Mount(fetched: Result<Midi, JsError>, transport: Transport) returns (r: Outcome<JsError>)
      requires Valid()
      modifies this
      ensures Valid()
      ensures fetched.Failure? ==> r == Fail(fetched.error) && player == old(player) && pending == old(pending)
      ensures fetched.Failure? ==> printed == old(printed)
      ensures fetched.Success? ==> r == Pass && player != null && fresh(player)
      ensures fetched.Success? ==> printed == Some(fetched.value) && pending == Some(fetched.value)
      ensures fetched.Success? ==>
        player.State() == Legacy.AfterLoadAudio(AudioPlayback.InitialState.(transport := transport), audioUrls)
      ensures scrolledTo == old(scrolledTo)
    {
      if fetched.Failure? {
        return Fail(fetched.error);
      }
      var midi := fetched.value;
      var p := new Legacy.AudioPlayer(transport);
      player := p;
      printed := Some(midi);
      p.LoadAudioFileFromURL(audioUrls);
      pending := Some(midi);
      r := Pass;
    }

    /** The `.then` continuation of the audio load. */
    method AudioLoaded() returns (r: Outcome<JsError>)
      requires Valid() && pending.Some?
      modifies player, controls
      ensures Valid()
      ensures player.State() == AfterAudioLoaded(old(player.State()), pending.value)
      ensures controls.enabled && r == Wiring(Buttons, |audioUrls|).1
      ensures controls.listeners == old(controls.listeners) + Wiring(Buttons, |audioUrls|).0
    {
      player.LoadMidi(pending.value);
      if !player.initialized {
        player.Initialize();
      }
      controls.Enable();
      r := controls.Attach();
    }

    /** The scroll callback handed to the piano roll. */
    method OnScroll(position: real, currentScroll: real, maxScroll: real)
      requires player != null
      modifies player
      ensures player.State() == AfterScroll(old(player.State()), position, currentScroll, maxScroll)
    {
      if !player.running {
        player.Seek(position);
      }
      if currentScroll >= maxScroll {
        player.Pause();
      }
    }

    /** A click on button b. */
    method Click(b: nat)
      requires Valid()
      modifies player
      ensures player == null ==> !controls.enabled
      ensures player != null ==> player.State() == AfterClick(old(player.State()), controls.listeners, controls.enabled, b)
    {
      if !controls.enabled {
        return;
      }
      var listeners := controls.listeners;
      if ClickListener(b, PlayAction) in listeners {
        player.Play(true);
      }
      if ClickListener(b, PauseAction) in listeners {
        player.Pause();
      }
      if ClickListener(b, StopAction) in listeners {
        player.Stop();
      }
    }

    /** A tick of the player's scroll-follow interval, whose callback scrolls the roll to the transport time. */
    method UpdaterTick()
      requires player != null
      modifies this`scrolledTo
      ensures scrolledTo == if player.updater.Ticking? then Some(player.transport.position) else old(scrolledTo)
    {
      if player.updater.Ticking? {
        scrolledTo := Some(player.transport.position);
      }
    }

    /** A change event on checkbox i; a thrown error leaves the player as it was. */
    method CheckboxChanged(i: nat, checked: bool) returns (r: Outcome<JsError>)
      requires Valid()
      modifies player
      ensures player != null ==>
        var e := AfterCheckbox(old(player.State()), controls.listeners, Keys(audioUrls), i, checked);
        (r.Pass? <==> e.Success?) && player.State() == (if e.Success? then e.value else old(player.State()))
    {
      r := Pass;
      if ChangeListener(i) in controls.listeners && i < |audioUrls| {
        var name := audioUrls[i].0;
        if checked {
          r := player.UnmuteTrack(name);
        } else {
          r := player.MuteTrack(name);
        }
      }
    }

    /** An input event on slider i, whose value text coerces to `value`. */
    method RangeInput(i: nat, value: real) returns (r: Outcome<JsError>)
      requires Valid()
      modifies player
      ensures player != null ==>
        var e := AfterRange(old(player.State()), controls.listeners, Keys(audioUrls), i, value);
        (r.Pass? <==> e.Success?) && player.State() == (if e.Success? then e.value else old(player.State()))
    {
      r := Pass;
      if InputListener(i) in controls.listeners && i < |audioUrls| {
        r := player.ChangeVolume(audioUrls[i].0, value);
      }
    }
  }
}
