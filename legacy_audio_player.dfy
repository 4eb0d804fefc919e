/**
 * The earlier multitrack player (audiomidiplayer/src/AudioPlayer.js). It
 * shares the state of `AudioPlayback.PlayerState` and its pause and stop,
 * but it guards nothing: `initialize` can schedule every start twice, an
 * unknown track name throws, and `loadMidi` schedules every MIDI note on
 * the transport behind a volume node stored under the key "midi".
 */
module LegacyAudioPlayback {
  import opened Wrappers
  import opened JsSemantics
  import opened Tone
  import AudioPlayback

  type PlayerState = AudioPlayback.PlayerState

  /** Period of the scroll-follow interval, in milliseconds. */
  const UpdaterPeriodMs: nat := 100

  /** The key under which `loadMidi` stores the samplers' volume node. */
  const MidiVolumeKey: string := "midi"

  /** `loadAudioFileFromURL`: players and volumes per key; the transport is not touched. */
  function AfterLoadAudio(s: PlayerState, urls: AudioPlayback.Entries): PlayerState {
    s.(players := s.players + AudioPlayback.LoadedPlayers(urls),
       volumes := s.volumes + AudioPlayback.FreshVolumes(urls))
  }

  /** `initialize` has no guard: each call syncs every player and schedules its start again. */
  function AfterInitialize(s: PlayerState): PlayerState {
    s.(players := AudioPlayback.SyncAll(s.players),
       transport := s.transport.(events := s.transport.events + AudioPlayback.StartEvents(s.players.Keys)),
       initialized := true)
  }

  function AfterPlay(s: PlayerState, withCallback: bool): PlayerState {
    if s.running then s
    else s.(updater := if withCallback then AudioPlayback.Ticking(UpdaterPeriodMs) else s.updater,
            transport := Start(s.transport),
            running := true)
  }

  /** `seek` only moves the transport, even while it runs. */
  function AfterSeek(s: PlayerState, seconds: real): PlayerState {
    s.(transport := SetSeconds(s.transport, seconds))
  }

  /** Writing `mute` on `players[name]` throws a TypeError when there is no such player. */
  function TrySetMute(s: PlayerState, name: string, mute: bool): Result<PlayerState, JsError> {
    if name in s.players then Success(s.(players := s.players[name := s.players[name].(mute := mute)]))
    else Failure(TypeError)
  }

  /** `volumes[name].volume.value = 20 * log10(value)`, throwing when there is no such volume. */
  function TryChangeVolume(s: PlayerState, name: string, value: real): Result<PlayerState, JsError> {
    if name in s.volumes then Success(s.(volumes := s.volumes[name := Volume(GainOf(value))]))
    else Failure(TypeError)
  }

  /** The note events scheduled for one track: one trigger, at its start time, per note. */
  function TrackEvents(track: nat, notes: seq<MidiNote>): multiset<Event> {
    if notes == [] then multiset{}
    else
      var n := notes[|notes| - 1];
      TrackEvents(track, notes[..|notes| - 1]) + multiset{TriggerNote(track, n.name, n.duration, n.time)}
  }

  /** The note events scheduled for every track of a file. */
  function MidiEvents(tracks: seq<MidiTrack>): multiset<Event> {
    if tracks == [] then multiset{}
    else MidiEvents(tracks[..|tracks| - 1]) + TrackEvents(|tracks| - 1, tracks[|tracks| - 1].notes)
  }

  function AfterLoadMidi(s: PlayerState, midi: Midi): PlayerState {
    s.(midi := Some(midi),
       volumes := if midi.tracks == [] then s.volumes else s.volumes[MidiVolumeKey := Volume(UnityGain)],
       transport := s.transport.(events := s.transport.events + MidiEvents(midi.tracks)))
  }

  // ---------------------------------------------------------------------
  // Properties of the operations
  // ---------------------------------------------------------------------

  /** A second `initialize` schedules every player's start a second time. */
  lemma InitializeTwiceSchedulesTwice(s: PlayerState)
    ensures var r := AfterInitialize(AfterInitialize(s));
      && |r.transport.events| == |s.transport.events| + 2 * |s.players|
      && (forall k :: k in s.players ==>
            r.transport.events[StartPlayer(k, 0.0)] == s.transport.events[StartPlayer(k, 0.0)] + 2)
  {
    AudioPlayback.StartEventsExactlyOnce(s.players.Keys);
    assert AudioPlayback.SyncAll(s.players).Keys == s.players.Keys;
  }

  /** `seek` while playing leaves the transport running at the new position. */
  lemma SeekKeepsPlaying(s: PlayerState, seconds: real)
    ensures var r := AfterSeek(s, seconds);
      && r.transport.position == seconds && r.transport.state == s.transport.state
      && r.running == s.running && r.updater == s.updater
  {
  }

  lemma SetMuteUnknownThrows(s: PlayerState, name: string, mute: bool)
    ensures TrySetMute(s, name, mute).Failure? <==> name !in s.players
    ensures name in s.players ==> TrySetMute(s, name, mute).value == AudioPlayback.AfterSetMute(s, name, mute)
  {
  }

  /** Where the later player skips a missing name, this one throws; otherwise they agree. */
  lemma ChangeVolumeAgreesWithGuarded(s: PlayerState, name: string, value: real)
    ensures TryChangeVolume(s, name, value).Failure? <==> name !in s.volumes
    ensures name in s.volumes ==> TryChangeVolume(s, name, value).value == AudioPlayback.AfterChangeVolume(s, name, value)
  {
  }

  /** One trigger per note of the track, and nothing else. */
  lemma {:induction false} TrackEventsAreTheNotes(track: nat, notes: seq<MidiNote>)
    ensures |TrackEvents(track, notes)| == |notes|
    ensures forall j :: 0 <= j < |notes| ==>
      TriggerNote(track, notes[j].name, notes[j].duration, notes[j].time) in TrackEvents(track, notes)
    ensures forall e :: e in TrackEvents(track, notes) ==>
      e.TriggerNote? && e.track == track &&
      exists j :: 0 <= j < |notes| && e == TriggerNote(track, notes[j].name, notes[j].duration, notes[j].time)
  {
    if notes != [] {
      var init := notes[..|notes| - 1];
      TrackEventsAreTheNotes(track, init);
      forall j | 0 <= j < |init| ensures init[j] == notes[j] { }
    }
  }

  /** `loadMidi` schedules exactly one event per note of the file, tagged with its track. */
  lemma {:induction false} MidiEventsAreTheNotes(tracks: seq<MidiTrack>)
    ensures |MidiEvents(tracks)| == NoteCount(tracks)
    ensures forall i, j :: 0 <= i < |tracks| && 0 <= j < |tracks[i].notes| ==>
      TriggerNote(i, tracks[i].notes[j].name, tracks[i].notes[j].duration, tracks[i].notes[j].time) in MidiEvents(tracks)
    ensures forall e :: e in MidiEvents(tracks) ==> e.TriggerNote? && e.track < |tracks|
  {
    if tracks != [] {
      var init := tracks[..|tracks| - 1];
      var last := |tracks| - 1;
      MidiEventsAreTheNotes(init);
      TrackEventsAreTheNotes(last, tracks[last].notes);
      forall i | 0 <= i < |init| ensures init[i] == tracks[i] { }
    }
  }

  /**
   * After loading a non-empty file the volumes hold a "midi" entry that no
   * player has, so the two dictionaries no longer share their keys.
   */
  lemma LoadMidiAddsUnpairedVolume(s: PlayerState, midi: Midi)
    requires AudioPlayback.KeysAgree(s)
    requires midi.tracks != [] && MidiVolumeKey !in s.players
    ensures !AudioPlayback.KeysAgree(AfterLoadMidi(s, midi))
    ensures AfterLoadMidi(s, midi).volumes.Keys == s.volumes.Keys + {MidiVolumeKey}
  {
  }

  lemma MidiEventsSnoc(tracks: seq<MidiTrack>, i: nat)
    requires i < |tracks|
    ensures MidiEvents(tracks[..i + 1]) == MidiEvents(tracks[..i]) + TrackEvents(i, tracks[i].notes)
  {
    assert tracks[..i + 1][..i] == tracks[..i];
  }

  lemma LoadMidiOfEmptyFileOnlyStores(s: PlayerState, midi: Midi)
    requires midi.tracks == []
    ensures AfterLoadMidi(s, midi) == s.(midi := Some(midi))
  {
  }

  // ---------------------------------------------------------------------
  // The object
  // ---------------------------------------------------------------------

  class AudioPlayer {
    var midi: Option<Midi>
    var players: map<string, TrackPlayer>
    var volumes: map<string, Volume>
    /** Tone's global transport, which this version reaches through `Tone.getTransport()`. */
    var transport: Transport
    var running: bool
    var initialized: bool
    var updater: AudioPlayback.Updater

    function State(): PlayerState
      reads this
    {
      AudioPlayback.PlayerState(midi, players, volumes, transport, running, initialized, updater)
    }

    constructor (t: Transport)
      ensures State() == AudioPlayback.InitialState.(transport := t)
    {
      midi := None;
      players := map[];
      volumes := map[];
      transport := t;
      running := false;
      initialized := false;
      updater := AudioPlayback.Idle;
    }

    method LoadAudioFileFromURL(urls: AudioPlayback.Entries)
      modifies this`players, this`volumes
      ensures State() == AfterLoadAudio(old(State()), urls)
    {
      for i := 0 to |urls|
        invariant players == old(players) + AudioPlayback.LoadedPlayers(urls[..i])
        invariant volumes == old(volumes) + AudioPlayback.FreshVolumes(urls[..i])
      {
        AudioPlayback.LoadStep(old(players), old(volumes), urls, i);
        var (key, url) := urls[i];
        players := players[key := TrackPlayer(url, false, false)];
        volumes := volumes[key := Volume(UnityGain)];
      }
      assert urls[..|urls|] == urls;
    }

    method Initialize()
      modifies this
      ensures State() == AfterInitialize(old(State()))
    {
      ScheduleTracks();
      initialized := true;
    }

    /** The loop of `initialize`: schedule each player's start at 0 and sync it. */
    method ScheduleTracks()
      modifies this`players, this`transport
      ensures players == AudioPlayback.SyncAll(old(players))
      ensures transport == old(transport).(events := old(transport).events + AudioPlayback.StartEvents(old(players).Keys))
    {
      var pending := players.Keys;
      ghost var done: set<string> := {};
      while pending != {}
        invariant pending !! done && pending + done == old(players).Keys
        invariant players == AudioPlayback.SyncSome(old(players), done)
        invariant transport == old(transport).(events := old(transport).events + AudioPlayback.StartEvents(done))
        decreases pending
      {
        var key :| key in pending;
        AudioPlayback.ScheduleOneMore(done, key);
        AudioPlayback.SyncOneMore(old(players), done, key);
        transport := Schedule(transport, StartPlayer(key, 0.0));
        players := players[key := players[key].(synced := true)];
        pending := pending - {key};
        done := done + {key};
      }
    }

    method Play(withCallback: bool)
      modifies this
      ensures State() == AfterPlay(old(State()), withCallback)
    {
      if !running {
        if withCallback {
          updater := AudioPlayback.Ticking(UpdaterPeriodMs);
        }
        transport := Start(transport);
        running := true;
      }
    }

    method Seek(seconds: real)
      modifies this
      ensures State() == AfterSeek(old(State()), seconds)
    {
      transport := SetSeconds(transport, seconds);
    }

    method Pause()
      modifies this
      ensures State() == AudioPlayback.AfterPause(old(State()))
    {
      if running {
        transport := Tone.Pause(transport);
        updater := AudioPlayback.Idle;
        running := false;
      }
    }

    method Stop()
      modifies this
      ensures State() == AudioPlayback.AfterStop(old(State()))
    {
      transport := Tone.Stop(transport);
      updater := AudioPlayback.Idle;
      running := false;
    }

    method MuteTrack(name: string) returns (r: Outcome<JsError>)
      modifies this
      ensures r.Pass? <==> TrySetMute(old(State()), name, true).Success?
      ensures State() == if r.Pass? then TrySetMute(old(State()), name, true).value else old(State())
    {
      r := SetMuteOf(name, true);
    }

    method UnmuteTrack(name: string) returns (r: Outcome<JsError>)
      modifies this
      ensures r.Pass? <==> TrySetMute(old(State()), name, false).Success?
      ensures State() == if r.Pass? then TrySetMute(old(State()), name, false).value else old(State())
    {
      r := SetMuteOf(name, false);
    }

    /** The shared body of mute and unmute. */
    method SetMuteOf(name: string, mute: bool) returns (r: Outcome<JsError>)
      modifies this
      ensures r.Pass? <==> TrySetMute(old(State()), name, mute).Success?
      ensures State() == if r.Pass? then TrySetMute(old(State()), name, mute).value else old(State())
    {
      if name !in players {
        return Fail(TypeError);
      }
      players := players[name := players[name].(mute := mute)];
      r := Pass;
    }

    method ChangeVolume(name: string, value: real) returns (r: Outcome<JsError>)
      modifies this
      ensures r.Pass? <==> TryChangeVolume(old(State()), name, value).Success?
      ensures State() == if r.Pass? then TryChangeVolume(old(State()), name, value).value else old(State())
    {
      if name !in volumes {
        return Fail(TypeError);
      }
      volumes := volumes[name := Volume(GainOf(value))];
      r := Pass;
    }

    method LoadMidi(m: Midi)
      modifies this
      ensures State() == AfterLoadMidi(old(State()), m)
    {
      midi := Some(m);
      ScheduleMidi(m.tracks);
    }

    /** The loops of `loadMidi`: a volume node per track under "midi", one trigger per note. */
    method ScheduleMidi(tracks: seq<MidiTrack>)
      modifies this`volumes, this`transport
      ensures volumes == if tracks == [] then old(volumes) else old(volumes)[MidiVolumeKey := Volume(UnityGain)]
      ensures transport == old(transport).(events := old(transport).events + MidiEvents(tracks))
    {
      for i := 0 to |tracks|
        invariant volumes == if i == 0 then old(volumes) else old(volumes)[MidiVolumeKey := Volume(UnityGain)]
        invariant transport == old(transport).(events := old(transport).events + MidiEvents(tracks[..i]))
      {
        MidiEventsSnoc(tracks, i);
        LoadTrack(i, tracks[i]);
      }
      assert tracks[..|tracks|] == tracks;
    }

    /** One track of `loadMidi`: a fresh volume node under "midi", then its notes. */
    method LoadTrack(index: nat, track: MidiTrack)
      modifies this`volumes, this`transport
      ensures volumes == old(volumes)[MidiVolumeKey := Volume(UnityGain)]
      ensures transport == old(transport).(events := old(transport).events + TrackEvents(index, track.notes))
    {
      volumes := volumes[MidiVolumeKey := Volume(UnityGain)];
      ScheduleNotes(index, track.notes);
    }

    method ScheduleNotes(track: nat, notes: seq<MidiNote>)
      modifies this`transport
      ensures transport == old(transport).(events := old(transport).events + TrackEvents(track, notes))
    {
      for j := 0 to |notes|
        invariant transport == old(transport).(events := old(transport).events + TrackEvents(track, notes[..j]))
      {
        assert notes[..j + 1][..j] == notes[..j];
        var note := notes[j];
        transport := Schedule(transport, TriggerNote(track, note.name, note.duration, note.time));
      }
      assert notes[..|notes|] == notes;
    }
  }
}
