/**
 * The multitrack player of the viewer (components/AudioMidiViewer):
 * one Tone player and one volume node per audio stem, started together by
 * transport events, with play/pause/stop/seek, per-track mute and gain.
 *
 * `PlayerState` is the abstract value of an `AudioPlayer` object; each
 * operation is a function on it, each method of the class is proved to
 * produce exactly that function's result, and the lemmas below state what
 * the operations promise.
 */
module AudioPlayback {
  import opened Wrappers
  import opened Tone

  /** Period of the scroll-follow interval, in milliseconds (about 60 fps). */
  const UpdaterPeriodMs: nat := 16

  /** The `setInterval` timer that reports the transport time to the view. */
  datatype Updater = Idle | Ticking(periodMs: nat)

  datatype PlayerState = PlayerState(
    midi: Option<Midi>,
    players: map<string, TrackPlayer>,
    volumes: map<string, Volume>,
    transport: Transport,
    running: bool,
    initialized: bool,
    updater: Updater)

  const InitialState: PlayerState := PlayerState(None, map[], map[], InitialTransport, false, false, Idle)

  /** What the `players` and `volumes` dictionaries must keep in common. */
  predicate KeysAgree(s: PlayerState) {
    s.players.Keys == s.volumes.Keys
  }

  /** The player's flags agree with the transport and the timer. */
  predicate Synced(s: PlayerState) {
    && (s.running <==> s.transport.state == Started)
    && (s.updater.Ticking? ==> s.running)
  }

  /**
   * A JavaScript object passed as `urls`, as the entries `Object.keys`
   * enumerates, in that order.
   */
  type Entries = seq<(string, string)>

  /** The keys of `urls`. */
  function EntryKeys(urls: Entries): set<string> {
    set i | 0 <= i < |urls| :: urls[i].0
  }

  /** An object's keys are distinct. */
  predicate DistinctKeys(urls: Entries) {
    forall i, j :: 0 <= i < j < |urls| ==> urls[i].0 != urls[j].0
  }

  /** The players loaded from `urls`, one per key, before any is synced or muted. */
  function LoadedPlayers(urls: Entries): map<string, TrackPlayer> {
    if |urls| == 0 then map[]
    else LoadedPlayers(urls[..|urls| - 1])[urls[|urls| - 1].0 := TrackPlayer(urls[|urls| - 1].1, false, false)]
  }

  /** The fresh 0 dB volume nodes, one per key of `urls`. */
  function FreshVolumes(urls: Entries): map<string, Volume> {
    if |urls| == 0 then map[]
    else FreshVolumes(urls[..|urls| - 1])[urls[|urls| - 1].0 := Volume(UnityGain)]
  }

  /** One more entry loads one more player and one more volume, over whatever was there. */
  lemma LoadStep(players: map<string, TrackPlayer>, volumes: map<string, Volume>, urls: Entries, i: nat)
    requires i < |urls|
    ensures players + LoadedPlayers(urls[..i + 1]) == (players + LoadedPlayers(urls[..i]))[urls[i].0 := TrackPlayer(urls[i].1, false, false)]
    ensures volumes + FreshVolumes(urls[..i + 1]) == (volumes + FreshVolumes(urls[..i]))[urls[i].0 := Volume(UnityGain)]
  {
    assert urls[..i + 1][..i] == urls[..i];
  }

  /** The start-at-0 events `initialize` schedules, one per player. */
  function StartEvents(keys: set<string>): multiset<Event> {
    multiset(set k | k in keys :: StartPlayer(k, 0.0))
  }

  /** `players` with the players named in `done` synced to the transport. */
  function SyncSome(players: map<string, TrackPlayer>, done: set<string>): map<string, TrackPlayer> {
    map k | k in players :: if k in done then players[k].(synced := true) else players[k]
  }

  function SyncAll(players: map<string, TrackPlayer>): map<string, TrackPlayer> {
    SyncSome(players, players.Keys)
  }

  /**
   * The level `changeVolume` stores for a linear slider value. Its explicit
   * zero case agrees with what `20 * Math.log10(0)` gives anyway.
   */
  function LinearToDb(value: real): (r: Decibels)
    ensures r == GainOf(value)
    ensures value == 0.0 <==> r == MinusInfinity
  {
    if value == 0.0 then MinusInfinity else GainOf(value)
  }

  function AfterLoadAudio(s: PlayerState, urls: Entries): PlayerState {
    s.(transport := SetSeconds(Tone.Stop(s.transport), 0.0),
       players := s.players + LoadedPlayers(urls),
       volumes := s.volumes + FreshVolumes(urls))
  }

  function AfterInitialize(s: PlayerState): PlayerState {
    if s.initialized then s
    else s.(players := SyncAll(s.players),
            transport := s.transport.(events := s.transport.events + StartEvents(s.players.Keys)),
            initialized := true)
  }

  /**
   * `play(callback)`; `unlocked` says whether `Tone.start()` resolves. A
   * rejection is caught and logged, leaving everything as it was.
   */
  function AfterPlay(s: PlayerState, withCallback: bool, unlocked: bool): PlayerState {
    if s.running || !unlocked then s
    else
      var t := if AtOrPastEnd(s.transport) then SetSeconds(s.transport, 0.0) else s.transport;
      s.(updater := if withCallback then Ticking(UpdaterPeriodMs) else s.updater,
         transport := Start(t),
         running := true)
  }

  function AfterPause(s: PlayerState): PlayerState {
    if s.running then s.(transport := Tone.Pause(s.transport), updater := Idle, running := false) else s
  }

  function AfterStop(s: PlayerState): PlayerState {
    s.(transport := Tone.Stop(s.transport), updater := Idle, running := false)
  }

  /** `seek(seconds)`: pause, move the transport, and play again (without a callback) if it was running. */
  function AfterSeek(s: PlayerState, seconds: real, unlocked: bool): PlayerState {
    var paused := if s.running then AfterPause(s) else s;
    var moved := paused.(transport := SetSeconds(paused.transport, seconds));
    if s.running then AfterPlay(moved, false, unlocked) else moved
  }

  function AfterSetMute(s: PlayerState, name: string, mute: bool): PlayerState {
    if name in s.players then s.(players := s.players[name := s.players[name].(mute := mute)]) else s
  }

  function AfterChangeVolume(s: PlayerState, name: string, value: real): PlayerState {
    if name in s.volumes then s.(volumes := s.volumes[name := Volume(LinearToDb(value))]) else s
  }

  /** `loadMidi` keeps the file; its scheduling code is commented out in the source. */
  function AfterLoadMidi(s: PlayerState, midi: Midi): PlayerState {
    s.(midi := Some(midi))
  }

  function AfterCleanup(s: PlayerState): PlayerState {
    var stopped := AfterStop(s);
    stopped.(transport := Cancel(stopped.transport), initialized := false, players := map[], volumes := map[])
  }

  /** The operations the viewer can invoke on a player. */
  datatype Operation =
    | LoadAudioOp(urls: Entries)
    | InitializeOp
    | PlayOp(withCallback: bool, unlocked: bool)
    | SeekOp(seconds: real, unlocked: bool)
    | PauseOp
    | StopOp
    | MuteOp(name: string)
    | UnmuteOp(name: string)
    | ChangeVolumeOp(name: string, value: real)
    | LoadMidiOp(midi: Midi)
    | CleanupOp

  function Apply(s: PlayerState, op: Operation): PlayerState {
    match op
    case LoadAudioOp(urls) => AfterLoadAudio(s, urls)
    case InitializeOp => AfterInitialize(s)
    case PlayOp(cb, unlocked) => AfterPlay(s, cb, unlocked)
    case SeekOp(seconds, unlocked) => AfterSeek(s, seconds, unlocked)
    case PauseOp => AfterPause(s)
    case StopOp => AfterStop(s)
    case MuteOp(name) => AfterSetMute(s, name, true)
    case UnmuteOp(name) => AfterSetMute(s, name, false)
    case ChangeVolumeOp(name, value) => AfterChangeVolume(s, name, value)
    case LoadMidiOp(midi) => AfterLoadMidi(s, midi)
    case CleanupOp => AfterCleanup(s)
  }

  // ---------------------------------------------------------------------
  // Properties of the operations
  // ---------------------------------------------------------------------

  lemma {:induction false} KeysAgreeUnderEveryOperation(s: PlayerState, op: Operation)
    requires KeysAgree(s)
    ensures KeysAgree(Apply(s, op))
  {
    match op
    case LoadAudioOp(urls) =>
      LoadedKeys(urls);
    case InitializeOp =>
      assert SyncAll(s.players).Keys == s.players.Keys;
    case _ =>
  }

  /** Every operation keeps the flags in step with the transport, except loading audio while running. */
  lemma {:induction false} SyncedUnderEveryOperation(s: PlayerState, op: Operation)
    requires Synced(s)
    requires op.LoadAudioOp? ==> !s.running
    ensures Synced(Apply(s, op))
  {
  }

  /** `loadAudioFileFromURL` stops the transport but leaves `running` set. */
  lemma LoadAudioWhileRunningDesyncs(s: PlayerState, urls: Entries)
    requires s.running
    ensures AfterLoadAudio(s, urls).running
    ensures AfterLoadAudio(s, urls).transport.state == Stopped
    ensures !Synced(AfterLoadAudio(s, urls))
  {
  }

  /** Loading registers a player and a volume node under every key of `urls`, and only there. */
  lemma {:induction false} LoadedKeys(urls: Entries)
    ensures LoadedPlayers(urls).Keys == EntryKeys(urls)
    ensures FreshVolumes(urls).Keys == EntryKeys(urls)
    ensures forall k :: k in FreshVolumes(urls) ==> FreshVolumes(urls)[k] == Volume(UnityGain)
  {
    if |urls| > 0 {
      var init := urls[..|urls| - 1];
      LoadedKeys(init);
      assert EntryKeys(urls) == EntryKeys(init) + {urls[|urls| - 1].0} by {
        forall k | k in EntryKeys(urls) ensures k in EntryKeys(init) + {urls[|urls| - 1].0} {
          var i :| 0 <= i < |urls| && urls[i].0 == k;
          if i < |urls| - 1 {
            assert init[i] == urls[i];
          }
        }
        forall k | k in EntryKeys(init) ensures k in EntryKeys(urls) {
          var i :| 0 <= i < |init| && init[i].0 == k;
          assert urls[i] == init[i];
        }
      }
    }
  }

  /** With distinct keys (as an object has), the player under each key plays that key's url. */
  lemma {:induction false} LoadedPlayerPlaysItsUrl(urls: Entries, i: int)
    requires DistinctKeys(urls)
    requires 0 <= i < |urls|
    ensures urls[i].0 in LoadedPlayers(urls)
    ensures LoadedPlayers(urls)[urls[i].0] == TrackPlayer(urls[i].1, false, false)
  {
    var init := urls[..|urls| - 1];
    if i < |urls| - 1 {
      assert init[i] == urls[i];
      assert DistinctKeys(init) by {
        forall a, b | 0 <= a < b < |init| ensures init[a].0 != init[b].0 {
          assert init[a] == urls[a] && init[b] == urls[b];
        }
      }
      LoadedPlayerPlaysItsUrl(init, i);
    }
  }

  lemma LoadAudioRegistersEachUrl(s: PlayerState, urls: Entries)
    requires DistinctKeys(urls)
    ensures var r := AfterLoadAudio(s, urls);
      && r.transport.state == Stopped && r.transport.position == 0.0
      && r.transport.events == s.transport.events
      && r.players.Keys == s.players.Keys + EntryKeys(urls)
      && r.volumes.Keys == s.volumes.Keys + EntryKeys(urls)
      && (forall i :: 0 <= i < |urls| ==>
            r.players[urls[i].0] == TrackPlayer(urls[i].1, false, false) && r.volumes[urls[i].0] == Volume(UnityGain))
      && (forall k :: k in s.players && k !in EntryKeys(urls) ==> r.players[k] == s.players[k])
  {
    LoadedKeys(urls);
    forall i | 0 <= i < |urls|
      ensures AfterLoadAudio(s, urls).players[urls[i].0] == TrackPlayer(urls[i].1, false, false)
    {
      LoadedPlayerPlaysItsUrl(urls, i);
    }
  }

  /** `StartEvents` holds exactly one start-at-0 event per key and nothing else. */
  lemma {:induction false} StartEventsExactlyOnce(keys: set<string>)
    ensures |StartEvents(keys)| == |keys|
    ensures forall k :: StartEvents(keys)[StartPlayer(k, 0.0)] == (if k in keys then 1 else 0)
    ensures forall e :: e in StartEvents(keys) ==> e.StartPlayer? && e.player in keys && e.at == 0.0
    decreases |keys|
  {
    if keys == {} {
      assert (set k | k in keys :: StartPlayer(k, 0.0)) == {};
    } else {
      var k0 :| k0 in keys;
      var rest := keys - {k0};
      StartEventsExactlyOnce(rest);
      var image := set k | k in keys :: StartPlayer(k, 0.0);
      var restImage := set k | k in rest :: StartPlayer(k, 0.0);
      assert image == restImage + {StartPlayer(k0, 0.0)};
      assert StartPlayer(k0, 0.0) !in restImage;
      assert StartEvents(keys) == StartEvents(rest) + multiset{StartPlayer(k0, 0.0)};
    }
  }

  /** The first `initialize` schedules one start per player; later calls change nothing. */
  lemma InitializeIsIdempotent(s: PlayerState)
    ensures AfterInitialize(AfterInitialize(s)) == AfterInitialize(s)
    ensures AfterInitialize(s).initialized
    ensures !s.initialized ==>
      AfterInitialize(s).transport.events == s.transport.events + StartEvents(s.players.Keys)
    ensures !s.initialized ==>
      |AfterInitialize(s).transport.events| == |s.transport.events| + |s.players|
  {
    StartEventsExactlyOnce(s.players.Keys);
  }

  lemma PlayWhileRunningIsNoOp(s: PlayerState, withCallback: bool, unlocked: bool)
    requires s.running
    ensures AfterPlay(s, withCallback, unlocked) == s
  {
  }

  /** A successful `play` starts the transport; the timer is armed only with a callback. */
  lemma PlayStartsTransport(s: PlayerState, withCallback: bool)
    requires !s.running
    ensures var r := AfterPlay(s, withCallback, true);
      && r.running && r.transport.state == Started
      && r.transport.position == (if AtOrPastEnd(s.transport) then 0.0 else s.transport.position)
      && (withCallback ==> r.updater == Ticking(UpdaterPeriodMs))
      && (!withCallback ==> r.updater == s.updater)
      && r.players == s.players && r.volumes == s.volumes && r.transport.events == s.transport.events
  {
  }

  /** When `Tone.start()` rejects, the error is caught and the player stays stopped. */
  lemma PlayRejectedChangesNothing(s: PlayerState, withCallback: bool)
    ensures AfterPlay(s, withCallback, false) == s
  {
  }

  lemma PauseIsIdempotent(s: PlayerState)
    ensures AfterPause(AfterPause(s)) == AfterPause(s)
    ensures !AfterPause(s).running
    ensures s.running ==> AfterPause(s).updater == Idle
    ensures !s.running ==> AfterPause(s) == s
    ensures AfterPause(s).transport.position == s.transport.position
  {
  }

  lemma StopAlwaysHalts(s: PlayerState)
    ensures !AfterStop(s).running && AfterStop(s).updater == Idle && AfterStop(s).transport.state == Stopped
    ensures AfterStop(AfterStop(s)) == AfterStop(s)
  {
  }

  /**
   * After `seek(x)` the transport is at x (Tone's transport has no duration, so
   * play's end-of-song reset never fires), `running` is what it was, and the
   * scroll-follow timer is not re-armed.
   */
  lemma SeekKeepsRunning(s: PlayerState, seconds: real)
    requires Synced(s)
    requires s.transport.duration == None
    ensures var r := AfterSeek(s, seconds, true);
      && r.transport.position == seconds
      && r.running == s.running
      && r.updater == Idle
      && (r.running <==> r.transport.state == Started)
      && r.players == s.players && r.volumes == s.volumes && r.transport.events == s.transport.events
  {
  }

  lemma SeekWhilePausedOnlyMoves(s: PlayerState, seconds: real, unlocked: bool)
    requires !s.running
    ensures AfterSeek(s, seconds, unlocked) == s.(transport := s.transport.(position := seconds))
  {
  }

  /** Mute and unmute touch only the named, existing player. */
  lemma SetMuteTouchesOnlyName(s: PlayerState, name: string, mute: bool)
    ensures var r := AfterSetMute(s, name, mute);
      && r.players.Keys == s.players.Keys && r.volumes == s.volumes && r.transport == s.transport
      && (name in s.players ==> r.players[name] == s.players[name].(mute := mute))
      && (forall k :: k in s.players && k != name ==> r.players[k] == s.players[k])
      && (name !in s.players ==> r == s)
  {
  }

  lemma ChangeVolumeLevels(s: PlayerState, name: string, value: real)
    ensures var r := AfterChangeVolume(s, name, value);
      && r.volumes.Keys == s.volumes.Keys && r.players == s.players
      && (name in s.volumes ==> r.volumes[name].level == GainOf(value))
      && (name in s.volumes && value == 1.0 ==> r.volumes[name].level == UnityGain)
      && (forall k :: k in s.volumes && k != name ==> r.volumes[k] == s.volumes[k])
      && (name !in s.volumes ==> r == s)
  {
  }

  lemma LoadMidiSchedulesNothing(s: PlayerState, midi: Midi)
    ensures AfterLoadMidi(s, midi) == s.(midi := Some(midi))
    ensures AfterLoadMidi(s, midi).transport.events == s.transport.events
  {
  }

  lemma CleanupEmptiesEverything(s: PlayerState)
    ensures var r := AfterCleanup(s);
      && r.transport.events == multiset{} && !r.initialized && !r.running
      && r.players == map[] && r.volumes == map[] && r.updater == Idle
      && Synced(r) && KeysAgree(r)
  {
  }

  // ---------------------------------------------------------------------
  // The object
  // ---------------------------------------------------------------------

  class AudioPlayer {
    var midi: Option<Midi>
    var players: map<string, TrackPlayer>
    var volumes: map<string, Volume>
    var transport: Transport
    var running: bool
    var initialized: bool
    var updater: Updater

    function State(): PlayerState
      reads this
    {
      PlayerState(midi, players, volumes, transport, running, initialized, updater)
    }

    /** `new AudioPlayer()`: `t` is the page's shared `Tone.getTransport()`, with whatever is already scheduled on it. */
    constructor (t: Transport)
      ensures State() == InitialState.(transport := t)
    {
      midi := None;
      players := map[];
      volumes := map[];
      transport := t;
      running := false;
      initialized := false;
      updater := Idle;
    }

    method LoadAudioFileFromURL(urls: Entries)
      modifies this
      ensures State() == AfterLoadAudio(old(State()), urls)
    {
      transport := Tone.Stop(transport);
      transport := SetSeconds(transport, 0.0);
      AddTracks(urls);
    }

    /** The loop of `loadAudioFileFromURL`: one player and one volume node per key. */
    method AddTracks(urls: Entries)
      modifies this`players, this`volumes
      ensures players == old(players) + LoadedPlayers(urls)
      ensures volumes == old(volumes) + FreshVolumes(urls)
    {
      for i := 0 to |urls|
        invariant players == old(players) + LoadedPlayers(urls[..i])
        invariant volumes == old(volumes) + FreshVolumes(urls[..i])
      {
        LoadStep(old(players), old(volumes), urls, i);
        var (key, url) := urls[i];
        players := players[key := TrackPlayer(url, false, false)];
        volumes := volumes[key := Volume(UnityGain)];
      }
      assert urls[..|urls|] == urls;
    }

    method Initialize()
      modifies this
      ensures State() == AfterInitialize(old(State()))
    {
      if initialized {
        return;
      }
      ScheduleTracks();
      initialized := true;
    }

    /** The loop of `initialize`: sync every player and schedule its start at 0. */
    method ScheduleTracks()
      modifies this`players, this`transport
      ensures players == SyncAll(old(players))
      ensures transport == old(transport).(events := old(transport).events + StartEvents(old(players).Keys))
    {
      var pending := players.Keys;
      ghost var done: set<string> := {};
      while pending != {}
        invariant pending !! done && pending + done == old(players).Keys
        invariant players == SyncSome(old(players), done)
        invariant transport == old(transport).(events := old(transport).events + StartEvents(done))
        decreases pending
      {
        var key :| key in pending;
        ScheduleOneMore(done, key);
        SyncOneMore(old(players), done, key);
        transport := Schedule(transport, StartPlayer(key, 0.0));
        players := players[key := players[key].(synced := true)];
        pending := pending - {key};
        done := done + {key};
      }
    }

    method Play(withCallback: bool, unlocked: bool)
      modifies this
      ensures State() == AfterPlay(old(State()), withCallback, unlocked)
    {
      if !running {
        if !unlocked {
          return;
        }
        if AtOrPastEnd(transport) {
          transport := SetSeconds(transport, 0.0);
        }
        if withCallback {
          updater := Ticking(UpdaterPeriodMs);
        }
        transport := Start(transport);
        running := true;
      }
    }

    method Seek(seconds: real, unlocked: bool)
      modifies this
      ensures State() == AfterSeek(old(State()), seconds, unlocked)
    {
      var wasRunning := running;
      if wasRunning {
        Pause();
      }
      transport := SetSeconds(transport, seconds);
      if wasRunning {
        Play(false, unlocked);
      }
    }

    method Pause()
      modifies this
      ensures State() == AfterPause(old(State()))
    {
      if running {
        transport := Tone.Pause(transport);
        updater := Idle;
        running := false;
      }
    }

    method Stop()
      modifies this
      ensures State() == AfterStop(old(State()))
    {
      transport := Tone.Stop(transport);
      updater := Idle;
      running := false;
    }

    method MuteTrack(name: string)
      modifies this
      ensures State() == AfterSetMute(old(State()), name, true)
    {
      if name in players {
        players := players[name := players[name].(mute := true)];
      }
    }

    method UnmuteTrack(name: string)
      modifies this
      ensures State() == AfterSetMute(old(State()), name, false)
    {
      if name in players {
        players := players[name := players[name].(mute := false)];
      }
    }

    method ChangeVolume(name: string, value: real)
      modifies this
      ensures State() == AfterChangeVolume(old(State()), name, value)
    {
      if name in volumes {
        volumes := volumes[name := Volume(LinearToDb(value))];
      }
    }

    method LoadMidi(m: Midi)
      modifies this
      ensures State() == AfterLoadMidi(old(State()), m)
    {
      midi := Some(m);
    }

    method Cleanup()
      modifies this
      ensures State() == AfterCleanup(old(State()))
    {
      Stop();
      transport := Cancel(transport);
      initialized := false;
      players := map[];
      volumes := map[];
    }
  }

  /** Scheduling one more start event extends `StartEvents` by that event. */
  lemma ScheduleOneMore(done: set<string>, key: string)
    requires key !in done
    ensures StartEvents(done + {key}) == StartEvents(done) + multiset{StartPlayer(key, 0.0)}
  {
    var image := set k | k in done + {key} :: StartPlayer(k, 0.0);
    var before := set k | k in done :: StartPlayer(k, 0.0);
    assert image == before + {StartPlayer(key, 0.0)};
    assert StartPlayer(key, 0.0) !in before;
  }

  /** Syncing one more player extends `SyncSome` by that player. */
  lemma SyncOneMore(players: map<string, TrackPlayer>, done: set<string>, key: string)
    requires key in players
    ensures SyncSome(players, done)[key := players[key].(synced := true)] == SyncSome(players, done + {key})
  {
  }
}
