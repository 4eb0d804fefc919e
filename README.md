# audio-genius, modelled in Dafny

audio-genius separates a song into stems, transcribes its vocal line into MIDI and shows the result in the browser. This project models the deterministic core of that system and proves what the core promises.

**Frontend (React and Tone.js)**

- `Pianoroll` (`pianoroll.dfy`): the piano-roll canvas. It covers:
  - the time↔pixel and pitch→row geometry;
  - the 49-key strip and the grid;
  - the note boxes and their spark particles;
  - the x-stepping of the melody contour;
  - the per-frame particle update.
- `AudioPlayback` (`audio_player.dfy`): the multitrack `AudioPlayer`, over an abstract Tone transport (`tone.dfy`).
- `LegacyAudioPlayback` (`legacy_audio_player.dfy`): the older variant of that player.
- `MidiViewer` (`audio_midi_viewer.dfy`) and `LegacyMidiViewer` (`legacy_audio_midi_viewer.dfy`): the two viewer components. Each has a mount sequence, a scroll arbitration between the roll and the transport, and control dispatch. The DOM controls and listeners they share are in `viewer_dom.dfy`.
- `VisualizerWrapper` (`visualizer_wrapper.dfy`): resource-URL normalisation, settings assembly and resource validation.
- `AudioVisualization` (`audio_visualization.dfy`): the melody strip. It covers the black-key rule, the visible window, note placement and the melody schedule.

**Backend (Python)**

- `MidiExtractor` (`midi_extractor.dfy`): transcription post-processing. It covers:
  - the note range and the linear range conversion;
  - the row-stochastic hidden-Markov transition matrix and the prior table, written into `array2`s by the source's nested loops;
  - the silence/onset/sustain decoder that turns the Viterbi state sequence into piano-roll rows and a melody wave;
  - the conversion of seconds to beats.
- `MusicServices` (`music_services.dfy`): the recommendation engine. It covers:
  - the input clean-up: strip, lower-cased lookup in a corrections table, capitalised words;
  - `get_recommendations` over abstract LastFM and MusicBrainz services: one fallback, one record per track object, truncation to `limit`, and an empty list on any exception.

**How the model is built**

- Stateful objects are classes. Each class's fields mirror the source object, and its `State()` abstraction is a datatype value.
- Each method is proved to produce exactly the state given by a function of the old state, for example `AfterPlay` or `AfterPause`. Lemmas over those functions state the invariants and laws of the newer `AudioPlayback` player:
  - the `players` and `volumes` maps always have the same keys;
  - pause and initialize are idempotent;
  - seek restores `running`.
- The legacy `LegacyAudioPlayback` player breaks the first two laws, and lemmas say so: loading a MIDI file adds a volume without a player (`LoadMidiAddsUnpairedVolume`), and a second initialize schedules the parts again (`InitializeTwiceSchedulesTwice`).
- Loops in the source are loops here. Their invariants relate the partial result to a recursive specification of the prefix processed so far.
- Real-valued arithmetic is exact (`real`). Integers are unbounded.
- JavaScript's and Python's own rules are written out in `js_semantics.dfy`: `Math.round`, the truncating `%`, the clamping `slice`, Python's `[:n]`.
- Errors the source can raise are values (`Result`, `Outcome`), not preconditions. For example:
  - `min` of an empty RMS track;
  - an out-of-range RMS frame;
  - `int()` of the NaN of a flat signal;
  - a zero tempo;
  - a `querySelector` that returns null.
- Two facts about Tone shape the player model:
  - Tone's `Transport.stop()` returns the position to 0;
  - Tone's transport has no `duration` property, yet `play` compares against `transport.duration`. The model keeps it as an optional value, and an absent value makes the comparison false.

## Model

| member | source | states |
|---|---|---|
| JsSemantics.Ceil | apps/frontend/src/components/AudioVisualization.tsx:70 | `Math.ceil(x)` is the least integer not below x |
| JsSemantics.Round | apps/frontend/src/components/AudioMidiViewer/Pianoroll.js:373-374 | `Math.round(x)` is the integer within half a unit of x, with halves rounded up |
| JsSemantics.Rem | apps/frontend/src/components/AudioVisualization.tsx:60 | JavaScript's `%` agrees with the mathematical remainder on non-negative dividends and is in (−n, 0] on negative ones |
| JsSemantics.SliceBound | apps/frontend/src/components/AudioVisualization.tsx:115 | a slice bound is resolved into 0..length |
| JsSemantics.Slice | apps/frontend/src/components/AudioVisualization.tsx:115 | `slice(start, end)` with bounds inside the array is the subsequence start..end and is never longer than the array |
| JsSemantics.RoundQuotient | apps/frontend/src/components/AudioMidiViewer/Pianoroll.js:373-374 | `Math.round(a / b)` is within one half of a / b for a non-zero b; for b = 0 it is Infinity, -Infinity or NaN by the sign of a |
| JsSemantics.PlusOne | apps/frontend/src/components/AudioMidiViewer/Pianoroll.js:376 | adding 1 moves an integer up by one and leaves Infinity, -Infinity and NaN as they are |
| JsSemantics.RoundedSliceBound | apps/frontend/src/components/AudioMidiViewer/Pianoroll.js:376 | a slice bound resolves as for integers, Infinity to the length, and -Infinity and NaN to 0 |
| JsSemantics.RoundedSlice | apps/frontend/src/components/AudioMidiViewer/Pianoroll.js:376 | `slice` on integer bounds is the integer slice; from NaN or -Infinity to Infinity it is the whole array; from Infinity, or to NaN or -Infinity, it is empty |
| JsSemantics.PyPrefix | apps/backend/music_services.py:163 | Python's `[:limit]` is a prefix of the list, at most limit long for a non-negative limit, and the whole list when limit reaches its length |
| Tone.GainOf | apps/frontend/src/components/AudioMidiViewer/AudioPlayer.js:151 | `20 * Math.log10(v)` is a finite level exactly when v is positive, and that level is the one of v |
| AudioPlayback.LinearToDb | apps/frontend/src/components/AudioMidiViewer/AudioPlayer.js:148-151 | the explicit `value === 0` case agrees with the logarithm; the level is -Infinity exactly for 0 |
| AudioPlayback.KeysAgreeUnderEveryOperation | apps/frontend/src/components/AudioMidiViewer/AudioPlayer.js:14-199 | every operation keeps the `players` and `volumes` dictionaries on the same keys |
| AudioPlayback.SyncedUnderEveryOperation | apps/frontend/src/components/AudioMidiViewer/AudioPlayer.js:41-199 | every operation except loading audio while running keeps `running` equal to "transport started" and the timer only armed while running |
| AudioPlayback.LoadAudioWhileRunningDesyncs | apps/frontend/src/components/AudioMidiViewer/AudioPlayer.js:14-17 | loading while playing stops the transport but leaves `running` set |
| AudioPlayback.LoadedKeys | apps/frontend/src/components/AudioMidiViewer/AudioPlayer.js:19-38 | the loop registers a player and a fresh 0 dB volume under exactly the keys of `urls` |
| AudioPlayback.LoadedPlayerPlaysItsUrl | apps/frontend/src/components/AudioMidiViewer/AudioPlayer.js:19-35 | the player under each key plays that key's url, unmuted and not yet synced |
| AudioPlayback.LoadAudioRegistersEachUrl | apps/frontend/src/components/AudioMidiViewer/AudioPlayer.js:14-39 | after loading, the transport is stopped at 0 with its events kept, each url has its player and volume, and players under other keys are kept |
| AudioPlayback.StartEventsExactlyOnce | apps/frontend/src/components/AudioMidiViewer/AudioPlayer.js:45-55 | the scheduled starts are one start-at-0 event per player and nothing else |
| AudioPlayback.InitializeIsIdempotent | apps/frontend/src/components/AudioMidiViewer/AudioPlayer.js:41-62 | the first call schedules one start per player; a second call changes nothing |
| AudioPlayback.PlayWhileRunningIsNoOp | apps/frontend/src/components/AudioMidiViewer/AudioPlayer.js:64-65 | `play` while running changes nothing |
| AudioPlayback.PlayStartsTransport | apps/frontend/src/components/AudioMidiViewer/AudioPlayer.js:64-99 | a successful `play` starts the transport, rewinds only at or past the end, arms the timer only with a callback, and touches nothing else |
| AudioPlayback.PlayRejectedChangesNothing | apps/frontend/src/components/AudioMidiViewer/AudioPlayer.js:66-98 | when `Tone.start()` rejects, the error is caught and the state is unchanged |
| AudioPlayback.PauseIsIdempotent | apps/frontend/src/components/AudioMidiViewer/AudioPlayer.js:119-125 | pause stops `running`, clears the timer, keeps the position, and a second pause changes nothing |
| AudioPlayback.StopAlwaysHalts | apps/frontend/src/components/AudioMidiViewer/AudioPlayer.js:127-131 | stop always leaves the transport stopped, the timer cleared and `running` false, and is idempotent |
| AudioPlayback.SeekKeepsRunning | apps/frontend/src/components/AudioMidiViewer/AudioPlayer.js:102-117 | seek moves the transport to the given seconds, keeps `running` as it was, and leaves the scroll-follow timer cleared |
| AudioPlayback.SeekWhilePausedOnlyMoves | apps/frontend/src/components/AudioMidiViewer/AudioPlayer.js:102-117 | seek while stopped only moves the position |
| AudioPlayback.SetMuteTouchesOnlyName | apps/frontend/src/components/AudioMidiViewer/AudioPlayer.js:133-145 | mute and unmute change only the named player, and nothing when the name is unknown |
| AudioPlayback.ChangeVolumeLevels | apps/frontend/src/components/AudioMidiViewer/AudioPlayer.js:147-153 | the named volume gets 20·log10(value) dB (0 dB for 1), other volumes are kept, and an unknown name changes nothing |
| AudioPlayback.LoadMidiSchedulesNothing | apps/frontend/src/components/AudioMidiViewer/AudioPlayer.js:155-186 | loading MIDI only stores the file; its scheduling code is commented out |
| AudioPlayback.CleanupEmptiesEverything | apps/frontend/src/components/AudioMidiViewer/AudioPlayer.js:188-199 | cleanup cancels every event, empties both dictionaries, clears `initialized` and stops playback |
| AudioPlayback.AudioPlayer.constructor | apps/frontend/src/components/AudioMidiViewer/AudioPlayer.js:4-12 | a new player has no MIDI, no tracks and every flag cleared, over the page's shared transport exactly as it finds it, earlier events included |
| AudioPlayback.AudioPlayer.LoadAudioFileFromURL | apps/frontend/src/components/AudioMidiViewer/AudioPlayer.js:14-39 | the new state is the loading function of the old one |
| AudioPlayback.AudioPlayer.AddTracks | apps/frontend/src/components/AudioMidiViewer/AudioPlayer.js:19-38 | the loop adds exactly the loaded players and fresh volumes |
| AudioPlayback.AudioPlayer.Initialize | apps/frontend/src/components/AudioMidiViewer/AudioPlayer.js:41-62 | the new state is the initialise function of the old one |
| AudioPlayback.AudioPlayer.ScheduleTracks | apps/frontend/src/components/AudioMidiViewer/AudioPlayer.js:45-59 | the loop syncs every player and adds one start event per player |
| AudioPlayback.AudioPlayer.Play | apps/frontend/src/components/AudioMidiViewer/AudioPlayer.js:64-100 | the new state is the play function of the old one |
| AudioPlayback.AudioPlayer.Seek | apps/frontend/src/components/AudioMidiViewer/AudioPlayer.js:102-117 | the new state is the seek function of the old one |
| AudioPlayback.AudioPlayer.Pause | apps/frontend/src/components/AudioMidiViewer/AudioPlayer.js:119-125 | the new state is the pause function of the old one |
| AudioPlayback.AudioPlayer.Stop | apps/frontend/src/components/AudioMidiViewer/AudioPlayer.js:127-131 | the new state is the stop function of the old one |
| AudioPlayback.AudioPlayer.MuteTrack | apps/frontend/src/components/AudioMidiViewer/AudioPlayer.js:133-138 | the new state is the old one with the named player muted |
| AudioPlayback.AudioPlayer.UnmuteTrack | apps/frontend/src/components/AudioMidiViewer/AudioPlayer.js:140-145 | the new state is the old one with the named player unmuted |
| AudioPlayback.AudioPlayer.ChangeVolume | apps/frontend/src/components/AudioMidiViewer/AudioPlayer.js:147-153 | the new state is the volume-change function of the old one |
| AudioPlayback.AudioPlayer.LoadMidi | apps/frontend/src/components/AudioMidiViewer/AudioPlayer.js:155-156 | the new state is the old one with the MIDI file stored |
| AudioPlayback.AudioPlayer.Cleanup | apps/frontend/src/components/AudioMidiViewer/AudioPlayer.js:188-199 | the new state is the cleanup function of the old one |
| AudioPlayback.ScheduleOneMore | apps/frontend/src/components/AudioMidiViewer/AudioPlayer.js:53-55 | scheduling one more player adds exactly its start event |
| AudioPlayback.SyncOneMore | apps/frontend/src/components/AudioMidiViewer/AudioPlayer.js:58 | syncing one more player extends the synced set by that player |
| LegacyAudioPlayback.InitializeTwiceSchedulesTwice | apps/frontend/src/audiomidiplayer/src/AudioPlayer.js:28-40 | `initialize` has no guard: a second call schedules every player's start a second time |
| LegacyAudioPlayback.SeekKeepsPlaying | apps/frontend/src/audiomidiplayer/src/AudioPlayer.js:55-57 | seek only moves the transport, keeping its run state, `running` and the timer |
| LegacyAudioPlayback.SetMuteUnknownThrows | apps/frontend/src/audiomidiplayer/src/AudioPlayer.js:73-79 | muting or unmuting throws exactly when the name has no player, and otherwise agrees with the later player |
| LegacyAudioPlayback.ChangeVolumeAgreesWithGuarded | apps/frontend/src/audiomidiplayer/src/AudioPlayer.js:81-83 | changing the volume throws exactly for an unknown name, and otherwise sets 20·log10(value) like the later player |
| LegacyAudioPlayback.TrackEventsAreTheNotes | apps/frontend/src/audiomidiplayer/src/AudioPlayer.js:96-108 | one trigger per note of a track, at the note's time with its duration, and nothing else |
| LegacyAudioPlayback.MidiEventsAreTheNotes | apps/frontend/src/audiomidiplayer/src/AudioPlayer.js:88-110 | `loadMidi` schedules one trigger per note of the file, tagged with its track, and nothing else |
| LegacyAudioPlayback.LoadMidiAddsUnpairedVolume | apps/frontend/src/audiomidiplayer/src/AudioPlayer.js:88-94 | after a non-empty file, the volumes hold a "midi" entry no player has, so the two dictionaries no longer agree |
| LegacyAudioPlayback.MidiEventsSnoc | apps/frontend/src/audiomidiplayer/src/AudioPlayer.js:88-110 | the events of one more track are added to those of the tracks before it |
| LegacyAudioPlayback.LoadMidiOfEmptyFileOnlyStores | apps/frontend/src/audiomidiplayer/src/AudioPlayer.js:85-88 | a file with no tracks is only stored |
| LegacyAudioPlayback.AudioPlayer.constructor | apps/frontend/src/audiomidiplayer/src/AudioPlayer.js:4-13 | a new player has no MIDI, no tracks and every flag cleared; the transport is Tone's global one |
| LegacyAudioPlayback.AudioPlayer.LoadAudioFileFromURL | apps/frontend/src/audiomidiplayer/src/AudioPlayer.js:15-26 | one player and one 0 dB volume per key of `urls`; the transport is not touched |
| LegacyAudioPlayback.AudioPlayer.Initialize | apps/frontend/src/audiomidiplayer/src/AudioPlayer.js:28-40 | the new state is the unguarded initialise function of the old one |
| LegacyAudioPlayback.AudioPlayer.ScheduleTracks | apps/frontend/src/audiomidiplayer/src/AudioPlayer.js:29-35 | the loop syncs every player and adds one start event per player |
| LegacyAudioPlayback.AudioPlayer.Play | apps/frontend/src/audiomidiplayer/src/AudioPlayer.js:42-53 | the new state is the play function of the old one, with a 100 ms timer |
| LegacyAudioPlayback.AudioPlayer.Seek | apps/frontend/src/audiomidiplayer/src/AudioPlayer.js:55-57 | only the transport position changes |
| LegacyAudioPlayback.AudioPlayer.Pause | apps/frontend/src/audiomidiplayer/src/AudioPlayer.js:59-65 | the new state is the shared pause function of the old one |
| LegacyAudioPlayback.AudioPlayer.Stop | apps/frontend/src/audiomidiplayer/src/AudioPlayer.js:67-71 | the new state is the shared stop function of the old one |
| LegacyAudioPlayback.AudioPlayer.MuteTrack | apps/frontend/src/audiomidiplayer/src/AudioPlayer.js:73-75 | the TypeError is reported exactly for an unknown name, with the state unchanged; otherwise the player is muted |
| LegacyAudioPlayback.AudioPlayer.UnmuteTrack | apps/frontend/src/audiomidiplayer/src/AudioPlayer.js:77-79 | the TypeError is reported exactly for an unknown name, with the state unchanged; otherwise the player is unmuted |
| LegacyAudioPlayback.AudioPlayer.SetMuteOf | apps/frontend/src/audiomidiplayer/src/AudioPlayer.js:73-79 | shared body of mute and unmute, with the same TypeError and state |
| LegacyAudioPlayback.AudioPlayer.ChangeVolume | apps/frontend/src/audiomidiplayer/src/AudioPlayer.js:81-83 | the TypeError is reported exactly for an unknown name; otherwise the level is 20·log10(value) |
| LegacyAudioPlayback.AudioPlayer.LoadMidi | apps/frontend/src/audiomidiplayer/src/AudioPlayer.js:85-111 | the new state is the MIDI-loading function of the old one |
| LegacyAudioPlayback.AudioPlayer.ScheduleMidi | apps/frontend/src/audiomidiplayer/src/AudioPlayer.js:88-110 | the loop over tracks leaves a "midi" volume when there is a track, and adds every note's trigger |
| LegacyAudioPlayback.AudioPlayer.LoadTrack | apps/frontend/src/audiomidiplayer/src/AudioPlayer.js:89-109 | one track: a fresh volume under "midi", then one trigger per note |
| LegacyAudioPlayback.AudioPlayer.ScheduleNotes | apps/frontend/src/audiomidiplayer/src/AudioPlayer.js:96-108 | the loop over notes adds exactly that track's triggers |
| ViewerDom.Keys | apps/frontend/src/components/AudioMidiViewer/AudioMidiViewer.jsx:128 | `Object.keys(urls)` lists the keys of the entries, in order |
| ViewerDom.FirstWithClass | apps/frontend/src/components/AudioMidiViewer/AudioMidiViewer.jsx:63-73 | `querySelector` finds the first button of the class in document order, or none when no button has it |
| ViewerDom.ControlsPerKey | apps/frontend/src/components/AudioMidiViewer/AudioMidiViewer.jsx:128-143 | one checked control at level 1 within 0..1 per stem, named after it, and the names are exactly the keys |
| ViewerDom.CompleteWiring | apps/frontend/src/components/AudioMidiViewer/AudioMidiViewer.jsx:63-98 | when all three buttons are found, each gets its own handler and every checkbox and slider exactly one listener |
| ViewerDom.Controls.constructor | apps/frontend/src/components/AudioMidiViewer/AudioMidiViewer.jsx:121-145 | the rendered controls start disabled, with no listeners |
| ViewerDom.Controls.Enable | apps/frontend/src/components/AudioMidiViewer/AudioMidiViewer.jsx:57-60 | every button is enabled |
| ViewerDom.Controls.Attach | apps/frontend/src/components/AudioMidiViewer/AudioMidiViewer.jsx:63-98 | the listeners attached are the wiring of the buttons, in order, and a missing button ends the setup with a TypeError |
| MidiViewer.ScrollArbitration | apps/frontend/src/components/AudioMidiViewer/AudioMidiViewer.jsx:39-47 | while running, scrolling never seeks; while not running, the transport follows the view; at the end of the range playback pauses |
| MidiViewer.MountedPlayer | apps/frontend/src/components/AudioMidiViewer/AudioMidiViewer.jsx:23-54 | the mount loads every stem, stores the file and initialises once, adding one start event per stem to what the shared transport already held; a failed MIDI fetch leaves the stems loaded and adds nothing |
| MidiViewer.RemountKeepsEarlierStarts | apps/frontend/src/components/AudioMidiViewer/AudioMidiViewer.jsx:23-54 | nothing cancels the shared transport between mounts, so a second mount keeps the first mount's start events beside its own |
| MidiViewer.OnlyPlayIsWired | apps/frontend/src/components/AudioMidiViewer/AudioMidiViewer.jsx:63-126 | as rendered, only Play gets a listener: the ".pause" lookup finds nothing, so Pause, Stop, the checkboxes and the sliders do nothing |
| MidiViewer.IntendedWiring | apps/frontend/src/components/AudioMidiViewer/AudioMidiViewer.jsx:63-98 | with distinct button classes, every button, checkbox and slider is wired |
| MidiViewer.IntendedButtonsDispatch | apps/frontend/src/components/AudioMidiViewer/AudioMidiViewer.jsx:63-76 | with distinct classes, Play plays with the scroll callback, Pause pauses, and Stop stops and scrolls back to 0 |
| MidiViewer.IntendedControlsDispatch | apps/frontend/src/components/AudioMidiViewer/AudioMidiViewer.jsx:79-98 | with distinct classes, each checkbox unmutes or mutes its stem and each slider sets that stem's volume |
| MidiViewer.DisabledButtonsDoNothing | apps/frontend/src/components/AudioMidiViewer/AudioMidiViewer.jsx:123-125 | a disabled button delivers no click |
| MidiViewer.Viewer.constructor | apps/frontend/src/components/AudioMidiViewer/AudioMidiViewer.jsx:8-21 | the viewer starts with no player and no roll, and its controls disabled and unwired |
| MidiViewer.Viewer.Mount | apps/frontend/src/components/AudioMidiViewer/AudioMidiViewer.jsx:23-103 | the player's state is the mount function of the urls over the shared transport it is given; on a failed fetch the error is caught, with no roll and no listeners; otherwise a fresh roll holds the file and the controls are enabled and wired |
| MidiViewer.Viewer.OnScroll | apps/frontend/src/components/AudioMidiViewer/AudioMidiViewer.jsx:39-47 | the player's new state is the scroll arbitration of its old state |
| MidiViewer.Viewer.Click | apps/frontend/src/components/AudioMidiViewer/AudioMidiViewer.jsx:63-76 | the player and the scroll position change as the attached handlers of the clicked button say |
| MidiViewer.Viewer.UpdaterTick | apps/frontend/src/components/AudioMidiViewer/AudioMidiViewer.jsx:64-66 | while the timer ticks, the roll scrolls to the transport time; otherwise it is left where it was |
| MidiViewer.Viewer.CheckboxChanged | apps/frontend/src/components/AudioMidiViewer/AudioMidiViewer.jsx:79-90 | a checked box unmutes its stem, an unchecked one mutes it, when a listener is attached |
| MidiViewer.Viewer.RangeInput | apps/frontend/src/components/AudioMidiViewer/AudioMidiViewer.jsx:92-98 | a slider sets its stem's volume to the parsed value, when a listener is attached |
| LegacyMidiViewer.ScrollArbitration | apps/frontend/src/audiomidiplayer/src/AudioMidiViewer.jsx:33-41 | a running transport is never moved by scrolling, a stopped one follows the view, and the end of the range pauses |
| LegacyMidiViewer.AudioLoadedInitializesOnce | apps/frontend/src/audiomidiplayer/src/AudioMidiViewer.jsx:46-52 | the continuation schedules the file's notes each time, but the players' starts only on the first initialisation |
| LegacyMidiViewer.EveryControlIsWired | apps/frontend/src/audiomidiplayer/src/AudioMidiViewer.jsx:58-117 | with its own class on each button, every button, checkbox and slider gets its listener |
| LegacyMidiViewer.ButtonsDispatch | apps/frontend/src/audiomidiplayer/src/AudioMidiViewer.jsx:58-70 | Play plays with the scroll callback, Pause pauses, Stop only stops, and no other button does anything |
| LegacyMidiViewer.StemControlsDispatch | apps/frontend/src/audiomidiplayer/src/AudioMidiViewer.jsx:72-92 | each stem's checkbox and slider act on that stem and never throw, as every stem has a player |
| LegacyMidiViewer.Viewer.constructor | apps/frontend/src/audiomidiplayer/src/AudioMidiViewer.jsx:8-21 | the viewer starts with no player, nothing printed or pending, and its controls disabled |
| LegacyMidiViewer.Viewer.Mount | apps/frontend/src/audiomidiplayer/src/AudioMidiViewer.jsx:23-46 | a failed fetch rejects before anything is built; otherwise the file goes to the roll and the player loads the stems |
| LegacyMidiViewer.Viewer.AudioLoaded | apps/frontend/src/audiomidiplayer/src/AudioMidiViewer.jsx:46-93 | the player's new state is the continuation function of its old one, and the controls are enabled and wired |
| LegacyMidiViewer.Viewer.OnScroll | apps/frontend/src/audiomidiplayer/src/AudioMidiViewer.jsx:33-41 | the player's new state is the scroll arbitration of its old one |
| LegacyMidiViewer.Viewer.Click | apps/frontend/src/audiomidiplayer/src/AudioMidiViewer.jsx:58-70 | the player changes as the clicked button's handlers say |
| LegacyMidiViewer.Viewer.UpdaterTick | apps/frontend/src/audiomidiplayer/src/AudioMidiViewer.jsx:59-61 | while the timer ticks, the roll is asked to scroll to the transport time |
| LegacyMidiViewer.Viewer.CheckboxChanged | apps/frontend/src/audiomidiplayer/src/AudioMidiViewer.jsx:72-83 | the box mutes or unmutes its stem; a thrown TypeError is reported and leaves the player as it was |
| LegacyMidiViewer.Viewer.RangeInput | apps/frontend/src/audiomidiplayer/src/AudioMidiViewer.jsx:85-92 | the slider sets its stem's volume; a thrown TypeError is reported and leaves the player as it was |
| Pianoroll.MidiKeys | apps/frontend/src/components/AudioMidiViewer/Pianoroll.js:37-50 | the keys of the note table are the 49 integers 36..84, in ascending order |
| Pianoroll.OnScroll | apps/frontend/src/components/AudioMidiViewer/Pianoroll.js:69-73 | the listener reports scrollLeft and maxScroll unchanged, and seconds whose x is scrollLeft |
| Pianoroll.ScrollLeftAt | apps/frontend/src/components/AudioMidiViewer/Pianoroll.js:388-390 | `timeScrollTo(t)` places t·zoomFactor, which is t's x minus the key strip's width |
| Pianoroll.KeyIndex | apps/frontend/src/components/AudioMidiViewer/Pianoroll.js:369 | `indexOf` is -1 for a pitch outside the table; otherwise the position of that pitch among the keys |
| Pianoroll.NoteNames | apps/frontend/src/components/AudioMidiViewer/Pianoroll.js:37-48 | the note table's names, one per key 36..84: pitch-class name and octave |
| Pianoroll.BranchOfNoteName | apps/frontend/src/components/AudioMidiViewer/Pianoroll.js:169-191 | the branch the key walk takes for a key's name depends only on its pitch class |
| Pianoroll.NoteNamesFollowPitchClasses | apps/frontend/src/components/AudioMidiViewer/Pianoroll.js:37-48 | every entry of the note table takes its pitch class's branch |
| Pianoroll.SpanClosedForm | apps/frontend/src/components/AudioMidiViewer/Pianoroll.js:166-191 | the walk's running offset before key i is i note heights plus a slack fixed by i's pitch class |
| Pianoroll.KeyStripProps | apps/frontend/src/components/AudioMidiViewer/Pianoroll.js:169-192 | the walk draws one key per entry, in order |
| Pianoroll.KeyGeometry | apps/frontend/src/components/AudioMidiViewer/Pianoroll.js:166-191 | key i is black exactly for a sharp; a black key is one note height tall and covers row i; white keys are labelled with their names and are 1.5 (C, E, F, B) or 2 (D, G, A) note heights tall |
| Pianoroll.WhiteKeysTile | apps/frontend/src/components/AudioMidiViewer/Pianoroll.js:166-191 | each white key sits exactly on top of the white key below it |
| Pianoroll.LowestKeySitsOnBottom | apps/frontend/src/components/AudioMidiViewer/Pianoroll.js:166-171 | the walk starts with C2 resting on the bottom edge of the canvas |
| Pianoroll.NoteBoxSpansItsTime | apps/frontend/src/components/AudioMidiViewer/Pianoroll.js:370 | a note's box spans the x of its start to the x of its end (left 180 and width 20 for a note at 2 s lasting 0.5 s) |
| Pianoroll.NoteTopAsWrittenIsOneRowLow | apps/frontend/src/components/AudioMidiViewer/Pianoroll.js:369 | as written a note's top is one row below its key's row, so pitch 36 starts at the canvas's bottom edge and an unknown pitch one row further down |
| Pianoroll.AsWrittenMissesBlackKey | apps/frontend/src/components/AudioMidiViewer/Pianoroll.js:369 | as written, the box of C#2 lies one row below its black key |
| Pianoroll.NoteTopWithinCanvas | apps/frontend/src/components/AudioMidiViewer/Pianoroll.js:369 | with rows counted up from the bottom edge, every key's box lies inside the canvas, and other pitches start at the bottom edge |
| Pianoroll.NoteTopOnBlackKey | apps/frontend/src/components/AudioMidiViewer/Pianoroll.js:369 | with rows counted up from the bottom edge, a note on a black key gets exactly that key's row |
| Pianoroll.BlackKeyRow | apps/frontend/src/components/AudioMidiViewer/Pianoroll.js:183-187 | a black key's top is the top of its row |
| Pianoroll.ScrollReportExample | apps/frontend/src/components/AudioMidiViewer/Pianoroll.js:72 | scrollLeft 500 is reported as 10 seconds |
| Pianoroll.ScrollToThenReport | apps/frontend/src/components/AudioMidiViewer/Pianoroll.js:388-390 | scrolling to t then reports t − 2.5 seconds, so the two formulas are not inverse |
| Pianoroll.CreateParticle | apps/frontend/src/components/AudioMidiViewer/Pianoroll.js:83-93 | a spark starts where asked, with alpha and life 1, vx in [−1.5, 1.5), vy in (−5, −2], hue in [200, 230) and lightness in [50, 70) |
| Pianoroll.SurvivorsAreLiveAdvanced | apps/frontend/src/components/AudioMidiViewer/Pianoroll.js:94-117 | a frame keeps, in their order, exactly the advanced particles that are still alive, each with alpha equal to its life |
| Pianoroll.AliveMembers | apps/frontend/src/components/AudioMidiViewer/Pianoroll.js:108-111 | a filtered particle is one of the list with positive life, and the list does not grow |
| Pianoroll.LenSeconds | apps/frontend/src/components/AudioMidiViewer/Pianoroll.js:365 | one contour sample covers duration / json.length seconds, zero exactly for a zero duration |
| Pianoroll.TemplateDrawsEveryKeyOnce | apps/frontend/src/components/AudioMidiViewer/Pianoroll.js:153-211 | the template draws a grid line at the top of every row, then each key of the walk once, then the playhead |
| Pianoroll.TemplateLayout | apps/frontend/src/components/AudioMidiViewer/Pianoroll.js:153-211 | the same layout for any note table: grid lines, keys, playhead |
| Pianoroll.SingleNoteSparks | apps/frontend/src/components/AudioMidiViewer/Pianoroll.js:258-285 | a note adds its box, and five sparks at the playhead with life 1 exactly when the box straddles the playhead; otherwise the particles are untouched |
| Pianoroll.LayoutSparksOnlyAtTimeZero | apps/frontend/src/components/AudioMidiViewer/Pianoroll.js:279-283 | in the layout pass only notes starting at time 0 straddle the playhead |
| Pianoroll.ContourStepping | apps/frontend/src/components/AudioMidiViewer/Pianoroll.js:297-348 | the contour's vertices start at offsetX and step by the sample width, it is joined to the previous stroke exactly when that ended close enough, and the stroke ends at the last vertex |
| Pianoroll.LayoutNotesKeepsSize | apps/frontend/src/components/AudioMidiViewer/Pianoroll.js:367-383 | laying out notes draws two shapes per note and changes neither the scroll extent nor the canvas width |
| Pianoroll.LastTrackWins | apps/frontend/src/components/AudioMidiViewer/Pianoroll.js:357-384 | the last track decides maxScroll and the canvas width, and as resizing clears the canvas only its notes stay drawn |
| Pianoroll.ContourWindowBounds | apps/frontend/src/components/AudioMidiViewer/Pianoroll.js:373-376 | a note's contour window is json[round(time/len) .. round((time+dur)/len)] when that fits |
| Pianoroll.ZeroLengthWindow | apps/frontend/src/components/AudioMidiViewer/Pianoroll.js:365-376 | with a zero-duration track both bounds are non-finite: a note starting at or before 0 and ending after it gets the whole contour, any other note none |
| Pianoroll.LayoutNoteBox | apps/frontend/src/components/AudioMidiViewer/Pianoroll.js:368-382 | the layout draws a note's box one row below its key's row (the lowest key's wholly below the canvas), then one stroke with a vertex per window sample |
| Pianoroll.ContourLoadedWithoutMidi | apps/frontend/src/components/AudioMidiViewer/Pianoroll.js:354-357 | without a file, the continuation throws after resetting the stroke |
| Pianoroll.FirstContourNotJoined | apps/frontend/src/components/AudioMidiViewer/Pianoroll.js:304-309 | the first contour after the reset is never joined to an earlier one |
| Pianoroll.Roll.constructor | apps/frontend/src/components/AudioMidiViewer/Pianoroll.js:4-65 | a new roll has no file, no particles, an empty canvas of the key strip's width and scrollLeft 0 |
| Pianoroll.Roll.TimeScrollTo | apps/frontend/src/components/AudioMidiViewer/Pianoroll.js:388-390 | scrollLeft becomes time·zoomFactor |
| Pianoroll.Roll.ScrollEvent | apps/frontend/src/components/AudioMidiViewer/Pianoroll.js:69-73 | the report handed to the callback is the scroll function of scrollLeft and maxScroll |
| Pianoroll.Roll.Animate | apps/frontend/src/components/AudioMidiViewer/Pianoroll.js:94-121 | the particle list becomes the survivors of the frame and lastTime the frame's time |
| Pianoroll.Roll.Resize | apps/frontend/src/components/AudioMidiViewer/Pianoroll.js:135-151 | the width is set and every layer is cleared |
| Pianoroll.Roll.PrintTemplate | apps/frontend/src/components/AudioMidiViewer/Pianoroll.js:153-211 | the template shapes are drawn, in order |
| Pianoroll.Roll.DrawGrid | apps/frontend/src/components/AudioMidiViewer/Pianoroll.js:156-164 | one grid line per row, in order |
| Pianoroll.Roll.DrawKeys | apps/frontend/src/components/AudioMidiViewer/Pianoroll.js:166-192 | the loop draws the key strip of the walk |
| Pianoroll.Roll.PrintSingleNote | apps/frontend/src/components/AudioMidiViewer/Pianoroll.js:258-285 | the new state is the single-note function of the old one |
| Pianoroll.Roll.PrintMelodyContour | apps/frontend/src/components/AudioMidiViewer/Pianoroll.js:287-349 | the new state is the contour function of the old one |
| Pianoroll.Roll.PrintMidiFile | apps/frontend/src/components/AudioMidiViewer/Pianoroll.js:351-352 | the file is stored; the fetch completes later |
| Pianoroll.Roll.ContourLoaded | apps/frontend/src/components/AudioMidiViewer/Pianoroll.js:354-385 | the continuation succeeds exactly when a file is stored; then the state is the layout of every track and the template is drawn |
| Pianoroll.Roll.LayoutTracks | apps/frontend/src/components/AudioMidiViewer/Pianoroll.js:357-384 | the loop over the tracks gives the layout of every track |
| Pianoroll.Roll.LayoutTrack | apps/frontend/src/components/AudioMidiViewer/Pianoroll.js:358-383 | one track: scroll extent, width, template, then its notes |
| Pianoroll.Roll.LayoutNotes | apps/frontend/src/components/AudioMidiViewer/Pianoroll.js:367-383 | the loop over the notes gives the layout of every note |
| Pianoroll.Roll.LayoutNote | apps/frontend/src/components/AudioMidiViewer/Pianoroll.js:368-382 | one note: its box at top canvasHeight − indexOf(pitch)·noteHeight, as written, then its stretch of the contour, for any contour step including 0 |
| VisualizerWrapper.StripLeadingSlashes | apps/frontend/src/components/AudioVisualizerWrapper.tsx:18 | `replace(/^\/+/, '')` removes exactly the leading run of slashes and keeps the rest |
| VisualizerWrapper.CollapseSlashes | apps/frontend/src/components/AudioVisualizerWrapper.tsx:18 | `replace(/\/+/g, '/')` never lengthens the path, keeps it empty exactly when it was, and keeps its first character |
| VisualizerWrapper.AudioToCheck | apps/frontend/src/components/AudioVisualizerWrapper.tsx:68 | the URLs checked are the non-empty audio URLs, every one of them, and nothing else |
| VisualizerWrapper.CollapseProps | apps/frontend/src/components/AudioVisualizerWrapper.tsx:18 | after collapsing there is no double slash, every non-slash character is kept in order, and a path without double slashes is unchanged |
| VisualizerWrapper.EmptyAndAbsoluteUrls | apps/frontend/src/components/AudioVisualizerWrapper.tsx:15-17 | `getFullUrl` gives '' exactly for a missing or empty URL, and returns an 'http' URL unchanged |
| VisualizerWrapper.RelativeUrlRouting | apps/frontend/src/components/AudioVisualizerWrapper.tsx:18-25 | any other URL goes under the API base: 'api/…' directly, a path containing 'downloads/' under /api/audio/, anything else under /api/audio/downloads/ |
| VisualizerWrapper.CleanedPath | apps/frontend/src/components/AudioVisualizerWrapper.tsx:18 | the cleaned path has no leading slash, the appended '/' + path has no double slash, and nothing but slashes is lost |
| VisualizerWrapper.SlashPrefixVanishes | apps/frontend/src/components/AudioVisualizerWrapper.tsx:18 | the leading slashes removed carry no other characters |
| VisualizerWrapper.FullUrlIsIdempotent | apps/frontend/src/components/AudioVisualizerWrapper.tsx:15-26 | every non-empty result starts with 'http', so applying `getFullUrl` again changes nothing |
| VisualizerWrapper.SettingsShape | apps/frontend/src/components/AudioVisualizerWrapper.tsx:28-43 | the settings are null exactly without stem data or a MIDI URL; otherwise the audio entries are drums, bass, other and vocals with their full URLs, the MIDI URL is non-empty, and the size is 600 by 810 |
| VisualizerWrapper.StemKeysDistinct | apps/frontend/src/components/AudioVisualizerWrapper.tsx:32-37 | the four stem keys are distinct |
| VisualizerWrapper.StemUrlIsFullUrl | apps/frontend/src/components/AudioVisualizerWrapper.tsx:33-36 | the guard in front of each stem changes nothing, since a falsy URL already maps to '' |
| VisualizerWrapper.ValidationPassesIffAllOk | apps/frontend/src/components/AudioVisualizerWrapper.tsx:49-87 | validation passes exactly when the MIDI fetch and every non-empty audio HEAD request are ok |
| VisualizerWrapper.FirstFailureNone | apps/frontend/src/components/AudioVisualizerWrapper.tsx:70-78 | no audio failure is reported exactly when every checked URL is ok |
| VisualizerWrapper.MissingStemsAreNotChecked | apps/frontend/src/components/AudioVisualizerWrapper.tsx:68-78 | an empty audio URL is never fetched, so a missing stem cannot fail the validation |
| VisualizerWrapper.FirstFailureAgrees | apps/frontend/src/components/AudioVisualizerWrapper.tsx:70-78 | the audio outcome depends only on the responses to the checked URLs |
| VisualizerWrapper.Wrapper.constructor | apps/frontend/src/components/AudioVisualizerWrapper.tsx:11-13 | the hooks start not loading, with no error and no validated settings |
| VisualizerWrapper.Wrapper.Effect | apps/frontend/src/components/AudioVisualizerWrapper.tsx:45-91 | without settings nothing changes; otherwise loading ends, the error is the validation outcome, and the settings are stored exactly when it passed |
| VisualizerWrapper.Wrapper.ValidateResources | apps/frontend/src/components/AudioVisualizerWrapper.tsx:49-88 | loading ends with the error equal to the validation outcome, and the settings are stored exactly when it passed |
| VisualizerWrapper.ValidatedShowsViewer | apps/frontend/src/components/AudioVisualizerWrapper.tsx:93-138 | after a passing validation the viewer is rendered with the settings; after a failing one the error message is rendered, even when an earlier pass left settings stored |
| AudioVisualization.AllNotesAreTheRange | apps/frontend/src/components/AudioVisualization.tsx:51-57 | the keyboard is the 25 consecutive keys 60..84, in ascending order |
| AudioVisualization.BlackNotePeriodic | apps/frontend/src/components/AudioVisualization.tsx:59-62 | on non-negative notes the rule is the pitch-class rule and repeats every octave; negative notes are never black, as JavaScript's remainder is then negative |
| AudioVisualization.BlackNotesAreIsolated | apps/frontend/src/components/AudioVisualization.tsx:59-62 | two neighbouring notes are never both black, and every C is white |
| AudioVisualization.WindowBounds | apps/frontend/src/components/AudioVisualization.tsx:64-73 | the window starts at the row under the top edge, never ends before it starts and covers the client height; a 400-pixel view at the top is the initial window 0..20 |
| AudioVisualization.OverlappingRowsAreInWindow | apps/frontend/src/components/AudioVisualization.tsx:64-73 | every row whose box overlaps the viewport lies inside the window |
| AudioVisualization.VisibleNotesAreTheWindow | apps/frontend/src/components/AudioVisualization.tsx:114-119 | the visible notes are the existing samples start..end, in order, each paired with its own index |
| AudioVisualization.BoxesPlaceTheNotes | apps/frontend/src/components/AudioVisualization.tsx:150-164 | one box per visible non-zero note, at (note − 60)·48 from the left and index·20 from the top, and no other box |
| AudioVisualization.ScheduleIsOnePerPositiveSample | apps/frontend/src/components/AudioVisualization.tsx:89-102 | one trigger per positive sample i at now + i·0.1, in increasing time, all before the stop timer fires |
| AudioVisualization.ScheduleSound | apps/frontend/src/components/AudioVisualization.tsx:92-97 | every scheduled trigger belongs to a positive sample |
| AudioVisualization.ScheduleComplete | apps/frontend/src/components/AudioVisualization.tsx:92-97 | every positive sample gets its trigger |
| AudioVisualization.ScheduleOrdered | apps/frontend/src/components/AudioVisualization.tsx:92-97 | the triggers are scheduled in increasing time |
| AudioVisualization.Visualization.constructor | apps/frontend/src/components/AudioVisualization.tsx:45-49 | the component starts not playing, at scroll 0, with the window 0..20 and no synthesizer |
| AudioVisualization.Visualization.HandleScroll | apps/frontend/src/components/AudioVisualization.tsx:64-73 | the scroll position is stored and the window is the scroll window of the container |
| AudioVisualization.Visualization.PlayMelody | apps/frontend/src/components/AudioVisualization.tsx:83-104 | while playing nothing changes; otherwise a new synthesizer carries the melody's schedule and one stop timer of length·100 ms is set |
| AudioVisualization.Visualization.StopMelody | apps/frontend/src/components/AudioVisualization.tsx:106-112 | playback is off and the synthesizer is disposed |
| AudioVisualization.Visualization.Click | apps/frontend/src/components/AudioVisualization.tsx:124 | the button stops a playing melody and plays a stopped one |
| AudioVisualization.Visualization.TimerFires | apps/frontend/src/components/AudioVisualization.tsx:100-102 | a pending timer fires once and stops whatever is playing, even a later playback |
| MidiExtractor.ExtractorRange | apps/backend/midi_extractor.py:13-37 | the note map's keys run from 36 to 84 in order, so 49 notes; midiMin and midiMax are its first and last keys; an integer is a key exactly when it lies in 36..84 |
| MidiExtractor.RangeConversionMapsEnds | apps/backend/midi_extractor.py:40-43 | the range conversion sends the old range's low and high ends to the new range's ends, and a value inside the old range to a value inside the new one |
| MidiExtractor.SeqMin | apps/backend/midi_extractor.py:206 | `min` of a non-empty track is one of its values and no value is below it |
| MidiExtractor.SeqMax | apps/backend/midi_extractor.py:207 | `max` of a non-empty track is one of its values and no value is above it |
| MidiExtractor.VelocityInRange | apps/backend/midi_extractor.py:241 | the velocity of a note whose mean RMS level lies between the track's minimum and maximum exists exactly when those two differ, and is then a MIDI velocity in 0..127 |
| MidiExtractor.RowStochastic | apps/backend/midi_extractor.py:45-69 | every row of the (2n+1)×(2n+1) transition matrix sums to 1: silence to itself or any onset, onset to its sustain, sustain to itself, silence or any onset |
| MidiExtractor.SilenceRowPrefix | apps/backend/midi_extractor.py:54-56 | the first k entries of the silence row sum to pStaySilence plus one share pL per onset column among them |
| MidiExtractor.OnsetRowPrefix | apps/backend/midi_extractor.py:59-60 | an onset row's whole weight 1 sits in the column of its own sustain |
| MidiExtractor.SustainRowPrefix | apps/backend/midi_extractor.py:63-67 | the first k entries of a sustain row sum to pLL for silence, pStayNote for itself, and one pLL per onset column among them |
| MidiExtractor.TransitionMatrix | apps/backend/midi_extractor.py:45-69 | the matrix written into a fresh zero array is 99×99 and holds at every (r, c) the transition entry of the three state kinds |
| MidiExtractor.SustainRow | apps/backend/midi_extractor.py:63-67 | writing one sustain row fills that row with its transition entries and leaves every other row as it was |
| MidiExtractor.PriorsAreProbabilities | apps/backend/midi_extractor.py:165-184 | with accuracies and spread in [0, 1] every prior is in [0, 1], and all onset rows of a frame carry the same prior |
| MidiExtractor.TrackedPitchIsFavoured | apps/backend/midi_extractor.py:179-184 | in a frame whose rounded pitch is in range, that note's sustain row has a strictly larger prior than any other note's sustain row, when the pitch accuracy is above one half and the spread below 1 |
| MidiExtractor.PriorProbabilities | apps/backend/midi_extractor.py:162-186 | the table starts from ones; after the fill it has 99 rows and one column per frame, each entry the prior of its state in that frame, with the voicing test as written |
| MidiExtractor.PriorColumn | apps/backend/midi_extractor.py:166-184 | one frame of the fill sets that column's silence, onset and sustain priors and leaves every other column unchanged |
| MidiExtractor.Rows | apps/backend/midi_extractor.py:239-243 | one piano-roll row per note, in order, with onset and offset frames turned into seconds at hopTime per frame |
| MidiExtractor.FailureStays | apps/backend/midi_extractor.py:212-267 | once a frame raises, later frames cannot change the result |
| MidiExtractor.StatesToPianoroll | apps/backend/midi_extractor.py:188-271 | the frame loop returns exactly the frame-by-frame decoder's result: a ValueError for an empty RMS track, the first IndexError or ValueError raised, or the rows and the melody wave |
| MidiExtractor.StepKeepsTimeline | apps/backend/midi_extractor.py:212-267 | one frame keeps the timeline: each note was opened by an odd state and has that state's pitch, lasts at least two frames, notes do not overlap, and an open note started after the last closed one |
| MidiExtractor.RunKeepsTimeline | apps/backend/midi_extractor.py:212-267 | every successful run of frames ends with that timeline intact |
| MidiExtractor.StepKeepsLevels | apps/backend/midi_extractor.py:223-265 | one frame keeps every closed velocity in 0..127 and an open note's RMS sum between count·min and count·max |
| MidiExtractor.RunKeepsLevels | apps/backend/midi_extractor.py:206-265 | when the levels lie between min and max, every closed note of a successful run has a velocity in 0..127 |
| MidiExtractor.StepWaveLength | apps/backend/midi_extractor.py:221-267 | each frame appends exactly one melody-wave sample, except an odd state during an onset, and never changes earlier samples |
| MidiExtractor.RunWave | apps/backend/midi_extractor.py:221-269 | the melody wave has at most one sample per frame, and each sample is 0 or the frequency of a note-map key |
| MidiExtractor.DecodedRows | apps/backend/midi_extractor.py:188-271 | a successful decode gives rows in time order without overlap, each at least two hops long, starting at a frame with an odd state and carrying the note that state opens, with velocity in 0..127; the wave has at most one sample per frame of states plus the appended 0 |
| MidiExtractor.TimelineInSeconds | apps/backend/midi_extractor.py:216-256 | the frame timeline carries over to seconds: at least two hops per row, no overlap, each row opened at an odd state's frame |
| MidiExtractor.NotesOpenedAt | apps/backend/midi_extractor.py:215-217 | each row's onset is the time of a frame of the given states (never the appended 0) whose state is odd and gives the row's pitch |
| MidiExtractor.LastFrameFlush | apps/backend/midi_extractor.py:254-265 | the appended 0 closes a note still sustained at the end, with offset at the last frame; a note still in its onset is never emitted |
| MidiExtractor.BeatsScaleByTempo | apps/backend/midi_extractor.py:274-288 | one MIDI note per row, in order, with the row's pitch and velocity, starting at onset·bpm/60 beats and lasting (offset − onset)·bpm/60 beats |
| MidiExtractor.PianorollToMidi | apps/backend/midi_extractor.py:273-290 | a zero tempo raises ZeroDivisionError; otherwise the file has that tempo and the beat notes of the rows |
| MidiExtractor.WaveToMidi | apps/backend/midi_extractor.py:292-351 | a zero sample rate raises ZeroDivisionError; otherwise the states are decoded at hopLength/Fs seconds per frame, any decoder error is passed on, and the rows are converted at the given tempo |
| MusicServices.Lower | apps/backend/music_services.py:92 | `str.lower()` keeps the length of the text |
| MusicServices.LowerAt | apps/backend/music_services.py:92 | lower-casing works character by character |
| MusicServices.TrimStart | apps/backend/music_services.py:80 | the leading strip removes exactly the whitespace before the first other character, and keeps the rest |
| MusicServices.TrimEnd | apps/backend/music_services.py:80 | the trailing strip removes exactly the whitespace after the last other character, and keeps a prefix |
| MusicServices.WordPrefix | apps/backend/music_services.py:97 | the first word is a prefix of the text without whitespace that ends at whitespace or at the end |
| MusicServices.Split | apps/backend/music_services.py:97 | every word `str.split()` returns is non-empty and free of whitespace |
| MusicServices.Capitalize | apps/backend/music_services.py:97 | `str.capitalize()` keeps the length of the word |
| MusicServices.CapitalizeAll | apps/backend/music_services.py:97 | one capitalized word per word, in order |
| MusicServices.CleanInputCases | apps/backend/music_services.py:77-97 | cleaning ignores surrounding whitespace; a text whose stripped lower-case form is a key of the corrections table becomes that key's value, whatever its case; any other text becomes its own words, capitalized |
| MusicServices.CleanInputIsWellSpaced | apps/backend/music_services.py:77-97 | whatever the input, the cleaned text has no leading, trailing or doubled spaces and no whitespace but single spaces |
| MusicServices.StripIsIdempotent | apps/backend/music_services.py:80 | stripping a stripped text changes nothing |
| MusicServices.SplitIgnoresStrip | apps/backend/music_services.py:80-97 | the words of a text are the words of its stripped form |
| MusicServices.SplitSkipsSpaces | apps/backend/music_services.py:97 | leading whitespace makes no word |
| MusicServices.SplitDropsTrailing | apps/backend/music_services.py:97 | trailing whitespace makes no word |
| MusicServices.AllSpaceSplitsToNothing | apps/backend/music_services.py:97 | a text of whitespace only has no words |
| MusicServices.CapitalizedWords | apps/backend/music_services.py:97 | capitalizing keeps each word non-empty and free of whitespace |
| MusicServices.JoinIsWellSpaced | apps/backend/music_services.py:97 | joining words with single spaces gives well-spaced text that starts with the first word's first character |
| MusicServices.SplitJoin | apps/backend/music_services.py:97 | splitting a single-spaced join of words gives the same words back |
| MusicServices.JoinSplit | apps/backend/music_services.py:97 | a well-spaced text is the single-spaced join of its own words |
| MusicServices.WellSpacedIsStripped | apps/backend/music_services.py:80 | a well-spaced text has nothing to strip |
| MusicServices.LowerJoinOfCapitalized | apps/backend/music_services.py:92-97 | lower-casing the capitalized, joined words gives the lower-cased join of the original words |
| MusicServices.LowerConcat | apps/backend/music_services.py:92 | lower-casing distributes over concatenation |
| MusicServices.LowerCapitalize | apps/backend/music_services.py:92-97 | a capitalized word has the same lower-case form as the word |
| MusicServices.CapitalizeTwice | apps/backend/music_services.py:97 | capitalizing capitalized words changes nothing |
| MusicServices.SpacedVariantMissesCorrection | apps/backend/music_services.py:80-97 | as written, "lana  del ray" (two spaces) is no key of the table, so it is cleaned to "Lana Del Ray"; cleaning that again gives "Lana Del Rey", so cleaning is not idempotent |
| MusicServices.CorrectedJoin | apps/backend/music_services.py:92-94 | single-spaced words whose lower-case join is a key are cleaned to that key's correction |
| MusicServices.CorrectionsAreSelfCorrecting | apps/backend/music_services.py:83-89 | each value of the corrections table is single-spaced words, and the table maps its lower-case form back to it |
| MusicServices.TheBeatlesEntry | apps/backend/music_services.py:86 | "The Beatles" is corrected to itself |
| MusicServices.PinkFloydEntry | apps/backend/music_services.py:87 | "Pink Floyd" is corrected to itself |
| MusicServices.LanaDelReyEntry | apps/backend/music_services.py:84-85 | "Lana Del Rey" is corrected to itself |
| MusicServices.EntryIsFixedPoint | apps/backend/music_services.py:83-97 | a self-correcting table entry is well spaced and cleans to itself |
| MusicServices.NormalisedAgreesOnWellSpaced | apps/backend/music_services.py:77-97 | the clean-up that collapses whitespace before the lookup gives the same result as the original on every text whose stripped form is well spaced |
| MusicServices.NormalisedIsIdempotent | apps/backend/music_services.py:77-97 | with the whitespace collapsed before the lookup, cleaning twice is the same as cleaning once |
| MusicServices.NormalisedWithIsIdempotent | apps/backend/music_services.py:77-97 | for any table whose values correct to themselves, the normalised clean-up is idempotent |
| MusicServices.Get | apps/backend/music_services.py:126-141 | `dict.get` on a decoded object finds the last member with that key, as `json.loads` keeps the last of repeated keys, or reports that no member has it |
| MusicServices.GetFindsLast | apps/backend/music_services.py:126-141 | the member `dict.get` finds is the last one with that key: no later member repeats it |
| MusicServices.GetRecommendations | apps/backend/music_services.py:99-168 | the method returns exactly the recommendations of the specification: clean both inputs, ask for similar tracks, fall back once to the stripped inputs on an error, give [] on a second error |
| MusicServices.TrackRecommendations | apps/backend/music_services.py:125-163 | the tracks of the response become recommendations; a track list that cannot be iterated, or an exception in the loop, gives []; the genre filter changes nothing; the result is cut to `limit` |
| MusicServices.CollectRecords | apps/backend/music_services.py:135-153 | the loop builds one record per track object, in order, and stops at the first exception |
| MusicServices.RecordsFailureStays | apps/backend/music_services.py:135-168 | once a track raises, later tracks cannot change the outcome |
| MusicServices.RecordsAreOnePerObject | apps/backend/music_services.py:136-153 | without an exception, each track object yields exactly one recommendation, in order, whose sources start with LastFM and include MusicBrainz exactly when MusicBrainz knows the recording; other tracks are skipped |
| MusicServices.ResultIsTruncated | apps/backend/music_services.py:110-163 | a first response without error is used; an error brings in the call with stripped inputs, and a second error gives no recommendations; the result is an initial part of the track recommendations with at most `limit` entries, and a 'similartracks' that is not an object gives no tracks |

## Left out

- Tone.js internals are not modelled: players, samplers, `Tone.start`, `Tone.now`, `Tone.Frequency` and the transport clock. The transport is an abstract record with a run state, a position, an optional duration and a bag of scheduled events. A rejected `Tone.start()` is a parameter of `play`.
- `AudioVisualization.Visualization.PlayMelody`: models `playMelody` once `Tone.start()` has resolved. The source creates the synthesizer before awaiting `Tone.start()` (AudioVisualization.tsx:85-86), so a rejection would leave a synthesizer in `synthRef` with `isPlaying` false; that path is not modelled.
- `LegacyAudioPlayback.AudioPlayer.LoadAudioFileFromURL`: every `await player.load(url)` is taken to resolve. A rejected load ends the loop early with only the earlier keys registered, and that path is not modelled.
- Canvas and DOM drawing are not modelled: gradients, round rectangles, shadows, text, styles and `resize` side effects. Drawing is recorded as a list of shape records with their geometry.
- Event-loop timing is not modelled. `requestAnimationFrame`, `setInterval` and `setTimeout` ticks and un-awaited promises each run to completion at the point where the model takes them. Two cases:
  - the inner `play()` of `seek` completes before `seek` returns;
  - a stale `isPlaying` closure in `playMelody` is not represented.
- `VisualizerWrapper.Wrapper.ValidateResources` checks the URLs one after another in list order, and reports the first failing URL in that order. The `Promise.all` in the source settles them concurrently and rejects with whichever request fails first in time, so when several resources fail the error shown can name a different URL. Whether validation passes is the same.
- The y coordinates of the melody contour are not modelled. They depend on an exponential MIDI-to-Hz conversion, and the source reads an undefined `this.height`. Only the x-stepping and the vertex count are modelled.
- `Math.random` is a parameter. The particle colours and velocities are taken from a stream of draws given to the model.
- `Pianoroll.LenSeconds`: when the contour json is empty, the source's `duration / json.length` is Infinity or NaN, and the contour step and stroke end become non-finite. `LaysOut` requires a non-empty json, so the layout of a track (`Roll.ContourLoaded`, `Roll.LayoutTracks`, `Roll.LayoutTrack`) is not modelled for an empty contour. A zero track duration is modelled.
- The `parseInt` of the container's `maxWidth` style is an integer parameter.
- The browser does not clamp `scrollLeft` in the model.
- `apps/frontend/src/audiomidiplayer/src/Pianoroll.js` is not part of this model. The earlier viewer records what it hands to its piano roll, and takes scroll reports as inputs.
- In the earlier viewer, the raw `el.value` string reaches `changeVolume`. Its numeric coercion is a parameter, and so is `parseFloat` in the newer viewer.
- `AudioVisualization`: `melodyData` holds integer MIDI numbers. The conversion of frequencies is left to Tone, and the CSS layout of the keyboard is not modelled.
- Floating point is modelled as exact reals throughout. NaN and Infinity appear only where the source produces them: the -Infinity dB of a muted volume, the NaN level of a negative volume value (`Tone.GainOf`, used by `AudioPlayback.LinearToDb` and the legacy `ChangeVolume`), `int()` of NaN for a flat signal, and the non-finite contour-window bounds of a zero-duration track.
- `MidiExtractor`: the signal processing is not modelled, because it is numerics inside foreign libraries. This covers:
  - librosa `pyin`, `pitch_tuning`, `hz_to_midi`, `rms`, `note_to_hz` and the Viterbi decoder;
  - torchcrepe;
  - midiutil's file writing;
  - `audio` loading.
  The model takes the rounded pitch track, the voicing flags, the onset frames, the RMS track and the state sequence as inputs.
- `__detectVocalOnsets` is not modelled. It is floating-point statistics with `sqrt`, and its onset frames are an input of the prior table.
- `MidiExtractor.Rows`: a row does not carry the note-name column (`librosa.midi_to_note`). No later step reads it except to store it.
- The voicing test `nFrame > len(voiced)` of the prior fill is modelled as written, including its off-by-one in the frame count. It cannot fire when `voiced` is as long as the pitch track.
- `download_youtube_audio` is not modelled. It needs the network, and `yt_dlp` is never imported.
- `MusicServices`: `lower`, `capitalize`, `strip` and `split` are modelled for ASCII letters and the ASCII whitespace Python recognises. Unicode case mapping and Unicode whitespace are not modelled.
- `MusicServices`: HTTP, logging and `lru_cache` are not modelled. The services are parameters: LastFM's similar tracks as a function, MusicBrainz as "a recording is found", and Python's `float` on strings. The one effect of the cache that is kept is the `TypeError` an unhashable title or artist raises.
- `MusicServices`: a response body that does not decode to a JSON object is not modelled. `get_similar_tracks` returns whatever `response.json()` decoded, and the model takes it to be an object.
- `MusicServices.GetRecommendations`: the genre filter is a no-op, as in the source.
- The clean-up is also written over a table parameter (`CleanWith`, `NormalisedWith`), so that the idempotence law can be proved for any self-correcting table.
- The Flask endpoints, stem separation, feature retrieval and the remaining UI components are not modelled. They are web plumbing, drive ML models, or render UI with trivial logic.

## Findings

| source | as written | input that shows it | evidently intended | confidence | as-written member | corrected member |
|---|---|---|---|---|---|---|
| apps/frontend/src/components/AudioMidiViewer/Pianoroll.js:369 | a note's top is `canvasHeight − indexOf(pitch)·noteHeight`, one row below its key | pitch 36 gets top = canvasHeight, below the canvas; pitch 37 sits one row below its black key | top = canvasHeight − (indexOf(pitch)+1)·noteHeight, the row of the key | not executed | Pianoroll.NoteTopAsWrittenIsOneRowLow, Pianoroll.AsWrittenMissesBlackKey, Pianoroll.LayoutNoteBox | Pianoroll.NoteTopWithinCanvas, Pianoroll.NoteTopOnBlackKey |
| apps/frontend/src/components/AudioMidiViewer/AudioMidiViewer.jsx:63-125 | all three buttons have class "play", so `querySelector(".pause")` is null and the setup throws after wiring Play | any mount: only Play gets a listener; Pause, Stop, the checkboxes and the sliders do nothing | classes "play", "pause" and "stop", one listener per control | not executed | MidiViewer.OnlyPlayIsWired | MidiViewer.IntendedWiring, MidiViewer.IntendedButtonsDispatch, MidiViewer.IntendedControlsDispatch |
| apps/backend/music_services.py:80-97 | the corrections table is looked up before whitespace inside the text is collapsed | "lana  del ray" (two spaces) is cleaned to "Lana Del Ray", which cleans again to "Lana Del Rey" | collapse the whitespace before the lookup, so cleaning is idempotent | not executed | MusicServices.SpacedVariantMissesCorrection | MusicServices.NormalisedIsIdempotent, MusicServices.NormalisedAgreesOnWellSpaced |

The piano roll's `Roll.LayoutNote` places notes with the top as written (`NoteTopAsWritten`), and `LayoutNoteBox` states that the box lands one row low; `NoteTop` is the corrected top, and its lemmas state what the fixed line would give. The viewer is modelled over its list of buttons, so the rendered buttons and the intended ones are both instances of the same `Viewer`. `get_recommendations` keeps the clean-up as written (`CleanInput`), because the cleaned text is what the services are queried with.
