/**
 * The foreign Tone.js objects the players drive, reduced to what the core
 * observes of them: a transport with a position, a run state and a bag of
 * scheduled events; per-track players and volume nodes; and the note
 * records of a parsed MIDI file (@tonejs/midi).
 */
module Tone {
  import opened Wrappers

  /** One note of a parsed MIDI track, times in seconds. */
  datatype MidiNote = MidiNote(midi: int, name: string, time: real, duration: real, velocity: real)

  datatype MidiTrack = MidiTrack(duration: real, notes: seq<MidiNote>)

  datatype Midi = Midi(tracks: seq<MidiTrack>)

  /**
   * A gain level in decibels. `TwentyLog10(v)`, for a positive v, stands for
   * exactly 20 * log10(v) dB, so `TwentyLog10(1.0)` is 0 dB; no logarithm is
   * computed. `NotANumber` is the NaN a negative argument gives.
   */
  datatype Decibels = MinusInfinity | TwentyLog10(linear: real) | NotANumber

  /** `20 * Math.log10(v)`: log10(0) is -Infinity and a negative argument gives NaN. */
  function GainOf(v: real): (r: Decibels)
    ensures r.TwentyLog10? <==> v > 0.0
    ensures r.TwentyLog10? ==> r.linear == v
  {
    if v == 0.0 then MinusInfinity else if v < 0.0 then NotANumber else TwentyLog10(v)
  }

  /** The level of a fresh `Tone.Volume()`: 0 dB. */
  const UnityGain: Decibels := TwentyLog10(1.0)

  /** A `Tone.Player` as the core sees it. */
  datatype TrackPlayer = TrackPlayer(url: string, mute: bool, synced: bool)

  /** A `Tone.Volume` node. */
  datatype Volume = Volume(level: Decibels)

  /** What a scheduled transport callback does when it fires. */
  datatype Event =
    | StartPlayer(player: string, at: real)
    | TriggerNote(track: nat, note: string, duration: real, at: real)

  datatype RunState = Started | Paused | Stopped

  /**
   * The shared transport. `duration` is the transport's `duration` property;
   * Tone's Transport does not define one, which is `None` (undefined).
   */
  datatype Transport = Transport(state: RunState, position: real, duration: Option<real>, events: multiset<Event>)

  const InitialTransport: Transport := Transport(Stopped, 0.0, None, multiset{})

  function Start(t: Transport): Transport { t.(state := Started) }

  function Pause(t: Transport): Transport { t.(state := if t.state == Started then Paused else t.state) }

  /** Stopping the transport returns it to the beginning. */
  function Stop(t: Transport): Transport { t.(state := Stopped, position := 0.0) }

  function SetSeconds(t: Transport, seconds: real): Transport { t.(position := seconds) }

  function Schedule(t: Transport, e: Event): Transport { t.(events := t.events + multiset{e}) }

  /** `cancel()`: every scheduled event is dropped. */
  function Cancel(t: Transport): Transport { t.(events := multiset{}) }

  /** `seconds >= duration`, where a comparison with undefined is false. */
  predicate AtOrPastEnd(t: Transport) {
    t.duration.Some? && t.position >= t.duration.value
  }

  function NoteCount(tracks: seq<MidiTrack>): nat {
    if tracks == [] then 0 else NoteCount(tracks[..|tracks| - 1]) + |tracks[|tracks| - 1].notes|
  }
}
